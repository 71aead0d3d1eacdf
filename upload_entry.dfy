/** The two ways the shell hands a file to `handleUpload`: the upload screen
    of src/views/UploadView.tsx (drop and file input, lines 29-45) and the
    header button of src/layouts/AppLayout.tsx (lines 33-38). Both forward the
    first file as it is. Neither checks its type or size: the allow-list and
    10 MiB limit of `FileUpload` belong to a panel the shell does not mount. */
module UploadEntry {
  import opened Wrappers
  import opened Types
  import FileUpload

  /** What either entry point passes to `onUpload`: the first file alone,
      wrapped once, whenever a file was chosen or dropped. */
  function Forward(files: seq<File>): (upload: Option<seq<DocumentFile>>)
    ensures upload.Some? <==> files != []
    ensures upload.Some? ==> upload.value == [DocumentFile(files[0], None)]
  {
    if files == [] then None else Some([DocumentFile(files[0], None)])
  }

  /** Every file the upload panel would refuse, for its type or its size, is
      still forwarded by the shell's entry points. */
  lemma RefusedFilesForwarded(file: File)
    requires FileUpload.ValidationError(file).Some?
    ensures Forward([file]) == Some([DocumentFile(file, None)])
    ensures file.mediaType !in FileUpload.ValidTypes || file.size > FileUpload.MaxFileSize
  {
  }

  /** A 20 MiB plain-text file: the panel refuses it with the type message, and
      the shell forwards it. */
  lemma OversizedTextFileForwarded()
    ensures var f := File("notes.txt", "text/plain", 20 * 1024 * 1024);
      && FileUpload.ValidationError(f) == Some(FileUpload.UnsupportedTypeMessage)
      && Forward([f]) == Some([DocumentFile(f, None)])
  {
  }
}
