/** The upload panel of src/components/FileUpload.tsx: a media-type allow-list
    and a 10 MiB limit, a "selected file" slot, and the error line under the
    drop zone. The drag-hover flag is presentation only and is not modelled. */
module FileUpload {
  import opened Wrappers
  import opened Types

  /** The accepted media types (line 28). */
  const ValidTypes: seq<string> := ["application/pdf", "image/jpeg", "image/png", "image/webp"]

  /** 10 * 1024 * 1024 bytes (line 33). */
  const MaxFileSize: nat := 10 * 1024 * 1024

  const UnsupportedTypeMessage: string := "Unsupported file type. Please upload PDF, JPG, or PNG."
  const TooLargeMessage: string := "File is too large. Max 10MB."

  /** What `validateFile` leaves in the error slot: None for an accepted file,
      otherwise the message of the first check that failed (type, then size). */
  function ValidationError(file: File): (err: Option<string>)
    ensures err == None <==> file.mediaType in ValidTypes && file.size <= MaxFileSize
    ensures file.mediaType !in ValidTypes ==> err == Some(UnsupportedTypeMessage)
    ensures file.mediaType in ValidTypes && file.size > MaxFileSize ==> err == Some(TooLargeMessage)
  {
    if file.mediaType !in ValidTypes then Some(UnsupportedTypeMessage)
    else if file.size > MaxFileSize then Some(TooLargeMessage)
    else None
  }

  /** Exactly 10 MiB is accepted and one byte more is refused, for every accepted type. */
  lemma SizeLimitBoundary(name: string, mediaType: string)
    requires mediaType in ValidTypes
    ensures ValidationError(File(name, mediaType, 10485760)) == None
    ensures ValidationError(File(name, mediaType, 10485761)) == Some(TooLargeMessage)
  {
  }

  /** The type is checked first: an oversized file of a bad type gets the type message. */
  lemma TypeCheckedBeforeSize(file: File)
    requires file.mediaType !in ValidTypes && file.size > MaxFileSize
    ensures ValidationError(file) == Some(UnsupportedTypeMessage)
  {
  }

  /** The panel's state (lines 14-15). */
  class UploadPanel {
    var selectedFile: Option<File>
    var error: Option<string>

    constructor ()
      ensures selectedFile == None && error == None
    {
      selectedFile := None;
      error := None;
    }

    /** `validateFile`: a predicate that also writes the error slot. */
    method ValidateFile(file: File) returns (ok: bool)
      modifies this`error
      ensures ok <==> file.mediaType in ValidTypes && file.size <= MaxFileSize
      ensures error == ValidationError(file)
    {
      if file.mediaType !in ValidTypes {
        error := Some(UnsupportedTypeMessage);
        return false;
      }
      if file.size > MaxFileSize {
        error := Some(TooLargeMessage);
        return false;
      }
      error := None;
      return true;
    }

    /** `handleDrop` and `handleChange`: only the first file of the list is
        considered; a valid one replaces the selection, an invalid one leaves it
        and sets the error; an empty list changes nothing. */
    method HandleSelection(files: seq<File>)
      modifies this
      ensures files == [] ==> selectedFile == old(selectedFile) && error == old(error)
      ensures files != [] ==> error == ValidationError(files[0])
      ensures files != [] ==>
        selectedFile == (if ValidationError(files[0]) == None then Some(files[0]) else old(selectedFile))
    {
      if |files| > 0 {
        var file := files[0];
        var ok := ValidateFile(file);
        if ok {
          selectedFile := Some(file);
        }
      }
    }

    /** `handleProcess`: the list passed to `onUpload`, which is exactly the selected
        file wrapped once, or None when nothing is selected (no call is made). */
    method HandleProcess() returns (upload: Option<seq<DocumentFile>>)
      ensures selectedFile == None <==> upload == None
      ensures upload.Some? ==> |upload.value| == 1 && upload.value[0].file == selectedFile.value
                               && upload.value[0].preview == None
    {
      if selectedFile.Some? {
        upload := Some([DocumentFile(selectedFile.value, None)]);
      } else {
        upload := None;
      }
    }

    /** The clear button: drops the selection and leaves the error slot alone. */
    method ClearSelection()
      modifies this`selectedFile
      ensures selectedFile == None
    {
      selectedFile := None;
    }
  }
}
