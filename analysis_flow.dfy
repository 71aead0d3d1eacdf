/** The document-analysis flow of src/lib/useAnalysisFlow.ts.

    The hook's four pieces of React state (`analyzing`, `uploadProgress`,
    `analysisResult`, `error`) become the fields of `Controller`, and every
    `onStatusChange` notification is appended to `statuses`. `handleUpload`
    runs as three synchronous blocks separated by its awaits, and each block is
    one step the environment may interleave with interval ticks, `Reset` and
    other uploads:

      BeginUpload     lines 89-93 and 35, up to `await delay(3000)` (plus the
                      progress effect of lines 23-29)
      StoreResult     lines 74-83, after the 3000 ms delay, up to `await delay(500)`
      ReportComplete  line 97 and the `finally` of line 107, after the 500 ms delay
      Fail            lines 99-107: the catch block and the `finally`, in one block
      Tick            the interval body of line 28
      Reset           lines 111-117

    The model follows the code as written: there is no in-flight guard, no
    stale-call token, the previous result survives a new upload, and a tick
    during the 500 ms delay pulls progress from 100 back to 98. Each step is
    specified by a pure member function of `Session`, and the properties of
    the flow are lemmas about those functions. */
module AnalysisFlow {
  import opened Wrappers
  import opened Types

  /** AnalysisStatus, the values passed to onStatusChange. */
  datatype Status = Idle | Analyzing | Complete | Error

  /** The value at which the simulated progress stops advancing. */
  const ProgressCap: int := 98

  const DefaultErrorMessage: string := "An unexpected error occurred during analysis."

  /** Progress values the flow can ever hold: an even value up to the cap, or 100. */
  predicate ProgressOk(p: int) {
    (0 <= p <= ProgressCap && p % 2 == 0) || p == 100
  }

  /** One tick of the simulated progress bar (lines 10-13): below the cap it
      advances by 2; from any reachable value it lands on a reachable value no
      higher than the cap, so 100 is pulled back to 98. */
  function IncrementProgress(prev: int): (next: int)
    ensures prev < ProgressCap ==> next == prev + 2
    ensures prev >= ProgressCap ==> next == ProgressCap
    ensures ProgressOk(prev) ==> ProgressOk(next) && next <= ProgressCap
  {
    if prev >= ProgressCap then ProgressCap else prev + 2
  }

  /** Progress after `n` ticks of an interval started at 0. */
  function ProgressAfterTicks(n: nat): int {
    if n == 0 then 0 else IncrementProgress(ProgressAfterTicks(n - 1))
  }

  /** From 0, progress climbs by 2 per tick and then stays at the cap: every
      value is even, never above 98, and 98 is reached after 49 ticks. */
  lemma {:induction false} TicksFromZero(n: nat)
    ensures ProgressAfterTicks(n) == if 2 * n <= ProgressCap then 2 * n else ProgressCap
    ensures ProgressAfterTicks(n) % 2 == 0 && 0 <= ProgressAfterTicks(n) <= ProgressCap
  {
    if n > 0 {
      TicksFromZero(n - 1);
    }
  }

  /** 98 is a fixed point of a tick, below the cap a tick adds exactly 2, and a
      tick at 100 (the value stored on success) pulls progress back to 98. */
  lemma IncrementProgressShape(p: int)
    ensures IncrementProgress(ProgressCap) == ProgressCap
    ensures p < ProgressCap ==> IncrementProgress(p) == p + 2
    ensures IncrementProgress(100) == 98 < 100
    ensures ProgressOk(p) ==> ProgressOk(IncrementProgress(p))
  {
  }

  /** The `err?.message || default` of line 101: never empty. */
  function ErrorMessage(e: Exception): (m: string)
    ensures m != ""
    ensures e.message != "" ==> m == e.message
    ensures e.message == "" ==> m == DefaultErrorMessage
  {
    if e.message != "" then e.message else DefaultErrorMessage
  }

  /** The mock extraction of lines 40-72: a constant record here. */
  function MockData(): AnalysisData {
    AnalysisData(
      120000.0, 85000.0, 1250.0, 800.0, false, false,
      ["Child support aligns with Federal " + "Guidelines.",
       "Spousal support duration is within " + "advisory range."],
      CaseInfo("Smith vs. Smith", "Superior Court of California, " + "County of Orange", "19D004821", "Oct 12, 2024"),
      [CustodySchedule(1, "Regular Schedule", "2-2-5-5 Rotation", "Mother: Mon/Tue, Father: Wed/Thu, " + "Alternate Weekends.", None),
       CustodySchedule(2, "Summer Break", "Week On / Week Off", "Exchanges occur Fridays at 6:00 PM.", None),
       CustodySchedule(3, "Thanksgiving", "Alternating Years", "Father in even years, Mother in odd " + "years.", None)],
      [FinancialItem(1, "support", "Child Support", "$1,250/mo", "1st of month"),
       FinancialItem(2, "support", "Spousal Support", "$800/mo", "Until Dec 2028"),
       FinancialItem(3, "asset", "Marital Home Refinance", "Deadline", "Must complete by June 1, 2026")],
      [RiskItem(1, "high", "Missing Tax Exemption", "The decree does not specify who " + "claims the children as dependents " + "for IRS/CRA purposes in alternating " + "years."),
       RiskItem(2, "medium", "Vague Exchange Location", "Paragraph 4.2 states 'mutually " + "agreed public place'. This often " + "leads to conflict. Recommendation: " + "Specify a police station or school."),
       RiskItem(3, "low", "Passport Provisions", "No clause regarding possession of " + "children's passports or travel " + "notification requirements.")])
  }

  /** The result of lines 74-80. The random id and the locale timestamp are
      supplied by the caller. The record is named after the uploaded file and
      never raises the benefit alert. */
  function MockResult(file: File, id: string, timestamp: string): (r: AnalysisResult)
    ensures r.fileName == file.name && r.id == id && r.timestamp == timestamp
    ensures r.data == MockData() && !r.data.hasODSP && !r.data.hasCPP
    ensures |r.data.complianceNotes| == 2 && |r.data.risks| == 3
  {
    AnalysisResult(id, file.name, timestamp, MockData(), "Processing complete...")
  }

  /** The hook's state as a value, with the log of emitted statuses. */
  datatype Session = Session(
    analyzing: bool,
    uploadProgress: int,
    analysisResult: Option<AnalysisResult>,
    error: Option<string>,
    statuses: seq<Status>)
  {
    predicate Valid() {
      ProgressOk(uploadProgress)
    }

    /** `handleUpload` up to its first await: nothing happens for an empty list;
        otherwise analyzing is set, the error cleared, 'analyzing' emitted, and the
        progress effect (which only reruns when `analyzing` changes) resets progress
        to 0. The previous result is left in place. */
    function BeginUpload(files: seq<DocumentFile>): (t: Session)
      ensures files == [] ==> t == this
      ensures files != [] ==> t.analyzing && t.error == None && t.analysisResult == analysisResult
      ensures files != [] ==> t.statuses == statuses + [Analyzing]
      ensures files != [] ==> t.uploadProgress == if analyzing then uploadProgress else 0
      ensures Valid() ==> t.Valid()
    {
      if files == [] then this
      else this.(
        analyzing := true,
        error := None,
        uploadProgress := if analyzing then uploadProgress else 0,
        statuses := statuses + [Analyzing])
    }

    /** The interval callback; the interval exists exactly while `analyzing` holds.
        It changes progress alone, and keeps it reachable. */
    function Tick(): (t: Session)
      requires analyzing
      ensures t == this.(uploadProgress := t.uploadProgress)
      ensures uploadProgress < ProgressCap ==> t.uploadProgress == uploadProgress + 2
      ensures Valid() ==> t.Valid() && t.uploadProgress <= ProgressCap
    {
      this.(uploadProgress := IncrementProgress(uploadProgress))
    }

    /** `n` interval callbacks in a row: the interval stays registered and
        progress stays reachable. */
    function Ticks(n: nat): (t: Session)
      requires analyzing
      ensures t.analyzing
      ensures Valid() ==> t.Valid()
      decreases n
    {
      if n == 0 then this else Tick().Ticks(n - 1)
    }

    /** Lines 82-83, once the 3000 ms delay is over: progress to 100 and the result
        stored. Nothing is emitted yet, and analyzing stays on through the 500 ms
        delay that follows. */
    function StoreResult(r: AnalysisResult): (t: Session)
      ensures t.uploadProgress == 100 && t.analysisResult == Some(r) && t.Valid()
      ensures t.analyzing == analyzing && t.error == error && t.statuses == statuses
    {
      this.(uploadProgress := 100, analysisResult := Some(r))
    }

    /** Line 97 and the `finally` of line 107, once the 500 ms delay is over, in
        one synchronous block: 'complete' emitted and analyzing off. Whatever
        the state holds at that moment is kept. */
    function ReportComplete(): (t: Session)
      ensures !t.analyzing && t.statuses == statuses + [Complete]
      ensures t.uploadProgress == uploadProgress && t.analysisResult == analysisResult && t.error == error
    {
      this.(analyzing := false, statuses := statuses + [Complete])
    }

    /** Lines 99-107, in one synchronous block: the result dropped, the message
        (never empty) stored, 'error' emitted, and the `finally` turns analyzing
        off. Progress is left where it was. */
    function Fail(e: Exception): (t: Session)
      ensures t.analysisResult == None && t.error == Some(ErrorMessage(e)) && t.error.value != ""
      ensures !t.analyzing && t.statuses == statuses + [Error] && t.uploadProgress == uploadProgress
    {
      this.(analyzing := false, analysisResult := None, error := Some(ErrorMessage(e)),
            statuses := statuses + [Error])
    }

    /** Lines 112-116: the idle state, whatever came before, and 'idle' emitted. */
    function Reset(): (t: Session)
      ensures !t.analyzing && t.uploadProgress == 0 && t.analysisResult == None && t.error == None
      ensures t.statuses == statuses + [Idle]
    {
      Session(false, 0, None, None, statuses + [Idle])
    }
  }

  /** The state the hook starts in (lines 18-21). */
  const Initial: Session := Session(false, 0, None, None, [])

  /** Every step keeps progress among its reachable values. */
  lemma StepsPreserveValid(s: Session, files: seq<DocumentFile>, r: AnalysisResult, e: Exception)
    requires s.Valid()
    ensures s.BeginUpload(files).Valid() && s.StoreResult(r).Valid() && s.Fail(e).Valid()
    ensures s.ReportComplete().Valid() && s.Reset().Valid()
    ensures s.analyzing ==> s.Tick().Valid()
  {
  }

  /** Ticks change nothing but progress. */
  lemma {:induction false} TicksOnlyChangeProgress(s: Session, n: nat)
    requires s.analyzing
    ensures s.Ticks(n) == s.(uploadProgress := s.Ticks(n).uploadProgress)
    decreases n
  {
    if n > 0 {
      TicksOnlyChangeProgress(s.Tick(), n - 1);
    }
  }

  /** While the call is pending, progress from a value at or below the cap never
      decreases and never exceeds the cap. */
  lemma {:induction false} TicksStayBelowCap(s: Session, n: nat)
    requires s.analyzing && s.Valid() && s.uploadProgress <= ProgressCap
    ensures s.uploadProgress <= s.Ticks(n).uploadProgress <= ProgressCap
    ensures s.Ticks(n).Valid()
    decreases n
  {
    if n > 0 {
      TicksStayBelowCap(s.Tick(), n - 1);
    }
  }

  /** After an upload starts from a non-analyzing session, `n` ticks give exactly
      the progress of an interval started at 0. */
  lemma {:induction false} UploadProgressFollowsTicks(s: Session, files: seq<DocumentFile>, n: nat)
    requires files != [] && !s.analyzing
    ensures s.BeginUpload(files).Ticks(n).uploadProgress == ProgressAfterTicks(n)
  {
    var t := s.BeginUpload(files);
    assert t.uploadProgress == 0;
    TicksAgree(t, n);
  }

  lemma {:induction false} TicksAgree(t: Session, n: nat)
    requires t.analyzing && t.uploadProgress == 0
    ensures t.Ticks(n).uploadProgress == ProgressAfterTicks(n)
  {
    if n > 0 {
      TicksTail(t, n - 1);
      TicksAgree(t, n - 1);
    }
  }

  /** The last tick of `n + 1` is one more increment of the first `n`. */
  lemma {:induction false} TicksTail(t: Session, n: nat)
    requires t.analyzing
    ensures t.Ticks(n + 1) == t.Ticks(n).Tick()
    decreases n
  {
    TicksOnlyChangeProgress(t, n);
    if n > 0 {
      TicksTail(t.Tick(), n - 1);
    }
  }

  /** During the 500 ms delay after the result is stored, the first tick pulls
      progress from 100 back to 98, where further ticks leave it. */
  lemma {:induction false} TicksAfterStore(t: Session, m: nat)
    requires t.analyzing && t.uploadProgress == 100
    ensures t.Ticks(m).uploadProgress == if m == 0 then 100 else ProgressCap
  {
    if m > 0 {
      TicksStayBelowCap(t.Tick(), m - 1);
    }
  }

  /** A successful upload of a non-empty list, with `n` ticks while the mock call
      is pending and `m` more during the 500 ms delay: progress ends at 100 only
      when no tick fell in that delay and at 98 otherwise, the stored result is
      named after the first file, the error is cleared, analyzing is off, and
      exactly 'analyzing' then 'complete' have been emitted. */
  lemma {:induction false} SuccessfulRun(
    s: Session, files: seq<DocumentFile>, n: nat, m: nat, id: string, timestamp: string)
    requires files != []
    ensures var t := s.BeginUpload(files).Ticks(n).StoreResult(MockResult(files[0].file, id, timestamp)).Ticks(m).ReportComplete();
      && t.uploadProgress == (if m == 0 then 100 else ProgressCap)
      && t.analysisResult.Some? && t.analysisResult.value.fileName == files[0].file.name
      && t.analysisResult.value.data == MockData()
      && t.error == None
      && !t.analyzing
      && t.statuses == s.statuses + [Analyzing, Complete]
  {
    var u := s.BeginUpload(files);
    TicksOnlyChangeProgress(u, n);
    var v := u.Ticks(n).StoreResult(MockResult(files[0].file, id, timestamp));
    TicksOnlyChangeProgress(v, m);
    TicksAfterStore(v, m);
  }

  /** A failed upload: the result is gone, the error holds the thrown message (or
      the default text), 'analyzing' then 'error' were emitted and analyzing is off.
      Progress is left wherever the ticks had taken it. */
  lemma {:induction false} FailedRun(s: Session, files: seq<DocumentFile>, n: nat, e: Exception)
    requires files != []
    ensures var t := s.BeginUpload(files).Ticks(n).Fail(e);
      && t.analysisResult == None
      && t.error == Some(if e.message != "" then e.message else DefaultErrorMessage)
      && !t.analyzing
      && t.statuses == s.statuses + [Analyzing, Error]
  {
    TicksOnlyChangeProgress(s.BeginUpload(files), n);
  }

  /** An empty file list changes nothing and emits nothing. */
  lemma EmptyUploadIsNoOp(s: Session)
    ensures s.BeginUpload([]) == s
  {
  }

  /** Starting an upload keeps any previous result, and a second upload while one
      is in flight does not reset progress (there is no in-flight guard). */
  lemma UploadKeepsPreviousResult(s: Session, files: seq<DocumentFile>)
    requires files != []
    ensures s.BeginUpload(files).analysisResult == s.analysisResult
    ensures s.BeginUpload(files).analyzing && s.BeginUpload(files).error == None
    ensures s.analyzing ==> s.BeginUpload(files).uploadProgress == s.uploadProgress
    ensures !s.analyzing ==> s.BeginUpload(files).uploadProgress == 0
  {
  }

  /** Reset yields the idle state whatever came before, and resetting twice gives
      the same state as resetting once, apart from the second 'idle' notification. */
  lemma ResetIsIdempotent(s: Session)
    ensures var t := s.Reset();
      t.analysisResult == None && t.error == None && t.uploadProgress == 0 && !t.analyzing
      && t.statuses == s.statuses + [Idle]
    ensures s.Reset().Reset() == s.Reset().(statuses := s.statuses + [Idle, Idle])
  {
  }

  /** There is no stale-call token: a reset during the 3000 ms delay does not
      stop the call, whose result is still stored, and 'complete' is still
      emitted after 'idle'. */
  lemma LateResultSurvivesReset(s: Session, files: seq<DocumentFile>, r: AnalysisResult)
    requires files != []
    ensures var t := s.BeginUpload(files).Reset().StoreResult(r).ReportComplete();
      t.analysisResult == Some(r) && t.uploadProgress == 100 && !t.analyzing
      && t.statuses == s.statuses + [Analyzing, Idle, Complete]
  {
  }

  /** A reset during the 500 ms delay, after the result was stored, clears it, and
      'complete' is emitted anyway: the last notification is 'complete' while
      there is no result and progress is 0. */
  lemma {:induction false} ResetInCompletionWindow(
    s: Session, files: seq<DocumentFile>, n: nat, r: AnalysisResult)
    requires files != []
    ensures var t := s.BeginUpload(files).Ticks(n).StoreResult(r).Reset().ReportComplete();
      t.analysisResult == None && t.uploadProgress == 0 && t.error == None && !t.analyzing
      && t.statuses == s.statuses + [Analyzing, Idle, Complete]
  {
    TicksOnlyChangeProgress(s.BeginUpload(files), n);
  }

  /** The state of the hook, updated in place by its handlers. */
  class Controller {
    var analyzing: bool
    var uploadProgress: int
    var analysisResult: Option<AnalysisResult>
    var error: Option<string>
    var statuses: seq<Status>

    function Snapshot(): Session
      reads this
    {
      Session(analyzing, uploadProgress, analysisResult, error, statuses)
    }

    ghost predicate Valid()
      reads this
    {
      Snapshot().Valid()
    }

    constructor ()
      ensures Valid() && Snapshot() == Initial
    {
      analyzing := false;
      uploadProgress := 0;
      analysisResult := None;
      error := None;
      statuses := [];
    }

    /** `handleUpload` up to the first await. Returns the file handed to the
        analysis, or None when the list is empty (the early `return null`). */
    method BeginUpload(files: seq<DocumentFile>) returns (started: Option<File>)
      requires Valid()
      modifies this
      ensures Valid() && Snapshot() == old(Snapshot()).BeginUpload(files)
      ensures started == if files == [] then None else Some(files[0].file)
      ensures files != [] ==> analyzing && error == None && analysisResult == old(analysisResult)
    {
      if |files| == 0 {
        return None;
      }
      if !analyzing {
        uploadProgress := 0;
      }
      analyzing := true;
      error := None;
      statuses := statuses + [Analyzing];
      started := Some(files[0].file);
    }

    /** The interval callback, run only while the interval is registered. */
    method Tick()
      requires Valid() && analyzing
      modifies this`uploadProgress
      ensures Valid() && Snapshot() == old(Snapshot()).Tick()
    {
      uploadProgress := IncrementProgress(uploadProgress);
    }

    /** Lines 74-83: once the 3000 ms delay is over, the mock result is built,
        stored and returned; analyzing stays on through the 500 ms delay. */
    method StoreResult(file: File, id: string, timestamp: string) returns (r: AnalysisResult)
      requires Valid()
      modifies this
      ensures Valid() && Snapshot() == old(Snapshot()).StoreResult(r)
      ensures r == MockResult(file, id, timestamp) && r.fileName == file.name
    {
      r := MockResult(file, id, timestamp);
      uploadProgress := 100;
      analysisResult := Some(r);
    }

    /** Line 97 and the `finally`, after the 500 ms delay: 'complete' is emitted,
        whatever the state holds by then, and analyzing goes off. */
    method ReportComplete()
      requires Valid()
      modifies this
      ensures Valid() && Snapshot() == old(Snapshot()).ReportComplete()
    {
      statuses := statuses + [Complete];
      analyzing := false;
    }

    /** The pending analysis throws: the catch block and the `finally` run, and the
        same error is rethrown. */
    method Fail(e: Exception) returns (rethrown: Exception)
      requires Valid()
      modifies this
      ensures Valid() && Snapshot() == old(Snapshot()).Fail(e)
      ensures rethrown == e
    {
      analysisResult := None;
      error := Some(ErrorMessage(e));
      statuses := statuses + [Error];
      analyzing := false;
      rethrown := e;
    }

    method Reset()
      requires Valid()
      modifies this
      ensures Valid() && Snapshot() == old(Snapshot()).Reset()
    {
      analysisResult := None;
      error := None;
      uploadProgress := 0;
      analyzing := false;
      statuses := statuses + [Idle];
    }
  }
}
