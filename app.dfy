/** The shell of src/App.tsx: the current view, switched by the flow's status
    notifications, by the reset handler and by navigation; what each view
    renders; and the file metadata handed to the layout. */
module App {
  import opened Wrappers
  import opened Types
  import opened AnalysisFlow

  /** What `renderContent` returns, with the data each screen receives. */
  datatype Screen =
    | ProfileScreen
    | ComplianceScreen
    | AnalyzingScreen(progress: int)
    | DashboardScreen(result: AnalysisResult)
    | UploadScreen(alert: Option<string>)

  /** The `onStatusChange` callback of lines 21-29. */
  function ViewForStatus(status: Status): (v: AppView)
    ensures v == AnalyzingView <==> status == Analyzing
    ensures v == DashboardView <==> status == Complete
    ensures v == UploadView <==> status == Error || status == Idle
  {
    match status
    case Analyzing => AnalyzingView
    case Complete => DashboardView
    case Error => UploadView
    case Idle => UploadView
  }

  /** `{error && <ErrorAlert .../>}` (line 56): the alert is drawn only for a
      truthy error, so an empty message draws none. */
  function Alert(error: Option<string>): (alert: Option<string>)
    ensures alert.Some? <==> error.Some? && error.value != ""
    ensures alert.Some? ==> alert == error
  {
    if error.Some? && error.value != "" then error else None
  }

  /** `renderContent` (lines 37-60). Profile and compliance render whatever the
      analysis state; the dashboard needs a result and otherwise falls through to
      the upload screen, which is the only screen that shows the error alert. */
  function RenderContent(view: AppView, result: Option<AnalysisResult>, error: Option<string>, progress: int): (screen: Screen)
    ensures view == ProfileView ==> screen == ProfileScreen
    ensures view == ComplianceView ==> screen == ComplianceScreen
    ensures view == AnalyzingView ==> screen == AnalyzingScreen(progress)
    ensures screen.DashboardScreen? <==> view == DashboardView && result.Some?
    ensures screen.DashboardScreen? ==> screen.result == result.value
    ensures screen.UploadScreen? <==> view == UploadView || (view == DashboardView && result.None?)
    ensures screen.UploadScreen? ==> screen.alert == Alert(error)
  {
    match view
    case ProfileView => ProfileScreen
    case ComplianceView => ComplianceScreen
    case AnalyzingView => AnalyzingScreen(progress)
    case DashboardView => if result.Some? then DashboardScreen(result.value) else UploadScreen(Alert(error))
    case UploadView => UploadScreen(Alert(error))
  }

  datatype AnalysisMeta = AnalysisMeta(fileName: string, date: string, caseNumber: string)

  /** `analysisMeta` (lines 67-71): present exactly when there is a result, and
      then its file name and the case date and number. */
  function AnalysisMetaOf(result: Option<AnalysisResult>): (meta: Option<AnalysisMeta>)
    ensures meta.Some? <==> result.Some?
    ensures meta.Some? ==> meta.value.fileName == result.value.fileName
                           && meta.value.date == result.value.data.caseInfo.date
                           && meta.value.caseNumber == result.value.data.caseInfo.caseNumber
  {
    match result
    case None => None
    case Some(r) => Some(AnalysisMeta(r.fileName, r.data.caseInfo.date, r.data.caseInfo.caseNumber))
  }

  /** The App component: its `currentView` state and the analysis hook it owns.
      The interval tick carries no notification and is run on `flow` directly. */
  class AppState {
    var currentView: AppView
    const flow: Controller

    ghost predicate Valid()
      reads this, flow
    {
      flow.Valid()
    }

    constructor ()
      ensures Valid() && fresh(flow)
      ensures currentView == UploadView && flow.Snapshot() == Initial
    {
      currentView := UploadView;
      flow := new Controller();
    }

    function Content(): Screen
      reads this, flow
    {
      RenderContent(currentView, flow.analysisResult, flow.error, flow.uploadProgress)
    }

    function Meta(): Option<AnalysisMeta>
      reads this, flow
    {
      AnalysisMetaOf(flow.analysisResult)
    }

    method OnStatusChange(status: Status)
      modifies this`currentView
      ensures currentView == ViewForStatus(status)
    {
      match status
      case Analyzing => currentView := AnalyzingView;
      case Complete => currentView := DashboardView;
      case Error => currentView := UploadView;
      case Idle => currentView := UploadView;
    }

    /** `handleUpload` as passed to the views: a non-empty list shows the progress screen. */
    method HandleUpload(files: seq<DocumentFile>) returns (started: Option<File>)
      requires Valid()
      modifies this, flow
      ensures Valid() && flow.Snapshot() == old(flow.Snapshot()).BeginUpload(files)
      ensures started == if files == [] then None else Some(files[0].file)
      ensures currentView == if files == [] then old(currentView) else AnalyzingView
      ensures files != [] ==> Content() == AnalyzingScreen(flow.uploadProgress)
    {
      started := flow.BeginUpload(files);
      if started.Some? {
        OnStatusChange(Analyzing);
      }
    }

    /** The 3000 ms delay is over and the result is stored: no notification yet,
        so the view stays where it was, but the layout now has the new metadata. */
    method ResultStored(file: File, id: string, timestamp: string) returns (r: AnalysisResult)
      requires Valid()
      modifies flow
      ensures Valid() && flow.Snapshot() == old(flow.Snapshot()).StoreResult(r)
      ensures r == MockResult(file, id, timestamp)
      ensures currentView == old(currentView)
      ensures Meta() == Some(AnalysisMeta(file.name, r.data.caseInfo.date, r.data.caseInfo.caseNumber))
    {
      r := flow.StoreResult(file, id, timestamp);
    }

    /** The 500 ms delay is over: 'complete' moves the shell to the dashboard
        view, which shows the stored result if there still is one and falls
        through to the upload screen if a reset cleared it. */
    method AnalysisCompleted()
      requires Valid()
      modifies this, flow
      ensures Valid() && flow.Snapshot() == old(flow.Snapshot()).ReportComplete()
      ensures currentView == DashboardView
      ensures flow.analysisResult.Some? ==> Content() == DashboardScreen(flow.analysisResult.value)
      ensures flow.analysisResult.None? ==> Content() == UploadScreen(Alert(flow.error))
    {
      flow.ReportComplete();
      OnStatusChange(Complete);
    }

    /** The pending analysis throws: the upload screen shows the error alert. */
    method AnalysisFailed(e: Exception) returns (rethrown: Exception)
      requires Valid()
      modifies this, flow
      ensures Valid() && flow.Snapshot() == old(flow.Snapshot()).Fail(e)
      ensures rethrown == e
      ensures currentView == UploadView && Content() == UploadScreen(Some(ErrorMessage(e)))
      ensures Meta() == None
    {
      rethrown := flow.Fail(e);
      OnStatusChange(Error);
    }

    /** `handleReset` (lines 32-35): always ends on the upload screen with no alert. */
    method HandleReset()
      requires Valid()
      modifies this, flow
      ensures Valid() && flow.Snapshot() == old(flow.Snapshot()).Reset()
      ensures currentView == UploadView && Content() == UploadScreen(None) && Meta() == None
    {
      flow.Reset();
      OnStatusChange(Idle);
      currentView := UploadView;
    }

    /** Navigation from the layout (`setView`). */
    method SetView(v: AppView)
      modifies this`currentView
      ensures currentView == v
    {
      currentView := v;
    }
  }

  /** As written, a reset during the 3000 ms delay does not cancel the pending
      analysis: its late result is stored and takes the shell to the report. */
  method ResetDuringAnalysis(doc: DocumentFile)
  {
    var app := new AppState();
    var started := app.HandleUpload([doc]);
    app.flow.Tick();
    app.HandleReset();
    assert app.Content() == UploadScreen(None);
    var r := app.ResultStored(doc.file, "id", "now");
    app.AnalysisCompleted();
    assert app.currentView == DashboardView && app.Content() == DashboardScreen(r);
    assert app.flow.statuses == [Analyzing, Idle, Complete];
  }

  /** A reset while the call is still pending, then the late 'complete': the
      shell lands on the dashboard view with no result and no error, so it
      draws the upload screen without an alert. */
  method ResetThenComplete(app: AppState)
    requires app.Valid()
    modifies app, app.flow
    ensures app.currentView == DashboardView && app.flow.analysisResult == None
    ensures app.Content() == UploadScreen(None) && app.Meta() == None
    ensures app.flow.statuses == old(app.flow.statuses) + [Idle, Complete]
  {
    app.HandleReset();
    assert app.flow.analysisResult == None && app.flow.error == None;
    app.AnalysisCompleted();
    assert Alert(app.flow.error) == None;
  }

  /** A reset during the 500 ms delay clears the stored result, yet 'complete'
      still arrives: the shell is on the dashboard view with no result, so the
      upload screen is drawn. */
  method ResetDuringCompletion(doc: DocumentFile)
  {
    var app := new AppState();
    var started := app.HandleUpload([doc]);
    var r := app.ResultStored(doc.file, "id", "now");
    assert app.flow.analyzing && app.flow.uploadProgress == 100;
    app.flow.Tick();
    assert app.flow.uploadProgress == 98 && app.flow.statuses == [Analyzing];
    ResetThenComplete(app);
    assert app.flow.statuses == [Analyzing, Idle, Complete];
  }
}
