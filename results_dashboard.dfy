/** The report of src/components/ResultsDashboard.tsx, as the values it is
    drawn from. Chart drawing and currency formatting are not modelled. */
module ResultsDashboard {
  import opened Wrappers
  import opened Types

  datatype ChartEntry = ChartEntry(name: string, income: real, fill: string)

  datatype NumberedNote = NumberedNote(number: nat, text: string)

  /** The observations card: numbered notes, or the placeholder line. */
  datatype NotesPanel = Numbered(notes: seq<NumberedNote>) | NoIssuesPlaceholder

  const NoIssuesText: string := "No specific compliance issues found."

  datatype Report = Report(
    fileName: string,
    timestamp: string,
    benefitAlert: bool,
    childSupport: real,
    spousalSupport: real,
    complianceFlags: nat,
    chart: seq<ChartEntry>,
    observations: NotesPanel)

  /** `notes.map((note, idx) => ... idx + 1 ...)`, numbering from `start`. */
  function NumberFrom(notes: seq<string>, start: nat): (numbered: seq<NumberedNote>)
    ensures |numbered| == |notes|
    ensures forall i :: 0 <= i < |notes| ==> numbered[i] == NumberedNote(start + i, notes[i])
  {
    if notes == [] then [] else [NumberedNote(start, notes[0])] + NumberFrom(notes[1..], start + 1)
  }

  /** The chart of lines 17-20. */
  function ChartData(data: AnalysisData): (chart: seq<ChartEntry>)
    ensures |chart| == 2
    ensures chart[0].name == "Applicant" && chart[0].income == data.applicantIncome
    ensures chart[1].name == "Respondent" && chart[1].income == data.respondentIncome
    ensures chart[0].fill != chart[1].fill
  {
    [ChartEntry("Applicant", data.applicantIncome, "#60A5FA"),
     ChartEntry("Respondent", data.respondentIncome, "#D4A83B")]
  }

  /** The observations card of lines 153-163. */
  function Observations(notes: seq<string>): (panel: NotesPanel)
    ensures panel == NoIssuesPlaceholder <==> notes == []
    ensures panel.Numbered? ==> |panel.notes| == |notes|
    ensures panel.Numbered? ==> forall i :: 0 <= i < |notes| ==> panel.notes[i] == NumberedNote(i + 1, notes[i])
  {
    if |notes| > 0 then Numbered(NumberFrom(notes, 1)) else NoIssuesPlaceholder
  }

  /** The component: nothing for a null result (line 15), otherwise the report. */
  function Render(result: Option<AnalysisResult>): (report: Option<Report>)
    ensures report.None? <==> result.None?
  {
    match result
    case None => None
    case Some(r) =>
      Some(Report(
        r.fileName, r.timestamp,
        r.data.hasODSP || r.data.hasCPP,
        r.data.childSupport, r.data.spousalSupport,
        |r.data.complianceNotes|,
        ChartData(r.data),
        Observations(r.data.complianceNotes)))
  }

  /** The report shows two chart bars (applicant, then respondent, with their
      incomes), the benefit alert exactly when ODSP or CPP is flagged, and as many
      compliance flags as there are notes, listed in order from 1. */
  lemma ReportFaithful(r: AnalysisResult)
    ensures var rep := Render(Some(r)).value;
      && |rep.chart| == 2
      && rep.chart[0].name == "Applicant" && rep.chart[0].income == r.data.applicantIncome
      && rep.chart[1].name == "Respondent" && rep.chart[1].income == r.data.respondentIncome
      && (rep.benefitAlert <==> r.data.hasODSP || r.data.hasCPP)
      && rep.complianceFlags == |r.data.complianceNotes|
      && (r.data.complianceNotes == [] <==> rep.observations == NoIssuesPlaceholder)
      && (rep.observations.Numbered? ==>
            forall i :: 0 <= i < rep.complianceFlags ==>
              rep.observations.notes[i] == NumberedNote(i + 1, r.data.complianceNotes[i]))
  {
  }
}
