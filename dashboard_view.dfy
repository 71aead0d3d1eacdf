/** The tabbed report of src/views/DashboardView.tsx: the displayed data (the
    result's, or a fixed fallback), the header texts with their defaults, the
    tab bar and its risk badge, the severity and obligation markers, and the
    two ways to start a new analysis from the report. The drag-hover flag and
    the question box are presentation only and are not modelled. */
module DashboardView {
  import opened Wrappers
  import opened Types
  import Text
  import AnalysisFlow

  /** The tabs, in the order they are shown (line 153). */
  const Tabs: seq<string> := ["summary", "custody", "financials", "risks"]

  const InitialTab: string := "summary"

  /** The part of the analysis the tabs display. */
  datatype DashboardData = DashboardData(
    caseInfo: CaseInfo, custody: seq<CustodySchedule>, financials: seq<FinancialItem>, risks: seq<RiskItem>)

  /** The fallback of lines 64-86. It repeats the case, obligations and risks of
      the flow's mock record; its custody entries have the mock's schedules and
      add who is responsible for each. */
  function Fallback(): (d: DashboardData)
    ensures d.caseInfo == AnalysisFlow.MockData().caseInfo
    ensures d.financials == AnalysisFlow.MockData().financials
    ensures d.risks == AnalysisFlow.MockData().risks
    ensures |d.custody| == |AnalysisFlow.MockData().custody| == 3
    ensures forall i :: 0 <= i < 3 ==>
      d.custody[i].(responsibility := None) == AnalysisFlow.MockData().custody[i]
  {
    DashboardData(
      CaseInfo("Smith vs. Smith", "Superior Court of California, " + "County of Orange", "19D004821", "Oct 12, 2024"),
      [CustodySchedule(1, "Regular Schedule", "2-2-5-5 Rotation", "Mother: Mon/Tue, Father: Wed/Thu, " + "Alternate Weekends.", Some("Shared")),
       CustodySchedule(2, "Summer Break", "Week On / Week Off", "Exchanges occur Fridays at 6:00 PM.", Some("Alternating")),
       CustodySchedule(3, "Thanksgiving", "Alternating Years", "Father in even years, Mother in odd " + "years.", Some("Alternating"))],
      [FinancialItem(1, "support", "Child Support", "$1,250/mo", "1st of month"),
       FinancialItem(2, "support", "Spousal Support", "$800/mo", "Until Dec 2028"),
       FinancialItem(3, "asset", "Marital Home Refinance", "Deadline", "Must complete by June 1, 2026")],
      [RiskItem(1, "high", "Missing Tax Exemption", "The decree does not specify who " + "claims the children as dependents " + "for IRS/CRA purposes in alternating " + "years."),
       RiskItem(2, "medium", "Vague Exchange Location", "Paragraph 4.2 states 'mutually " + "agreed public place'. This often " + "leads to conflict. Recommendation: " + "Specify a police station or school."),
       RiskItem(3, "low", "Passport Provisions", "No clause regarding possession of " + "children's passports or travel " + "notification requirements.")])
  }

  /** `result?.data || fallback` (line 64): the result's own data when there is a
      result, otherwise the fixed fallback. */
  function DisplayData(result: Option<AnalysisResult>): (d: DashboardData)
    ensures result.Some? ==> d == DashboardData(result.value.data.caseInfo, result.value.data.custody,
                                                result.value.data.financials, result.value.data.risks)
    ensures result.None? ==> d == Fallback()
  {
    match result
    case Some(r) => DashboardData(r.data.caseInfo, r.data.custody, r.data.financials, r.data.risks)
    case None => Fallback()
  }

  /** The fallback has three custody, three financial and three risk entries,
      one risk of each severity (red, amber, blue), and only its asset
      obligation carries the "Action Req" marker. */
  lemma FallbackShape()
    ensures |Fallback().custody| == 3 && |Fallback().financials| == 3 && |Fallback().risks| == 3
    ensures SeverityTone(Fallback().risks[0].severity) == Red
    ensures SeverityTone(Fallback().risks[1].severity) == Amber
    ensures SeverityTone(Fallback().risks[2].severity) == Blue
    ensures !ActionRequired(Fallback().financials[0]) && !ActionRequired(Fallback().financials[1])
    ensures ActionRequired(Fallback().financials[2])
    ensures RiskBadge(Fallback()) == Some(3)
  {
  }

  /** `a || b` on strings: the first unless it is empty. */
  function OrDefault(s: string, default: string): (r: string)
    ensures r == s || r == default
    ensures r == default <==> s == "" || s == default
  {
    if s != "" then s else default
  }

  /** The header line of lines 119-120. */
  datatype Header = Header(fileName: string, date: string, caseNumber: string)

  function HeaderOf(result: Option<AnalysisResult>): (h: Header)
    ensures result.None? ==> h.fileName == "Decree_Final.pdf"
    ensures result.Some? && result.value.fileName != "" ==> h.fileName == result.value.fileName
    ensures result.Some? && result.value.fileName == "" ==> h.fileName == "Decree_Final.pdf"
    ensures h.date == OrDefault(DisplayData(result).caseInfo.date, "Today")
    ensures h.caseNumber == OrDefault(DisplayData(result).caseInfo.caseNumber, "Unknown")
    ensures h.fileName != "" && h.date != "" && h.caseNumber != ""
  {
    var d := DisplayData(result);
    Header(
      OrDefault(if result.Some? then result.value.fileName else "", "Decree_Final.pdf"),
      OrDefault(d.caseInfo.date, "Today"),
      OrDefault(d.caseInfo.caseNumber, "Unknown"))
  }

  /** The count on the risks tab (lines 164-167): shown only when there are risks. */
  function RiskBadge(d: DashboardData): (badge: Option<nat>)
    ensures badge.Some? <==> |d.risks| > 0
    ensures badge.Some? ==> badge.value == |d.risks|
  {
    if |d.risks| > 0 then Some(|d.risks|) else None
  }

  datatype Tone = Red | Amber | Blue

  /** The colour of a risk's border, icon and label (lines 284, 287, 290-294). */
  function SeverityTone(severity: string): (tone: Tone)
    ensures tone == Red <==> severity == "high"
    ensures tone == Amber <==> severity == "medium"
    ensures tone == Blue <==> severity != "high" && severity != "medium"
  {
    if severity == "high" then Red else if severity == "medium" then Amber else Blue
  }

  /** The "Action Req" marker of line 268. */
  predicate ActionRequired(item: FinancialItem) {
    item.kind == "asset"
  }

  /** The drop filter `file.type.match(/pdf|image/)` of line 48. */
  predicate DroppableType(mediaType: string) {
    Text.Contains(mediaType, "pdf") || Text.Contains(mediaType, "image")
  }

  /** What a drop on the report passes to `onUpload` (lines 45-50): the first file
      alone, when its type mentions pdf or image; otherwise no call. */
  function DropUpload(files: seq<File>): (upload: Option<seq<DocumentFile>>)
    ensures upload.Some? <==> files != [] && DroppableType(files[0].mediaType)
    ensures upload.Some? ==> upload.value == [DocumentFile(files[0], None)]
  {
    if files != [] && DroppableType(files[0].mediaType) then Some([DocumentFile(files[0], None)]) else None
  }

  /** The filter lets the four accepted types through, and also image types
      the upload panel refuses; it has no size limit. */
  lemma DropFilterAccepts()
    ensures DroppableType("application/pdf") && DroppableType("image/png")
    ensures DroppableType("image/jpeg") && DroppableType("image/webp") && DroppableType("image/gif")
  {
    Text.ContainsAt("application/pdf", "pdf", 12);
    Text.ContainsAt("image/png", "image", 0);
    Text.ContainsAt("image/jpeg", "image", 0);
    Text.ContainsAt("image/webp", "image", 0);
    Text.ContainsAt("image/gif", "image", 0);
  }

  /** A type with neither a 'd' nor an 'm' in it (text/plain, say) is ignored. */
  lemma DropFilterRejects(mediaType: string)
    requires 'd' !in mediaType && 'm' !in mediaType
    ensures !DroppableType(mediaType)
  {
    Text.MissingCharNotContained(mediaType, "pdf", 'd');
    Text.MissingCharNotContained(mediaType, "image", 'm');
  }

  /** The report's own state: the active tab, and the value of the hidden file input. */
  class DashboardState {
    var activeTab: string
    var fileInputValue: string

    ghost predicate Valid()
      reads this
    {
      activeTab in Tabs
    }

    constructor ()
      ensures Valid() && activeTab == InitialTab && fileInputValue == ""
    {
      activeTab := InitialTab;
      fileInputValue := "";
    }

    /** A tab button was clicked. */
    method SelectTab(tab: string)
      requires Valid() && tab in Tabs
      modifies this`activeTab
      ensures Valid() && activeTab == tab
    {
      activeTab := tab;
    }

    /** `handleFileChange` (lines 54-60): the first chosen file is passed on as a
        one-element list, with no type or size check, and the input is cleared
        whether or not a file was chosen. */
    method HandleFileChange(files: seq<File>) returns (upload: Option<seq<DocumentFile>>)
      modifies this`fileInputValue
      ensures upload.Some? <==> files != []
      ensures upload.Some? ==> upload.value == [DocumentFile(files[0], None)]
      ensures fileInputValue == ""
    {
      upload := None;
      if |files| > 0 {
        upload := Some([DocumentFile(files[0], None)]);
      }
      fileInputValue := "";
    }
  }
}
