/** The records of src/types/types.ts, plus the browser `File` the flow reads.
    Incomes and support amounts are `real`; progress, ids and file sizes are
    integers, since the code only ever holds whole numbers there; strings are
    `seq<char>`. */
module Types {
  import opened Wrappers

  /** The fields the extraction schema names (interface FinancialData). */
  datatype FinancialData = FinancialData(
    applicantIncome: real,
    respondentIncome: real,
    childSupport: real,
    spousalSupport: real,
    hasODSP: bool,
    hasCPP: bool,
    complianceNotes: seq<string>)

  datatype CaseInfo = CaseInfo(parties: string, jurisdiction: string, caseNumber: string, date: string)

  /** A custody entry (`labelText` is the source's `label`, a reserved word here). `responsibility` is not declared in types.ts, but the
      dashboard fallback carries it and the custody tab shows it when present. */
  datatype CustodySchedule = CustodySchedule(
    id: int, labelText: string, value: string, detail: string, responsibility: Option<string>)

  /** A financial obligation; `kind` is the source's `type` field ('support' | 'asset'),
      kept as a string because the dashboard reads it untyped. */
  datatype FinancialItem = FinancialItem(id: int, kind: string, title: string, amount: string, due: string)

  /** A risk; `severity` is 'high' | 'medium' | 'low' in the declared type,
      kept as a string because the dashboard reads it untyped. */
  datatype RiskItem = RiskItem(id: int, severity: string, title: string, description: string)

  /** AnalysisData extends FinancialData: the same seven fields, then the rich structure. */
  datatype AnalysisData = AnalysisData(
    applicantIncome: real,
    respondentIncome: real,
    childSupport: real,
    spousalSupport: real,
    hasODSP: bool,
    hasCPP: bool,
    complianceNotes: seq<string>,
    caseInfo: CaseInfo,
    custody: seq<CustodySchedule>,
    financials: seq<FinancialItem>,
    risks: seq<RiskItem>)

  datatype AnalysisResult = AnalysisResult(
    id: string, fileName: string, timestamp: string, data: AnalysisData, redactedTextSnippet: string)

  /** The screens the shell can show (type AppView). */
  datatype AppView = UploadView | AnalyzingView | DashboardView | ComplianceView | ProfileView

  /** The part of a browser File the core looks at: its name, declared media type and size in bytes. */
  datatype File = File(name: string, mediaType: string, size: nat)

  datatype DocumentFile = DocumentFile(file: File, preview: Option<string>)

  /** A thrown JavaScript error. The core only tests `err?.message` for truthiness,
      so a missing message, a null error and an empty message are all `message == ""`. */
  datatype Exception = Exception(message: string)
}
