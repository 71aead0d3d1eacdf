/** The progress screen of src/components/AnalyzingView.tsx: a label chosen by
    thresholds over the progress value, and the bar and percentage, which show
    the value as it is. */
module AnalyzingView {

  const StageLabels: seq<string> :=
    ["OCR Scanning...", "Identifying Financials...", "Mapping Custody Schedule...", "Finalizing Report..."]

  /** `getStatusText` (lines 9-14). */
  function StatusText(progress: int): (text: string)
    ensures text in StageLabels
    ensures text == StageLabels[0] <==> progress < 30
    ensures text == StageLabels[3] <==> progress >= 90
  {
    if progress < 30 then "OCR Scanning..."
    else if progress < 60 then "Identifying Financials..."
    else if progress < 90 then "Mapping Custody Schedule..."
    else "Finalizing Report..."
  }

  /** The stage as the number of thresholds (30, 60, 90) reached. */
  function Stage(progress: int): (k: nat)
    ensures k < |StageLabels|
  {
    (if progress >= 30 then 1 else 0) + (if progress >= 60 then 1 else 0) + (if progress >= 90 then 1 else 0)
  }

  /** The if-chain picks the label of the stage reached, so the label changes
      exactly at 30, 60 and 90, and 98 and 100 both read 'Finalizing Report...'. */
  lemma StatusTextIsStageLabel(progress: int)
    ensures StatusText(progress) == StageLabels[Stage(progress)]
    ensures progress < 30 ==> StatusText(progress) == "OCR Scanning..."
    ensures 30 <= progress < 60 ==> StatusText(progress) == "Identifying Financials..."
    ensures 60 <= progress < 90 ==> StatusText(progress) == "Mapping Custody Schedule..."
    ensures progress >= 90 ==> StatusText(progress) == "Finalizing Report..."
  {
  }

  /** The stage never goes back as progress grows. */
  lemma StageMonotone(p: int, q: int)
    requires p <= q
    ensures Stage(p) <= Stage(q)
  {
  }

  /** What the screen shows: the label, the percentage text and the bar width. */
  datatype Panel = Panel(statusText: string, percent: int, barWidth: int)

  /** Lines 35 and 38 show the progress value verbatim. */
  function Render(progress: int): (panel: Panel)
    ensures panel.percent == progress && panel.barWidth == progress
    ensures panel.statusText == StageLabels[Stage(progress)]
  {
    StatusTextIsStageLabel(progress);
    Panel(StatusText(progress), progress, progress)
  }
}
