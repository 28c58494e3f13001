/** The score card (src/components/nutriscan/HealthScoreCard.tsx): the colour of
    the score and of its progress bar, chosen by four bands of the score, the
    verdict's colour, and the bar's width. */
module HealthScoreCard {
  import opened Types
  import opened Strings
  import ScanHistory

  /** The four tones the card draws in. */
  datatype Tone = SafeTone | PrimaryTone | WarningTone | DangerTone

  function ToneName(t: Tone): string {
    match t
    case SafeTone => "safe"
    case PrimaryTone => "primary"
    case WarningTone => "warning"
    case DangerTone => "danger"
  }

  /** `getScoreColor` */
  function ScoreColor(score: int): string {
    if score >= 80 then "text-safe"
    else if score >= 60 then "text-primary"
    else if score >= 40 then "text-warning"
    else "text-danger"
  }

  /** `getProgressColor` */
  function ProgressColor(score: int): string {
    if score >= 80 then "bg-safe"
    else if score >= 60 then "bg-primary"
    else if score >= 40 then "bg-warning"
    else "bg-danger"
  }

  /** `verdictConfig[verdict].color`, as a tone. */
  function VerdictTone(v: Verdict): Tone {
    match v
    case Great => SafeTone
    case Good => PrimaryTone
    case CautionVerdict => WarningTone
    case Avoid => DangerTone
  }

  /** The score's text and its bar always fall in the same band, and that band
      is the tone of the verdict the score's band gives in the scan history. */
  lemma BandsAgree(score: int)
    ensures var t := VerdictTone(ScanHistory.VerdictFromScore(score));
      ScoreColor(score) == "text-" + ToneName(t) && ProgressColor(score) == "bg-" + ToneName(t)
  {
  }

  /** The verdict badge and the score have the same colour exactly when the
      verdict is the one the score's band gives. */
  lemma VerdictMatchesScore(r: AnalysisResult)
    ensures ScoreColor(r.overallScore) == "text-" + ToneName(VerdictTone(r.verdict))
        <==> r.verdict == ScanHistory.VerdictFromScore(r.overallScore)
  {
    BandsAgree(r.overallScore);
    var t, u := VerdictTone(r.verdict), VerdictTone(ScanHistory.VerdictFromScore(r.overallScore));
    if t != u {
      assert ("text-" + ToneName(t))[5..] == ToneName(t);
      assert ("text-" + ToneName(u))[5..] == ToneName(u);
    }
  }

  /** Every verdict has a tone, and the four tones are different. */
  lemma VerdictTonesDistinct(v: Verdict, w: Verdict)
    ensures VerdictTone(v) == VerdictTone(w) ==> v == w
  {
  }

  /** `width: ${overallScore}%`: the score, unclamped, as a percentage. */
  function ProgressWidth(score: int): (w: string)
    ensures EndsWith(w, "%") && Denotes(w[..|w| - 1], score)
  {
    IntToStringDenotes(score);
    assert (IntToString(score) + "%")[..|IntToString(score)|] == IntToString(score);
    IntToString(score) + "%"
  }
}
