/**
 * The deterministic part of `get_ai_summary`, identical in both copies. The call to
 * the language model is an input: `Some(text)` when a usable API key was configured
 * and the call returned `text`, `None` when there was no key or the call raised.
 */
module Summary {
  import opened Wrappers
  import opened Findings

  const NoIssuesText: string := "No irregularities detected. Bill aligns with expected rates and usage patterns."
  const RateText: string := "Tier 1 rate incorrectly applied. Contact billing department for rate correction and refund."
  const CalcText: string := "Mathematical discrepancy detected in total. Request corrected invoice before payment."
  const SpikeText: string := "Significant increase in consumption. Verify meter reading and check for equipment issues."
  const MultipleText: string := "Multiple issues detected. Manual review recommended."

  /**
   * The fallback chain over the joined `- type: detail` lines. A type name occurs in that
   * text exactly when a finding of that type is present, since no detail sentence
   * contains a type name.
   */
  function Fallback(fs: seq<Finding>): string
  {
    if Has(fs, RateError) then RateText
    else if Has(fs, CalculationError) then CalcText
    else if Has(fs, UsageSpike) then SpikeText
    else MultipleText
  }

  /** The summary shown with the analysis. */
  function AiSummary(fs: seq<Finding>, narrative: Option<string>): (r: string)
    ensures fs == [] ==> r == NoIssuesText
    ensures fs != [] && narrative.Some? ==> r == narrative.value
    ensures fs != [] && narrative.None? ==> r == Fallback(fs) && r in {RateText, CalcText, SpikeText}
  {
    if fs == [] then NoIssuesText
    else if narrative.Some? then narrative.value
    else
      FallbackNeverMultiple(fs);
      Fallback(fs)
  }

  /** The fallback names the most important type present: Rate Error, then Calculation Error, then Usage Spike. */
  lemma FallbackPriority(fs: seq<Finding>)
    ensures Fallback(fs) == RateText <==> Has(fs, RateError)
    ensures Fallback(fs) == CalcText <==> !Has(fs, RateError) && Has(fs, CalculationError)
    ensures Fallback(fs) == SpikeText <==> !Has(fs, RateError) && !Has(fs, CalculationError) && Has(fs, UsageSpike)
  {
    assert |RateText| != |CalcText| && |RateText| != |SpikeText| && |CalcText| != |SpikeText|;
    assert |MultipleText| != |RateText| && |MultipleText| != |CalcText| && |MultipleText| != |SpikeText|;
  }

  /** Every finding has one of the three types, so "Multiple issues" is never the fallback. */
  lemma FallbackNeverMultiple(fs: seq<Finding>)
    requires fs != []
    ensures Fallback(fs) in {RateText, CalcText, SpikeText}
    ensures Fallback(fs) != MultipleText
  {
    assert |MultipleText| != |RateText| && |MultipleText| != |CalcText| && |MultipleText| != |SpikeText|;
    var f := fs[0];
    assert f in fs;
    match f.kind
    case RateError =>
    case CalculationError =>
    case UsageSpike =>
  }
}
