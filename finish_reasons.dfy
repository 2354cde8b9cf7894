/**
 * The finish signal the completion service reports, its numeric code and the
 * description recorded per request (`finish_reason_code_dict`).
 */
module FinishReasons {
  import opened Wrappers

  type FinishCode = c: nat | c < 5

  /** The signal each code stands for: `Signals[c]` is the signal classified as `c`. */
  const Signals: seq<string> := ["stop", "length", "function_call", "content_filter", "null"]

  /**
   * The if/elif chain of `process_output`: one of the five known signals gives
   * its code, anything else is rejected (`None`).
   */
  function Classify(reason: string): (r: Option<FinishCode>)
    ensures r.Some? <==> reason in Signals
    ensures r.Some? ==> Signals[r.value] == reason
  {
    if reason == "stop" then Some(0)
    else if reason == "length" then Some(1)
    else if reason == "function_call" then Some(2)
    else if reason == "content_filter" then Some(3)
    else if reason == "null" then Some(4)
    else None
  }

  /** Classifying the signal of a code gives the code back. */
  lemma ClassifySignal(code: FinishCode)
    ensures Classify(Signals[code]) == Some(code)
  {
  }

  const Fr0: string := "Success,Complete Message"
  const Fr1: string := "Token Limit or parameter \"max_token\" exceeded,Incomplete Message"
  const Fr2: string := "The model decided to call a function,Incomplete Message"
  const Fr3: string := "Content flagged and stopped by model's content filter" + ",Incomplete Message"
  const Fr4: string := "API Response is still in progress,Incomplete Message"

  /** `finish_reason_code_dict`: the text kept in `text_finishin_reasons` for each code. */
  function Description(code: FinishCode): string
  {
    [Fr0, Fr1, Fr2, Fr3, Fr4][code]
  }

  predicate EndsWith(s: string, suffix: string)
  {
    |suffix| <= |s| && s[|s| - |suffix|..] == suffix
  }

  const Complete: string := ",Complete Message"
  const Incomplete: string := ",Incomplete Message"

  /** The verdict of a description built as `prefix + Incomplete`. */
  lemma IncompleteVerdict(prefix: string)
    ensures EndsWith(prefix + Incomplete, Incomplete)
    ensures !EndsWith(prefix + Incomplete, Complete)
  {
    var d := prefix + Incomplete;
    assert d[|d| - |Incomplete|..] == Incomplete;
    assert d[|d| - |Complete|] == 'n';
  }

  lemma Fr0Verdict()
    ensures EndsWith(Fr0, Complete) && !EndsWith(Fr0, Incomplete)
  {
    assert Fr0[|Fr0| - |Complete|..] == Complete;
    assert Fr0[|Fr0| - |Incomplete|] == 's';
  }

  lemma Fr1Verdict()
    ensures EndsWith(Fr1, Incomplete) && !EndsWith(Fr1, Complete)
  {
    var prefix := "Token Limit or parameter \"max_token\" exceeded";
    assert Fr1 == prefix + Incomplete;
    IncompleteVerdict(prefix);
  }

  lemma Fr2Verdict()
    ensures EndsWith(Fr2, Incomplete) && !EndsWith(Fr2, Complete)
  {
    var prefix := "The model decided to call a function";
    assert Fr2 == prefix + Incomplete;
    IncompleteVerdict(prefix);
  }

  lemma Fr3Verdict()
    ensures EndsWith(Fr3, Incomplete) && !EndsWith(Fr3, Complete)
  {
    IncompleteVerdict("Content flagged and stopped by model's content filter");
  }

  lemma Fr4Verdict()
    ensures EndsWith(Fr4, Incomplete) && !EndsWith(Fr4, Complete)
  {
    var prefix := "API Response is still in progress";
    assert Fr4 == prefix + Incomplete;
    IncompleteVerdict(prefix);
  }

  /** Only a natural stop is described as a complete message; every other code as incomplete. */
  lemma DescriptionVerdict(code: FinishCode)
    ensures EndsWith(Description(code), Complete) <==> code == 0
    ensures EndsWith(Description(code), Incomplete) <==> code != 0
  {
    match code {
      case 0 => Fr0Verdict();
      case 1 => Fr1Verdict();
      case 2 => Fr2Verdict();
      case 3 => Fr3Verdict();
      case 4 => Fr4Verdict();
    }
  }

  /** Distinct codes have distinct descriptions, so a description identifies its code. */
  lemma DescriptionInjective(a: FinishCode, b: FinishCode)
    requires Description(a) == Description(b)
    ensures a == b
  {
    DescriptionLength(a);
    DescriptionLength(b);
  }

  /** The lengths of the five descriptions, which already tell them apart. */
  lemma DescriptionLength(code: FinishCode)
    ensures |Description(code)| == [24, 64, 55, 72, 52][code]
  {
  }
}
