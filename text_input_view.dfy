/** The logic of TextInputView.swift: the estimated reading time shown while
  * typing (at 150 characters per minute) and the confirm button, enabled
  * only for input that is not blank, which hands the input untrimmed to the
  * teleprompter model. */
module TextInput {
  import opened Numeric
  import opened TextUtil
  import Teleprompter

  /** The three shapes of the estimate: "s秒", "m分s秒" and "m分钟". */
  datatype Estimate = Seconds(s: int) | MinutesSeconds(m: int, s: int) | Minutes(m: int)

  /** The reading time of `count` characters as the view computes it: the
    * minutes as a fraction, then truncated minutes and seconds. */
  function EstimateFor(count: nat): Estimate {
    var minutes := count as real / 150.0;
    if minutes < 1.0 then
      Seconds(Trunc(minutes * 60.0))
    else
      var totalMinutes := Trunc(minutes);
      var seconds := Trunc((minutes - totalMinutes as real) * 60.0);
      if seconds > 0 then MinutesSeconds(totalMinutes, seconds) else Minutes(totalMinutes)
  }

  /** The rendered estimate. */
  function Render(e: Estimate): string {
    match e
    case Seconds(s) => IntText(s) + "秒"
    case MinutesSeconds(m, s) => IntText(m) + "分" + IntText(s) + "秒"
    case Minutes(m) => IntText(m) + "分钟"
  }

  /** `estimatedDuration` of the input text. */
  function EstimatedDuration(inputText: string): string {
    Render(EstimateFor(|inputText|))
  }

  /** The estimate in whole numbers: below 150 characters it is seconds
    * only, 2 per 5 characters; from 150 on the minutes are `count / 150` and
    * the seconds the rest at the same rate, shown only when positive. The
    * seconds field is always below 60, and minutes and seconds together are
    * the whole seconds of `count * 0.4`. */
  lemma {:induction false} EstimateMeaning(count: nat)
    ensures count < 150 ==> EstimateFor(count) == Seconds((2 * count) / 5)
    ensures count >= 150 && (2 * (count % 150)) / 5 > 0 ==>
              EstimateFor(count) == MinutesSeconds(count / 150, (2 * (count % 150)) / 5)
    ensures count >= 150 && (2 * (count % 150)) / 5 == 0 ==>
              EstimateFor(count) == Minutes(count / 150)
    ensures !EstimateFor(count).Minutes? ==> 0 <= EstimateFor(count).s < 60
    ensures WholeSeconds(EstimateFor(count)) == (2 * count) / 5
  {
    var minutes := count as real / 150.0;
    if count < 150 {
      assert minutes * 60.0 == (2 * count) as real / 5 as real;
      TruncOfRatio(2 * count, 5);
    } else {
      QuotientAtLeastOne(count as real, 150.0);
      TruncOfRatio(count, 150);
      var m, r := count / 150, count % 150;
      assert count == 150 * m + r;
      assert (minutes - m as real) * 60.0 == (2 * r) as real / 5 as real;
      TruncOfRatio(2 * r, 5);
      assert (2 * count) as real / 5.0 == (60 * m) as real + (2 * r) as real / 5.0;
      TruncShift(60 * m, (2 * r) as real / 5.0);
      TruncOfRatio(2 * count, 5);
    }
  }

  /** The total seconds an estimate stands for. */
  function WholeSeconds(e: Estimate): int {
    match e
    case Seconds(s) => s
    case MinutesSeconds(m, s) => m * 60 + s
    case Minutes(m) => m * 60
  }

  /** The estimate's text names seconds only below 150 characters and
    * minutes from 150 on. */
  lemma EstimatedDurationUnits(inputText: string)
    ensures |inputText| < 150 ==> EstimatedDuration(inputText)[|EstimatedDuration(inputText)| - 1] == '秒'
                                   && '分' !in EstimatedDuration(inputText)
    ensures |inputText| >= 150 ==> '分' in EstimatedDuration(inputText)
  {
    var count := |inputText|;
    EstimateMeaning(count);
    if count < 150 {
      var s := (2 * count) / 5;
      NatTextRoundTrip(s);
      assert forall i :: 0 <= i < |NatText(s)| ==> NatText(s)[i] != '分';
    } else {
      var t := EstimatedDuration(inputText);
      var m := count / 150;
      assert |IntText(m)| < |t| && t[|IntText(m)|] == '分';
    }
  }

  /** The confirm button's enabling rule: the input trimmed of whitespace
    * and newlines is not empty. */
  function ConfirmEnabled(inputText: string): bool {
    Trim(inputText) != []
  }

  /** Confirm is enabled exactly when the input is not all whitespace and
    * newlines. */
  lemma ConfirmEnabledIffNotBlank(inputText: string)
    ensures ConfirmEnabled(inputText) <==> !IsBlank(inputText)
  {
    TrimEmptyIffBlank(inputText);
  }

  /** The confirm action: the model receives the input as typed, surrounding
    * whitespace included. */
  method Confirm(model: Teleprompter.TeleprompterModel, inputText: string)
    requires ConfirmEnabled(inputText)
    requires model.Valid()
    modifies model
    ensures model.Valid()
    ensures model.State() == old(model.State()).(text := inputText, position := 0.0,
                                                 totalTime := Teleprompter.TotalTimeFor(|inputText|))
  {
    model.SetText(inputText);
  }
}
