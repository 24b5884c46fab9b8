/** The "m:ss" clock text that `TeleprompterModel.formattedTime` and
  * `TeleprompterSettings.formatTime` both render with
  * `String(format: "%d:%02d", Int(t) / 60, Int(t) % 60)`. */
module ClockText {
  import opened Numeric
  import opened Wrappers

  /** `Int(t) / 60`, Swift's truncating division. */
  function WholeMinutes(t: real): int {
    Quot(Trunc(t), 60)
  }

  /** `Int(t) % 60`, Swift's remainder, negative for negative `t`. */
  function SecondsField(t: real): int {
    Rem(Trunc(t), 60)
  }

  /** `"%d:%02d"` applied to the two fields. */
  function Clock(t: real): string {
    IntText(WholeMinutes(t)) + ":" + Pad2(SecondsField(t))
  }

  /** Reads a clock text "m:ss" back as a number of seconds: digits, a colon,
    * and exactly two digits; anything else is not a clock text. */
  function ClockSeconds(s: string): Option<int> {
    if |s| >= 4 && s[|s| - 3] == ':' && AllDigits(s[..|s| - 3]) && AllDigits(s[|s| - 2..])
    then Some(DigitsValue(s[..|s| - 3]) * 60 + DigitsValue(s[|s| - 2..]))
    else None
  }

  /** For a non-negative time the fields split the whole seconds: the seconds
    * lie in [0, 59] and minutes * 60 + seconds is `Int(t)`. */
  lemma SplitWholeSeconds(t: real)
    requires t >= 0.0
    ensures 0 <= SecondsField(t) < 60
    ensures 0 <= WholeMinutes(t)
    ensures WholeMinutes(t) * 60 + SecondsField(t) == Trunc(t)
    ensures Trunc(t) as real <= t < Trunc(t) as real + 1.0
  {
  }

  /** For a non-negative time the text is the minutes, a colon and two digits
    * of seconds, and reading it back gives the whole seconds `Int(t)`. */
  lemma ClockRoundTrip(t: real)
    requires t >= 0.0
    ensures |Clock(t)| >= 4 && Clock(t)[|Clock(t)| - 3] == ':'
    ensures |Pad2(SecondsField(t))| == 2
    ensures ClockSeconds(Clock(t)) == Some(Trunc(t))
  {
    var m, sec := WholeMinutes(t), SecondsField(t);
    NatTextRoundTrip(m);
    Pad2TwoDigits(sec);
    var s := Clock(t);
    var head := IntText(m);
    assert s == head + ":" + Pad2(sec);
    assert s[..|s| - 3] == head;
    assert s[|s| - 2..] == Pad2(sec);
  }

  /** A time of -1 s or less renders with a minus sign in the minutes or the
    * seconds field (Swift's `/` and `%` keep the sign; -60 s is "-1:00"), so
    * it is not a clock text. */
  lemma NegativeTimeIsNoClockText(t: real)
    requires t <= -1.0
    ensures SecondsField(t) <= 0 && WholeMinutes(t) <= 0
    ensures ClockSeconds(Clock(t)) == None
  {
    var m, sec := WholeMinutes(t), SecondsField(t);
    var s := Clock(t);
    if sec == 0 {
      assert m < 0;
      assert s[0] == '-';
      assert |s| >= 4 ==> s[..|s| - 3][0] == '-';
    } else {
      NatTextRoundTrip(-sec);
      assert Pad2(sec) == "-" + NatText(-sec);
      if -sec < 10 {
        assert s[|s| - 2..] == Pad2(sec);
        assert s[|s| - 2..][0] == '-';
      } else {
        NatTextRoundTrip(-sec / 10);
        assert |Pad2(sec)| == 3;
        assert s[|s| - 3..] == Pad2(sec);
        assert s[|s| - 3] == '-';
      }
    }
  }
}
