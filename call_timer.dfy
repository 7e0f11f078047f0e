/**
 The text of the call-duration display (client/script.js, `startCallTimer` and
 `stopCallTimer`). Elapsed time is a whole number of milliseconds; it is split into whole
 minutes and the seconds left over, each written in decimal and left-padded with `0` to
 at least two characters.
 */
module CallTimer {
  import opened JsText

  const TimerPrefix: string := "Call Duration: "

  /** The text `stopCallTimer` writes. */
  const ResetTimerText: string := "Call Duration: 00:00"

  /** `Math.floor(elapsed / 60000)`: the whole minutes elapsed. */
  function Minutes(elapsed: nat): (m: nat)
    ensures m * 60000 <= elapsed < m * 60000 + 60000
  {
    elapsed / 60000
  }

  /** `Math.floor((elapsed % 60000) / 1000)`: the whole seconds past the last full minute. */
  function Seconds(elapsed: nat): (s: nat)
    ensures s < 60
    ensures Minutes(elapsed) * 60000 + s * 1000 <= elapsed < Minutes(elapsed) * 60000 + s * 1000 + 1000
  {
    (elapsed % 60000) / 1000
  }

  /** `n.toString().padStart(2, '0')`. */
  function TwoDigits(n: nat): string
  {
    PadStart(Decimal(n), 2, '0')
  }

  /** The timer text after `elapsed` milliseconds. */
  function FormatDuration(elapsed: nat): string
  {
    TimerPrefix + TwoDigits(Minutes(elapsed)) + ":" + TwoDigits(Seconds(elapsed))
  }

  /** Below 100 a number is written with at most two digits, so padding to two is exact. */
  lemma TwoDigitsExact(n: nat)
    requires n < 100
    ensures |TwoDigits(n)| == 2
  {
    DecimalDigits(n);
    PadStartSpec(Decimal(n), 2, '0');
    if n >= 10 {
      assert Decimal(n) == Decimal(n / 10) + [DigitChar(n % 10)];
    }
  }

  /** Every padded field is at least two digits long and reads back as its number. */
  lemma TwoDigitsReadsBack(n: nat)
    ensures |TwoDigits(n)| >= 2 && AllDigits(TwoDigits(n))
    ensures DigitsValue(TwoDigits(n)) == n
  {
    DecimalRoundTrip(n);
    PadStartSpec(Decimal(n), 2, '0');
    ZeroPadValue(Decimal(n), 2);
  }

  /**
   The display reads back as the minutes and seconds of `elapsed`: after the fixed
   prefix come at least two digits of minutes, a colon and exactly two digits of
   seconds.
   */
  lemma FormatDurationReadsBack(elapsed: nat)
    ensures var r := FormatDuration(elapsed);
      && |r| >= |TimerPrefix| + 5
      && r[..|TimerPrefix|] == TimerPrefix
      && r[|r| - 3] == ':'
      && AllDigits(r[|TimerPrefix|..|r| - 3])
      && DigitsValue(r[|TimerPrefix|..|r| - 3]) == Minutes(elapsed)
      && AllDigits(r[|r| - 2..])
      && DigitsValue(r[|r| - 2..]) == Seconds(elapsed)
  {
    var mm, ss := TwoDigits(Minutes(elapsed)), TwoDigits(Seconds(elapsed));
    TwoDigitsReadsBack(Minutes(elapsed));
    TwoDigitsReadsBack(Seconds(elapsed));
    TwoDigitsExact(Seconds(elapsed));
    var r := FormatDuration(elapsed);
    assert r == TimerPrefix + mm + ":" + ss;
    assert r[..|TimerPrefix|] == TimerPrefix;
    assert r[|TimerPrefix|..|r| - 3] == mm;
    assert r[|r| - 2..] == ss;
  }

  lemma TwoDigitsZero()
    ensures TwoDigits(0) == "00"
  {
    assert Decimal(0) == "0";
  }

  /** Two instants with the same display text lie in the same minute and second. */
  lemma FormatDurationInjective(e1: nat, e2: nat)
    requires FormatDuration(e1) == FormatDuration(e2)
    ensures Minutes(e1) == Minutes(e2) && Seconds(e1) == Seconds(e2)
  {
    FormatDurationReadsBack(e1);
    FormatDurationReadsBack(e2);
  }

  lemma FirstSecondShowsResetText(elapsed: nat)
    requires elapsed < 1000
    ensures FormatDuration(elapsed) == ResetTimerText
  {
    assert Minutes(elapsed) == 0 && Seconds(elapsed) == 0;
    TwoDigitsZero();
  }

  /** The display shows the reset text exactly during the first second. */
  lemma FormatDurationIsResetText(elapsed: nat)
    ensures FormatDuration(elapsed) == ResetTimerText <==> elapsed < 1000
  {
    FirstSecondShowsResetText(0);
    if FormatDuration(elapsed) == ResetTimerText {
      FormatDurationInjective(elapsed, 0);
    }
    if elapsed < 1000 {
      FirstSecondShowsResetText(elapsed);
    }
  }
}
