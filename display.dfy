/**
  The clock text of the timer page (`TimerPage._on_tick`): the remaining
  seconds split into whole minutes and seconds with Python's floor `//` and
  `%`, each printed with the format `02d`.
*/
module Display {

  import opened Arith
  import opened Engine

  /** `(remaining // 60, remaining % 60)`.  For the positive divisor 60,
      Dafny's Euclidean `/` and `%` agree with Python's floor division, also
      for negative `remaining`. */
  function ClockSplit(remaining: int): (r: (int, int))
    ensures r.0 * 60 + r.1 == remaining && 0 <= r.1 < 60
  {
    (remaining / 60, remaining % 60)
  }

  /** The split is the only one with seconds in [0, 60). */
  lemma ClockSplitUnique(remaining: int, minutes: int, seconds: int)
    requires minutes * 60 + seconds == remaining && 0 <= seconds < 60
    ensures ClockSplit(remaining) == (minutes, seconds)
  {
    DivModUnique(remaining, minutes, seconds, 60);
  }

  /** A phase with its full time left shows its configured minutes and
      zero seconds. */
  lemma FullPhaseShowsWholeMinutes(c: Config, m: Mode)
    ensures ClockSplit(TotalSeconds(c, m)) == (DurationForMode(c, m), 0)
  {
    ClockSplitUnique(TotalSeconds(c, m), DurationForMode(c, m), 0);
  }

  function DigitChar(d: int): char
    requires 0 <= d < 10
  {
    ('0' as int + d) as char
  }

  function DigitValue(c: char): int {
    c as int - '0' as int
  }

  /** The decimal digits of `n`, without leading zeros. */
  function DecimalString(n: nat): (r: string)
    ensures |r| >= 1 && (n >= 10 ==> |r| >= 2)
    ensures forall i :: 0 <= i < |r| ==> '0' <= r[i] <= '9'
    decreases n
  {
    if n < 10 then [DigitChar(n)] else DecimalString(n / 10) + [DigitChar(n % 10)]
  }

  /** Python's `format(n, '02d')`: at least two characters, zero-padded
      after the sign; a negative number of one digit already has two. */
  function Format02(n: int): (r: string)
    ensures |r| >= 2
    ensures n >= 0 ==> forall i :: 0 <= i < |r| ==> '0' <= r[i] <= '9'
    ensures n < 0 ==> r[0] == '-'
  {
    if n < 0 then "-" + DecimalString(-n)
    else if n < 10 then ['0', DigitChar(n)]
    else DecimalString(n)
  }

  /** The text of the time label, `f"{minutes:02d}:{seconds:02d}"`. */
  function TimeLabel(remaining: int): (r: string)
    ensures |r| >= 5
    ensures |r| == |Format02(ClockSplit(remaining).0)| + 1 + |Format02(ClockSplit(remaining).1)|
    ensures r[|Format02(ClockSplit(remaining).0)|] == ':'
  {
    var (minutes, seconds) := ClockSplit(remaining);
    Format02(minutes) + ":" + Format02(seconds)
  }

  /** Reads back a five-character label `MM:SS` as seconds. */
  function ParseTimeLabel(s: string): int
    requires |s| == 5
  {
    (DigitValue(s[0]) * 10 + DigitValue(s[1])) * 60 + DigitValue(s[3]) * 10 + DigitValue(s[4])
  }

  lemma Format02TwoDigits(n: int)
    requires 0 <= n < 100
    ensures Format02(n) == [DigitChar(n / 10), DigitChar(n % 10)]
  {
    if n >= 10 {
      assert DecimalString(n / 10) == [DigitChar(n / 10)];
    }
  }

  /** Below 100 minutes the label is exactly `MM:SS`, and reading it back
      gives the remaining seconds again. */
  lemma TimeLabelRoundTrip(remaining: int)
    requires 0 <= remaining < 6000
    ensures |TimeLabel(remaining)| == 5 && TimeLabel(remaining)[2] == ':'
    ensures ParseTimeLabel(TimeLabel(remaining)) == remaining
  {
    var (minutes, seconds) := ClockSplit(remaining);
    assert 0 <= minutes < 100;
    Format02TwoDigits(minutes);
    Format02TwoDigits(seconds);
    var s := TimeLabel(remaining);
    assert s == [DigitChar(minutes / 10), DigitChar(minutes % 10), ':', DigitChar(seconds / 10), DigitChar(seconds % 10)];
    assert DigitValue(s[0]) * 10 + DigitValue(s[1]) == minutes;
    assert DigitValue(s[3]) * 10 + DigitValue(s[4]) == seconds;
  }
}
