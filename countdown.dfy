/**
 * The two computations of the circular countdown: the remaining time as an
 * `HH:MM:SS` string and the share of the interval still to wait, as a
 * percentage clamped to [0, 100].
 */
module Countdown {
  import opened Common
  import Mining
  import UseMining

  /** The `totalTime` used when the caller passes none: three hours in milliseconds. */
  const DefaultTotalTimeMs: int := 3 * 60 * 60 * 1000

  /**
   * The default total is the server's claim interval, so the ring the mining
   * widget draws without a `totalTime` is full when the hook restarts its
   * countdown after a claim.
   */
  lemma DefaultTotalIsClaimInterval()
    ensures DefaultTotalTimeMs == Mining.IntervalMs
    ensures Percentage(UseMining.ClaimedCountdownMs, DefaultTotalTimeMs) == 100.0
  {
  }

  /** JavaScript's `%` on integers: the remainder takes the sign of the dividend. */
  function JsRem(a: int, b: int): (r: int)
    requires b > 0
    ensures a >= 0 ==> r == a % b
    ensures a < 0 ==> -b < r <= 0
    ensures a < 0 ==> r == a - b * (-((-a) / b))
  {
    if a >= 0 then a % b else -((-a) % b)
  }

  datatype Clock = Clock(hours: int, minutes: int, seconds: int)

  /**
   * The three numbers `formatTime` prints. `Math.floor(x / k)` for a positive
   * `k` is Dafny's integer division, which also rounds down.
   */
  function ClockOf(ms: int): Clock {
    var totalSeconds := ms / 1000;
    Clock(totalSeconds / 3600, JsRem(totalSeconds, 3600) / 60, JsRem(totalSeconds, 60))
  }

  function DigitChar(d: int): (c: char)
    requires 0 <= d < 10
    ensures '0' <= c <= '9'
  {
    ('0' as int + d) as char
  }

  /** `n.toString()` for a natural number: decimal digits, most significant first. */
  function NatToString(n: nat): (s: string)
    ensures 1 <= |s|
    ensures forall i :: 0 <= i < |s| ==> '0' <= s[i] <= '9'
    decreases n
  {
    if n < 10 then [DigitChar(n)] else NatToString(n / 10) + [DigitChar(n % 10)]
  }

  /** `n.toString()` for any integer. */
  function IntToString(n: int): (s: string)
    ensures 1 <= |s|
  {
    if n < 0 then "-" + NatToString(-n) else NatToString(n)
  }

  /** `s.padStart(width, fill)` with a one-character filler. */
  function PadStart(s: string, width: nat, fill: char): (r: string)
    ensures |r| == if |s| >= width then |s| else width
    ensures r[|r| - |s|..] == s
    ensures forall i :: 0 <= i < |r| - |s| ==> r[i] == fill
  {
    if |s| >= width then s else seq(width - |s|, _ => fill) + s
  }

  function Pad2(n: int): string {
    PadStart(IntToString(n), 2, '0')
  }

  /** `formatTime(ms)`. */
  function FormatTime(ms: int): string {
    var c := ClockOf(ms);
    Pad2(c.hours) + ":" + Pad2(c.minutes) + ":" + Pad2(c.seconds)
  }

  /** The remainder by 60 of a number written as 60·k + s with 0 ≤ s < 60 is s. */
  lemma ModSixty(t: int, k: int, s: int)
    requires t == 60 * k + s && 0 <= s < 60
    ensures t % 60 == s
  {
  }

  /** For a non-negative input the fields are the hours, minutes and seconds of the whole seconds in `ms`. */
  lemma ClockFields(ms: int)
    requires ms >= 0
    ensures var c := ClockOf(ms);
      && c.hours >= 0 && 0 <= c.minutes < 60 && 0 <= c.seconds < 60
      && c.hours * 3600 + c.minutes * 60 + c.seconds == ms / 1000
  {
    var t := ms / 1000;
    assert t >= 0;
    var h, r := t / 3600, t % 3600;
    assert t == 3600 * h + r && 0 <= r < 3600;
    var m, sec := r / 60, r % 60;
    assert r == 60 * m + sec && 0 <= sec < 60 && 0 <= m < 60;
    ModSixty(t, 60 * h + m, sec);
    assert JsRem(t, 3600) == r && JsRem(t, 60) == sec;
    assert ClockOf(ms) == Clock(h, m, sec);
  }

  lemma PadOne(c: char)
    ensures PadStart([c], 2, '0') == ['0', c]
  {
    assert seq(1, _ => '0') == ['0'];
  }

  lemma PadFull(a: char, b: char)
    ensures PadStart([a, b], 2, '0') == [a, b]
  {
  }

  /** A number below 100 prints as exactly two digits. */
  lemma TwoDigits(n: int)
    requires 0 <= n < 100
    ensures Pad2(n) == [DigitChar(n / 10), DigitChar(n % 10)]
  {
    if n < 10 {
      assert IntToString(n) == [DigitChar(n)];
      PadOne(DigitChar(n));
      assert n / 10 == 0 && n % 10 == n;
    } else {
      var hi, lo := n / 10, n % 10;
      assert 1 <= hi < 10 && 0 <= lo < 10;
      assert NatToString(hi) == [DigitChar(hi)];
      assert IntToString(n) == [DigitChar(hi)] + [DigitChar(lo)];
      assert [DigitChar(hi)] + [DigitChar(lo)] == [DigitChar(hi), DigitChar(lo)];
      PadFull(DigitChar(hi), DigitChar(lo));
    }
  }

  /** Every field is padded to at least two characters, so no output is shorter than `HH:MM:SS`. */
  lemma FormatLength(ms: int)
    ensures |Pad2(ClockOf(ms).hours)| >= 2 && |Pad2(ClockOf(ms).minutes)| >= 2 && |Pad2(ClockOf(ms).seconds)| >= 2
    ensures |FormatTime(ms)| >= 8
  {
  }

  function DigitValue(c: char): int {
    c as int - '0' as int
  }

  /** Reads an `HH:MM:SS` string back into its three numbers. */
  function ParseClock(s: string): (r: Option<Clock>)
    ensures r.Some? ==> |s| == 8 && s[2] == ':' && s[5] == ':'
  {
    if |s| == 8 && s[2] == ':' && s[5] == ':'
       && IsDigit(s[0]) && IsDigit(s[1]) && IsDigit(s[3]) && IsDigit(s[4]) && IsDigit(s[6]) && IsDigit(s[7])
    then Some(Clock(DigitValue(s[0]) * 10 + DigitValue(s[1]),
                    DigitValue(s[3]) * 10 + DigitValue(s[4]),
                    DigitValue(s[6]) * 10 + DigitValue(s[7])))
    else None
  }

  /** The value of a two-character field. */
  function PairValue(a: string): int
    requires |a| == 2
  {
    DigitValue(a[0]) * 10 + DigitValue(a[1])
  }

  /** A number below 100 prints as two digits that read back as the number. */
  lemma PrintedPair(n: int)
    requires 0 <= n < 100
    ensures |Pad2(n)| == 2 && IsDigit(Pad2(n)[0]) && IsDigit(Pad2(n)[1])
    ensures PairValue(Pad2(n)) == n
  {
    TwoDigits(n);
  }

  /** Three two-digit fields joined with `:` parse back field by field. */
  lemma ParseJoined(a: string, b: string, c: string)
    requires |a| == 2 && |b| == 2 && |c| == 2
    requires IsDigit(a[0]) && IsDigit(a[1]) && IsDigit(b[0]) && IsDigit(b[1]) && IsDigit(c[0]) && IsDigit(c[1])
    ensures |a + ":" + b + ":" + c| == 8
    ensures ParseClock(a + ":" + b + ":" + c) == Some(Clock(PairValue(a), PairValue(b), PairValue(c)))
  {
    var s := a + ":" + b + ":" + c;
    assert s[0] == a[0] && s[1] == a[1] && s[2] == ':';
    assert s[3] == b[0] && s[4] == b[1] && s[5] == ':';
    assert s[6] == c[0] && s[7] == c[1];
  }

  /** Below 100 hours the output is eight characters `HH:MM:SS`, and reading it back gives the three fields. */
  lemma FormatTimeRoundTrip(ms: int)
    requires ms >= 0
    requires ClockOf(ms).hours < 100
    ensures |FormatTime(ms)| == 8 && FormatTime(ms)[2] == ':' && FormatTime(ms)[5] == ':'
    ensures ParseClock(FormatTime(ms)) == Some(ClockOf(ms))
  {
    var c := ClockOf(ms);
    ClockFields(ms);
    PrintedPair(c.hours);
    PrintedPair(c.minutes);
    PrintedPair(c.seconds);
    ParseJoined(Pad2(c.hours), Pad2(c.minutes), Pad2(c.seconds));
  }

  /** A negative input (never produced by the hook) prints every field as `-1`: JavaScript's `%` keeps the sign. */
  lemma NegativeInputExample()
    ensures ClockOf(-500) == Clock(-1, -1, -1)
    ensures FormatTime(-500) == "-1:-1:-1"
  {
    assert NatToString(1) == "1";
    assert IntToString(-1) == "-1";
  }

  /**
   * The ring's fill, `Math.max(0, Math.min(100, timeRemaining / totalTime * 100))`.
   * `totalTime` is positive: the only caller passes the default.
   */
  function Percentage(timeRemaining: int, totalTime: int): (p: real)
    requires totalTime > 0
    ensures 0.0 <= p <= 100.0
    ensures timeRemaining >= totalTime ==> p == 100.0
    ensures timeRemaining <= 0 ==> p == 0.0
    ensures 0 <= timeRemaining <= totalTime ==> p * totalTime as real == timeRemaining as real * 100.0
  {
    var ratio := timeRemaining as real / totalTime as real * 100.0;
    var capped := if ratio < 100.0 then ratio else 100.0;
    if capped > 0.0 then capped else 0.0
  }

  /** More time remaining never shows a smaller fill. */
  lemma PercentageMonotone(a: int, b: int, totalTime: int)
    requires totalTime > 0
    requires a <= b
    ensures Percentage(a, totalTime) <= Percentage(b, totalTime)
  {
    var t := totalTime as real;
    assert a as real / t <= b as real / t by {
      assert (b as real - a as real) / t >= 0.0;
    }
  }
}
