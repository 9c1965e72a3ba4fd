/** immich/types.go: printing and parsing a video's length. Lengths are nanoseconds. */
module Durations {
  import opened Basics
  import opened Text

  const MILLISECOND: nat := 1_000_000
  const SECOND: nat := 1_000_000_000
  const INT64_MAX: int := 0x7FFF_FFFF_FFFF_FFFF

  /** int64 arithmetic wraps around. */
  function Wrap64(x: int): int {
    var r := x % 0x1_0000_0000_0000_0000;
    if r > INT64_MAX then r - 0x1_0000_0000_0000_0000 else r
  }

  /** strconv.Atoi of a digit string, its error ignored: out of range it yields the largest int. */
  function AtoiOrMax(s: string): int
    requires AllDigits(s)
  {
    if Value(s) > INT64_MAX then INT64_MAX else Value(s)
  }

  predicate DigitsOnly(s: string) { s != "" && AllDigits(s) }

  /** parseClockDuration: "H:MM:SS[.fff...]", 0 for anything malformed. */
  function ParseClock(s: string): int {
    var (h, rest, ok) := Cut(s, ':');
    if !ok then 0
    else
      var (m, sec, ok') := Cut(rest, ':');
      if !ok' || |m| != 2 then 0
      else
        var (whole, frac, _) := Cut(sec, '.');
        FieldsTotal(h, m, whole, frac)
  }

  /** The same once it is cut into its fields. */
  function FieldsTotal(h: string, m: string, whole: string, frac: string): int {
    if |whole| != 2 || !DigitsOnly(h) || !DigitsOnly(m) || !DigitsOnly(whole) || (frac != "" && !DigitsOnly(frac)) then
      0
    else
      var d := Clock(AtoiOrMax(h), AtoiOrMax(m), AtoiOrMax(whole));
      if frac == "" then d else Wrap64(d + AtoiOrMax((frac + "000000000")[..9]))
  }

  function Clock(hours: int, mins: int, secs: int): int {
    Wrap64(hours * 3600 * SECOND + mins * 60 * SECOND + secs * SECOND)
  }

  /** DLNADuration: "H+:MM:SS.fff", or nothing for photos and unknown lengths. */
  function DlnaDuration(video: bool, d: int): string {
    if !video || d <= 0 then ""
    else
      var ms := d / MILLISECOND;
      Itoa(ms / 3600000) + ":" + Two(ms / 60000 % 60) + ":" + Two(ms / 1000 % 60) + "." + Three(ms % 1000)
  }

  /** %02d of a number below 100. */
  function Two(n: nat): (s: string)
    requires n < 100
    ensures |s| == 2 && DigitsOnly(s) && Value(s) == n
  {
    assert Pow10(2) == 100;
    ValueOfPadded(n, 2);
    DigitsAtMost(n, 2);
    ZeroPaddedIs(n, 2);
    ZeroPadded(n, 2)
  }

  /** %03d of a number below 1000. */
  function Three(n: nat): (s: string)
    requires n < 1000
    ensures |s| == 3 && DigitsOnly(s) && Value(s) == n
  {
    assert Pow10(3) == 1000;
    ValueOfPadded(n, 3);
    DigitsAtMost(n, 3);
    ZeroPaddedIs(n, 3);
    ZeroPadded(n, 3)
  }

  lemma ZeroPaddedIs(n: nat, w: nat)
    requires w > 0 && n < Pow10(w)
    ensures ZeroPadded(n, w) == Padded(n, w)
  {
    DigitsAtMost(n, w);
  }

  lemma Joined(h: string, m: string, whole: string, frac: string)
    ensures h + ":" + m + ":" + whole + "." + frac == h + [':'] + (m + [':'] + (whole + ['.'] + frac))
  {
  }

  lemma CutClock(h: string, m: string, whole: string, frac: string)
    requires DigitsOnly(h) && DigitsOnly(m) && DigitsOnly(whole)
    ensures var sec := whole + ['.'] + frac; var rest := m + [':'] + sec;
      Cut(h + [':'] + rest, ':') == (h, rest, true) &&
      Cut(rest, ':') == (m, sec, true) && Cut(sec, '.') == (whole, frac, true)
  {
    CutAt(h, ':', m + [':'] + (whole + ['.'] + frac));
    CutAt(m, ':', whole + ['.'] + frac);
    CutAt(whole, '.', frac);
  }

  /** How ParseClock takes a well-formed clock apart. */
  lemma ClockParts(h: string, m: string, whole: string, frac: string, total: int)
    requires DigitsOnly(h) && DigitsOnly(m) && DigitsOnly(whole) && |m| == 2 && FieldsTotal(h, m, whole, frac) == total
    ensures ParseClock(h + [':'] + (m + [':'] + (whole + ['.'] + frac))) == total
  {
    CutClock(h, m, whole, frac);
  }

  lemma PartsTotal(h: string, m: string, whole: string, frac: string, total: int)
    requires DigitsOnly(h) && DigitsOnly(m) && DigitsOnly(whole) && DigitsOnly(frac) && |whole| == 2
    requires total == Wrap64(Clock(AtoiOrMax(h), AtoiOrMax(m), AtoiOrMax(whole)) + AtoiOrMax((frac + "000000000")[..9]))
    ensures FieldsTotal(h, m, whole, frac) == total
  {}

  /** Three digits of a fraction are so many milliseconds. */
  lemma FractionIs(n: nat)
    requires n < 1000
    ensures AtoiOrMax((Three(n) + "000000000")[..9]) == n * MILLISECOND
  {
    NineDigits(Three(n));
    SixZeros();
    ValueConcat(Three(n), "000000");
  }

  lemma NineDigits(three: string)
    requires |three| == 3
    ensures (three + "000000000")[..9] == three + "000000"
  {
  }

  lemma SixZeros()
    ensures Value("000000") == 0 && AllDigits("000000") && Pow10(6) == MILLISECOND
  {
    var zeros := "000000";
    assert zeros[1..] == "00000" && "00000"[1..] == "0000" &&
      "0000"[1..] == "000" && "000"[1..] == "00" && "00"[1..] == "0";
    assert Value("0") == 0 && Value("00") == 0 && Value("000") == 0;
    assert Value("0000") == 0 && Value("00000") == 0;
  }

  lemma ClockAddsUp(ms: nat)
    ensures ms / 3600000 * 3600000 + ms / 60000 % 60 * 60000 + ms / 1000 % 60 * 1000 + ms % 1000 == ms
  {
    assert ms / 1000 / 60 == ms / 60000 && ms / 60000 / 60 == ms / 3600000;
  }

  /** No overflow: the parts of a length that fits int64 add up in int64. */
  lemma PartsAddUp(a: nat, b: nat, c: nat, e: nat, ms: nat)
    requires a * 3600000 + b * 60000 + c * 1000 + e == ms && ms * MILLISECOND <= INT64_MAX
    ensures Wrap64(Clock(a, b, c) + e * MILLISECOND) == ms * MILLISECOND
  {
    assert a * 3600 * SECOND + b * 60 * SECOND + c * SECOND + e * MILLISECOND == ms * MILLISECOND;
  }

  lemma AtoiIs(s: string, v: nat)
    requires DigitsOnly(s) && Value(s) == v <= INT64_MAX
    ensures AtoiOrMax(s) == v
  {
  }

  lemma PartsFit(a: nat, b: nat, c: nat, e: nat, ms: nat)
    requires a * 3600000 + b * 60000 + c * 1000 + e == ms && ms * MILLISECOND <= INT64_MAX
    ensures a <= INT64_MAX && b <= INT64_MAX && c <= INT64_MAX
  {
  }

  /** What the parts of a printed length add up to. */
  lemma PrintedParts(h: string, m: string, whole: string, frac: string, a: nat, b: nat, c: nat, e: nat, ms: nat)
    requires DigitsOnly(h) && DigitsOnly(m) && DigitsOnly(whole) && DigitsOnly(frac)
    requires Value(h) == a && Value(m) == b && Value(whole) == c
    requires AtoiOrMax((frac + "000000000")[..9]) == e * MILLISECOND
    requires a * 3600000 + b * 60000 + c * 1000 + e == ms && ms * MILLISECOND <= INT64_MAX
    ensures Wrap64(Clock(AtoiOrMax(h), AtoiOrMax(m), AtoiOrMax(whole)) +
      AtoiOrMax((frac + "000000000")[..9])) == ms * MILLISECOND
  {
    PartsFit(a, b, c, e, ms);
    PartsAddUp(a, b, c, e, ms);
    AtoiIs(h, a);
    AtoiIs(m, b);
    AtoiIs(whole, c);
  }

  /** Parsing a printed length gives it back, truncated to milliseconds, for
      every length a Go duration can hold. */
  lemma ParsePrinted(d: int)
    requires 0 < d <= INT64_MAX
    ensures ParseClock(DlnaDuration(true, d)) == d / 1_000_000 * 1_000_000
  {
    var ms := d / MILLISECOND;
    var a, b, c, e := ms / 3600000, ms / 60000 % 60, ms / 1000 % 60, ms % 1000;
    ClockAddsUp(ms);
    ParseParts(a, b, c, e, ms);
    PrintedIs(d);
  }

  lemma ParseParts(a: nat, b: nat, c: nat, e: nat, ms: nat)
    requires b < 60 && c < 60 && e < 1000
    requires a * 3600000 + b * 60000 + c * 1000 + e == ms && ms * MILLISECOND <= INT64_MAX
    ensures ParseClock(Itoa(a) + [':'] + (Two(b) + [':'] + (Two(c) + ['.'] + Three(e)))) == ms * MILLISECOND
  {
    ValueOfItoa(a);
    FractionIs(e);
    PrintedParts(Itoa(a), Two(b), Two(c), Three(e), a, b, c, e, ms);
    PartsTotal(Itoa(a), Two(b), Two(c), Three(e), ms * MILLISECOND);
    ClockParts(Itoa(a), Two(b), Two(c), Three(e), ms * MILLISECOND);
  }

  lemma PrintedIs(d: int)
    requires d > 0
    ensures var ms := d / MILLISECOND;
      DlnaDuration(true, d) ==
      Itoa(ms / 3600000) + [':'] + (Two(ms / 60000 % 60) + [':'] + (Two(ms / 1000 % 60) + ['.'] + Three(ms % 1000)))
  {
    var ms := d / MILLISECOND;
    Joined(Itoa(ms / 3600000), Two(ms / 60000 % 60), Two(ms / 1000 % 60), Three(ms % 1000));
  }

  /** Only photos and videos without a length have no duration printed. */
  lemma PrintedIff(video: bool, d: int)
    ensures DlnaDuration(video, d) == "" <==> !video || d <= 0
  {
    if video && d > 0 {
      PrintedIs(d);
    }
  }

  // ----- every string -----

  /** s is h:m:whole, with or without a dot and a fraction after it. */
  predicate IsClock(s: string, h: string, m: string, whole: string, frac: string) {
    && DigitsOnly(h) && DigitsOnly(m) && DigitsOnly(whole) && |m| == 2 && |whole| == 2
    && (frac == "" || DigitsOnly(frac))
    && (s == h + [':'] + (m + [':'] + (whole + ['.'] + frac)) || (frac == "" && s == h + [':'] + (m + [':'] + whole)))
  }

  /** Anything but a clock counts as no length. */
  lemma NonzeroIsClock(s: string) returns (h: string, m: string, whole: string, frac: string)
    requires ParseClock(s) != 0
    ensures IsClock(s, h, m, whole, frac)
  {
    h := Cut(s, ':').0;
    var rest := Cut(s, ':').1;
    m := Cut(rest, ':').0;
    var sec := Cut(rest, ':').1;
    whole, frac := Cut(sec, '.').0, Cut(sec, '.').1;
  }

  /** Billionths in a fraction: its first nine digits, filled up with zeros. */
  function Nanos(frac: string): nat
    requires AllDigits(frac)
  {
    if |frac| <= 9 then Value(frac) * Pow10(9 - |frac|) else Value(frac[..9])
  }

  lemma {:induction false} ZerosAreZero(z: string)
    requires forall i | 0 <= i < |z| :: z[i] == '0'
    ensures AllDigits(z) && Value(z) == 0
  {
    if z != "" {
      ZerosAreZero(z[1..]);
    }
  }

  lemma NanosIs(frac: string)
    requires AllDigits(frac)
    ensures AllDigits((frac + "000000000")[..9]) && Value((frac + "000000000")[..9]) == Nanos(frac)
  {
    if |frac| <= 9 {
      var z := "000000000"[..9 - |frac|];
      assert (frac + "000000000")[..9] == frac + z;
      ZerosAreZero(z);
      ValueConcat(frac, z);
    } else {
      assert (frac + "000000000")[..9] == frac[..9];
    }
  }

  /** The length that hours, minutes, seconds and nanoseconds make. */
  function Length(a: nat, b: nat, c: nat, n: nat): nat { ((a * 60 + b) * 60 + c) * SECOND + n }

  lemma SumFits(a: nat, b: nat, c: nat, n: nat)
    requires Length(a, b, c, n) <= INT64_MAX
    ensures Clock(a, b, c) == Length(a, b, c, 0) && Wrap64(Clock(a, b, c) + n) == Length(a, b, c, n)
    ensures a <= INT64_MAX && b <= INT64_MAX && c <= INT64_MAX && n <= INT64_MAX
  {
    assert a * 3600 * SECOND + b * 60 * SECOND + c * SECOND == Length(a, b, c, 0);
  }

  lemma FieldsAre(h: string, m: string, whole: string, frac: string, a: nat, b: nat, c: nat, n: nat)
    requires DigitsOnly(h) && DigitsOnly(m) && DigitsOnly(whole) && |whole| == 2
    requires AtoiOrMax(h) == a && AtoiOrMax(m) == b && AtoiOrMax(whole) == c && Length(a, b, c, n) <= INT64_MAX
    requires if frac == "" then n == 0
      else DigitsOnly(frac) && AllDigits((frac + "000000000")[..9]) && AtoiOrMax((frac + "000000000")[..9]) == n
    ensures FieldsTotal(h, m, whole, frac) == Length(a, b, c, n)
  {
    SumFits(a, b, c, n);
  }

  lemma NanosFits(frac: string, n: nat)
    requires AllDigits(frac) && n == Nanos(frac) <= INT64_MAX
    ensures AllDigits((frac + "000000000")[..9]) && AtoiOrMax((frac + "000000000")[..9]) == n
    ensures frac == "" ==> n == 0
  {
    NanosIs(frac);
  }

  lemma ClockTotal(h: string, m: string, whole: string, frac: string, a: nat, b: nat, c: nat, n: nat)
    requires DigitsOnly(h) && DigitsOnly(m) && DigitsOnly(whole) && |whole| == 2 && (frac == "" || DigitsOnly(frac))
    requires Value(h) == a && Value(m) == b && Value(whole) == c && Nanos(frac) == n && Length(a, b, c, n) <= INT64_MAX
    ensures FieldsTotal(h, m, whole, frac) == Length(a, b, c, n)
  {
    SumFits(a, b, c, n);
    AtoiIs(h, a);
    AtoiIs(m, b);
    AtoiIs(whole, c);
    NanosFits(frac, n);
    FieldsAre(h, m, whole, frac, a, b, c, n);
  }

  /** A clock is its hours, minutes and seconds, minutes and seconds above 59
      counted as they are, and the fraction to nine digits, if that fits a Go duration. */
  lemma ClockValue(s: string, h: string, m: string, whole: string, frac: string)
    requires IsClock(s, h, m, whole, frac)
    requires Length(Value(h), Value(m), Value(whole), Nanos(frac)) <= INT64_MAX
    ensures ParseClock(s) == ((Value(h) * 60 + Value(m)) * 60 + Value(whole)) * 1_000_000_000 + Nanos(frac)
  {
    ClockTotal(h, m, whole, frac, Value(h), Value(m), Value(whole), Nanos(frac));
    if s == h + [':'] + (m + [':'] + (whole + ['.'] + frac)) {
      ClockParts(h, m, whole, frac, FieldsTotal(h, m, whole, frac));
    } else {
      CutAt(h, ':', m + [':'] + whole);
      CutAt(m, ':', whole);
      CutNone(whole, '.');
    }
  }
}
