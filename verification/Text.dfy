/** Strings as Go compares and prints them. */
module Text {
  import opened Basics

  /** strings.Compare(a, b) < 0 */
  predicate Before(a: string, b: string) {
    b != [] && (a == [] || a[0] < b[0] || (a[0] == b[0] && Before(a[1..], b[1..])))
  }

  lemma {:induction false} BeforeTotal(a: string, b: string)
    ensures !(Before(a, b) && Before(b, a))
    ensures a != b ==> Before(a, b) || Before(b, a)
    ensures !Before(a, a)
  {
    if a != [] {
      BeforeTotal(a[1..], a[1..]);
    }
    if a != [] && b != [] && a[0] == b[0] {
      BeforeTotal(a[1..], b[1..]);
      assert a == [a[0]] + a[1..] && b == [b[0]] + b[1..];
    }
  }

  lemma {:induction false} BeforeTransitive(a: string, b: string, c: string)
    requires Before(a, b) && Before(b, c)
    ensures Before(a, c)
  {
    if a != [] && a[0] == b[0] && b[0] == c[0] {
      BeforeTransitive(a[1..], b[1..], c[1..]);
    }
  }

  // ----- decimal numbers -----

  function Pow10(w: nat): (p: nat)
    ensures p > 0
  {
    if w == 0 then 1 else 10 * Pow10(w - 1)
  }

  predicate IsDigit(c: char) { '0' <= c <= '9' }

  function Digit(d: nat): (c: char)
    requires d < 10
    ensures IsDigit(c) && DigitValue(c) == d
  {
    '0' + d as char
  }

  function DigitValue(c: char): (d: nat)
    requires IsDigit(c)
    ensures d < 10
  {
    (c - '0') as nat
  }

  lemma DivMod(n: nat, p: nat)
    requires p > 0
    ensures n == n / p * p + n % p && n % p < p
  {}

  lemma MulMonotone(a: nat, b: nat, p: nat)
    requires a <= b
    ensures a * p <= b * p
  {}

  lemma LeadBelow(n: nat, p: nat)
    requires p > 0 && n < 10 * p
    ensures n / p < 10
  {
    DivMod(n, p);
    if n / p >= 10 {
      MulMonotone(10, n / p, p);
    }
  }

  /** The leading digit of n among w, and what follows it. */
  function Lead(n: nat, w: nat): (d: nat)
    requires w > 0 && n < Pow10(w)
    ensures d < 10
  {
    LeadBelow(n, Pow10(w - 1));
    n / Pow10(w - 1)
  }

  function Rest(n: nat, w: nat): (r: nat)
    requires w > 0 && n < Pow10(w)
    ensures r < Pow10(w - 1)
  {
    n % Pow10(w - 1)
  }

  lemma LeadRest(n: nat, w: nat)
    requires w > 0 && n < Pow10(w)
    ensures n == Lead(n, w) * Pow10(w - 1) + Rest(n, w)
  {
    DivMod(n, Pow10(w - 1));
  }

  /** n in exactly w digits. */
  function Padded(n: nat, w: nat): (s: string)
    requires n < Pow10(w)
    ensures |s| == w && forall i | 0 <= i < w :: IsDigit(s[i])
  {
    if w == 0 then "" else [Digit(Lead(n, w))] + Padded(Rest(n, w), w - 1)
  }

  predicate AllDigits(s: string) { forall i | 0 <= i < |s| :: IsDigit(s[i]) }

  /** The number a string of digits stands for. */
  function Value(s: string): nat
    requires AllDigits(s)
  {
    if s == "" then 0 else DigitValue(s[0]) * Pow10(|s| - 1) + Value(s[1..])
  }

  lemma ValueStep(d: nat, s: string)
    requires d < 10 && AllDigits(s)
    ensures AllDigits([Digit(d)] + s) && Value([Digit(d)] + s) == d * Pow10(|s|) + Value(s)
  {
    assert ([Digit(d)] + s)[1..] == s;
  }

  lemma {:induction false} ValueOfPadded(n: nat, w: nat)
    requires n < Pow10(w)
    ensures Value(Padded(n, w)) == n
  {
    if w > 0 {
      ValueOfPadded(Rest(n, w), w - 1);
      ValueStep(Lead(n, w), Padded(Rest(n, w), w - 1));
      LeadRest(n, w);
    }
  }

  lemma LeadingDigits(a: nat, r: nat, b: nat, q: nat, p: nat)
    requires r < p && q < p
    ensures a * p + r < b * p + q <==> a < b || (a == b && r < q)
    ensures a * p + r == b * p + q <==> a == b && r == q
  {
    if a < b {
      MulMonotone(a + 1, b, p);
    } else if b < a {
      MulMonotone(b + 1, a, p);
    }
  }

  lemma {:induction false} ValueBelow(s: string)
    requires AllDigits(s)
    ensures Value(s) < Pow10(|s|)
  {
    if s != "" {
      ValueBelow(s[1..]);
      MulMonotone(DigitValue(s[0]), 9, Pow10(|s| - 1));
    }
  }

  lemma CompareByLead(a: string, b: string)
    requires |a| == |b| > 0 && AllDigits(a) && AllDigits(b)
    ensures Value(a) < Value(b) <==> a[0] < b[0] || (a[0] == b[0] && Value(a[1..]) < Value(b[1..]))
    ensures Value(a) == Value(b) <==> a[0] == b[0] && Value(a[1..]) == Value(b[1..])
  {
    ValueBelow(a[1..]);
    ValueBelow(b[1..]);
    LeadingDigits(DigitValue(a[0]), Value(a[1..]), DigitValue(b[0]), Value(b[1..]), Pow10(|a| - 1));
  }

  /** Equally wide numbers compare as text the way they compare as numbers, whatever follows them. */
  lemma {:induction false} ValueOrder(a: string, b: string, s: string, t: string)
    requires |a| == |b| && AllDigits(a) && AllDigits(b)
    ensures Before(a + s, b + t) <==> Value(a) < Value(b) || (Value(a) == Value(b) && Before(s, t))
  {
    if a == "" {
      assert a + s == s && b + t == t;
    } else {
      ValueOrder(a[1..], b[1..], s, t);
      CompareByLead(a, b);
      assert (a + s)[1..] == a[1..] + s && (b + t)[1..] == b[1..] + t;
    }
  }

  lemma PaddedOrder(n: nat, m: nat, w: nat, s: string, t: string)
    requires n < Pow10(w) && m < Pow10(w)
    ensures Before(Padded(n, w) + s, Padded(m, w) + t) <==> n < m || (n == m && Before(s, t))
  {
    ValueOfPadded(n, w);
    ValueOfPadded(m, w);
    ValueOrder(Padded(n, w), Padded(m, w), s, t);
  }

  lemma {:induction false} Pow10Add(v: nat, w: nat)
    ensures Pow10(v + w) == Pow10(v) * Pow10(w)
  {
    if v > 0 {
      Pow10Add(v - 1, w);
    }
  }

  lemma Distribute(a: nat, p: nat, b: nat, q: nat)
    ensures (a * p + b) * q == a * (p * q) + b * q
  {}

  lemma {:induction false} ValueConcat(s: string, t: string)
    requires AllDigits(s) && AllDigits(t)
    ensures AllDigits(s + t) && Value(s + t) == Value(s) * Pow10(|t|) + Value(t)
  {
    if s == "" {
      assert s + t == t;
    } else {
      var d, v := DigitValue(s[0]), Value(s[1..]);
      ValueConcat(s[1..], t);
      Pow10Add(|s| - 1, |t|);
      Distribute(d, Pow10(|s| - 1), v, Pow10(|t|));
      assert (s + t)[1..] == s[1..] + t;
      assert Value(s + t) == d * Pow10(|s| - 1 + |t|) + Value(s[1..] + t);
    }
  }

  lemma {:induction false} ValueInjective(s: string, t: string)
    requires |s| == |t| && AllDigits(s) && AllDigits(t) && Value(s) == Value(t)
    ensures s == t
  {
    if s != "" {
      CompareByLead(s, t);
      ValueInjective(s[1..], t[1..]);
      assert s == [s[0]] + s[1..] && t == [t[0]] + t[1..];
    }
  }

  /** The last digit of n among w + 1. */
  lemma PaddedLast(n: nat, w: nat)
    requires n < Pow10(w + 1)
    ensures n / 10 < Pow10(w) && Padded(n, w + 1) == Padded(n / 10, w) + [Digit(n % 10)]
  {
    var last := [Digit(n % 10)];
    ValueOfPadded(n / 10, w);
    ValueOfPadded(n, w + 1);
    ValueConcat(Padded(n / 10, w), last);
    assert last[1..] == "";
    assert Value(last) == n % 10 && Pow10(1) == 10;
    ValueInjective(Padded(n, w + 1), Padded(n / 10, w) + last);
  }

  /** The number of decimal digits of n. */
  function Digits(n: nat): (w: nat)
    ensures w > 0 && n < Pow10(w)
  {
    if n < 10 then 1 else 1 + Digits(n / 10)
  }

  lemma {:induction false} DigitsAtLeast(n: nat, w: nat)
    requires n >= Pow10(w)
    ensures Digits(n) > w
  {
    if w > 0 {
      DigitsAtLeast(n / 10, w - 1);
    }
  }

  lemma {:induction false} DigitsAtMost(n: nat, w: nat)
    requires n < Pow10(w) && w > 0
    ensures Digits(n) <= w
  {
    if n >= 10 {
      DigitsAtMost(n / 10, w - 1);
    }
  }

  /** strconv.Itoa of a natural number, and fmt's %d. */
  function Itoa(n: nat): (s: string)
    ensures s != "" && AllDigits(s)
  {
    Padded(n, Digits(n))
  }

  lemma ValueOfItoa(n: nat)
    ensures Value(Itoa(n)) == n
  {
    ValueOfPadded(n, Digits(n));
  }

  /** fmt's %0wd of a natural number. */
  function ZeroPadded(n: nat, w: nat): string {
    Padded(n, if Digits(n) < w then PowMonotone(Digits(n), w); w else Digits(n))
  }

  lemma {:induction false} PowMonotone(v: nat, w: nat)
    requires v <= w
    ensures Pow10(v) <= Pow10(w)
  {
    if v < w {
      PowMonotone(v, w - 1);
    }
  }

  /** strings.Cut(s, sep) for a one-character separator. */
  function Cut(s: string, sep: char): (r: (string, string, bool))
    ensures r.2 <==> sep in s
    ensures sep !in r.0
    ensures if r.2 then s == r.0 + [sep] + r.1 else r.0 == s && r.1 == ""
  {
    if s == "" then ("", "", false)
    else if s[0] == sep then ("", s[1..], true)
    else
      var (before, after, found) := Cut(s[1..], sep);
      ([s[0]] + before, after, found)
  }

  lemma {:induction false} CutAt(a: string, sep: char, b: string)
    requires sep !in a
    ensures Cut(a + [sep] + b, sep) == (a, b, true)
  {
    var s := a + [sep] + b;
    if a == "" {
      assert s == [sep] + b;
      assert s[1..] == b;
    } else {
      assert s[1..] == a[1..] + [sep] + b;
      CutAt(a[1..], sep, b);
      assert a == [a[0]] + a[1..];
    }
  }

  lemma {:induction false} CutNone(a: string, sep: char)
    requires sep !in a
    ensures Cut(a, sep) == (a, "", false)
  {
    if a != "" {
      CutNone(a[1..], sep);
    }
  }
}
