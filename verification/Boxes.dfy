/** imageproc/resize.go: the size of a downscaled picture and the boxes of source pixels behind each of its pixels. */
module Boxes {

  // ----- the size, with real numbers for float64 -----

  function Scale(maxW: nat, maxH: nat, sw: nat, sh: nat): real
    requires sw > 0 && sh > 0
  {
    var scale := maxW as real / sw as real;
    var hScale := maxH as real / sh as real;
    if hScale < scale then hScale else scale
  }

  /** int(float64(n) * scale + 0.5), at least 1 */
  function Scaled(n: nat, scale: real): (r: nat)
    requires scale >= 0.0
    ensures r >= 1
  {
    Nonnegative(n, scale);
    var r := (n as real * scale + 0.5).Floor;
    if r < 1 then 1 else r
  }

  lemma Nonnegative(n: nat, scale: real)
    requires scale >= 0.0
    ensures n as real * scale >= 0.0
  {
  }

  /** Rounding the scaled size gives no more than a whole number it does not exceed. */
  lemma ScaledAtMost(n: nat, scale: real, limit: nat)
    requires scale >= 0.0 && limit >= 1 && n as real * scale <= limit as real
    ensures Scaled(n, scale) <= limit
    ensures n as real * scale == limit as real ==> Scaled(n, scale) == limit
  {
    Nonnegative(n, scale);
  }

  lemma ShareOf(part: nat, n: nat, scale: real)
    requires n > 0 && 0.0 <= scale <= part as real / n as real
    ensures n as real * scale <= part as real
    ensures scale == part as real / n as real ==> n as real * scale == part as real
  {
    var ratio := part as real / n as real;
    assert n as real * ratio == part as real;
    Multiply(n as real, scale, ratio);
  }

  lemma Multiply(n: real, x: real, y: real)
    requires n >= 0.0 && x <= y
    ensures n * x <= n * y
  {
  }

  lemma RatioPositive(part: nat, n: nat)
    requires n > 0
    ensures part as real / n as real >= 0.0
    ensures part < n ==> part as real / n as real <= 1.0
  {
  }

  predicate Oversized(sw: nat, sh: nat, maxW: nat, maxH: nat) { sw > maxW || sh > maxH }

  /** An oversized picture is shrunk: never to nothing, never beyond the limits or its
      own size, and to exactly the limit on one side. */
  lemma ShrinksToFit(sw: nat, sh: nat, maxW: nat, maxH: nat)
    requires sw >= 1 && sh >= 1 && maxW >= 1 && maxH >= 1 && Oversized(sw, sh, maxW, maxH)
    ensures Scale(maxW, maxH, sw, sh) >= 0.0
    ensures var scale := Scale(maxW, maxH, sw, sh); var dw, dh := Scaled(sw, scale), Scaled(sh, scale);
      && 1 <= dw <= maxW && 1 <= dh <= maxH
      && dw <= sw && dh <= sh
      && (dw == maxW || dh == maxH)
  {
    var scale := Scale(maxW, maxH, sw, sh);
    RatioPositive(maxW, sw);
    RatioPositive(maxH, sh);
    ShareOf(maxW, sw, scale);
    ShareOf(maxH, sh, scale);
    ScaledAtMost(sw, scale, maxW);
    ScaledAtMost(sh, scale, maxH);
    Multiply(sw as real, scale, 1.0);
    Multiply(sh as real, scale, 1.0);
    ScaledAtMost(sw, scale, sw);
    ScaledAtMost(sh, scale, sh);
  }

  lemma ScaleNonnegative(maxW: nat, maxH: nat, sw: nat, sh: nat)
    requires sw > 0 && sh > 0
    ensures Scale(maxW, maxH, sw, sh) >= 0.0
  {
    RatioPositive(maxW, sw);
    RatioPositive(maxH, sh);
  }

  lemma Crosswise(a: nat, n: nat, b: nat, m: nat)
    requires n > 0 && m > 0
    ensures a as real / n as real <= b as real / m as real <==> a * m <= b * n
  {
    var x, y := a as real / n as real, b as real / m as real;
    assert x * n as real == a as real && y * m as real == b as real;
    var nm := n as real * m as real;
    assert nm > 0.0;
    assert x * nm == a as real * m as real && y * nm == b as real * n as real;
    assert (a * m) as real == a as real * m as real && (b * n) as real == b as real * n as real;
    if x <= y {
      Multiply(nm, x, y);
    } else {
      Grows(nm, y, x);
    }
  }

  lemma Grows(n: real, x: real, y: real)
    requires n > 0.0 && x < y
    ensures n * x < n * y
  {
  }

  /** x and y differ by no more than half of unit. */
  predicate Halfway(x: nat, y: nat, unit: nat) { 2 * x <= 2 * y + unit && 2 * y <= 2 * x + unit }

  /** n scaled by part/whole is, up to the rounding, n * part / whole. */
  lemma ScaledShare(n: nat, part: nat, whole: nat, scale: real)
    requires whole > 0 && scale == part as real / whole as real && scale >= 0.0
    ensures Scaled(n, scale) == 1 || Halfway(n * part, Scaled(n, scale) * whole, whole)
  {
    Nonnegative(n, scale);
    var x, r, w := n as real * scale, Scaled(n, scale), whole as real;
    assert scale * w == part as real;
    assert x * w == n as real * (scale * w) == n as real * part as real;
    assert (n * part) as real == n as real * part as real && (r * whole) as real == r as real * w;
    if r != 1 {
      assert r as real <= x + 0.5 < r as real + 1.0;
      Multiply(w, r as real, x + 0.5);
      Multiply(w, x + 0.5, r as real + 1.0);
      assert w * (x + 0.5) == x * w + w / 2.0;
      assert w * (r as real + 1.0) == r as real * w + w;
    }
  }

  /** The aspect ratio is kept: the side nearer to its limit is scaled to it, and
      the other in proportion, up to half a pixel, but to no less than one. */
  lemma AspectKept(sw: nat, sh: nat, maxW: nat, maxH: nat)
    requires sw >= 1 && sh >= 1 && maxW >= 1 && maxH >= 1 && Oversized(sw, sh, maxW, maxH)
    ensures Scale(maxW, maxH, sw, sh) >= 0.0
    ensures var scale := Scale(maxW, maxH, sw, sh); var dw, dh := Scaled(sw, scale), Scaled(sh, scale);
      if maxW * sh <= maxH * sw
      then dw == maxW && (dh == 1 || Halfway(sh * maxW, dh * sw, sw))
      else dh == maxH && (dw == 1 || Halfway(sw * maxH, dw * sh, sh))
  {
    var scale := Scale(maxW, maxH, sw, sh);
    RatioPositive(maxW, sw);
    RatioPositive(maxH, sh);
    Crosswise(maxW, sw, maxH, sh);
    if maxW * sh <= maxH * sw {
      ShareOf(maxW, sw, scale);
      ScaledAtMost(sw, scale, maxW);
      ScaledShare(sh, maxW, sw, scale);
    } else {
      ShareOf(maxH, sh, scale);
      ScaledAtMost(sh, scale, maxH);
      ScaledShare(sw, maxH, sh, scale);
    }
  }

  // ----- the boxes along one side: n source pixels for m destination pixels -----

  /** Where box k begins. */
  function Start(k: nat, n: nat, m: nat): nat
    requires m > 0
  {
    k * n / m
  }

  /** Where box k ends, as the code computes it. */
  function End(k: nat, n: nat, m: nat): nat
    requires m > 0
  {
    var end := Start(k + 1, n, m);
    if end <= Start(k, n, m) then Start(k, n, m) + 1 else end
  }

  lemma Monotone(m: nat, x: nat, y: nat)
    requires x <= y
    ensures m * x <= m * y
  {
  }

  lemma Cancel(m: nat, x: nat, y: nat)
    ensures m * x < m * y ==> x < y
  {
    if y <= x {
      Monotone(m, y, x);
    }
  }

  lemma QuotientBounds(a: nat, m: nat)
    requires m > 0
    ensures m * (a / m) <= a < m * (a / m + 1)
  {
    assert a == m * (a / m) + a % m;
  }

  lemma QuotientAtLeast(a: nat, m: nat, q: nat)
    requires m > 0 && m * q <= a
    ensures q <= a / m
  {
    QuotientBounds(a, m);
    Cancel(m, q, a / m + 1);
  }

  lemma ExactQuotient(n: nat, m: nat)
    requires m > 0
    ensures m * n / m == n
  {
    QuotientBounds(m * n, m);
    QuotientAtLeast(m * n, m, n);
    assert m * (n + 1) == m * n + m;
    Cancel(m, m * n / m, n + 1);
  }

  lemma StartBounds(k: nat, n: nat, m: nat)
    requires m > 0
    ensures m * Start(k, n, m) <= k * n < m * (Start(k, n, m) + 1)
    ensures Start(0, n, m) == 0 && Start(m, n, m) == n
  {
    QuotientBounds(k * n, m);
    ExactQuotient(n, m);
  }

  /** No box is empty when there are at least as many source pixels, so the code's
      fallback for an empty box is never used. */
  lemma StartAscends(k: nat, n: nat, m: nat)
    requires 0 < m <= n
    ensures Start(k, n, m) < Start(k + 1, n, m) == End(k, n, m)
  {
    StartBounds(k, n, m);
    var q := Start(k, n, m);
    assert (k + 1) * n == k * n + n && m * (q + 1) == m * q + m;
    QuotientAtLeast((k + 1) * n, m, q + 1);
  }

  lemma {:induction false} StartMonotone(k: nat, l: nat, n: nat, m: nat)
    requires 0 < m && k <= l
    ensures Start(k, n, m) <= Start(l, n, m)
  {
    StartBounds(k, n, m);
    Monotone(n, k, l);
    QuotientAtLeast(l * n, m, Start(k, n, m));
  }

  /** Every box lies inside the source, even when the picture grows. */
  lemma BoxInside(k: nat, n: nat, m: nat)
    requires k < m && n > 0
    ensures Start(k, n, m) < End(k, n, m) <= n
  {
    StartBounds(k, n, m);
    StartBounds(m, n, m);
    StartMonotone(k + 1, m, n, m);
    StartMonotone(k, k + 1, n, m);
    assert k * n < m * n by {
      assert k * n + n == (k + 1) * n;
      Monotone(n, k + 1, m);
    }
    Cancel(m, Start(k, n, m), n);
  }

  predicate InBox(s: int, k: nat, n: nat, m: nat)
    requires m > 0
  {
    Start(k, n, m) <= s < End(k, n, m)
  }

  /** Each source pixel is in some box. */
  lemma {:induction false} BoxExists(s: nat, n: nat, m: nat, k: nat)
    requires 0 < m <= n && s < Start(k, n, m)
    ensures exists l: nat :: l < k && InBox(s, l, n, m)
  {
    if k == 0 {
      StartBounds(0, n, m);
    } else {
      StartAscends(k - 1, n, m);
      if s < Start(k - 1, n, m) {
        BoxExists(s, n, m, k - 1);
      } else {
        assert InBox(s, k - 1, n, m);
      }
    }
  }

  /** Boxes do not overlap. */
  lemma BoxesApart(s: nat, k: nat, l: nat, n: nat, m: nat)
    requires 0 < m <= n && InBox(s, k, n, m) && InBox(s, l, n, m)
    ensures k == l
  {
    StartAscends(k, n, m);
    StartAscends(l, n, m);
    if k < l {
      StartMonotone(k + 1, l, n, m);
    } else if l < k {
      StartMonotone(l + 1, k, n, m);
    }
  }

  /** The boxes of a shrunk picture tile the source: each source pixel feeds one and
      only one destination pixel. */
  lemma BoxesTile(sx: nat, sy: nat, sw: nat, sh: nat, dw: nat, dh: nat)
    requires 0 < dw <= sw && 0 < dh <= sh && sx < sw && sy < sh
    ensures exists x: nat, y: nat :: x < dw && y < dh && InBox(sx, x, sw, dw) && InBox(sy, y, sh, dh)
    ensures forall x: nat, y: nat, x': nat, y': nat ::
      InBox(sx, x, sw, dw) && InBox(sy, y, sh, dh) && InBox(sx, x', sw, dw) && InBox(sy, y', sh, dh)
      ==> x == x' && y == y'
  {
    StartBounds(dw, sw, dw);
    StartBounds(dh, sh, dh);
    BoxExists(sx, sw, dw, dw);
    BoxExists(sy, sh, dh, dh);
    forall x: nat, x': nat | InBox(sx, x, sw, dw) && InBox(sx, x', sw, dw)
      ensures x == x'
    {
      BoxesApart(sx, x, x', sw, dw);
    }
    forall y: nat, y': nat | InBox(sy, y, sh, dh) && InBox(sy, y', sh, dh)
      ensures y == y'
    {
      BoxesApart(sy, y, y', sh, dh);
    }
  }
}
