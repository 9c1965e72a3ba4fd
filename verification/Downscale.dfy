/** imageproc/resize.go: averaging boxes of pixels, and downscaling a picture by it. */
module Downscale {
  import opened Basics
  import opened Boxes
  import opened PixelLoops

  type Word = x: int | 0 <= x < 65536

  type Byte = x: int | 0 <= x < 256

  /** What color.Color.RGBA returns. */
  datatype Colour = Colour(r: Word, g: Word, b: Word, a: Word)

  /** color.NRGBA: 8 bits a channel, not premultiplied. */
  datatype NRGBA = NRGBA(r: Byte, g: Byte, b: Byte, a: Byte)

  const CLEAR: NRGBA := NRGBA(0, 0, 0, 0)

  datatype Channel = Red | Green | Blue | Alpha

  function Pick(c: Colour, ch: Channel): Word {
    match ch
    case Red => c.r
    case Green => c.g
    case Blue => c.b
    case Alpha => c.a
  }

  function Pick8(c: NRGBA, ch: Channel): Byte {
    match ch
    case Red => c.r
    case Green => c.g
    case Blue => c.b
    case Alpha => c.a
  }

  /** Columns x0 up to x1 and rows y0 up to y1 of an array of pixels. */
  predicate IsBox(pix: array2<Colour>, x0: int, x1: int, y0: int, y1: int) {
    0 <= x0 <= x1 <= pix.Length1 && 0 <= y0 <= y1 <= pix.Length0
  }

  function RowSum(pix: array2<Colour>, ch: Channel, x0: int, x1: int, y: int): nat
    requires 0 <= x0 <= x1 <= pix.Length1 && 0 <= y < pix.Length0
    reads pix
    decreases x1 - x0
  {
    if x0 == x1 then 0 else RowSum(pix, ch, x0, x1 - 1, y) + Pick(pix[y, x1 - 1], ch)
  }

  function BoxSum(pix: array2<Colour>, ch: Channel, x0: int, x1: int, y0: int, y1: int): nat
    requires IsBox(pix, x0, x1, y0, y1)
    reads pix
    decreases y1 - y0
  {
    if y0 == y1 then 0 else BoxSum(pix, ch, x0, x1, y0, y1 - 1) + RowSum(pix, ch, x0, x1, y1 - 1)
  }

  function Area(x0: int, x1: int, y0: int, y1: int): nat
    requires x0 <= x1 && y0 <= y1
  {
    AreaNonnegative(x1 - x0, y1 - y0);
    (x1 - x0) * (y1 - y0)
  }

  lemma AreaNonnegative(w: nat, h: nat)
    ensures w * h >= 0
  {
  }

  lemma AreaNextRow(x0: int, x1: int, y0: int, y1: int)
    requires x0 <= x1 && y0 <= y1
    ensures Area(x0, x1, y0, y1 + 1) == Area(x0, x1, y0, y1) + (x1 - x0)
  {
    assert (x1 - x0) * (y1 + 1 - y0) == (x1 - x0) * (y1 - y0) + (x1 - x0);
  }

  function To8(v: nat): Byte {
    (if v > 0xffff then 0xffff else v) / 256
  }

  /** Division of unsigned integers. */
  function Quotient(a: nat, n: nat): nat
    requires n > 0
  {
    a / n
  }

  /** A mean colour divided by the mean alpha again, as 16 bits and before clamping. */
  function Straight(mean: nat, alpha: nat): nat
    requires alpha > 0
  {
    Quotient(mean * 0xffff, alpha)
  }

  /** The colour for the sums of `count` pixels. */
  function FromSums(r: nat, g: nat, b: nat, a: nat, count: nat): NRGBA {
    if count == 0 || Quotient(a, count) == 0 then CLEAR
    else
      var alpha := Quotient(a, count);
      NRGBA(To8(Straight(Quotient(r, count), alpha)), To8(Straight(Quotient(g, count), alpha)),
            To8(Straight(Quotient(b, count), alpha)), To8(alpha))
  }

  function Average(pix: array2<Colour>, x0: int, x1: int, y0: int, y1: int): NRGBA
    requires IsBox(pix, x0, x1, y0, y1)
    reads pix
  {
    FromSums(BoxSum(pix, Red, x0, x1, y0, y1), BoxSum(pix, Green, x0, x1, y0, y1),
      BoxSum(pix, Blue, x0, x1, y0, y1), BoxSum(pix, Alpha, x0, x1, y0, y1), Area(x0, x1, y0, y1))
  }

  /** The 16-bit mean of a channel. */
  function Mean(pix: array2<Colour>, ch: Channel, x0: int, x1: int, y0: int, y1: int): nat
    requires IsBox(pix, x0, x1, y0, y1) && Area(x0, x1, y0, y1) > 0
    reads pix
  {
    Quotient(BoxSum(pix, ch, x0, x1, y0, y1), Area(x0, x1, y0, y1))
  }

  /** The sums over the box down to row sy, and in row sy up to column sx. */
  ghost predicate Sums(pix: array2<Colour>, x0: int, x1: int, y0: int, sx: int, sy: int, r: int, g: int, b: int, a: int)
    requires IsBox(pix, x0, x1, y0, sy) && x0 <= sx <= x1 && (sy < pix.Length0 || sx == x0)
    reads pix
  {
    && r == BoxSum(pix, Red, x0, x1, y0, sy) + PartialRow(pix, Red, x0, sx, sy)
    && g == BoxSum(pix, Green, x0, x1, y0, sy) + PartialRow(pix, Green, x0, sx, sy)
    && b == BoxSum(pix, Blue, x0, x1, y0, sy) + PartialRow(pix, Blue, x0, sx, sy)
    && a == BoxSum(pix, Alpha, x0, x1, y0, sy) + PartialRow(pix, Alpha, x0, sx, sy)
  }

  ghost function PartialRow(pix: array2<Colour>, ch: Channel, x0: int, sx: int, sy: int): nat
    requires 0 <= x0 <= sx <= pix.Length1 && 0 <= sy && (sy < pix.Length0 || sx == x0)
    reads pix
  {
    if sx == x0 then 0 else RowSum(pix, ch, x0, sx, sy)
  }

  lemma NextColumn(pix: array2<Colour>, x0: int, x1: int, y0: int, sx: int, sy: int, r: int, g: int, b: int, a: int)
    requires IsBox(pix, x0, x1, y0, sy) && x0 <= sx < x1 && sy < pix.Length0
    requires Sums(pix, x0, x1, y0, sx, sy, r, g, b, a)
    ensures var p := pix[sy, sx]; Sums(pix, x0, x1, y0, sx + 1, sy, r + p.r, g + p.g, b + p.b, a + p.a)
  {
  }

  lemma NextRow(pix: array2<Colour>, x0: int, x1: int, y0: int, sy: int, r: int, g: int, b: int, a: int)
    requires IsBox(pix, x0, x1, y0, sy) && sy < pix.Length0
    requires Sums(pix, x0, x1, y0, x1, sy, r, g, b, a)
    ensures Sums(pix, x0, x1, y0, x0, sy + 1, r, g, b, a)
  {
    assert forall ch :: PartialRow(pix, ch, x0, x1, sy) == RowSum(pix, ch, x0, x1, sy);
  }

  lemma SumsDone(pix: array2<Colour>, x0: int, x1: int, y0: int, y1: int, r: nat, g: nat, b: nat, a: nat)
    requires IsBox(pix, x0, x1, y0, y1) && Sums(pix, x0, x1, y0, x0, y1, r, g, b, a)
    ensures Average(pix, x0, x1, y0, y1) == FromSums(r, g, b, a, Area(x0, x1, y0, y1))
  {
  }

  method AverageBox(src: Image<Colour>, x0: int, x1: int, y0: int, y1: int) returns (c: NRGBA)
    requires IsBox(src.pix, x0, x1, y0, y1)
    ensures c == Average(src.pix, x0, x1, y0, y1)
  {
    var rSum: nat, gSum: nat, bSum: nat, aSum: nat, count: nat := 0, 0, 0, 0, 0;
    var sy := y0;
    while sy < y1
      invariant y0 <= sy <= y1
      invariant Sums(src.pix, x0, x1, y0, x0, sy, rSum, gSum, bSum, aSum)
      invariant count == Area(x0, x1, y0, sy)
    {
      var sx := x0;
      while sx < x1
        invariant x0 <= sx <= x1
        invariant Sums(src.pix, x0, x1, y0, sx, sy, rSum, gSum, bSum, aSum)
        invariant count == Area(x0, x1, y0, sy) + (sx - x0)
      {
        NextColumn(src.pix, x0, x1, y0, sx, sy, rSum, gSum, bSum, aSum);
        var p := src.At(src.minX + sx, src.minY + sy);
        rSum := rSum + p.r;
        gSum := gSum + p.g;
        bSum := bSum + p.b;
        aSum := aSum + p.a;
        count := count + 1;
        sx := sx + 1;
      }
      NextRow(src.pix, x0, x1, y0, sy, rSum, gSum, bSum, aSum);
      AreaNextRow(x0, x1, y0, sy);
      sy := sy + 1;
    }
    SumsDone(src.pix, x0, x1, y0, y1, rSum, gSum, bSum, aSum);
    if count == 0 {
      return CLEAR;
    }
    var avgA := Quotient(aSum, count);
    if avgA == 0 {
      return CLEAR;
    }
    var r8 := To8(Straight(Quotient(rSum, count), avgA));
    var g8 := To8(Straight(Quotient(gSum, count), avgA));
    var b8 := To8(Straight(Quotient(bSum, count), avgA));
    var a8 := To8(avgA);
    return NRGBA(r8, g8, b8, a8);
  }

  // ----- what an average can be -----

  /** Every value of the channel in the box is between lo and hi. */
  ghost predicate Between(pix: array2<Colour>, ch: Channel, x0: int, x1: int, y0: int, y1: int, lo: nat, hi: nat)
    requires IsBox(pix, x0, x1, y0, y1)
    reads pix
  {
    forall x, y | x0 <= x < x1 && y0 <= y < y1 :: lo <= Pick(pix[y, x], ch) <= hi
  }

  lemma Times(v: nat, n: nat)
    ensures v * (n + 1) == v * n + v
  {
  }

  lemma {:induction false} RowBetween(pix: array2<Colour>, ch: Channel, x0: int, x1: int, y: int, lo: nat, hi: nat)
    requires 0 <= x0 <= x1 <= pix.Length1 && 0 <= y < pix.Length0
    requires forall x | x0 <= x < x1 :: lo <= Pick(pix[y, x], ch) <= hi
    ensures lo * (x1 - x0) <= RowSum(pix, ch, x0, x1, y) <= hi * (x1 - x0)
    decreases x1 - x0
  {
    if x0 < x1 {
      RowBetween(pix, ch, x0, x1 - 1, y, lo, hi);
      Times(lo, x1 - 1 - x0);
      Times(hi, x1 - 1 - x0);
    }
  }

  lemma Spread(v: nat, w: nat, h: nat)
    ensures v * (w * (h + 1)) == v * (w * h) + v * w
  {
    assert w * (h + 1) == w * h + w;
    assert v * (w * h + w) == v * (w * h) + v * w;
  }

  lemma {:induction false} SumBetween(
    pix: array2<Colour>, ch: Channel, x0: int, x1: int, y0: int, y1: int, lo: nat, hi: nat)
    requires IsBox(pix, x0, x1, y0, y1) && Between(pix, ch, x0, x1, y0, y1, lo, hi)
    ensures lo * Area(x0, x1, y0, y1) <= BoxSum(pix, ch, x0, x1, y0, y1) <= hi * Area(x0, x1, y0, y1)
    decreases y1 - y0
  {
    if y0 < y1 {
      SumBetween(pix, ch, x0, x1, y0, y1 - 1, lo, hi);
      RowBetween(pix, ch, x0, x1, y1 - 1, lo, hi);
      Spread(lo, x1 - x0, y1 - 1 - y0);
      Spread(hi, x1 - x0, y1 - 1 - y0);
    }
  }

  lemma QuotientBetween(lo: nat, hi: nat, sum: nat, n: nat)
    requires n > 0 && lo * n <= sum <= hi * n
    ensures lo <= sum / n <= hi
  {
    QuotientAtLeast(sum, n, lo);
    QuotientBounds(sum, n);
    assert n * (hi + 1) == hi * n + n;
    Cancel(n, sum / n, hi + 1);
  }

  lemma MeanBetween(pix: array2<Colour>, ch: Channel, x0: int, x1: int, y0: int, y1: int, lo: nat, hi: nat)
    requires IsBox(pix, x0, x1, y0, y1) && Between(pix, ch, x0, x1, y0, y1, lo, hi) && Area(x0, x1, y0, y1) > 0
    ensures lo <= Mean(pix, ch, x0, x1, y0, y1) <= hi
  {
    SumBetween(pix, ch, x0, x1, y0, y1, lo, hi);
    QuotientBetween(lo, hi, BoxSum(pix, ch, x0, x1, y0, y1), Area(x0, x1, y0, y1));
  }

  /** The sums of any picture of up to 2^48 pixels fit the code's 64-bit integers. */
  lemma SumsFit(pix: array2<Colour>, ch: Channel, x0: int, x1: int, y0: int, y1: int)
    requires IsBox(pix, x0, x1, y0, y1) && Area(x0, x1, y0, y1) <= 0x1_0000_0000_0000
    ensures BoxSum(pix, ch, x0, x1, y0, y1) < 0x1_0000_0000_0000_0000
  {
    SumBetween(pix, ch, x0, x1, y0, y1, 0, 65535);
  }

  /** No colour of the box exceeds its alpha. */
  ghost predicate Premultiplied(pix: array2<Colour>, x0: int, x1: int, y0: int, y1: int)
    requires IsBox(pix, x0, x1, y0, y1)
    reads pix
  {
    forall x, y, ch | x0 <= x < x1 && y0 <= y < y1 :: Pick(pix[y, x], ch) <= pix[y, x].a
  }

  lemma {:induction false} RowBelowAlpha(pix: array2<Colour>, ch: Channel, x0: int, x1: int, y: int)
    requires 0 <= x0 <= x1 <= pix.Length1 && 0 <= y < pix.Length0
    requires forall x | x0 <= x < x1 :: Pick(pix[y, x], ch) <= pix[y, x].a
    ensures RowSum(pix, ch, x0, x1, y) <= RowSum(pix, Alpha, x0, x1, y)
    decreases x1 - x0
  {
    if x0 < x1 {
      RowBelowAlpha(pix, ch, x0, x1 - 1, y);
    }
  }

  lemma {:induction false} SumBelowAlpha(pix: array2<Colour>, ch: Channel, x0: int, x1: int, y0: int, y1: int)
    requires IsBox(pix, x0, x1, y0, y1) && Premultiplied(pix, x0, x1, y0, y1)
    ensures BoxSum(pix, ch, x0, x1, y0, y1) <= BoxSum(pix, Alpha, x0, x1, y0, y1)
    decreases y1 - y0
  {
    if y0 < y1 {
      SumBelowAlpha(pix, ch, x0, x1, y0, y1 - 1);
      RowBelowAlpha(pix, ch, x0, x1, y1 - 1);
    }
  }

  lemma QuotientMonotone(a: nat, b: nat, n: nat)
    requires n > 0 && a <= b
    ensures a / n <= b / n
  {
    var q := a / n;
    assert n * q <= a by {
      QuotientBounds(a, n);
    }
    QuotientAtLeast(b, n, q);
  }

  /** For premultiplied pixels dividing by alpha never exceeds 16 bits: to8's clamp never acts. */
  lemma ClampNeverActs(pix: array2<Colour>, ch: Channel, x0: int, x1: int, y0: int, y1: int)
    requires IsBox(pix, x0, x1, y0, y1) && Premultiplied(pix, x0, x1, y0, y1)
    requires Area(x0, x1, y0, y1) > 0 && Mean(pix, Alpha, x0, x1, y0, y1) > 0
    ensures Straight(Mean(pix, ch, x0, x1, y0, y1), Mean(pix, Alpha, x0, x1, y0, y1)) <= 0xffff
  {
    var n, alpha := Area(x0, x1, y0, y1), Mean(pix, Alpha, x0, x1, y0, y1);
    SumBelowAlpha(pix, ch, x0, x1, y0, y1);
    QuotientMonotone(BoxSum(pix, ch, x0, x1, y0, y1), BoxSum(pix, Alpha, x0, x1, y0, y1), n);
    QuotientMonotone(Mean(pix, ch, x0, x1, y0, y1) * 0xffff, 0xffff * alpha, alpha);
    QuotientBetween(0, 0xffff, 0xffff * alpha, alpha);
  }

  /** Every value of the channel in the box, cut to 8 bits, is between lo and hi. */
  ghost predicate Between8(pix: array2<Colour>, ch: Channel, x0: int, x1: int, y0: int, y1: int, lo: Byte, hi: Byte)
    requires IsBox(pix, x0, x1, y0, y1)
    reads pix
  {
    forall x, y | x0 <= x < x1 && y0 <= y < y1 :: lo <= Pick(pix[y, x], ch) / 256 <= hi
  }

  ghost predicate Opaque(pix: array2<Colour>, x0: int, x1: int, y0: int, y1: int)
    requires IsBox(pix, x0, x1, y0, y1)
    reads pix
  {
    forall x, y | x0 <= x < x1 && y0 <= y < y1 :: pix[y, x].a == 65535
  }

  lemma Mean8(pix: array2<Colour>, ch: Channel, x0: int, x1: int, y0: int, y1: int, lo: Byte, hi: Byte)
    requires IsBox(pix, x0, x1, y0, y1) && Between8(pix, ch, x0, x1, y0, y1, lo, hi) && Area(x0, x1, y0, y1) > 0
    ensures lo <= To8(Mean(pix, ch, x0, x1, y0, y1)) <= hi
  {
    var least: int, most: int := 256 * lo as int, 256 * hi as int + 255;
    assert forall v: Word | lo <= v / 256 <= hi :: least <= v <= most;
    MeanBetween(pix, ch, x0, x1, y0, y1, least, most);
  }

  /** The alpha of an average is within the range of the box. */
  lemma AlphaWithinBox(pix: array2<Colour>, x0: int, x1: int, y0: int, y1: int, lo: Byte, hi: Byte)
    requires IsBox(pix, x0, x1, y0, y1) && Between8(pix, Alpha, x0, x1, y0, y1, lo, hi) && Area(x0, x1, y0, y1) > 0
    ensures lo <= Average(pix, x0, x1, y0, y1).a <= hi
  {
    Mean8(pix, Alpha, x0, x1, y0, y1, lo, hi);
  }

  /** The average of an opaque box is opaque, and each of its colours lies between
      the least and the greatest 8-bit value in the box. */
  lemma OpaqueWithinBox(pix: array2<Colour>, ch: Channel, x0: int, x1: int, y0: int, y1: int, lo: Byte, hi: Byte)
    requires IsBox(pix, x0, x1, y0, y1) && Opaque(pix, x0, x1, y0, y1) && Area(x0, x1, y0, y1) > 0
    requires Between8(pix, ch, x0, x1, y0, y1, lo, hi)
    ensures lo <= Pick8(Average(pix, x0, x1, y0, y1), ch) <= hi
    ensures Average(pix, x0, x1, y0, y1).a == 255
  {
    MeanBetween(pix, Alpha, x0, x1, y0, y1, 65535, 65535);
    Mean8(pix, ch, x0, x1, y0, y1, lo, hi);
    assert Straight(Mean(pix, ch, x0, x1, y0, y1), 65535) == Mean(pix, ch, x0, x1, y0, y1);
  }

  /** An opaque 8-bit colour as RGBA returns it. */
  function Wide(c: NRGBA): Colour
    requires c.a == 255
  {
    Colour(257 * c.r as int, 257 * c.g as int, 257 * c.b as int, 65535)
  }

  lemma Wide8(c: NRGBA, ch: Channel)
    requires c.a == 255
    ensures Pick(Wide(c), ch) / 256 == Pick8(c, ch)
  {
  }

  /** A box of one opaque 8-bit colour averages to exactly that colour. */
  lemma SolidBox(pix: array2<Colour>, x0: int, x1: int, y0: int, y1: int, c: NRGBA)
    requires IsBox(pix, x0, x1, y0, y1) && Area(x0, x1, y0, y1) > 0 && c.a == 255
    requires forall x, y | x0 <= x < x1 && y0 <= y < y1 :: pix[y, x] == Wide(c)
    ensures Average(pix, x0, x1, y0, y1) == c
  {
    forall ch: Channel
      ensures Pick8(Average(pix, x0, x1, y0, y1), ch) == Pick8(c, ch)
    {
      Wide8(c, ch);
      OpaqueWithinBox(pix, ch, x0, x1, y0, y1, Pick8(c, ch), Pick8(c, ch));
    }
    var d := Average(pix, x0, x1, y0, y1);
    assert Pick8(d, Red) == Pick8(c, Red) && Pick8(d, Green) == Pick8(c, Green);
    assert Pick8(d, Blue) == Pick8(c, Blue) && Pick8(d, Alpha) == Pick8(c, Alpha);
  }

  /** A colour channel premultiplied by alpha, as color.NRGBA.RGBA does it. */
  function Multiplied(v: Byte, alpha: Byte): Word {
    var m := 257 * v * alpha;
    AtMost16(v, alpha);
    m / 255
  }

  lemma AtMost16(v: Byte, alpha: Byte)
    ensures 0 <= v * alpha <= 255 * 255
  {
    assert v * alpha <= 255 * alpha;
  }

  /** A translucent 8-bit colour as RGBA returns it. */
  function Through(c: NRGBA): Colour {
    Colour(Multiplied(c.r, c.a), Multiplied(c.g, c.a), Multiplied(c.b, c.a), 257 * c.a)
  }

  lemma Scaled257(s: nat, m: nat, a: nat)
    requires s * (257 * a) <= m * 65535 < (s + 1) * (257 * a)
    ensures s * a <= m * 255 < (s + 1) * a
  {
    assert s * (257 * a) == 257 * (s * a) && (s + 1) * (257 * a) == 257 * ((s + 1) * a);
  }

  /** Dividing by alpha again gives the channel back, or one less where both are small. */
  lemma Unmultiplied(v: Byte, alpha: Byte)
    requires alpha > 0
    ensures var back := To8(Straight(Multiplied(v, alpha), 257 * alpha));
      v - 1 <= back <= v && (v * alpha >= 254 ==> back == v)
  {
    var a: nat, r: nat := alpha, v;
    AtMost16(v, alpha);
    var m, s: nat := Multiplied(v, alpha), Straight(Multiplied(v, alpha), 257 * alpha);
    assert 257 * v * alpha == 257 * (r * a);
    QuotientBounds(257 * (r * a), 255);
    QuotientBounds(m * 65535, 257 * a);
    assert s * (257 * a) <= m * 65535 < (s + 1) * (257 * a) by {
      assert s * (257 * a) == (257 * a) * s && (s + 1) * (257 * a) == (257 * a) * (s + 1);
    }
    Scaled257(s, m, a);
    assert m * 255 <= 257 * (r * a) <= m * 255 + 254;
    UpperStraight(s, r, a);
    LowerStraight(s, r, a);
  }

  lemma UpperStraight(s: nat, r: nat, a: nat)
    requires a > 0 && s * a <= 257 * (r * a)
    ensures s <= 257 * r
  {
    assert a * s == s * a && a * (257 * r + 1) == 257 * (r * a) + a;
    Cancel(a, s, 257 * r + 1);
  }

  lemma LowerStraight(s: nat, r: nat, a: nat)
    requires a > 0 && 257 * (r * a) < (s + 1) * a + 254
    ensures s + 254 >= 257 * r && (r * a >= 254 ==> s >= 256 * r)
  {
    assert a * (257 * r) == 257 * (r * a) && a * (s + 255) == (s + 1) * a + 254 * a;
    Cancel(a, 257 * r, s + 255);
    if r * a >= 254 {
      assert a * (256 * r) == 256 * (r * a) && a * (s + 1) == (s + 1) * a;
      Cancel(a, 256 * r, s + 1);
    }
  }

  /** A box of one translucent colour averages to that colour: its alpha exactly,
      its channels exactly where channel times alpha is at least 254, and
      otherwise at most one less. */
  lemma TranslucentBox(pix: array2<Colour>, x0: int, x1: int, y0: int, y1: int, c: NRGBA, ch: Channel)
    requires IsBox(pix, x0, x1, y0, y1) && Area(x0, x1, y0, y1) > 0 && c.a > 0
    requires forall x, y | x0 <= x < x1 && y0 <= y < y1 :: pix[y, x] == Through(c)
    ensures var d := Average(pix, x0, x1, y0, y1);
      d.a == c.a && Pick8(c, ch) - 1 <= Pick8(d, ch) <= Pick8(c, ch) &&
      (Pick8(c, ch) * c.a >= 254 ==> Pick8(d, ch) == Pick8(c, ch))
  {
    var t := Through(c);
    MeanBetween(pix, Alpha, x0, x1, y0, y1, t.a, t.a);
    MeanBetween(pix, Red, x0, x1, y0, y1, t.r, t.r);
    MeanBetween(pix, Green, x0, x1, y0, y1, t.g, t.g);
    MeanBetween(pix, Blue, x0, x1, y0, y1, t.b, t.b);
    Unmultiplied(c.r, c.a);
    Unmultiplied(c.g, c.a);
    Unmultiplied(c.b, c.a);
  }

  // ----- the whole picture -----

  function BoxAverage(pix: array2<Colour>, x: nat, y: nat, dw: nat, dh: nat): NRGBA
    requires x < dw && y < dh && pix.Length1 > 0 && pix.Length0 > 0
    reads pix
  {
    BoxInside(x, pix.Length1, dw);
    BoxInside(y, pix.Length0, dh);
    Average(pix, Start(x, pix.Length1, dw), End(x, pix.Length1, dw), Start(y, pix.Length0, dh), End(y, pix.Length0, dh))
  }

  /** The destination pixels before column x of row y, in reading order, are computed. */
  ghost predicate Averaged(pix: array2<Colour>, dst: array2<NRGBA>, x: int, y: int)
    requires pix.Length1 > 0 && pix.Length0 > 0
    reads pix, dst
  {
    forall i, j | 0 <= i < dst.Length1 && 0 <= j < dst.Length0 && (j < y || (j == y && i < x)) ::
      dst[j, i] == BoxAverage(pix, i, j, dst.Length1, dst.Length0)
  }

  method Downscale(src: Image<Colour>, maxW: nat, maxH: nat) returns (dst: array2<NRGBA>)
    requires src.pix.Length1 > 0 && src.pix.Length0 > 0
    ensures Scale(maxW, maxH, src.pix.Length1, src.pix.Length0) >= 0.0
    ensures var scale := Scale(maxW, maxH, src.pix.Length1, src.pix.Length0);
      dst.Length1 == Scaled(src.pix.Length1, scale) && dst.Length0 == Scaled(src.pix.Length0, scale)
    ensures fresh(dst) && Averaged(src.pix, dst, 0, dst.Length0)
  {
    var sw, sh := src.pix.Length1, src.pix.Length0;
    ScaleNonnegative(maxW, maxH, sw, sh);
    var scale := Scale(maxW, maxH, sw, sh);
    var dw, dh := Scaled(sw, scale), Scaled(sh, scale);
    dst := new NRGBA[dh, dw];
    for y := 0 to dh
      invariant Averaged(src.pix, dst, 0, y)
    {
      BoxInside(y, sh, dh);
      var sy0, sy1 := Start(y, sh, dh), End(y, sh, dh);
      for x := 0 to dw
        invariant Averaged(src.pix, dst, x, y)
      {
        BoxInside(x, sw, dw);
        var sx0, sx1 := Start(x, sw, dw), End(x, sw, dw);
        dst[y, x] := AverageBox(src, sx0, sx1, sy0, sy1);
      }
    }
  }

  /** A picture of one opaque 8-bit colour keeps exactly that colour. */
  lemma SolidStaysSolid(pix: array2<Colour>, dst: array2<NRGBA>, c: NRGBA)
    requires pix.Length1 > 0 && pix.Length0 > 0 && c.a == 255
    requires forall x, y | 0 <= x < pix.Length1 && 0 <= y < pix.Length0 :: pix[y, x] == Wide(c)
    requires Averaged(pix, dst, 0, dst.Length0)
    ensures forall x, y | 0 <= x < dst.Length1 && 0 <= y < dst.Length0 :: dst[y, x] == c
  {
    var sw, sh, dw, dh := pix.Length1, pix.Length0, dst.Length1, dst.Length0;
    forall x, y | 0 <= x < dw && 0 <= y < dh
      ensures dst[y, x] == c
    {
      BoxInside(x, sw, dw);
      BoxInside(y, sh, dh);
      AreaPositive(End(x, sw, dw) - Start(x, sw, dw), End(y, sh, dh) - Start(y, sh, dh));
      SolidBox(pix, Start(x, sw, dw), End(x, sw, dw), Start(y, sh, dh), End(y, sh, dh), c);
    }
  }

  lemma AreaPositive(w: nat, h: nat)
    requires w > 0 && h > 0
    ensures w * h > 0
  {
  }

  // ----- the boxes together hold the whole picture -----

  lemma {:induction false} RowSplit(pix: array2<Colour>, ch: Channel, x0: int, x1: int, x2: int, y: int)
    requires 0 <= x0 <= x1 <= x2 <= pix.Length1 && 0 <= y < pix.Length0
    ensures RowSum(pix, ch, x0, x1, y) + RowSum(pix, ch, x1, x2, y) == RowSum(pix, ch, x0, x2, y)
    decreases x2 - x1
  {
    if x1 < x2 {
      RowSplit(pix, ch, x0, x1, x2 - 1, y);
    }
  }

  lemma {:induction false} BoxSplitColumns(
    pix: array2<Colour>, ch: Channel, x0: int, x1: int, x2: int, y0: int, y1: int)
    requires x0 <= x1 <= x2 && IsBox(pix, x0, x2, y0, y1)
    ensures BoxSum(pix, ch, x0, x1, y0, y1) + BoxSum(pix, ch, x1, x2, y0, y1) == BoxSum(pix, ch, x0, x2, y0, y1)
    decreases y1 - y0
  {
    if y0 < y1 {
      BoxSplitColumns(pix, ch, x0, x1, x2, y0, y1 - 1);
      RowSplit(pix, ch, x0, x1, x2, y1 - 1);
    }
  }

  lemma {:induction false} BoxSplitRows(pix: array2<Colour>, ch: Channel, x0: int, x1: int, y0: int, y1: int, y2: int)
    requires y0 <= y1 <= y2 && IsBox(pix, x0, x1, y0, y2)
    ensures BoxSum(pix, ch, x0, x1, y0, y1) + BoxSum(pix, ch, x0, x1, y1, y2) == BoxSum(pix, ch, x0, x1, y0, y2)
    decreases y2 - y1
  {
    if y1 < y2 {
      BoxSplitRows(pix, ch, x0, x1, y0, y1, y2 - 1);
    }
  }

  /** The sums of the first k boxes of one row of boxes. */
  ghost function BandSum(pix: array2<Colour>, ch: Channel, k: nat, dw: nat, y0: int, y1: int): nat
    requires k <= dw <= pix.Length1 && 0 < dw && 0 <= y0 <= y1 <= pix.Length0
    reads pix
  {
    if k == 0 then 0
    else
      BoxInside(k - 1, pix.Length1, dw);
      BandSum(pix, ch, k - 1, dw, y0, y1) +
        BoxSum(pix, ch, Start(k - 1, pix.Length1, dw), End(k - 1, pix.Length1, dw), y0, y1)
  }

  lemma {:induction false} BandIs(pix: array2<Colour>, ch: Channel, k: nat, dw: nat, y0: int, y1: int)
    requires k <= dw <= pix.Length1 && 0 < dw && 0 <= y0 <= y1 <= pix.Length0
    ensures Start(k, pix.Length1, dw) <= pix.Length1
    ensures BandSum(pix, ch, k, dw, y0, y1) == BoxSum(pix, ch, 0, Start(k, pix.Length1, dw), y0, y1)
  {
    StartBounds(dw, pix.Length1, dw);
    StartMonotone(k, dw, pix.Length1, dw);
    if k == 0 {
      StartBounds(0, pix.Length1, dw);
      NoColumns(pix, ch, y0, y1);
    } else {
      BandIs(pix, ch, k - 1, dw, y0, y1);
      StartAscends(k - 1, pix.Length1, dw);
      BoxSplitColumns(pix, ch, 0, Start(k - 1, pix.Length1, dw), Start(k, pix.Length1, dw), y0, y1);
    }
  }

  lemma {:induction false} NoColumns(pix: array2<Colour>, ch: Channel, y0: int, y1: int)
    requires 0 <= y0 <= y1 <= pix.Length0
    ensures BoxSum(pix, ch, 0, 0, y0, y1) == 0
    decreases y1 - y0
  {
    if y0 < y1 {
      NoColumns(pix, ch, y0, y1 - 1);
    }
  }

  /** The sums of all boxes of the first l rows of boxes. */
  ghost function TileSum(pix: array2<Colour>, ch: Channel, l: nat, dw: nat, dh: nat): nat
    requires 0 < dw <= pix.Length1 && l <= dh <= pix.Length0 && 0 < dh
    reads pix
  {
    if l == 0 then 0
    else
      BoxInside(l - 1, pix.Length0, dh);
      TileSum(pix, ch, l - 1, dw, dh) +
        BandSum(pix, ch, dw, dw, Start(l - 1, pix.Length0, dh), End(l - 1, pix.Length0, dh))
  }

  lemma {:induction false} TileIs(pix: array2<Colour>, ch: Channel, l: nat, dw: nat, dh: nat)
    requires 0 < dw <= pix.Length1 && l <= dh <= pix.Length0 && 0 < dh
    ensures Start(l, pix.Length0, dh) <= pix.Length0
    ensures TileSum(pix, ch, l, dw, dh) == BoxSum(pix, ch, 0, pix.Length1, 0, Start(l, pix.Length0, dh))
  {
    StartBounds(dh, pix.Length0, dh);
    StartMonotone(l, dh, pix.Length0, dh);
    if l == 0 {
      StartBounds(0, pix.Length0, dh);
    } else {
      TileIs(pix, ch, l - 1, dw, dh);
      StartAscends(l - 1, pix.Length0, dh);
      StartBounds(dw, pix.Length1, dw);
      BandIs(pix, ch, dw, dw, Start(l - 1, pix.Length0, dh), Start(l, pix.Length0, dh));
      BoxSplitRows(pix, ch, 0, pix.Length1, 0, Start(l - 1, pix.Length0, dh), Start(l, pix.Length0, dh));
    }
  }

  /** Nothing of a shrunk picture is lost or counted twice: the sums over all boxes
      add up to the sum over the source. */
  lemma BoxesConserve(pix: array2<Colour>, ch: Channel, dw: nat, dh: nat)
    requires 0 < dw <= pix.Length1 && 0 < dh <= pix.Length0
    ensures TileSum(pix, ch, dh, dw, dh) == BoxSum(pix, ch, 0, pix.Length1, 0, pix.Length0)
  {
    TileIs(pix, ch, dh, dw, dh);
    StartBounds(dh, pix.Length0, dh);
  }

  // ----- MaybeDownscale -----

  datatype Format = Jpeg | Png | Unsupported

  datatype Failed = EncodeFailed

  /** What image.DecodeConfig reads. */
  datatype Config = Config(width: nat, height: nat, format: Format)

  predicate ToShrink(config: Option<Config>, maxWidth: int, maxHeight: int) {
    && maxWidth > 0 && maxHeight > 0 && config.Some? && !config.value.format.Unsupported?
    && Oversized(config.value.width, config.value.height, maxWidth, maxHeight)
  }

  /** Only a picture beyond a limit is replaced, by one that fits the limits and is no
      larger than it was; anything that cannot be decoded passes through, and a
      result that cannot be encoded again is an error. */
  method MaybeDownscale(
    config: Option<Config>, decoded: Option<Image<Colour>>, maxWidth: int, maxHeight: int, encodes: bool)
    returns (out: Result<Option<array2<NRGBA>>, Failed>)
    requires config.Some? && decoded.Some? ==>
      config.value.width == decoded.value.pix.Length1 > 0 && config.value.height == decoded.value.pix.Length0 > 0
    ensures out == Success(None) <==> !ToShrink(config, maxWidth, maxHeight) || decoded.None?
    ensures ToShrink(config, maxWidth, maxHeight) <==>
      && maxWidth > 0 && maxHeight > 0 && config.Some? && (config.value.format.Jpeg? || config.value.format.Png?)
      && (config.value.width > maxWidth || config.value.height > maxHeight)
    ensures out.Failure? ==> !encodes
    ensures out.Success? && out.value.Some? ==>
      var dst, w, h := out.value.value, config.value.width, config.value.height;
      if maxWidth * h <= maxHeight * w
      then dst.Length1 == maxWidth && (dst.Length0 == 1 || Halfway(h * maxWidth, dst.Length0 * w, w))
      else dst.Length0 == maxHeight && (dst.Length1 == 1 || Halfway(w * maxHeight, dst.Length1 * h, h))
    ensures out.Success? && out.value.Some? ==>
      var dst := out.value.value;
      && encodes
      && 1 <= dst.Length1 <= maxWidth && 1 <= dst.Length0 <= maxHeight
      && dst.Length1 <= config.value.width && dst.Length0 <= config.value.height
      && (dst.Length1 == maxWidth || dst.Length0 == maxHeight)
      && Averaged(decoded.value.pix, dst, 0, dst.Length0)
  {
    if maxWidth <= 0 || maxHeight <= 0 {
      return Success(None);
    }
    if config.None? {
      return Success(None);
    }
    var cfg := config.value;
    if cfg.width <= maxWidth && cfg.height <= maxHeight {
      return Success(None);
    }
    if cfg.format.Unsupported? {
      return Success(None);
    }
    if decoded.None? {
      return Success(None);
    }
    ShrinksToFit(cfg.width, cfg.height, maxWidth, maxHeight);
    AspectKept(cfg.width, cfg.height, maxWidth, maxHeight);
    var dst := Downscale(decoded.value, maxWidth, maxHeight);
    if !encodes {
      return Failure(EncodeFailed);
    }
    return Success(Some(dst));
  }
}
