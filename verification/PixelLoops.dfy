/** imageproc/orientation.go: the loops that write a turned copy of an image, pixel by pixel. */
module PixelLoops {
  import opened Orientation

  /** image.Image, its pixels as color.NRGBAModel converts them: its bounds need not start at (0, 0). */
  class Image<T> {
    const minX: int
    const minY: int
    const pix: array2<T>

    constructor (minX: int, minY: int, pix: array2<T>)
      ensures this.minX == minX && this.minY == minY && this.pix == pix
    {
      this.minX, this.minY, this.pix := minX, minY, pix;
    }

    function At(x: int, y: int): T
      requires Inside(pix.Length1, pix.Length0, x - minX, y - minY)
      reads pix
    {
      pix[y - minY, x - minX]
    }
  }

  /** What an array of pixels shows. */
  ghost function PictureOf<T>(a: array2<T>): (p: Picture<T>)
    reads a
    ensures p.Valid() && p.width == a.Length1 && |p.rows| == a.Length0
  {
    Picture(a.Length1, seq(a.Length0, y requires 0 <= y < a.Length0 reads a =>
      seq(a.Length1, x requires 0 <= x < a.Length1 reads a => a[y, x])))
  }

  /** The size of the array the turned copy goes to. */
  predicate Fits<T>(t: Turn, src: array2<T>, dst: array2<T>) {
    && dst.Length1 == Width(t, src.Length1, src.Length0)
    && dst.Length0 == Height(t, src.Length1, src.Length0)
  }

  /** The pixels before column x of row y, in reading order, are where they belong. */
  ghost predicate Placed<T>(t: Turn, src: array2<T>, dst: array2<T>, x: int, y: int)
    requires Fits(t, src, dst)
    reads src, dst
  {
    forall i, j | Inside(src.Length1, src.Length0, i, j) && (j < y || (j == y && i < x)) ::
      dst[Lands(t, src.Length1, src.Length0, i, j).1, Lands(t, src.Length1, src.Length0, i, j).0] == src[j, i]
  }

  lemma AllPlaced<T>(t: Turn, src: array2<T>, dst: array2<T>)
    requires Fits(t, src, dst) && Placed(t, src, dst, 0, src.Length0)
    ensures PictureOf(dst) == Apply(t, PictureOf(src))
  {
    var w, h := src.Length1, src.Length0;
    forall x, y | Inside(dst.Length1, dst.Length0, x, y)
      ensures PictureOf(dst).rows[y][x] == Apply(t, PictureOf(src)).rows[y][x]
    {
      var (i, j) := ComesFrom(t, w, h, x, y);
      FilledOnce(t, w, h, i, j, x, y);
      ApplyAt(t, PictureOf(src), x, y, i, j);
    }
    SamePicture(PictureOf(dst), Apply(t, PictureOf(src)));
  }

  method FlipH<T(0)>(img: Image<T>) returns (dst: array2<T>)
    ensures fresh(dst) && PictureOf(dst) == Apply(TurnOf(2), PictureOf(img.pix))
  {
    var w, h := img.pix.Length1, img.pix.Length0;
    dst := new T[h, w];
    for y := 0 to h
      invariant Placed(TurnOf(2), img.pix, dst, 0, y)
    {
      for x := 0 to w
        invariant Placed(TurnOf(2), img.pix, dst, x, y)
      {
        dst[y, w - 1 - x] := img.At(img.minX + x, img.minY + y);
      }
    }
    AllPlaced(TurnOf(2), img.pix, dst);
  }

  method FlipV<T(0)>(img: Image<T>) returns (dst: array2<T>)
    ensures fresh(dst) && PictureOf(dst) == Apply(TurnOf(4), PictureOf(img.pix))
  {
    var w, h := img.pix.Length1, img.pix.Length0;
    dst := new T[h, w];
    for y := 0 to h
      invariant Placed(TurnOf(4), img.pix, dst, 0, y)
    {
      for x := 0 to w
        invariant Placed(TurnOf(4), img.pix, dst, x, y)
      {
        dst[h - 1 - y, x] := img.At(img.minX + x, img.minY + y);
      }
    }
    AllPlaced(TurnOf(4), img.pix, dst);
  }

  method Rotate180<T(0)>(img: Image<T>) returns (dst: array2<T>)
    ensures fresh(dst) && PictureOf(dst) == Apply(TurnOf(3), PictureOf(img.pix))
  {
    var w, h := img.pix.Length1, img.pix.Length0;
    dst := new T[h, w];
    for y := 0 to h
      invariant Placed(TurnOf(3), img.pix, dst, 0, y)
    {
      for x := 0 to w
        invariant Placed(TurnOf(3), img.pix, dst, x, y)
      {
        dst[h - 1 - y, w - 1 - x] := img.At(img.minX + x, img.minY + y);
      }
    }
    AllPlaced(TurnOf(3), img.pix, dst);
  }

  method Rotate90CW<T(0)>(img: Image<T>) returns (dst: array2<T>)
    ensures fresh(dst) && PictureOf(dst) == Apply(TurnOf(6), PictureOf(img.pix))
  {
    var w, h := img.pix.Length1, img.pix.Length0;
    dst := new T[w, h];
    for y := 0 to h
      invariant Placed(TurnOf(6), img.pix, dst, 0, y)
    {
      for x := 0 to w
        invariant Placed(TurnOf(6), img.pix, dst, x, y)
      {
        dst[x, h - 1 - y] := img.At(img.minX + x, img.minY + y);
      }
    }
    AllPlaced(TurnOf(6), img.pix, dst);
  }

  method Rotate90CCW<T(0)>(img: Image<T>) returns (dst: array2<T>)
    ensures fresh(dst) && PictureOf(dst) == Apply(TurnOf(8), PictureOf(img.pix))
  {
    var w, h := img.pix.Length1, img.pix.Length0;
    dst := new T[w, h];
    for y := 0 to h
      invariant Placed(TurnOf(8), img.pix, dst, 0, y)
    {
      for x := 0 to w
        invariant Placed(TurnOf(8), img.pix, dst, x, y)
      {
        dst[w - 1 - x, y] := img.At(img.minX + x, img.minY + y);
      }
    }
    AllPlaced(TurnOf(8), img.pix, dst);
  }

  method Transpose<T(0)>(img: Image<T>) returns (dst: array2<T>)
    ensures fresh(dst) && PictureOf(dst) == Apply(TurnOf(5), PictureOf(img.pix))
  {
    var w, h := img.pix.Length1, img.pix.Length0;
    dst := new T[w, h];
    for y := 0 to h
      invariant Placed(TurnOf(5), img.pix, dst, 0, y)
    {
      for x := 0 to w
        invariant Placed(TurnOf(5), img.pix, dst, x, y)
      {
        dst[x, y] := img.At(img.minX + x, img.minY + y);
      }
    }
    AllPlaced(TurnOf(5), img.pix, dst);
  }

  method Transverse<T(0)>(img: Image<T>) returns (dst: array2<T>)
    ensures fresh(dst) && PictureOf(dst) == Apply(TurnOf(7), PictureOf(img.pix))
  {
    var w, h := img.pix.Length1, img.pix.Length0;
    dst := new T[w, h];
    for y := 0 to h
      invariant Placed(TurnOf(7), img.pix, dst, 0, y)
    {
      for x := 0 to w
        invariant Placed(TurnOf(7), img.pix, dst, x, y)
      {
        dst[w - 1 - x, h - 1 - y] := img.At(img.minX + x, img.minY + y);
      }
    }
    AllPlaced(TurnOf(7), img.pix, dst);
  }

  method ToNRGBA<T(0)>(img: Image<T>) returns (dst: array2<T>)
    ensures fresh(dst) && PictureOf(dst) == Apply(TurnOf(1), PictureOf(img.pix))
  {
    var w, h := img.pix.Length1, img.pix.Length0;
    dst := new T[h, w];
    for y := 0 to h
      invariant Placed(TurnOf(1), img.pix, dst, 0, y)
    {
      for x := 0 to w
        invariant Placed(TurnOf(1), img.pix, dst, x, y)
      {
        dst[y, x] := img.At(img.minX + x, img.minY + y);
      }
    }
    AllPlaced(TurnOf(1), img.pix, dst);
  }

  method ApplyOrientation<T(0)>(img: Image<T>, o: int) returns (dst: array2<T>)
    ensures fresh(dst) && PictureOf(dst) == Apply(TurnOf(o), PictureOf(img.pix))
  {
    match o
    case 2 => dst := FlipH(img);
    case 3 => dst := Rotate180(img);
    case 4 => dst := FlipV(img);
    case 5 => dst := Transpose(img);
    case 6 => dst := Rotate90CW(img);
    case 7 => dst := Transverse(img);
    case 8 => dst := Rotate90CCW(img);
    case _ => dst := ToNRGBA(img);
  }
}
