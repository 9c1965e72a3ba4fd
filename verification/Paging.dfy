/** dlna/contentdirectory.go: cutting a listing into the pages a client asks for. */
module Paging {
  import opened Basics

  const TWO_63: int := 0x8000_0000_0000_0000
  const TWO_32: int := 0x1_0000_0000

  /** Go's int. */
  type Int64 = x: int | -0x8000_0000_0000_0000 <= x < 0x8000_0000_0000_0000

  /** The type UPnP gives StartingIndex, RequestedCount and TotalMatches. */
  type Ui4 = x: int | 0 <= x < 0x1_0000_0000

  /** Addition of two Go ints: it wraps. */
  function Plus(x: Int64, y: Int64): Int64 {
    var sum := x + y;
    if sum >= TWO_63 then sum - 2 * TWO_63 else if sum < -TWO_63 then sum + 2 * TWO_63 else sum
  }

  datatype Panic = SliceBoundsOutOfRange

  /** page: what Go does, including the slice expression's bounds check. */
  function Page<T>(items: seq<T>, start: Int64, count: Int64): Result<seq<T>, Panic>
    requires |items| < TWO_63
  {
    if start < 0 || start >= |items| then Success([])
    else
      var end := if count > 0 && Plus(start, count) < |items| then Plus(start, count) else |items|;
      if start <= end then Success(items[start..end]) else Failure(SliceBoundsOutOfRange)
  }

  /** A page is the longest run of items from start on that respects count. */
  ghost predicate IsPage<T>(items: seq<T>, start: int, count: int, page: seq<T>) {
    if 0 <= start < |items| then
      && page <= items[start..]
      && (count > 0 ==> |page| <= count)
      && (start + |page| == |items| || (count > 0 && |page| == count))
    else
      page == []
  }

  /** The page asked for is delivered, unless start + count does not fit an int. */
  lemma PageIff<T>(items: seq<T>, start: Int64, count: Int64)
    requires |items| < TWO_63
    ensures var p := Page(items, start, count);
      && (p.Success? <==> !(0 <= start < |items|) || start + count < TWO_63)
      && (p.Success? ==> IsPage(items, start, count, p.value))
  {
    if 0 <= start < |items| {
      var p := Page(items, start, count);
      if p.Success? {
        assert p.value <= items[start..] by {
          assert forall k | 0 <= k < |p.value| :: p.value[k] == items[start..][k];
        }
      }
    }
  }

  /** Such a request: the second of two items and as many after it as an int can count. */
  lemma PageOverflows<T>(x: T, y: T)
    ensures Page([x, y], 1, 0x7FFF_FFFF_FFFF_FFFF) == Failure(SliceBoundsOutOfRange)
  {
  }

  /** The description of a page determines it. */
  lemma PageUnique<T>(items: seq<T>, start: int, count: int, p: seq<T>, q: seq<T>)
    requires IsPage(items, start, count, p) && IsPage(items, start, count, q)
    ensures p == q
  {
    if 0 <= start < |items| {
      assert |p| == |q|;
      assert p == items[start..][..|p|] && q == items[start..][..|q|];
    }
  }

  /** What a client gets for arguments of their declared type. */
  function PageOf<T>(items: seq<T>, start: Ui4, count: Ui4): (p: seq<T>)
    requires |items| < TWO_63
    ensures IsPage(items, start, count, p)
  {
    PageIff(items, start, count);
    Page(items, start, count).value
  }

  /** A client reads on from where the last page ended until it has TotalMatches items. */
  function ReadAll<T>(items: seq<T>, start: nat, asked: nat, sizes: nat -> Ui4): seq<T>
    requires start <= |items| < TWO_32
    decreases |items| - start
  {
    if start == |items| then []
    else
      var p := PageOf(items, start, sizes(asked));
      p + ReadAll(items, start + |p|, asked + 1, sizes)
  }

  /** Whatever sizes it asks for, page after page, it reads the whole listing once. */
  lemma {:induction false} PagesRebuildListing<T>(items: seq<T>, start: nat, asked: nat, sizes: nat -> Ui4)
    requires start <= |items| < TWO_32
    ensures ReadAll(items, start, asked, sizes) == items[start..]
    decreases |items| - start
  {
    if start < |items| {
      var p := PageOf(items, start, sizes(asked));
      PagesRebuildListing(items, start + |p|, asked + 1, sizes);
      assert items[start..] == items[start..][..|p|] + items[start..][|p|..];
      assert items[start..][|p|..] == items[start + |p|..];
    }
  }

  /** Stopping at the first empty page instead is the same: only past the end is a page empty. */
  lemma EmptyPageIff<T>(items: seq<T>, start: Ui4, count: Ui4)
    requires |items| < TWO_32
    ensures PageOf(items, start, count) == [] <==> start >= |items|
  {
    if start < |items| {
      assert |items[start..]| > 0;
    }
  }
}
