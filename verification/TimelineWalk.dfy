/** Walking the whole Timeline folder: nothing is lost, repeated or out of order. */
module TimelineWalk {
  import opened Basics
  import opened Paging
  import opened Text
  import opened Timeline
  import opened TimelineTree

  /** The assets met by opening a container and everything below it, at most `depth` levels deep. */
  function Walk(mode: Mode, media: seq<Asset>, local: string, depth: nat): seq<Asset>
    decreases depth, 0
  {
    if depth == 0 then []
    else
      match Contents(mode, media, local)
      case Items(items, _) => items
      case Containers(groups, _) => Gather(Titles(groups), Opened(mode, media, depth - 1))
      case _ => []
  }

  /** What opening a listed container meets. */
  function Opened(mode: Mode, media: seq<Asset>, depth: nat): string -> seq<Asset>
    decreases depth, 1
  {
    (bucket: string) => Walk(mode, media, PREFIX + bucket, depth)
  }

  function BucketTests(month: bool, bs: seq<string>): seq<Asset -> bool> {
    seq(|bs|, k requires 0 <= k < |bs| => InBucket(month, bs[k]))
  }

  lemma TestsExceptLast(month: bool, bs: seq<string>)
    requires bs != []
    ensures BucketTests(month, bs)[..|bs| - 1] == BucketTests(month, bs[..|bs| - 1])
    ensures BucketTests(month, bs)[|bs| - 1] == InBucket(month, bs[|bs| - 1])
  {
  }

  lemma BucketsFollow(buckets: seq<string>, open: string -> seq<Asset>, media: seq<Asset>, month: bool, ordered: bool)
    requires forall b | b in buckets :: Follows(open(b), Filter(media, InBucket(month, b)), ordered)
    ensures Follows(Gather(buckets, open), FilterEach(media, BucketTests(month, buckets)), ordered)
  {
    GatherFollows(buckets, open, media, BucketTests(month, buckets), ordered);
  }

  lemma GroupsTitles(media: seq<Asset>, month: bool, prefix: string)
    ensures Titles(Groups(media, month, prefix)) == Buckets(media, month, prefix)
  {
  }

  // ----- one level of grouping -----

  /** The assets' buckets are among bs, which has no bucket twice. */
  ghost predicate Covers(bs: seq<string>, media: seq<Asset>, month: bool) {
    Ordered(bs) && forall a | a in media :: TimelineBucket(a, month) in bs
  }

  lemma TestsCover(bs: seq<string>, media: seq<Asset>, month: bool, a: Asset)
    requires Covers(bs, media, month) && a in media
    ensures AnyOf(BucketTests(month, bs))(a) && AtMostOne(a, BucketTests(month, bs))
  {
    var k :| 0 <= k < |bs| && bs[k] == TimelineBucket(a, month);
    assert BucketTests(month, bs)[k](a);
    forall i, j | 0 <= i < j < |bs|
      ensures !(BucketTests(month, bs)[i](a) && BucketTests(month, bs)[j](a))
    {
      PrecedesIsOrder(bs[i], bs[j], bs[i]);
    }
  }

  /** Grouping keeps every asset exactly once. */
  lemma GroupsPermute(bs: seq<string>, media: seq<Asset>, month: bool)
    requires Covers(bs, media, month)
    ensures multiset(FilterEach(media, BucketTests(month, bs))) == multiset(media)
  {
    forall a | a in media
      ensures AnyOf(BucketTests(month, bs))(a) && AtMostOne(a, BucketTests(month, bs))
    {
      TestsCover(bs, media, month, a);
    }
    FilterEachPermutes(media, BucketTests(month, bs));
  }

  /** Dated assets newest first, wherever the others stand. */
  predicate NewestFirst(media: seq<Asset>) {
    forall i, j | 0 <= i < j < |media| && Dated(media[i]) && Dated(media[j]) :: media[i].captured >= media[j].captured
  }

  /** Dated assets newest first, then the others. */
  predicate Tidy(media: seq<Asset>) {
    forall i, j | 0 <= i < j < |media| && Dated(media[j]) :: Dated(media[i]) && media[i].captured >= media[j].captured
  }

  /** Of two assets in tidy order, the first one's bucket is not the later one. */
  lemma TidyBuckets(x: Asset, y: Asset, month: bool)
    requires Dated(y) ==> Dated(x) && x.captured >= y.captured
    ensures !Precedes(TimelineBucket(y, month), TimelineBucket(x, month))
  {
    BucketShapes(x);
    BucketShapes(y);
    if Dated(y) {
      LabelsAscend(y.captured, x.captured);
    }
  }

  /** Grouping a tidy list and reading the groups in order gives the list back. */
  lemma GroupsInOrder(bs: seq<string>, media: seq<Asset>, month: bool)
    requires Covers(bs, media, month) && Tidy(media)
    ensures FilterEach(media, BucketTests(month, bs)) == media
  {
    var tests := BucketTests(month, bs);
    forall k, l, i, j | 0 <= k < l < |tests| && 0 <= i <= j < |media|
      ensures !(tests[l](media[i]) && tests[k](media[j]))
    {
      TidyBuckets(media[i], media[j], month);
      PrecedesIsOrder(bs[k], bs[l], bs[k]);
    }
    FilterEachInOrder(media, tests);
    forall i | 0 <= i < |media|
      ensures AnyOf(tests)(media[i])
    {
      TestsCover(bs, media, month, media[i]);
    }
    FilterAll(media, AnyOf(tests));
  }

  // ----- a year container -----

  lemma {:induction false} FilterTidy(media: seq<Asset>, p: Asset -> bool)
    requires NewestFirst(media) && forall a | a in media && p(a) :: Dated(a)
    ensures Tidy(Filter(media, p))
  {
    if media != [] {
      var n := |media| - 1;
      var mine := Filter(media[..n], p);
      assert forall a | a in media[..n] :: a in media;
      FilterTidy(media[..n], p);
      forall i | 0 <= i < |mine|
        ensures mine[i] in media[..n] && p(mine[i])
      {
        FilterIn(media[..n], p, mine[i]);
      }
    }
  }

  lemma MonthsCover(media: seq<Asset>, year: string)
    requires IsYear(year)
    ensures var mine := Filter(media, InBucket(false, year)); Covers(Buckets(mine, true, year), mine, true)
  {
    var mine := Filter(media, InBucket(false, year));
    forall a | a in mine
      ensures TimelineBucket(a, true) in Buckets(mine, true, year)
    {
      FilterIn(media, InBucket(false, year), a);
      BucketShapes(a);
      BucketsAre(mine, true, year, TimelineBucket(a, true));
    }
  }

  /** A month's assets are the same whether sought in the year or in the library. */
  lemma MonthOfYear(media: seq<Asset>, year: string, month: string)
    requires IsYear(year) && IsMonth(month) && year <= month
    ensures Filter(media, InBucket(true, month)) == Filter(Filter(media, InBucket(false, year)), InBucket(true, month))
  {
    FilterTwice(media, InBucket(false, year), InBucket(true, month));
    forall i | 0 <= i < |media|
      ensures InBucket(true, month)(media[i]) == Both(InBucket(false, year), InBucket(true, month))(media[i])
    {
      BucketShapes(media[i]);
    }
    FilterSame(media, InBucket(true, month), Both(InBucket(false, year), InBucket(true, month)));
  }

  /** Opening a container that is not split further meets its assets. */
  lemma OpenLeaf(mode: Mode, media: seq<Asset>, bucket: string, depth: nat)
    requires Accepted(mode, bucket) && !SplitByMonth(mode, bucket) && HasBucket(media, IsMonth(bucket), bucket)
    requires depth >= 1
    ensures Opened(mode, media, depth)(bucket) == Filter(media, InBucket(IsMonth(bucket), bucket))
  {
    LocalName(bucket);
    GroupNotEmpty(media, IsMonth(bucket), bucket);
  }

  lemma MonthsOfYear(media: seq<Asset>, year: string, b: string)
    requires IsYear(year) && b in Buckets(Filter(media, InBucket(false, year)), true, year)
    ensures IsMonth(b) && year <= b && HasBucket(media, true, b)
  {
    var mine := Filter(media, InBucket(false, year));
    BucketsAre(mine, true, year, b);
    var a :| a in mine && TimelineBucket(a, true) == b;
    FilterIn(media, InBucket(false, year), a);
    BucketShapes(a);
  }

  lemma MonthFollows(media: seq<Asset>, year: string, b: string, depth: nat, ordered: bool)
    requires IsYear(year) && b in Buckets(Filter(media, InBucket(false, year)), true, year) && depth >= 1
    ensures Follows(Opened(ByMonth, media, depth)(b),
      Filter(Filter(media, InBucket(false, year)), InBucket(true, b)), ordered)
  {
    MonthsOfYear(media, year, b);
    MonthOfYear(media, year, b);
    OpenLeaf(ByMonth, media, b, depth);
  }

  /** The months of a year, opened one after the other, hold the year's assets. */
  lemma MonthsFollow(media: seq<Asset>, year: string, depth: nat)
    requires IsYear(year) && depth >= 3
    ensures var mine := Filter(media, InBucket(false, year));
      Follows(Gather(Buckets(mine, true, year), Opened(ByMonth, media, depth - 2)), mine, NewestFirst(media))
  {
    var mine := Filter(media, InBucket(false, year));
    var months := Buckets(mine, true, year);
    forall b | b in months
      ensures Follows(Opened(ByMonth, media, depth - 2)(b), Filter(mine, InBucket(true, b)), NewestFirst(media))
    {
      MonthFollows(media, year, b, depth - 2, NewestFirst(media));
    }
    BucketsFollow(months, Opened(ByMonth, media, depth - 2), mine, true, NewestFirst(media));
    MonthsCover(media, year);
    GroupsPermute(months, mine, true);
    if NewestFirst(media) {
      YearIsTidy(media, year);
      GroupsInOrder(months, mine, true);
    }
  }

  lemma NoMonth(year: string)
    requires IsYear(year)
    ensures year != UNKNOWN && !IsMonth(year)
  {
  }

  lemma YearHoldsMonths(media: seq<Asset>, year: string)
    requires IsYear(year) && HasBucket(media, false, year)
    ensures var mine := Filter(media, InBucket(false, year)); var months := Groups(mine, true, year);
      Contents(ByMonth, media, PREFIX + year) == Containers(months, |months|)
  {
    LocalName(year);
    GroupNotEmpty(media, false, year);
    NoMonth(year);
  }

  lemma OpenSplitYear(media: seq<Asset>, year: string, depth: nat)
    requires IsYear(year) && HasBucket(media, false, year) && depth >= 2
    ensures Opened(ByMonth, media, depth - 1)(year) ==
      Gather(Buckets(Filter(media, InBucket(false, year)), true, year), Opened(ByMonth, media, depth - 2))
  {
    YearHoldsMonths(media, year);
    GroupsTitles(Filter(media, InBucket(false, year)), true, year);
  }

  lemma SplitYearFollows(media: seq<Asset>, year: string, depth: nat)
    requires IsYear(year) && HasBucket(media, false, year) && depth >= 3
    ensures Follows(Opened(ByMonth, media, depth - 1)(year), Filter(media, InBucket(false, year)), NewestFirst(media))
  {
    OpenSplitYear(media, year, depth);
    MonthsFollow(media, year, depth);
  }

  /** Opening a year or the unknown-date container meets its assets, each once,
      and in their own order if the library's dated assets are newest first. */
  lemma OpenYear(mode: Mode, media: seq<Asset>, bucket: string, depth: nat)
    requires !mode.Flat? && HasBucket(media, false, bucket) && depth >= 3
    ensures Follows(Opened(mode, media, depth - 1)(bucket), Filter(media, InBucket(false, bucket)), NewestFirst(media))
  {
    var a :| a in media && TimelineBucket(a, false) == bucket;
    BucketShapes(a);
    if SplitByMonth(mode, bucket) {
      SplitYearFollows(media, bucket, depth);
    } else {
      OpenLeaf(mode, media, bucket, depth - 1);
    }
  }

  lemma YearIsTidy(media: seq<Asset>, year: string)
    requires NewestFirst(media) && IsYear(year)
    ensures Tidy(Filter(media, InBucket(false, year)))
  {
    forall a | a in media && InBucket(false, year)(a)
      ensures Dated(a)
    {
      BucketShapes(a);
    }
    FilterTidy(media, InBucket(false, year));
  }

  // ----- the whole folder -----

  lemma YearsCover(media: seq<Asset>)
    ensures Covers(Buckets(media, false, ""), media, false)
  {
    forall a | a in media
      ensures TimelineBucket(a, false) in Buckets(media, false, "")
    {
      BucketsAre(media, false, "", TimelineBucket(a, false));
    }
  }

  /** The listed years, opened one after the other, hold what grouping by year puts in them. */
  lemma YearsFollow(mode: Mode, media: seq<Asset>, depth: nat)
    requires !mode.Flat? && depth >= 3
    ensures var bs := Buckets(media, false, "");
      Follows(Gather(bs, Opened(mode, media, depth - 1)), FilterEach(media, BucketTests(false, bs)), NewestFirst(media))
  {
    var bs := Buckets(media, false, "");
    forall b | b in bs
      ensures Follows(Opened(mode, media, depth - 1)(b), Filter(media, InBucket(false, b)), NewestFirst(media))
    {
      BucketsAre(media, false, "", b);
      OpenYear(mode, media, b, depth);
    }
    BucketsFollow(bs, Opened(mode, media, depth - 1), media, false, NewestFirst(media));
  }

  lemma OpenFolder(mode: Mode, media: seq<Asset>, depth: nat)
    requires !mode.Flat? && depth >= 1
    ensures Walk(mode, media, TIMELINE, depth) == Gather(Buckets(media, false, ""), Opened(mode, media, depth - 1))
  {
    assert !(PREFIX <= TIMELINE);
    GroupsTitles(media, false, "");
  }

  lemma WalkFolder(mode: Mode, media: seq<Asset>, depth: nat)
    requires !mode.Flat? && depth >= 3
    ensures Follows(Walk(mode, media, TIMELINE, depth),
              FilterEach(media, BucketTests(false, Buckets(media, false, ""))), NewestFirst(media))
  {
    OpenFolder(mode, media, depth);
    YearsFollow(mode, media, depth);
  }

  /** However the folder is grouped, walking it meets every photo and video of the
      library exactly once, and three levels are enough. */
  lemma TreeHoldsEveryAssetOnce(mode: Mode, assets: seq<Asset>, depth: nat)
    requires depth >= 3
    ensures var media := Filter(assets, Supported); multiset(Walk(mode, media, TIMELINE, depth)) == multiset(media)
    ensures var walk := Walk(mode, Filter(assets, Supported), TIMELINE, depth);
      forall a: Asset :: multiset(walk)[a] == if a.kind.Image? || a.kind.Video? then multiset(assets)[a] else 0
  {
    var media := Filter(assets, Supported);
    assert !(PREFIX <= TIMELINE);
    if !mode.Flat? {
      WalkFolder(mode, media, depth);
      YearsCover(media);
      GroupsPermute(Buckets(media, false, ""), media, false);
    }
    forall a: Asset
      ensures multiset(media)[a] == if a.kind.Image? || a.kind.Video? then multiset(assets)[a] else 0
    {
      FilterCounts(assets, Supported, a);
    }
  }

  predicate Undated(a: Asset) { !Dated(a) }

  /** Dated assets first, the others after them. */
  function Rearranged(media: seq<Asset>): seq<Asset> { Filter(media, Dated) + Filter(media, Undated) }

  lemma BucketOfRearranged(media: seq<Asset>, b: string)
    ensures Filter(Rearranged(media), InBucket(false, b)) == Filter(media, InBucket(false, b))
  {
    var p := InBucket(false, b);
    FilterConcat(Filter(media, Dated), Filter(media, Undated), p);
    FilterTwice(media, Dated, p);
    FilterTwice(media, Undated, p);
    forall a
      ensures if b == UNKNOWN then !Both(Dated, p)(a) && Both(Undated, p)(a) == p(a)
        else Both(Dated, p)(a) == p(a) && !Both(Undated, p)(a)
    {
      BucketShapes(a);
    }
    if b == UNKNOWN {
      FilterNone(media, Both(Dated, p));
      FilterSame(media, Both(Undated, p), p);
    } else {
      FilterNone(media, Both(Undated, p));
      FilterSame(media, Both(Dated, p), p);
    }
  }

  lemma {:induction false} EachOfRearranged(media: seq<Asset>, bs: seq<string>)
    ensures FilterEach(Rearranged(media), BucketTests(false, bs)) == FilterEach(media, BucketTests(false, bs))
  {
    if bs != [] {
      TestsExceptLast(false, bs);
      EachOfRearranged(media, bs[..|bs| - 1]);
      BucketOfRearranged(media, bs[|bs| - 1]);
    }
  }

  lemma RearrangedIsTidy(media: seq<Asset>)
    requires NewestFirst(media)
    ensures Tidy(Rearranged(media)) && forall a | a in Rearranged(media) :: a in media
  {
    FilterTidy(media, Dated);
    forall a
      ensures a in Filter(media, Dated) <==> a in media && Dated(a)
      ensures a in Filter(media, Undated) <==> a in media && Undated(a)
    {
      FilterIn(media, Dated, a);
      FilterIn(media, Undated, a);
    }
  }

  /** Where the library lists its dated assets newest first, walking the grouped
      folder meets them in that very order, followed by the undated ones. */
  lemma TreeIsNewestFirst(mode: Mode, assets: seq<Asset>, depth: nat)
    requires !mode.Flat? && depth >= 3 && NewestFirst(Filter(assets, Supported))
    ensures var media := Filter(assets, Supported);
      Walk(mode, media, TIMELINE, depth) == Filter(media, Dated) + Filter(media, Undated)
  {
    var media := Filter(assets, Supported);
    var bs := Buckets(media, false, "");
    WalkFolder(mode, media, depth);
    YearsCover(media);
    EachOfRearranged(media, bs);
    RearrangedIsTidy(media);
    GroupsInOrder(bs, Rearranged(media), false);
  }

  // ----- the counts shown in a listing -----

  ghost predicate Apart<T(!new)>(s: seq<T>, f: T -> string) {
    forall i, j | 0 <= i < j < |s| :: f(s[i]) != f(s[j])
  }

  lemma ApartLast<T(!new)>(s: seq<T>, f: T -> string, first: seq<T>, last: T)
    requires s == first + [last]
    ensures Apart(s, f) <==> Apart(first, f) && forall x | x in first :: f(x) != f(last)
  {
    var n := |first|;
    if Apart(s, f) {
      forall x | x in first
        ensures f(x) != f(last)
      {
        var i :| 0 <= i < n && first[i] == x;
        assert s[i] == x && s[n] == last;
      }
      assert forall i | 0 <= i < n :: first[i] == s[i];
    }
  }

  ghost function BucketOf(month: bool): Asset -> string { (a: Asset) => TimelineBucket(a, month) }

  /** No two of the assets share a bucket. */
  ghost predicate OneEachBucket(media: seq<Asset>, month: bool) { Apart(media, BucketOf(month)) }

  lemma OneEachBucketLast(media: seq<Asset>, month: bool)
    requires media != []
    ensures var n := |media| - 1;
      OneEachBucket(media, month) <==>
        OneEachBucket(media[..n], month) && !HasBucket(media[..n], month, TimelineBucket(media[n], month))
  {
    var n := |media| - 1;
    ApartLast(media, BucketOf(month), media[..n], media[n]);
  }

  lemma {:induction false} AsManyBucketsIff(media: seq<Asset>, month: bool, prefix: string)
    requires forall a | a in media :: prefix <= TimelineBucket(a, month)
    ensures |Buckets(media, month, prefix)| == |media| <==> OneEachBucket(media, month)
  {
    if media != [] {
      var n := |media| - 1;
      var b := TimelineBucket(media[n], month);
      assert media[n] in media && forall a | a in media[..n] :: a in media;
      AsManyBucketsIff(media[..n], month, prefix);
      OneEachBucketLast(media, month);
      BucketsAre(media[..n], month, prefix, b);
      BucketsAreFew(media[..n], month, prefix);
      if !HasBucket(media[..n], month, b) {
        InsertBucketLength(b, Buckets(media[..n], month, prefix));
      }
    }
  }

  /** The child count a listing shows beside a year or month is the number of
      children it has when opened, except for a year split into months that has
      two assets in one month: a listing counts its assets, not its months. */
  lemma ListedCountIff(mode: Mode, media: seq<Asset>, local: string, g: Group)
    requires Contents(mode, media, local).Containers? && g in Contents(mode, media, local).groups
    ensures var c := Contents(mode, media, PREFIX + g.bucket);
      && (c.Items? || c.Containers?)
      && (c.total == |g.assets| <==>
            !SplitByMonth(mode, g.bucket) || OneEachBucket(g.assets, true))
  {
    ListedOpens(mode, media, local, g);
    LocalName(g.bucket);
    ListedAssets(mode, media, local, g);
    if SplitByMonth(mode, g.bucket) {
      forall a | a in g.assets
        ensures g.bucket <= TimelineBucket(a, true)
      {
        FilterIn(media, InBucket(false, g.bucket), a);
        BucketShapes(a);
      }
      AsManyBucketsIff(g.assets, true, g.bucket);
    }
  }

  lemma TwoGrouped(x: Asset, y: Asset) returns (g: Group)
    requires Dated(x) && x.captured == y.captured
    ensures g in Groups([x, y], false, "") && IsYear(g.bucket) && g.assets == [x, y]
  {
    var media, year := [x, y], YearLabel(x.captured);
    assert x in media && HasBucket(media, false, year);
    BucketsAre(media, false, "", year);
    var k :| 0 <= k < |Buckets(media, false, "")| && Buckets(media, false, "")[k] == year;
    g := Groups(media, false, "")[k];
    FilterAll(media, InBucket(false, year));
    BucketShapes(x);
  }

  lemma SameMonth(x: Asset, y: Asset)
    requires Dated(x) && x.captured == y.captured
    ensures !OneEachBucket([x, y], true)
  {
    assert TimelineBucket([x, y][0], true) == TimelineBucket([x, y][1], true);
  }

  lemma YearTotal(media: seq<Asset>, year: string)
    requires IsYear(year) && Contents(ByMonth, media, PREFIX + year).Containers?
    ensures var mine := Filter(media, InBucket(false, year)); Contents(ByMonth, media, PREFIX + year).total <= |mine|
  {
    LocalName(year);
    BucketsAreFew(Filter(media, InBucket(false, year)), true, year);
  }

  /** Such a year: two assets taken at one instant are listed as 2 children, and opening the year shows 1. */
  lemma TwoAssetsOneMonth(x: Asset, y: Asset) returns (g: Group)
    requires Dated(x) && x.captured == y.captured
    ensures Contents(ByMonth, [x, y], TIMELINE).Containers? && g in Contents(ByMonth, [x, y], TIMELINE).groups
    ensures |g.assets| == 2
    ensures var c := Contents(ByMonth, [x, y], PREFIX + g.bucket); c.Containers? && c.groups != [] && c.total == 1
  {
    g := TwoGrouped(x, y);
    assert !(PREFIX <= TIMELINE);
    SameMonth(x, y);
    ListedCountIff(ByMonth, [x, y], TIMELINE, g);
    ListedOpens(ByMonth, [x, y], TIMELINE, g);
    ListedAssets(ByMonth, [x, y], TIMELINE, g);
    LocalName(g.bucket);
    YearTotal([x, y], g.bucket);
  }

  lemma ListedAssets(mode: Mode, media: seq<Asset>, local: string, g: Group)
    requires Contents(mode, media, local).Containers? && g in Contents(mode, media, local).groups
    ensures g.assets == Filter(media, InBucket(IsMonth(g.bucket), g.bucket))
  {
    if PREFIX <= local {
      var year := local[|PREFIX|..];
      var mine := Filter(media, InBucket(false, year));
      GroupsIsGrouping(mine, true, year);
      FilterIn(mine, InBucket(true, g.bucket), g.assets[0]);
      FilterIn(media, InBucket(false, year), g.assets[0]);
      BucketShapes(g.assets[0]);
      MonthOfYear(media, year, g.bucket);
    } else {
      GroupsIsGrouping(media, false, "");
      FilterIn(media, InBucket(false, g.bucket), g.assets[0]);
      BucketShapes(g.assets[0]);
    }
  }
}
