/** dlna/timeline.go: browsing the Timeline folder and its year and month containers. */
module TimelineTree {
  import opened Basics
  import opened Paging
  import opened Text
  import opened Timeline

  /** config.TimelineGrouping */
  datatype Mode = Flat | ByYear | ByMonth

  /** What a Browse request comes back with; `total` is TotalMatches. */
  datatype Answer =
    | NoSuchObject
    | Metadata(childCount: int)
    | Items(items: seq<Asset>, total: nat)
    | Containers(groups: seq<Group>, total: nat)
    | Unavailable(error: Error) // ListTimelineAssets failed

  type Error = string

  /** The arguments of a Browse request that matter here. */
  datatype Args = Args(metadata: bool, start: Ui4, count: Ui4)

  /** What sortPhotos and sortByTitle make of a listing under the request's
      SortCriteria; without any, they leave it as it is. */
  datatype Sorting = Sorting(photos: seq<Asset> -> seq<Asset>, groups: seq<Group> -> seq<Group>)

  /** Both sort in place, so they rearrange their argument, in whatever order was asked for. */
  ghost predicate Rearranges(o: Sorting) {
    (forall s :: multiset(o.photos(s)) == multiset(s)) && (forall s :: multiset(o.groups(s)) == multiset(s))
  }

  lemma SameSize<T>(s: seq<T>, t: seq<T>)
    requires multiset(s) == multiset(t)
    ensures |s| == |t|
  {
    assert |multiset(s)| == |s| && |multiset(t)| == |t|;
  }

  const TIMELINE: string := "timeline"
  const PREFIX: string := "timeline:"

  lemma LocalName(bucket: string)
    ensures PREFIX <= PREFIX + bucket && (PREFIX + bucket)[|PREFIX|..] == bucket
  {
  }

  predicate Supported(a: Asset) { a.kind != Other }

  /** The sub-containers that exist as names, whatever the library holds. */
  predicate Accepted(mode: Mode, bucket: string) {
    !mode.Flat? && (bucket == UNKNOWN || IsYear(bucket) || (mode.ByMonth? && IsMonth(bucket)))
  }

  predicate SplitByMonth(mode: Mode, bucket: string) { mode.ByMonth? && !IsMonth(bucket) && bucket != UNKNOWN }

  /** What a container holds, before paging. */
  function Contents(mode: Mode, media: seq<Asset>, local: string): Answer {
    if !(PREFIX <= local) then
      if mode.Flat? then Items(media, |media|)
      else Containers(Groups(media, false, ""), |Groups(media, false, "")|)
    else
      var bucket := local[|PREFIX|..];
      var mine := Filter(media, InBucket(IsMonth(bucket), bucket));
      if !Accepted(mode, bucket) || mine == [] then NoSuchObject
      else if SplitByMonth(mode, bucket) then
        Containers(Groups(mine, true, bucket), |Groups(mine, true, bucket)|)
      else Items(mine, |mine|)
  }

  /** One page of what a container holds, sorted. */
  function CutToPage(a: Answer, args: Args, o: Sorting): Answer
    requires a.Items? ==> |o.photos(a.items)| < TWO_63
    requires a.Containers? ==> |o.groups(a.groups)| < TWO_63
  {
    match a
    case Items(items, total) => Items(PageOf(o.photos(items), args.start, args.count), total)
    case Containers(groups, total) => Containers(PageOf(o.groups(groups), args.start, args.count), total)
    case _ => a
  }

  /** The child count a container states about itself; -1 leaves it out. */
  function Described(mode: Mode, media: seq<Asset>, local: string): Answer {
    if !(PREFIX <= local) then Metadata(-1)
    else
      var bucket := local[|PREFIX|..];
      var mine := Filter(media, InBucket(IsMonth(bucket), bucket));
      if !Accepted(mode, bucket) || mine == [] then NoSuchObject
      else Metadata(if SplitByMonth(mode, bucket) then |Groups(mine, true, "")| else |mine|)
  }

  lemma {:induction false} FilterShrinks<T>(s: seq<T>, p: T -> bool)
    ensures |Filter(s, p)| <= |s|
  {
    if s != [] {
      FilterShrinks(s[..|s| - 1], p);
    }
  }

  lemma {:induction false} BucketsAreFew(media: seq<Asset>, month: bool, prefix: string)
    ensures |Buckets(media, month, prefix)| <= |media|
  {
    if media != [] {
      var r := Buckets(media[..|media| - 1], month, prefix);
      BucketsAreFew(media[..|media| - 1], month, prefix);
      var b := TimelineBucket(media[|media| - 1], month);
      if b !in r {
        InsertBucketLength(b, r);
      }
    }
  }

  lemma {:induction false} InsertBucketLength(b: string, s: seq<string>)
    requires Ordered(s) && b !in s
    ensures |InsertBucket(b, s)| == |s| + 1
  {
    if s != [] && !Precedes(b, s[0]) {
      InsertBucketLength(b, s[1..]);
    }
  }

  lemma ContentsFit(mode: Mode, media: seq<Asset>, local: string, o: Sorting)
    requires Rearranges(o)
    ensures var c := Contents(mode, media, local);
      && (c.Items? ==> |o.photos(c.items)| == |c.items| <= |media|)
      && (c.Containers? ==> |o.groups(c.groups)| == |c.groups| <= |media|)
  {
    var c := Contents(mode, media, local);
    BucketsAreFew(media, false, "");
    if PREFIX <= local {
      var bucket := local[|PREFIX|..];
      var mine := Filter(media, InBucket(IsMonth(bucket), bucket));
      FilterShrinks(media, InBucket(IsMonth(bucket), bucket));
      BucketsAreFew(mine, true, bucket);
    }
    if c.Items? {
      SameSize(o.photos(c.items), c.items);
    } else if c.Containers? {
      SameSize(o.groups(c.groups), c.groups);
    }
  }

  /** filterSupportedAssets */
  method FilterSupportedAssets(assets: seq<Asset>) returns (out: seq<Asset>)
    ensures out == Filter(assets, Supported)
  {
    out := [];
    for i := 0 to |assets|
      invariant out == Filter(assets[..i], Supported)
    {
      assert assets[..i + 1][..i] == assets[..i];
      if assets[i].kind.Image? || assets[i].kind.Video? {
        out := out + [assets[i]];
      }
    }
    assert assets[..|assets|] == assets;
  }

  /** What Browse answers: about the container itself, or one page of what it holds. */
  function Browse(mode: Mode, media: seq<Asset>, local: string, args: Args, o: Sorting): Answer
    requires |media| < TWO_63 && Rearranges(o)
  {
    if args.metadata then Described(mode, media, local)
    else
      ContentsFit(mode, media, local, o);
      CutToPage(Contents(mode, media, local), args, o)
  }

  /** A failed load matters only where the listing is needed: not for the
      folder's own metadata, nor for names that cannot exist. */
  predicate NeedsListing(mode: Mode, local: string, args: Args) {
    if PREFIX <= local then Accepted(mode, local[|PREFIX|..]) else !args.metadata
  }

  /** The assets in one year or month container. */
  method FindMine(media: seq<Asset>, bucket: string) returns (mine: seq<Asset>)
    ensures mine == Filter(media, InBucket(IsMonth(bucket), bucket))
  {
    var isMonth := IsMonth(bucket);
    mine := [];
    for i := 0 to |media|
      invariant mine == Filter(media[..i], InBucket(isMonth, bucket))
    {
      assert media[..i + 1][..i] == media[..i];
      if TimelineBucket(media[i], isMonth) == bucket {
        mine := mine + [media[i]];
      }
    }
    assert media[..|media|] == media;
  }

  method BrowseTimeline(mode: Mode, local: string, args: Args, loaded: Result<seq<Asset>, Error>, o: Sorting)
    returns (r: Answer)
    requires (loaded.Success? ==> |loaded.value| < TWO_63) && (local == TIMELINE || PREFIX <= local) && Rearranges(o)
    ensures local == TIMELINE && args.metadata ==> r == Metadata(-1)
    ensures loaded.Failure? ==>
      r == if NeedsListing(mode, local, args) then Unavailable(loaded.error) else Browse(mode, [], local, args, o)
    ensures loaded.Success? ==>
      |Filter(loaded.value, Supported)| < TWO_63 && r == Browse(mode, Filter(loaded.value, Supported), local, args, o)
  {
    assert !(PREFIX <= TIMELINE);
    if loaded.Success? {
      FilterShrinks(loaded.value, Supported);
    }
    var isSub := PREFIX <= local;
    if isSub && !Accepted(mode, local[|PREFIX|..]) {
      return NoSuchObject;
    }
    if local == TIMELINE && args.metadata {
      return Metadata(-1);
    }
    if loaded.Failure? {
      return Unavailable(loaded.error);
    }
    var media := FilterSupportedAssets(loaded.value);
    ContentsFit(mode, media, local, o);
    if !isSub {
      if mode.Flat? {
        return Items(PageOf(o.photos(media), args.start, args.count), |media|);
      }
      var groups := GroupTimeline(media, false, "");
      return Containers(PageOf(o.groups(groups), args.start, args.count), |groups|);
    }
    var bucket := local[|PREFIX|..];
    var mine := FindMine(media, bucket);
    if mine == [] {
      return NoSuchObject;
    }
    if args.metadata {
      var childCount := |mine|;
      if SplitByMonth(mode, bucket) {
        var months := GroupTimeline(mine, true, "");
        childCount := |months|;
      }
      return Metadata(childCount);
    }
    if SplitByMonth(mode, bucket) {
      var groups := GroupTimeline(mine, true, bucket);
      return Containers(PageOf(o.groups(groups), args.start, args.count), |groups|);
    }
    return Items(PageOf(o.photos(mine), args.start, args.count), |mine|);
  }

  // ----- what a container says about itself and what it holds -----

  /** For assets of one year, keeping only that year's months drops nothing. */
  lemma YearPrefixDropsNothing(media: seq<Asset>, year: string)
    requires IsYear(year)
    ensures var mine := Filter(media, InBucket(false, year));
      Groups(mine, true, year) == Groups(mine, true, "")
  {
    var mine := Filter(media, InBucket(false, year));
    var all := Groups(mine, true, "");
    GroupsIsGrouping(mine, true, "");
    forall a | a in mine
      ensures year <= TimelineBucket(a, true)
    {
      FilterIn(media, InBucket(false, year), a);
      BucketShapes(a);
    }
    forall g | g in all
      ensures year <= g.bucket
    {
      FilterIn(mine, InBucket(true, g.bucket), g.assets[0]);
    }
    GroupingUnique(mine, true, year, all);
  }

  /** BrowseMetadata and BrowseDirectChildren of the same year or month container
      agree: on whether it exists, and on how many children it has. */
  lemma MetadataCountsChildren(mode: Mode, media: seq<Asset>, bucket: string, start: Ui4, count: Ui4, o: Sorting)
    requires |media| < TWO_63 && Rearranges(o)
    ensures var self := Browse(mode, media, PREFIX + bucket, Args(true, start, count), o);
      var children := Browse(mode, media, PREFIX + bucket, Args(false, start, count), o);
      && (self.NoSuchObject? <==> children.NoSuchObject?)
      && (self.Metadata? <==> children.Items? || children.Containers?)
      && (self.Metadata? ==> self.childCount == children.total > 0)
  {
    LocalName(bucket);
    var mine := Filter(media, InBucket(IsMonth(bucket), bucket));
    if Accepted(mode, bucket) && SplitByMonth(mode, bucket) {
      YearPrefixDropsNothing(media, bucket);
      if mine != [] {
        BucketsAre(mine, true, "", TimelineBucket(mine[0], true));
      }
    }
  }

  // ----- every listed container opens -----

  /** A listed container exists when browsed and holds something. */
  ghost predicate Opens(mode: Mode, media: seq<Asset>, bucket: string) {
    var c := Contents(mode, media, PREFIX + bucket);
    (c.Items? && c.items != []) || (c.Containers? && c.groups != [])
  }

  lemma OpensIff(mode: Mode, media: seq<Asset>, bucket: string)
    ensures Opens(mode, media, bucket) <==> Accepted(mode, bucket) && HasBucket(media, IsMonth(bucket), bucket)
  {
    LocalName(bucket);
    var mine := Filter(media, InBucket(IsMonth(bucket), bucket));
    GroupNotEmpty(media, IsMonth(bucket), bucket);
    if Accepted(mode, bucket) && SplitByMonth(mode, bucket) && mine != [] {
      var b := TimelineBucket(mine[0], true);
      FilterIn(media, InBucket(false, bucket), mine[0]);
      BucketShapes(mine[0]);
      BucketsAre(mine, true, bucket, b);
    }
  }

  /** A name opens if and only if the folder is grouped and some asset has it as
      its year, or as its month where years are split, or has no date and the
      name is that of the unknown. */
  lemma OpensMeans(mode: Mode, media: seq<Asset>, bucket: string)
    ensures Opens(mode, media, bucket) <==>
      !mode.Flat? && exists a ::
        a in media &&
        (if a.captured == ZERO_TIME then bucket == "unknown"
         else bucket == YearLabel(a.captured) || (mode.ByMonth? && bucket == MonthLabel(a.captured)))
  {
    OpensIff(mode, media, bucket);
    forall a
      ensures !mode.Flat? && a in media && (if a.captured == ZERO_TIME then bucket == "unknown"
        else bucket == YearLabel(a.captured) || (mode.ByMonth? && bucket == MonthLabel(a.captured))) <==>
        a in media && Accepted(mode, bucket) && TimelineBucket(a, IsMonth(bucket)) == bucket
    {
      BucketShapes(a);
    }
  }

  ghost predicate Lists(groups: seq<Group>, b: string) { exists g :: g in groups && g.bucket == b }

  lemma ListsIff(media: seq<Asset>, month: bool, prefix: string, b: string)
    ensures Lists(Groups(media, month, prefix), b) <==> prefix <= b && HasBucket(media, month, b)
  {
    BucketsAre(media, month, prefix, b);
    var bs, groups := Buckets(media, month, prefix), Groups(media, month, prefix);
    if b in bs {
      var i :| 0 <= i < |bs| && bs[i] == b;
      assert groups[i] in groups && groups[i].bucket == b;
    }
  }

  /** The folder itself: the assets as they are, or one container for each year
      they were taken in and one for those without a date. */
  lemma TopListing(mode: Mode, media: seq<Asset>, b: string)
    ensures mode.Flat? ==> Contents(mode, media, TIMELINE) == Items(media, |media|)
    ensures !mode.Flat? ==>
      var top := Contents(mode, media, TIMELINE);
      && top.Containers?
      && (Lists(top.groups, b) <==> exists a ::
            a in media && (if a.captured == ZERO_TIME then b == "unknown" else b == YearLabel(a.captured)))
  {
    assert !(PREFIX <= TIMELINE);
    ListsIff(media, false, "", b);
  }

  /** A year's container: its assets, or, where years are split, one container for each of its months. */
  lemma YearListing(mode: Mode, media: seq<Asset>, year: string, b: string, x: Asset)
    requires IsYear(year) && Opens(mode, media, year) && x.captured != ZERO_TIME
    ensures var c := Contents(mode, media, PREFIX + year);
      && (mode.ByYear? ==>
            c.Items? && multiset(c.items)[x] == if YearLabel(x.captured) == year then multiset(media)[x] else 0)
      && (mode.ByMonth? ==>
            && c.Containers?
            && (Lists(c.groups, b) <==> exists a ::
                  a in media && a.captured != ZERO_TIME &&
                  YearLabel(a.captured) == year && MonthLabel(a.captured) == b))
  {
    LocalName(year);
    var mine := Filter(media, InBucket(false, year));
    FilterCounts(media, InBucket(false, year), x);
    ListsIff(mine, true, year, b);
    MonthsOf(media, year, b);
  }

  lemma MonthsOf(media: seq<Asset>, year: string, b: string)
    requires IsYear(year)
    ensures var mine := Filter(media, InBucket(false, year));
      year <= b && HasBucket(mine, true, b) <==> exists a ::
        a in media && a.captured != ZERO_TIME && YearLabel(a.captured) == year && MonthLabel(a.captured) == b
  {
    var mine := Filter(media, InBucket(false, year));
    forall a
      ensures a in mine && TimelineBucket(a, true) == b <==>
        a in media && a.captured != ZERO_TIME && YearLabel(a.captured) == year && MonthLabel(a.captured) == b
    {
      FilterIn(media, InBucket(false, year), a);
      BucketShapes(a);
    }
    if a :| a in media && a.captured != ZERO_TIME && YearLabel(a.captured) == year && MonthLabel(a.captured) == b {
      assert a in mine && TimelineBucket(a, true) == b;
      BucketShapes(a);
    }
  }

  /** TotalMatches is the size of the whole container, whichever page is asked for. */
  lemma TotalIsWhole(mode: Mode, media: seq<Asset>, local: string, args: Args, o: Sorting)
    requires |media| < TWO_63 && Rearranges(o) && !args.metadata
    ensures var a, c := Browse(mode, media, local, args, o), Contents(mode, media, local);
      && (a.Items? ==> c.Items? && a.total == |c.items| && IsPage(o.photos(c.items), args.start, args.count, a.items))
      && (a.Containers? ==>
            c.Containers? && a.total == |c.groups| && IsPage(o.groups(c.groups), args.start, args.count, a.groups))
  {
    ContentsFit(mode, media, local, o);
  }

  /** Whatever container lists it, a listed container opens. */
  lemma ListedOpens(mode: Mode, media: seq<Asset>, local: string, g: Group)
    requires Contents(mode, media, local).Containers? && g in Contents(mode, media, local).groups
    ensures Opens(mode, media, g.bucket)
  {
    if PREFIX <= local {
      var year := local[|PREFIX|..];
      var mine := Filter(media, InBucket(false, year));
      GroupsIsGrouping(mine, true, year);
      FilterIn(mine, InBucket(true, g.bucket), g.assets[0]);
      FilterIn(media, InBucket(false, year), g.assets[0]);
      BucketShapes(g.assets[0]);
    } else {
      GroupsIsGrouping(media, false, "");
      FilterIn(media, InBucket(false, g.bucket), g.assets[0]);
      BucketShapes(g.assets[0]);
    }
    OpensIff(mode, media, g.bucket);
  }
}
