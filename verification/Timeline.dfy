/** dlna/timeline.go: the Timeline folder, flat or grouped by year and month. */
module Timeline {
  import opened Basics
  import opened Calendar
  import opened Text

  /** The instants an RFC 3339 timestamp in UTC can hold: years 0000 to 9999. */
  type Instant = t: int | 0 <= t < 3_652_425 * 86_400_000_000_000

  datatype Kind = Image | Video | Other

  /** An asset; `captured` is Asset.CapturedAt, the zero time where no date is known. */
  datatype Asset = Asset(id: string, kind: Kind, captured: Instant)

  /** time.Time{}: 1 January of year 1, 00:00 UTC. */
  const ZERO_TIME: Instant := 366 * 86_400_000_000_000

  predicate Dated(a: Asset) { a.captured != ZERO_TIME }

  lemma ZeroIsYearOne()
    ensures ZERO_TIME == Midnight(1, 1, 1)
  {}

  const UNKNOWN: string := "unknown"

  lemma YearInRange(t: Instant)
    ensures 0 <= YearOf(DayOf(t)) < Pow10(4)
  {
    assert Pow10(4) == 10000 && YearStart(10000) == 3_652_425 && YearStart(0) == 0;
    var y := YearOf(DayOf(t));
    assert 0 <= DayOf(t) < 3_652_425;
    if y < 0 {
      YearStartMonotone(y + 1, 0);
    } else if y >= 10000 {
      YearStartMonotone(10000, y);
    }
  }

  /** t.Format("2006") */
  function YearLabel(t: Instant): (s: string)
    ensures |s| == 4 && AllDigits(s)
  {
    YearInRange(t);
    Padded(YearOf(DayOf(t)), 4)
  }

  function MonthOf(t: Instant): (m: nat)
    ensures 1 <= m <= 12
  {
    DateOf(DayOf(t)).month
  }

  /** t.Format("2006-01") */
  function MonthLabel(t: Instant): (s: string)
    ensures |s| == 7 && IsMonth(s) && s[..4] == YearLabel(t)
  {
    assert Pow10(2) == 100;
    var s := YearLabel(t) + "-" + Padded(MonthOf(t), 2);
    assert s[5..] == Padded(MonthOf(t), 2);
    s
  }

  /** yearBucketRE and monthBucketRE */
  predicate IsYear(b: string) { |b| == 4 && AllDigits(b) }

  predicate IsMonth(b: string) { |b| == 7 && AllDigits(b[..4]) && b[4] == '-' && AllDigits(b[5..]) }

  function TimelineBucket(a: Asset, month: bool): string {
    if !Dated(a) then UNKNOWN else if month then MonthLabel(a.captured) else YearLabel(a.captured)
  }

  lemma BucketShapes(a: Asset)
    ensures Dated(a) ==> IsYear(TimelineBucket(a, false)) && IsMonth(TimelineBucket(a, true))
    ensures Dated(a) ==> TimelineBucket(a, false) <= TimelineBucket(a, true)
    ensures !IsYear(UNKNOWN) && !IsMonth(UNKNOWN)
    ensures forall b :: !(IsYear(b) && IsMonth(b))
  {
    assert UNKNOWN[0] == 'u' && !IsDigit('u');
    assert UNKNOWN[..4][0] == 'u';
  }

  // ----- labels sort like dates -----

  lemma DatesAscend(t: Instant, u: Instant)
    requires t <= u
    ensures YearOf(DayOf(t)) <= YearOf(DayOf(u))
    ensures YearOf(DayOf(t)) == YearOf(DayOf(u)) ==> MonthOf(t) <= MonthOf(u)
  {
    YearOfMonotone(DayOf(t), DayOf(u));
    var d, e := DateOf(DayOf(t)), DateOf(DayOf(u));
    if d.year == e.year && e.month < d.month {
      MonthsAscend(IsLeap(d.year), e.month + 1, d.month);
    }
  }

  /** A later asset never has an earlier label. */
  lemma LabelsAscend(t: Instant, u: Instant)
    requires t <= u
    ensures !Before(YearLabel(u), YearLabel(t)) && !Before(MonthLabel(u), MonthLabel(t))
  {
    DatesAscend(t, u);
    YearInRange(t);
    YearInRange(u);
    assert Pow10(2) == 100;
    var y, z := YearOf(DayOf(t)), YearOf(DayOf(u));
    var s, r := "-" + Padded(MonthOf(t), 2), "-" + Padded(MonthOf(u), 2);
    PaddedOrder(z, y, 4, "", "");
    assert Padded(z, 4) + "" == Padded(z, 4) && Padded(y, 4) + "" == Padded(y, 4);
    PaddedOrder(z, y, 4, r, s);
    PaddedOrder(MonthOf(u), MonthOf(t), 2, "", "");
    assert Padded(MonthOf(u), 2) + "" == Padded(MonthOf(u), 2) && Padded(MonthOf(t), 2) + "" == Padded(MonthOf(t), 2);
    assert s[1..] == Padded(MonthOf(t), 2) && r[1..] == Padded(MonthOf(u), 2);
    assert MonthLabel(t) == Padded(y, 4) + s && MonthLabel(u) == Padded(z, 4) + r;
  }

  /** Read as numbers they are the year and the month of the instant's date. */
  lemma LabelsSay(t: Instant)
    ensures Value(YearLabel(t)) == DateOf(DayOf(t)).year
    ensures MonthLabel(t)[..4] == YearLabel(t) && MonthLabel(t)[4] == '-'
    ensures AllDigits(MonthLabel(t)[5..]) && |MonthLabel(t)[5..]| == 2
    ensures Value(MonthLabel(t)[5..]) == DateOf(DayOf(t)).month
  {
    YearInRange(t);
    assert Pow10(2) == 100;
    ValueOfPadded(YearOf(DayOf(t)), 4);
    ValueOfPadded(MonthOf(t), 2);
    assert MonthLabel(t)[5..] == Padded(MonthOf(t), 2);
  }

  // ----- the order of buckets -----

  /** The comparison function of groupTimeline is negative: newest first, unknown last. */
  predicate Precedes(x: string, y: string) { x != UNKNOWN && (y == UNKNOWN || Before(y, x)) }

  lemma PrecedesIsOrder(x: string, y: string, z: string)
    ensures !Precedes(x, x) && !(Precedes(x, y) && Precedes(y, x))
    ensures x != y ==> Precedes(x, y) || Precedes(y, x)
    ensures Precedes(x, y) && Precedes(y, z) ==> Precedes(x, z)
  {
    BeforeTotal(x, y);
    BeforeTotal(x, x);
    if Before(z, y) && Before(y, x) {
      BeforeTransitive(z, y, x);
    }
  }

  predicate Ordered(s: seq<string>) { forall i, j | 0 <= i < j < |s| :: Precedes(s[i], s[j]) }

  lemma BeforeAll(b: string, s: seq<string>)
    requires s != [] && Ordered(s) && Precedes(b, s[0])
    ensures Ordered([b] + s)
  {
    forall i | 0 < i < |s|
      ensures Precedes(b, s[i])
    {
      PrecedesIsOrder(b, s[0], s[i]);
    }
  }

  function InsertBucket(b: string, s: seq<string>): (r: seq<string>)
    requires Ordered(s) && b !in s
    ensures Ordered(r) && forall x :: x in r <==> x == b || x in s
  {
    if s == [] then [b]
    else if Precedes(b, s[0]) then
      BeforeAll(b, s);
      [b] + s
    else
      PrecedesIsOrder(b, s[0], b);
      var rest := InsertBucket(b, s[1..]);
      assert forall i | 0 <= i < |rest| :: rest[i] in rest && (rest[i] == b || rest[i] in s[1..]);
      [s[0]] + rest
  }

  /** Strictly ordered sequences with the same elements are the same sequence. */
  lemma {:induction false} OrderedUnique(s: seq<string>, t: seq<string>)
    requires Ordered(s) && Ordered(t) && forall x :: x in s <==> x in t
    ensures s == t
  {
    assert forall i | 0 <= i < |s| :: s[i] in t;
    assert forall i | 0 <= i < |t| :: t[i] in s;
    if s != [] && t != [] {
      var i :| 0 <= i < |t| && t[i] == s[0];
      var j :| 0 <= j < |s| && s[j] == t[0];
      PrecedesIsOrder(s[0], t[0], s[0]);
      assert s[0] == t[0];
      forall x
        ensures x in s[1..] <==> x in t[1..]
      {
        PrecedesIsOrder(s[0], s[0], s[0]);
        assert x in s[1..] ==> x in s;
        assert x in t[1..] ==> x in t;
        assert x in s && x != s[0] ==> x in s[1..];
        assert x in t && x != t[0] ==> x in t[1..];
      }
      OrderedUnique(s[1..], t[1..]);
      assert s == [s[0]] + s[1..] && t == [t[0]] + t[1..];
    }
  }

  // ----- grouping -----

  datatype Group = Group(bucket: string, assets: seq<Asset>)

  function InBucket(month: bool, b: string): Asset -> bool { (a: Asset) => TimelineBucket(a, month) == b }

  /** The buckets of the assets whose bucket starts with prefix, in order. */
  function Buckets(media: seq<Asset>, month: bool, prefix: string): (r: seq<string>)
    ensures Ordered(r)
  {
    if media == [] then []
    else
      var r := Buckets(media[..|media| - 1], month, prefix);
      var b := TimelineBucket(media[|media| - 1], month);
      if prefix <= b && b !in r then InsertBucket(b, r) else r
  }

  ghost predicate HasBucket(media: seq<Asset>, month: bool, b: string) {
    exists a :: a in media && TimelineBucket(a, month) == b
  }

  lemma HasBucketLast(media: seq<Asset>, month: bool, b: string)
    requires media != []
    ensures var n := |media| - 1;
      HasBucket(media, month, b) <==> HasBucket(media[..n], month, b) || TimelineBucket(media[n], month) == b
  {
    var n := |media| - 1;
    assert forall a :: a in media <==> a in media[..n] || a == media[n];
  }

  lemma {:induction false} BucketsAre(media: seq<Asset>, month: bool, prefix: string, b: string)
    ensures b in Buckets(media, month, prefix) <==> prefix <= b && HasBucket(media, month, b)
  {
    if media != [] {
      BucketsAre(media[..|media| - 1], month, prefix, b);
      HasBucketLast(media, month, b);
    }
  }

  /** What groupTimeline returns. */
  function Groups(media: seq<Asset>, month: bool, prefix: string): seq<Group> {
    var bs := Buckets(media, month, prefix);
    seq(|bs|, i requires 0 <= i < |bs| => Group(bs[i], Filter(media, InBucket(month, bs[i]))))
  }

  function Titles(groups: seq<Group>): seq<string> { seq(|groups|, i requires 0 <= i < |groups| => groups[i].bucket) }

  predicate OrderedGroups(groups: seq<Group>) {
    forall i, j | 0 <= i < j < |groups| :: Precedes(groups[i].bucket, groups[j].bucket)
  }

  /** Groups are unique, strictly ordered newest first with unknown last, hold
      their assets in the order given, and are never empty; and nothing else is. */
  ghost predicate IsGrouping(media: seq<Asset>, month: bool, prefix: string, groups: seq<Group>) {
    && OrderedGroups(groups)
    && (forall g | g in groups :: prefix <= g.bucket && g.assets != [] &&
          g.assets == Filter(media, InBucket(month, g.bucket)))
    && (forall a | a in media && prefix <= TimelineBucket(a, month) :: TimelineBucket(a, month) in Titles(groups))
  }

  lemma GroupNotEmpty(media: seq<Asset>, month: bool, b: string)
    ensures Filter(media, InBucket(month, b)) != [] <==> HasBucket(media, month, b)
  {
    var mine := Filter(media, InBucket(month, b));
    if HasBucket(media, month, b) {
      var a :| a in media && TimelineBucket(a, month) == b;
      FilterIn(media, InBucket(month, b), a);
    }
    if mine != [] {
      FilterIn(media, InBucket(month, b), mine[0]);
    }
  }

  lemma GroupsIsGrouping(media: seq<Asset>, month: bool, prefix: string)
    ensures IsGrouping(media, month, prefix, Groups(media, month, prefix))
  {
    var bs, groups := Buckets(media, month, prefix), Groups(media, month, prefix);
    assert Titles(groups) == bs;
    forall g | g in groups
      ensures prefix <= g.bucket && g.assets != []
    {
      assert g.bucket in bs;
      BucketsAre(media, month, prefix, g.bucket);
      GroupNotEmpty(media, month, g.bucket);
    }
    forall a | a in media && prefix <= TimelineBucket(a, month)
      ensures TimelineBucket(a, month) in bs
    {
      BucketsAre(media, month, prefix, TimelineBucket(a, month));
    }
  }

  /** That description leaves no choice: there is only one such grouping. */
  lemma GroupingUnique(media: seq<Asset>, month: bool, prefix: string, groups: seq<Group>)
    requires IsGrouping(media, month, prefix, groups)
    ensures groups == Groups(media, month, prefix)
  {
    var bs := Buckets(media, month, prefix);
    forall b
      ensures b in Titles(groups) <==> b in bs
    {
      BucketsAre(media, month, prefix, b);
      if b in Titles(groups) {
        var i :| 0 <= i < |groups| && groups[i].bucket == b;
        assert groups[i] in groups;
        GroupNotEmpty(media, month, b);
      }
    }
    OrderedUnique(Titles(groups), bs);
    forall i | 0 <= i < |groups|
      ensures groups[i] == Groups(media, month, prefix)[i]
    {
      assert Titles(groups)[i] == bs[i];
      assert groups[i] in groups;
    }
  }

  // ----- the loop of groupTimeline -----

  /** The groups the loop has built from the assets seen so far, in the order their buckets first appeared. */
  ghost predicate Collected(seen: seq<Asset>, month: bool, prefix: string, idx: map<string, nat>, groups: seq<Group>) {
    && IndexHolds(seen, month, prefix, idx)
    && IndexPoints(idx, groups)
    && GroupsHold(seen, month, groups)
  }

  ghost predicate IndexHolds(seen: seq<Asset>, month: bool, prefix: string, idx: map<string, nat>) {
    forall b :: b in idx <==> prefix <= b && HasBucket(seen, month, b)
  }

  predicate IndexPoints(idx: map<string, nat>, groups: seq<Group>) {
    && (forall b | b in idx :: idx[b] < |groups| && groups[idx[b]].bucket == b)
    && (forall i | 0 <= i < |groups| :: groups[i].bucket in idx && idx[groups[i].bucket] == i)
  }

  predicate GroupsHold(seen: seq<Asset>, month: bool, groups: seq<Group>) {
    forall i | 0 <= i < |groups| :: groups[i].assets == Filter(seen, InBucket(month, groups[i].bucket))
  }

  /** What the loop body does with one asset whose bucket is wanted. */
  function CollectIndex(b: string, idx: map<string, nat>, groups: seq<Group>): map<string, nat> {
    if b in idx then idx else idx[b := |groups|]
  }

  function CollectGroups(a: Asset, b: string, idx: map<string, nat>, groups: seq<Group>): seq<Group>
    requires IndexPoints(idx, groups)
  {
    if b in idx then groups[idx[b] := Group(b, groups[idx[b]].assets + [a])] else groups + [Group(b, [a])]
  }

  lemma CollectKeepsIndex(
    seen: seq<Asset>, a: Asset, month: bool, prefix: string, idx: map<string, nat>, groups: seq<Group>)
    requires IndexHolds(seen, month, prefix, idx)
    ensures var b := TimelineBucket(a, month);
      IndexHolds(seen + [a], month, prefix, if prefix <= b then CollectIndex(b, idx, groups) else idx)
  {
    assert (seen + [a])[..|seen|] == seen;
    forall c
      ensures HasBucket(seen + [a], month, c) <==> HasBucket(seen, month, c) || TimelineBucket(a, month) == c
    {
      HasBucketLast(seen + [a], month, c);
    }
  }

  lemma CollectKeepsPoints(a: Asset, b: string, idx: map<string, nat>, groups: seq<Group>)
    requires IndexPoints(idx, groups)
    ensures IndexPoints(CollectIndex(b, idx, groups), CollectGroups(a, b, idx, groups))
  {
  }

  lemma FilterAppend(seen: seq<Asset>, a: Asset, month: bool, c: string)
    ensures Filter(seen + [a], InBucket(month, c)) ==
      Filter(seen, InBucket(month, c)) + (if TimelineBucket(a, month) == c then [a] else [])
  {
    assert (seen + [a])[..|seen|] == seen;
  }

  lemma CollectKeepsGroup(
    seen: seq<Asset>, a: Asset, month: bool, prefix: string, idx: map<string, nat>, groups: seq<Group>, i: nat)
    requires Collected(seen, month, prefix, idx, groups) && prefix <= TimelineBucket(a, month)
    requires i < |CollectGroups(a, TimelineBucket(a, month), idx, groups)|
    ensures var g := CollectGroups(a, TimelineBucket(a, month), idx, groups)[i];
      g.assets == Filter(seen + [a], InBucket(month, g.bucket))
  {
    var b := TimelineBucket(a, month);
    if i == |groups| {
      GroupNotEmpty(seen, month, b);
      FilterAppend(seen, a, month, b);
    } else {
      FilterAppend(seen, a, month, groups[i].bucket);
    }
  }

  lemma CollectOne(seen: seq<Asset>, a: Asset, month: bool, prefix: string, idx: map<string, nat>, groups: seq<Group>)
    requires Collected(seen, month, prefix, idx, groups) && prefix <= TimelineBucket(a, month)
    ensures var b := TimelineBucket(a, month);
      Collected(seen + [a], month, prefix, CollectIndex(b, idx, groups), CollectGroups(a, b, idx, groups))
  {
    var b := TimelineBucket(a, month);
    CollectKeepsIndex(seen, a, month, prefix, idx, groups);
    CollectKeepsPoints(a, b, idx, groups);
    forall i | 0 <= i < |CollectGroups(a, b, idx, groups)|
      ensures var g := CollectGroups(a, b, idx, groups)[i]; g.assets == Filter(seen + [a], InBucket(month, g.bucket))
    {
      CollectKeepsGroup(seen, a, month, prefix, idx, groups, i);
    }
  }

  lemma CollectSkips(seen: seq<Asset>, a: Asset, month: bool, prefix: string, idx: map<string, nat>, groups: seq<Group>)
    requires Collected(seen, month, prefix, idx, groups) && !(prefix <= TimelineBucket(a, month))
    ensures Collected(seen + [a], month, prefix, idx, groups)
  {
    CollectKeepsIndex(seen, a, month, prefix, idx, groups);
    forall i | 0 <= i < |groups|
      ensures groups[i].assets == Filter(seen + [a], InBucket(month, groups[i].bucket))
    {
      FilterAppend(seen, a, month, groups[i].bucket);
    }
  }

  method GroupTimeline(media: seq<Asset>, month: bool, prefix: string) returns (groups: seq<Group>)
    ensures groups == Groups(media, month, prefix)
  {
    var idx: map<string, nat> := map[];
    groups := [];
    for k := 0 to |media|
      invariant Collected(media[..k], month, prefix, idx, groups)
    {
      var b := TimelineBucket(media[k], month);
      assert media[..k + 1] == media[..k] + [media[k]];
      if prefix <= b {
        CollectOne(media[..k], media[k], month, prefix, idx, groups);
        idx, groups := CollectInto(media[k], b, idx, groups);
      } else {
        CollectSkips(media[..k], media[k], month, prefix, idx, groups);
      }
    }
    assert media[..|media|] == media;
    SortedIsGrouping(media, month, prefix, idx, groups);
    groups := SortGroups(groups);
  }

  lemma SortedIsGrouping(media: seq<Asset>, month: bool, prefix: string, idx: map<string, nat>, groups: seq<Group>)
    requires Collected(media, month, prefix, idx, groups)
    ensures DistinctBuckets(groups) && SortGroups(groups) == Groups(media, month, prefix)
  {
    CollectedIsGrouping(media, month, prefix, idx, groups);
    GroupingUnique(media, month, prefix, SortGroups(groups));
  }

  /** The loop body, once the asset's bucket is known to be wanted. */
  method CollectInto(a: Asset, b: string, idx0: map<string, nat>, groups0: seq<Group>)
    returns (idx: map<string, nat>, groups: seq<Group>)
    requires IndexPoints(idx0, groups0)
    ensures idx == CollectIndex(b, idx0, groups0) && groups == CollectGroups(a, b, idx0, groups0)
  {
    idx, groups := idx0, groups0;
    if b !in idx {
      idx := idx[b := |groups|];
      groups := groups + [Group(b, [])];
    }
    var i := idx[b];
    assert [] + [a] == [a];
    groups := groups[i := Group(b, groups[i].assets + [a])];
  }

  lemma CollectedIsGrouping(media: seq<Asset>, month: bool, prefix: string, idx: map<string, nat>, groups: seq<Group>)
    requires Collected(media, month, prefix, idx, groups)
    ensures DistinctBuckets(groups) && IsGrouping(media, month, prefix, SortGroups(groups))
  {
    var sorted := SortGroups(groups);
    forall g | g in sorted
      ensures prefix <= g.bucket && g.assets != [] && g.assets == Filter(media, InBucket(month, g.bucket))
    {
      CollectedGroup(media, month, prefix, idx, groups, g);
    }
    forall a | a in media && prefix <= TimelineBucket(a, month)
      ensures TimelineBucket(a, month) in Titles(sorted)
    {
      var b := TimelineBucket(a, month);
      assert HasBucket(media, month, b);
      var g := groups[idx[b]];
      InTitles(sorted, g);
    }
  }

  lemma InTitles(groups: seq<Group>, g: Group)
    requires g in groups
    ensures g.bucket in Titles(groups)
  {
    var i :| 0 <= i < |groups| && groups[i] == g;
    assert Titles(groups)[i] == g.bucket;
  }

  lemma CollectedGroup(
    media: seq<Asset>, month: bool, prefix: string, idx: map<string, nat>, groups: seq<Group>, g: Group)
    requires Collected(media, month, prefix, idx, groups) && g in groups
    ensures prefix <= g.bucket && g.assets != [] && g.assets == Filter(media, InBucket(month, g.bucket))
  {
    var i :| 0 <= i < |groups| && groups[i] == g;
    assert g.bucket in idx;
    GroupNotEmpty(media, month, g.bucket);
  }

  predicate DistinctBuckets(groups: seq<Group>) {
    forall i, j | 0 <= i < j < |groups| :: groups[i].bucket != groups[j].bucket
  }

  function InsertGroup(g: Group, s: seq<Group>): (r: seq<Group>)
    requires OrderedGroups(s) && forall h | h in s :: h.bucket != g.bucket
    ensures OrderedGroups(r) && forall h :: h in r <==> h == g || h in s
  {
    if s == [] then [g]
    else
      PrecedesIsOrder(g.bucket, s[0].bucket, g.bucket);
      if Precedes(g.bucket, s[0].bucket) then
        FirstOfAll(g, s);
        [g] + s
      else
        var rest := InsertGroup(g, s[1..]);
        assert forall i | 0 <= i < |rest| :: rest[i] in rest && (rest[i] == g || rest[i] in s[1..]);
        [s[0]] + rest
  }

  lemma FirstOfAll(g: Group, s: seq<Group>)
    requires s != [] && OrderedGroups(s) && Precedes(g.bucket, s[0].bucket)
    ensures OrderedGroups([g] + s)
  {
    forall i | 0 < i < |s|
      ensures Precedes(g.bucket, s[i].bucket)
    {
      PrecedesIsOrder(g.bucket, s[0].bucket, s[i].bucket);
    }
  }

  /** slices.SortFunc; buckets being distinct, its result does not depend on stability. */
  function SortGroups(s: seq<Group>): (r: seq<Group>)
    requires DistinctBuckets(s)
    ensures OrderedGroups(r) && forall h :: h in r <==> h in s
  {
    if s == [] then [] else InsertGroup(s[0], SortGroups(s[1..]))
  }
}
