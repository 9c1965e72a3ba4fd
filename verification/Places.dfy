/** dlna/extrafolders.go: the Places folder, countries over cities over assets. */
module Places {
  import opened Basics
  import opened Text
  import opened ObjectIds
  import opened Paging

  type Name = s: string | ByteString(s)

  /** An asset with the country and city of its Exif data, white space trimmed. */
  datatype Asset = Asset(id: string, country: Name, city: Name)

  // ----- the index -----

  predicate Located(a: Asset) { a.country != "" }

  function InCountry(country: Name): Asset -> bool { (a: Asset) => a.country == country && country != "" }

  function InCity(country: Name, city: Name): Asset -> bool {
    (a: Asset) => a.country == country && country != "" && a.city == city
  }

  function Countries(media: seq<Asset>): set<Name> { set a | a in media && Located(a) :: a.country }

  function Cities(media: seq<Asset>, country: Name): set<Name> {
    set a | a in media && InCountry(country)(a) :: a.city
  }

  type Index = map<Name, map<Name, seq<Asset>>>

  /** byCountry: exactly the countries that occur, in each exactly its cities,
      and in each of those exactly its assets, in the order given. */
  predicate IsIndex(media: seq<Asset>, index: Index) {
    && index.Keys == Countries(media)
    && forall c | c in index :: IsCountry(media, c, index[c])
  }

  predicate IsCountry(media: seq<Asset>, c: Name, cities: map<Name, seq<Asset>>) {
    && cities.Keys == Cities(media, c)
    && forall t | t in cities :: cities[t] == Filter(media, InCity(c, t))
  }

  function Put(index: Index, a: Asset): Index {
    var cities: map<Name, seq<Asset>> := if a.country in index then index[a.country] else map[];
    var there := if a.city in cities then cities[a.city] else [];
    index[a.country := cities[a.city := there + [a]]]
  }

  lemma KeysAfter(seen: seq<Asset>, a: Asset)
    ensures Countries(seen + [a]) == Countries(seen) + (if Located(a) then {a.country} else {})
    ensures forall c: Name :: Cities(seen + [a], c) == Cities(seen, c) + (if InCountry(c)(a) then {a.city} else {})
  {
    assert forall x :: x in seen + [a] <==> x in seen || x == a;
    forall c: Name
      ensures Cities(seen + [a], c) == Cities(seen, c) + (if InCountry(c)(a) then {a.city} else {})
    {
      forall t: Name
        ensures t in Cities(seen + [a], c) <==> t in Cities(seen, c) || (InCountry(c)(a) && t == a.city)
      {
      }
    }
  }

  lemma CityAfter(seen: seq<Asset>, a: Asset, c: Name, t: Name)
    ensures Filter(seen + [a], InCity(c, t)) == Filter(seen, InCity(c, t)) + (if InCity(c, t)(a) then [a] else [])
  {
    assert (seen + [a])[..|seen|] == seen;
  }

  lemma CityEmptyIff(media: seq<Asset>, c: Name, t: Name)
    ensures Filter(media, InCity(c, t)) == [] <==> t !in Cities(media, c)
  {
    var mine := Filter(media, InCity(c, t));
    if mine != [] {
      FilterIn(media, InCity(c, t), mine[0]);
      assert InCountry(c)(mine[0]);
    }
    if t in Cities(media, c) {
      var a :| a in media && InCountry(c)(a) && a.city == t;
      FilterIn(media, InCity(c, t), a);
    }
  }

  lemma CountryAfter(seen: seq<Asset>, a: Asset, index: Index, c: Name)
    requires IsIndex(seen, index) && Located(a) && c in Put(index, a)
    ensures IsCountry(seen + [a], c, Put(index, a)[c])
  {
    KeysAfter(seen, a);
    var before: map<Name, seq<Asset>> := if c in index then index[c] else map[];
    assert before.Keys == Cities(seen, c) by {
      if c !in index {
        assert forall t: Name :: t !in Cities(seen, c);
      }
    }
    forall t | t in Put(index, a)[c]
      ensures Put(index, a)[c][t] == Filter(seen + [a], InCity(c, t))
    {
      CityAfter(seen, a, c, t);
      CityEmptyIff(seen, c, t);
    }
  }

  lemma PutKeepsIndex(seen: seq<Asset>, a: Asset, index: Index)
    requires IsIndex(seen, index)
    ensures IsIndex(seen + [a], if Located(a) then Put(index, a) else index)
  {
    KeysAfter(seen, a);
    if Located(a) {
      forall c | c in Put(index, a)
        ensures IsCountry(seen + [a], c, Put(index, a)[c])
      {
        CountryAfter(seen, a, index, c);
      }
    } else {
      forall c | c in index
        ensures IsCountry(seen + [a], c, index[c])
      {
        UnlocatedKeepsCountry(seen, a, c, index[c]);
      }
    }
  }

  lemma UnlocatedKeepsCountry(seen: seq<Asset>, a: Asset, c: Name, cities: map<Name, seq<Asset>>)
    requires !Located(a) && IsCountry(seen, c, cities)
    ensures IsCountry(seen + [a], c, cities)
  {
    KeysAfter(seen, a);
    forall t | t in cities
      ensures cities[t] == Filter(seen + [a], InCity(c, t))
    {
      CityAfter(seen, a, c, t);
    }
  }

  method GroupPlaces(media: seq<Asset>) returns (byCountry: Index)
    ensures IsIndex(media, byCountry)
  {
    byCountry := map[];
    for i := 0 to |media|
      invariant IsIndex(media[..i], byCountry)
    {
      var a := media[i];
      assert media[..i + 1] == media[..i] + [a];
      PutKeepsIndex(media[..i], a, byCountry);
      if a.country == "" {
        continue;
      }
      ghost var after := Put(byCountry, a);
      if a.country !in byCountry {
        byCountry := byCountry[a.country := map[]];
      }
      var cities: map<Name, seq<Asset>> := byCountry[a.country];
      var there := if a.city in cities then cities[a.city] else [];
      byCountry := byCountry[a.country := cities[a.city := there + [a]]];
      assert byCountry == after;
    }
    assert media[..|media|] == media;
  }

  // ----- listings -----

  /** How a listing orders its children: by title, ignoring case; `lower` is strings.ToLower. */
  datatype Order = Order(lower: string -> string, title: Name -> string, descending: bool)

  predicate Less(o: Order, x: Name, y: Name) {
    if o.descending then Before(o.lower(o.title(y)), o.lower(o.title(x)))
    else Before(o.lower(o.title(x)), o.lower(o.title(y)))
  }

  predicate Sorted(o: Order, s: seq<Name>) { forall i, j | 0 <= i < j < |s| :: !Less(o, s[j], s[i]) }

  predicate Distinct(s: seq<Name>) { forall i, j | 0 <= i < j < |s| :: s[i] != s[j] }

  ghost predicate HoldsOnce(s: seq<Name>, keys: set<Name>) { Distinct(s) && forall k :: k in s <==> k in keys }

  /** A listing of these keys: each once, in order. */
  ghost predicate Lists(o: Order, keys: set<Name>, s: seq<Name>) { HoldsOnce(s, keys) && Sorted(o, s) }

  lemma NotLessTransitive(o: Order, x: Name, y: Name, z: Name)
    requires !Less(o, y, x) && !Less(o, z, y)
    ensures !Less(o, z, x)
  {
    var a, b, c := o.lower(o.title(x)), o.lower(o.title(y)), o.lower(o.title(z));
    BeforeTotal(a, b);
    BeforeTotal(b, c);
    BeforeTotal(a, c);
    if Before(a, b) && Before(b, c) {
      BeforeTransitive(a, b, c);
    }
    if Before(c, b) && Before(b, a) {
      BeforeTransitive(c, b, a);
    }
  }

  function InsertKey(o: Order, k: Name, s: seq<Name>): (r: seq<Name>)
    requires Sorted(o, s) && Distinct(s) && k !in s
    ensures Sorted(o, r) && Distinct(r) && forall x :: x in r <==> x == k || x in s
  {
    if s == [] then [k]
    else if !Less(o, s[0], k) then
      KeyFirst(o, k, s);
      [k] + s
    else
      var rest := InsertKey(o, k, s[1..]);
      KeyAfterFirst(o, k, s, rest);
      [s[0]] + rest
  }

  lemma KeyFirst(o: Order, k: Name, s: seq<Name>)
    requires s != [] && Sorted(o, s) && Distinct(s) && k !in s && !Less(o, s[0], k)
    ensures Sorted(o, [k] + s) && Distinct([k] + s)
  {
    forall j | 0 < j < |s|
      ensures !Less(o, s[j], k)
    {
      NotLessTransitive(o, k, s[0], s[j]);
    }
    assert forall j | 0 <= j < |s| :: s[j] in s;
  }

  lemma KeyAfterFirst(o: Order, k: Name, s: seq<Name>, rest: seq<Name>)
    requires s != [] && Sorted(o, s) && Distinct(s) && k !in s && Less(o, s[0], k)
    requires Sorted(o, rest) && Distinct(rest) && forall x :: x in rest <==> x == k || x in s[1..]
    ensures Sorted(o, [s[0]] + rest) && Distinct([s[0]] + rest)
  {
    forall j | 0 <= j < |rest|
      ensures rest[j] != s[0] && !Less(o, rest[j], s[0])
    {
      assert rest[j] in rest;
      if rest[j] == k {
        BeforeTotal(o.lower(o.title(s[0])), o.lower(o.title(k)));
      } else {
        var i :| 0 <= i < |s[1..]| && s[1..][i] == rest[j];
        assert s[i + 1] == rest[j];
      }
    }
  }

  /** The keys of a map, taken in any order, and sorted. */
  method ListKeys(o: Order, keys: set<Name>) returns (s: seq<Name>)
    ensures Lists(o, keys, s)
  {
    s := [];
    var rest := keys;
    while rest != {}
      invariant rest <= keys && Lists(o, keys - rest, s)
      decreases |rest|
    {
      var k :| k in rest;
      s := InsertKey(o, k, s);
      rest := rest - {k};
    }
    assert keys - rest == keys;
  }

  /** Where no two titles differ only in case, the order is the only possible one. */
  lemma {:induction false} ListingUnique(o: Order, keys: set<Name>, s: seq<Name>, t: seq<Name>)
    requires Lists(o, keys, s) && Lists(o, keys, t)
    requires forall x, y | x in keys && y in keys && x != y :: o.lower(o.title(x)) != o.lower(o.title(y))
    ensures s == t
    decreases |s|
  {
    EmptyIff(o, keys, s);
    EmptyIff(o, keys, t);
    if s != [] {
      assert s[0] in s && t[0] in t;
      FirstsAgree(o, keys, s, t);
      RestLists(o, keys, s);
      RestLists(o, keys, t);
      ListingUnique(o, keys - {s[0]}, s[1..], t[1..]);
      assert s == [s[0]] + s[1..] && t == [t[0]] + t[1..];
    }
  }

  lemma EmptyIff(o: Order, keys: set<Name>, s: seq<Name>)
    requires Lists(o, keys, s)
    ensures s == [] <==> keys == {}
  {
    if s != [] {
      assert s[0] in s;
    }
    if keys != {} {
      var k :| k in keys;
    }
  }

  lemma FirstIsLeast(o: Order, keys: set<Name>, s: seq<Name>, x: Name)
    requires Lists(o, keys, s) && x in keys
    ensures s != [] && !Less(o, x, s[0])
  {
    var i :| 0 <= i < |s| && s[i] == x;
    BeforeTotal(o.lower(o.title(x)), o.lower(o.title(x)));
  }

  lemma FirstsAgree(o: Order, keys: set<Name>, s: seq<Name>, t: seq<Name>)
    requires Lists(o, keys, s) && Lists(o, keys, t) && s != [] && t != []
    requires forall x, y | x in keys && y in keys && x != y :: o.lower(o.title(x)) != o.lower(o.title(y))
    ensures s[0] == t[0]
  {
    assert s[0] in s && t[0] in t;
    FirstIsLeast(o, keys, s, t[0]);
    FirstIsLeast(o, keys, t, s[0]);
    BeforeTotal(o.lower(o.title(s[0])), o.lower(o.title(t[0])));
  }

  lemma RestLists(o: Order, keys: set<Name>, s: seq<Name>)
    requires Lists(o, keys, s) && s != []
    ensures Lists(o, keys - {s[0]}, s[1..])
  {
    forall k
      ensures k in s[1..] <==> k in keys - {s[0]}
    {
      assert k in s[1..] ==> k in s;
      if k in s && k != s[0] {
        var i :| 0 <= i < |s| && s[i] == k;
        assert s[1..][i - 1] == k;
      }
    }
  }

  // ----- browsing -----

  /** A listed container: its ObjectID, its title and the child count shown beside it. */
  datatype Entry = Entry(id: string, title: string, childCount: nat)

  /** What a Browse request comes back with; `total` is TotalMatches. */
  datatype Answer =
    | NoSuchObject
    | Metadata(childCount: int)
    | Containers(entries: seq<Entry>, total: nat)
    | Items(items: seq<Asset>, total: nat)

  /** The arguments of a Browse request. */
  datatype Args = Args(metadata: bool, start: Ui4, count: Ui4)

  /** What the request's SortCriteria and the sorting library make of a listing:
      the comparison of container titles, and sortPhotos. */
  datatype Sorting = Sorting(lower: string -> string, descending: bool, photos: seq<Asset> -> seq<Asset>)

  /** sortPhotos rearranges its argument, in whatever order was asked for. */
  ghost predicate Rearranges(o: Sorting) { forall s :: multiset(o.photos(s)) == multiset(s) }

  const PLACES: string := "places"

  function Same(c: Name): string { c }

  function CityTitle(city: Name): string { if city == "" then "Other" else city }

  function CountryEntries(media: seq<Asset>, keys: seq<Name>): seq<Entry> {
    seq(|keys|, i requires 0 <= i < |keys| => Entry(PlaceID("", keys[i], None), keys[i], |Cities(media, keys[i])|))
  }

  function CityEntries(media: seq<Asset>, country: Name, keys: seq<Name>): seq<Entry> {
    seq(|keys|, i requires 0 <= i < |keys| =>
      Entry(PlaceID("", country, Some(keys[i])), CityTitle(keys[i]), |Filter(media, InCity(country, keys[i]))|))
  }

  /** a is one page of the listing whose containers are `entries`. */
  predicate IsListing(entries: seq<Entry>, args: Args, a: Answer) {
    |entries| < TWO_63 && a == Containers(PageOf(entries, args.start, args.count), |entries|)
  }

  /** a is one page of these assets, sorted. */
  predicate IsItemPage(items: seq<Asset>, args: Args, o: Sorting, a: Answer) {
    |o.photos(items)| < TWO_63 && a == Items(PageOf(o.photos(items), args.start, args.count), |items|)
  }

  /** The listing of all countries, or of one country's cities. */
  ghost predicate MayList(media: seq<Asset>, country: Option<Name>, args: Args, o: Sorting, a: Answer) {
    match country
    case None =>
      exists keys: seq<Name> ::
        Lists(Order(o.lower, Same, o.descending), Countries(media), keys) &&
        IsListing(CountryEntries(media, keys), args, a)
    case Some(c) =>
      exists keys: seq<Name> ::
        Lists(Order(o.lower, CityTitle, o.descending), Cities(media, c), keys) &&
        IsListing(CityEntries(media, c, keys), args, a)
  }

  /** a is an answer Browse may give; only the order of titles that differ in case alone is open. */
  ghost predicate MayAnswer(media: seq<Asset>, local: string, args: Args, o: Sorting, a: Answer) {
    if local == PLACES then
      if args.metadata then a == Metadata(-1) else MayList(media, None, args, o, a)
    else
      match ParsePlaceID(local)
      case None => a == NoSuchObject
      case Some((country, None)) =>
        if country !in Countries(media) then a == NoSuchObject
        else if args.metadata then a == Metadata(|Cities(media, country)|)
        else MayList(media, Some(country), args, o, a)
      case Some((country, Some(city))) =>
        if country !in Countries(media) || city !in Cities(media, country) then a == NoSuchObject
        else if args.metadata then a == Metadata(|Filter(media, InCity(country, city))|)
        else IsItemPage(Filter(media, InCity(country, city)), args, o, a)
  }

  lemma UnionSize<T>(s: set<T>, x: T)
    ensures |s + {x}| <= |s| + 1
  {
    assert x in s ==> s + {x} == s;
    assert x !in s ==> |s + {x}| == |s| + 1;
  }

  lemma {:induction false} CountriesAreFew(media: seq<Asset>)
    ensures |Countries(media)| <= |media|
  {
    if media != [] {
      var n := |media| - 1;
      CountriesAreFew(media[..n]);
      KeysAfter(media[..n], media[n]);
      assert media == media[..n] + [media[n]];
      UnionSize(Countries(media[..n]), media[n].country);
    }
  }

  lemma LastCity(media: seq<Asset>, c: Name)
    requires media != []
    ensures var n := |media| - 1;
      Cities(media, c) == Cities(media[..n], c) + (if InCountry(c)(media[n]) then {media[n].city} else {})
  {
    var n := |media| - 1;
    KeysAfter(media[..n], media[n]);
    assert media == media[..n] + [media[n]];
  }

  lemma {:induction false} CitiesAreFew(media: seq<Asset>, c: Name)
    ensures |Cities(media, c)| <= |media|
  {
    if media != [] {
      var n := |media| - 1;
      CitiesAreFew(media[..n], c);
      LastCity(media, c);
      UnionSize(Cities(media[..n], c), media[n].city);
    }
  }

  lemma {:induction false} FilterShrinks<T>(s: seq<T>, p: T -> bool)
    ensures |Filter(s, p)| <= |s|
  {
    if s != [] {
      FilterShrinks(s[..|s| - 1], p);
    }
  }

  lemma PhotosFit(media: seq<Asset>, items: seq<Asset>, o: Sorting)
    requires Rearranges(o) && |items| <= |media|
    ensures |o.photos(items)| <= |media|
  {
    assert |multiset(o.photos(items))| == |o.photos(items)|;
  }

  method BrowsePlaces(media: seq<Asset>, local: string, args: Args, o: Sorting) returns (a: Answer)
    requires |media| < TWO_63 && Rearranges(o)
    ensures MayAnswer(media, local, args, o, a)
  {
    if local == PLACES && args.metadata {
      return Metadata(-1);
    }
    var byCountry := GroupPlaces(media);
    if local == PLACES {
      a := ListCountries(media, byCountry, args, o);
      return;
    }
    var parsed := ParsePlaceID(local);
    if parsed.None? || parsed.value.0 !in byCountry {
      return NoSuchObject;
    }
    var country: Name, city := parsed.value.0, parsed.value.1;
    var cities: map<Name, seq<Asset>> := byCountry[country];
    assert IsCountry(media, country, cities);
    if city.None? {
      if args.metadata {
        return Metadata(|cities|);
      }
      a := ListCities(media, country, cities, args, o);
      return;
    }
    if city.value !in cities {
      return NoSuchObject;
    }
    var items := cities[city.value];
    if args.metadata {
      return Metadata(|items|);
    }
    FilterShrinks(media, InCity(country, city.value));
    PhotosFit(media, items, o);
    return Items(PageOf(o.photos(items), args.start, args.count), |items|);
  }

  method ListCountries(media: seq<Asset>, byCountry: Index, args: Args, o: Sorting) returns (a: Answer)
    requires |media| < TWO_63 && IsIndex(media, byCountry)
    ensures MayList(media, None, args, o, a)
  {
    var keys := ListKeys(Order(o.lower, Same, o.descending), byCountry.Keys);
    var entries := seq(|keys|, i requires 0 <= i < |keys| && keys[i] in byCountry =>
      Entry(PlaceID("", keys[i], None), keys[i], |byCountry[keys[i]]|));
    assert entries == CountryEntries(media, keys);
    ListSize(Order(o.lower, Same, o.descending), Countries(media), keys);
    CountriesAreFew(media);
    return Containers(PageOf(entries, args.start, args.count), |entries|);
  }

  method ListCities(media: seq<Asset>, country: Name, cities: map<Name, seq<Asset>>, args: Args, o: Sorting)
    returns (a: Answer)
    requires |media| < TWO_63 && IsCountry(media, country, cities)
    ensures MayList(media, Some(country), args, o, a)
  {
    var keys := ListKeys(Order(o.lower, CityTitle, o.descending), cities.Keys);
    var entries := seq(|keys|, i requires 0 <= i < |keys| && keys[i] in cities =>
      Entry(PlaceID("", country, Some(keys[i])), CityTitle(keys[i]), |cities[keys[i]]|));
    assert entries == CityEntries(media, country, keys);
    ListSize(Order(o.lower, CityTitle, o.descending), Cities(media, country), keys);
    CitiesAreFew(media, country);
    return Containers(PageOf(entries, args.start, args.count), |entries|);
  }

  // ----- titles -----

  /** A title comes before another in a listing, ignoring case, or may. */
  predicate NotAfter(lower: string -> string, descending: bool, x: string, y: string) {
    if descending then !Before(lower(x), lower(y)) else !Before(lower(y), lower(x))
  }

  lemma PageAt(entries: seq<Entry>, args: Args, k: nat)
    requires |entries| < TWO_63 && k < |PageOf(entries, args.start, args.count)|
    ensures args.start + k < |entries| && PageOf(entries, args.start, args.count)[k] == entries[args.start + k]
  {
    assert entries[args.start..][k] == entries[args.start + k];
  }

  lemma InOrder(o: Order, keys: seq<Name>, i: nat, j: nat)
    requires i <= j < |keys| && Sorted(o, keys)
    ensures NotAfter(o.lower, o.descending, o.title(keys[i]), o.title(keys[j]))
  {
    if i == j {
      BeforeTotal(o.lower(o.title(keys[i])), o.lower(o.title(keys[i])));
    } else {
      assert !Less(o, keys[j], keys[i]);
    }
  }

  /** Where one page of a listing puts its containers. */
  lemma PageInOrder(entries: seq<Entry>, args: Args, o: Order, keys: seq<Name>, a: Answer, i: nat, j: nat)
    requires IsListing(entries, args, a) && |keys| == |entries| && Sorted(o, keys) && i <= j < |a.entries|
    ensures args.start + j < |keys|
    ensures a.entries[i] == entries[args.start + i] && a.entries[j] == entries[args.start + j]
    ensures NotAfter(o.lower, o.descending, o.title(keys[args.start + i]), o.title(keys[args.start + j]))
  {
    PageAt(entries, args, i);
    PageAt(entries, args, j);
    InOrder(o, keys, args.start + i, args.start + j);
  }

  /** Containers stand in the order of their titles where the keys do. */
  lemma TitlesInOrder(entries: seq<Entry>, keys: seq<Name>, ord: Order, args: Args, a: Answer, i: nat, j: nat)
    requires Sorted(ord, keys) && |keys| == |entries|
    requires forall k | 0 <= k < |keys| :: entries[k].title == ord.title(keys[k])
    requires IsListing(entries, args, a) && i <= j < |a.entries|
    ensures NotAfter(ord.lower, ord.descending, a.entries[i].title, a.entries[j].title)
    ensures args.start + i < |entries| && a.entries[i] == entries[args.start + i]
  {
    PageInOrder(entries, args, ord, keys, a, i, j);
  }

  /** On any page countries stand in the order of their names. */
  lemma CountriesInOrder(media: seq<Asset>, args: Args, o: Sorting, a: Answer, i: nat, j: nat)
    requires MayList(media, None, args, o, a) && i <= j < |a.entries|
    ensures NotAfter(o.lower, o.descending, a.entries[i].title, a.entries[j].title)
    ensures ByteString(a.entries[i].title) && a.entries[i].id == PlaceID("", a.entries[i].title, None)
  {
    var ord := Order(o.lower, Same, o.descending);
    var keys: seq<Name> :| Lists(ord, Countries(media), keys) && IsListing(CountryEntries(media, keys), args, a);
    TitlesInOrder(CountryEntries(media, keys), keys, ord, args, a, i, j);
  }

  predicate ListsCity(e: Entry, country: Name, city: Name) {
    e.id == PlaceID("", country, Some(city)) && e.title == if city == "" then "Other" else city
  }

  /** What a listing of cities is a page of. */
  ghost predicate CityRows(country: Name, keys: seq<Name>, entries: seq<Entry>) {
    |keys| == |entries| && forall k | 0 <= k < |keys| :: ListsCity(entries[k], country, keys[k])
  }

  lemma EntriesAreRows(media: seq<Asset>, country: Name, keys: seq<Name>)
    ensures CityRows(country, keys, CityEntries(media, country, keys))
  {}

  lemma CitiesListed(media: seq<Asset>, country: Name, args: Args, o: Sorting, a: Answer)
    returns (keys: seq<Name>, entries: seq<Entry>)
    requires MayList(media, Some(country), args, o, a)
    ensures CityRows(country, keys, entries) && IsListing(entries, args, a)
    ensures Sorted(Order(o.lower, CityTitle, o.descending), keys)
  {
    keys :| Lists(Order(o.lower, CityTitle, o.descending), Cities(media, country), keys) &&
      IsListing(CityEntries(media, country, keys), args, a);
    entries := CityEntries(media, country, keys);
    EntriesAreRows(media, country, keys);
  }

  /** On any page of a country's cities, they stand in the order of their names, and
      those without a city as "Other" stands among them. */
  lemma CitiesInOrder(media: seq<Asset>, country: Name, args: Args, o: Sorting, a: Answer, i: nat, j: nat)
    returns (city: Name)
    requires MayList(media, Some(country), args, o, a) && i <= j < |a.entries|
    ensures NotAfter(o.lower, o.descending, a.entries[i].title, a.entries[j].title)
    ensures ListsCity(a.entries[i], country, city)
  {
    var keys, entries := CitiesListed(media, country, args, o, a);
    city := RowsInOrder(country, keys, entries, Order(o.lower, CityTitle, o.descending), args, a, i, j);
  }

  lemma RowsInOrder(
    country: Name, keys: seq<Name>, entries: seq<Entry>, ord: Order, args: Args, a: Answer, i: nat, j: nat)
    returns (city: Name)
    requires CityRows(country, keys, entries) && Sorted(ord, keys) && ord.title == CityTitle
    requires IsListing(entries, args, a) && i <= j < |a.entries|
    ensures NotAfter(ord.lower, ord.descending, a.entries[i].title, a.entries[j].title)
    ensures ListsCity(a.entries[i], country, city)
  {
    TitlesInOrder(entries, keys, ord, args, a, i, j);
    city := keys[args.start + i];
  }

  // ----- every listed container opens -----

  /** What the whole listing holds; one page of it may hold less. */
  function Total(a: Answer): int {
    match a
    case Containers(_, total) => total
    case Items(_, total) => total
    case _ => 0
  }

  lemma {:induction false} ListSize(o: Order, keys: set<Name>, s: seq<Name>)
    requires Lists(o, keys, s)
    ensures |s| == |keys|
    decreases |s|
  {
    if s == [] {
      assert keys == {};
    } else {
      assert s[0] in s;
      RestLists(o, keys, s);
      ListSize(o, keys - {s[0]}, s[1..]);
    }
  }

  lemma CountryHasCities(media: seq<Asset>, c: Name)
    ensures c in Countries(media) <==> Cities(media, c) != {}
  {
    if c in Countries(media) {
      var a :| a in media && Located(a) && a.country == c;
      assert InCountry(c)(a) && a.city in Cities(media, c);
    }
    if Cities(media, c) != {} {
      var t :| t in Cities(media, c);
      var a :| a in media && InCountry(c)(a) && a.city == t;
    }
  }

  lemma NotPlaces(country: Name, city: Option<Name>)
    ensures PlaceID("", country, city) != PLACES
  {
    assert PlaceID("", country, city)[5] == ':';
  }

  /** What BrowseDirectChildren of a country answers. */
  lemma ChildrenOfCountry(media: seq<Asset>, country: Name, args: Args, o: Sorting, a: Answer)
    requires country in Countries(media) && !args.metadata && MayAnswer(media, PlaceID("", country, None), args, o, a)
    ensures MayList(media, Some(country), args, o, a) && a.Containers? && a.total == |Cities(media, country)| > 0
  {
    PlaceRoundTrip(country, None);
    NotPlaces(country, None);
    CountryHasCities(media, country);
    var keys: seq<Name> :| Lists(Order(o.lower, CityTitle, o.descending), Cities(media, country), keys) &&
      IsListing(CityEntries(media, country, keys), args, a);
    ListSize(Order(o.lower, CityTitle, o.descending), Cities(media, country), keys);
  }

  /** What BrowseDirectChildren of a city answers. */
  lemma ChildrenOfCity(media: seq<Asset>, country: Name, city: Name, args: Args, o: Sorting, a: Answer)
    requires country in Countries(media) && city in Cities(media, country) && !args.metadata
    requires MayAnswer(media, PlaceID("", country, Some(city)), args, o, a)
    ensures IsItemPage(Filter(media, InCity(country, city)), args, o, a) && a.total > 0
  {
    PlaceRoundTrip(country, Some(city));
    NotPlaces(country, Some(city));
    CityEmptyIff(media, country, city);
  }

  /** A container on any page of the countries opens, and holds as many cities as the listing says. */
  lemma ListedCountryOpens(media: seq<Asset>, args: Args, o: Sorting, listing: Answer, e: Entry, args': Args, a: Answer)
    requires MayList(media, None, args, o, listing) && e in listing.entries
    requires !args'.metadata && MayAnswer(media, e.id, args', o, a)
    ensures a.Containers? && a.total == e.childCount > 0
  {
    var keys: seq<Name> :| Lists(Order(o.lower, Same, o.descending), Countries(media), keys) &&
      IsListing(CountryEntries(media, keys), args, listing);
    var i := OnPage(CountryEntries(media, keys), args, e);
    assert keys[i] in keys;
    ChildrenOfCountry(media, keys[i], args', o, a);
  }

  /** A container on any page of a country's cities opens, and holds as many assets as the listing says. */
  lemma ListedCityOpens(
    media: seq<Asset>, country: Name, args: Args, o: Sorting, listing: Answer, e: Entry, args': Args, a: Answer)
    requires country in Countries(media) && MayList(media, Some(country), args, o, listing) && e in listing.entries
    requires !args'.metadata && MayAnswer(media, e.id, args', o, a)
    ensures a.Items? && a.total == e.childCount > 0
  {
    var keys: seq<Name> :| Lists(Order(o.lower, CityTitle, o.descending), Cities(media, country), keys) &&
      IsListing(CityEntries(media, country, keys), args, listing);
    var i := OnPage(CityEntries(media, country, keys), args, e);
    assert keys[i] in keys;
    ChildrenOfCity(media, country, keys[i], args', o, a);
  }

  lemma OnPage(entries: seq<Entry>, args: Args, e: Entry) returns (i: nat)
    requires |entries| < TWO_63 && e in PageOf(entries, args.start, args.count)
    ensures i < |entries| && entries[i] == e
  {
    var p := PageOf(entries, args.start, args.count);
    var k :| 0 <= k < |p| && p[k] == e;
    assert entries[args.start..][k] == e;
    i := args.start + k;
  }

  /** BrowseMetadata and BrowseDirectChildren agree on whether a place exists and on its child count. */
  lemma MetadataCountsChildren(
    media: seq<Asset>, country: Name, city: Option<Name>, args: Args, o: Sorting, self: Answer, children: Answer)
    requires country != "" && !args.metadata
    requires MayAnswer(media, PlaceID("", country, city), args.(metadata := true), o, self)
    requires MayAnswer(media, PlaceID("", country, city), args, o, children)
    ensures self.NoSuchObject? <==> children.NoSuchObject?
    ensures !self.NoSuchObject? ==> self.Metadata? && self.childCount == Total(children) > 0
  {
    PlaceRoundTrip(country, city);
    NotPlaces(country, city);
    if country in Countries(media) {
      if city.None? {
        ChildrenOfCountry(media, country, args, o, children);
      } else if city.value in Cities(media, country) {
        ChildrenOfCity(media, country, city.value, args, o, children);
      }
    }
  }

  // ----- walking the folder -----

  /** The request for everything a container holds. */
  const ALL: Args := Args(false, 0, 0)

  lemma AllIsAll<T>(s: seq<T>)
    requires |s| < TWO_63
    ensures PageOf(s, 0, 0) == s
  {
    assert s[0..] == s;
  }

  /** The assets met by browsing an ID and every ID it lists, at most `depth` levels deep. */
  function Walk(browse: string -> Answer, id: string, depth: nat): seq<Asset>
    decreases depth, 0
  {
    if depth == 0 then []
    else
      match browse(id)
      case Items(items, _) => items
      case Containers(entries, _) => Gather(Ids(entries), Opened(browse, depth - 1))
      case _ => []
  }

  function Opened(browse: string -> Answer, depth: nat): string -> seq<Asset>
    decreases depth, 1
  {
    (id: string) => Walk(browse, id, depth)
  }

  function Ids(entries: seq<Entry>): seq<string> {
    seq(|entries|, i requires 0 <= i < |entries| => entries[i].id)
  }

  /** Every answer of `browse` is one the folder may give. */
  ghost predicate Browses(media: seq<Asset>, o: Sorting, browse: string -> Answer) {
    forall id :: MayAnswer(media, id, ALL, o, browse(id))
  }

  function CityTests(country: Name, cities: seq<Name>): seq<Asset -> bool> {
    seq(|cities|, i requires 0 <= i < |cities| => InCity(country, cities[i]))
  }

  function CountryTests(countries: seq<Name>): seq<Asset -> bool> {
    seq(|countries|, i requires 0 <= i < |countries| => InCountry(countries[i]))
  }

  lemma CityOfCountry(media: seq<Asset>, c: Name, t: Name)
    ensures Filter(media, InCity(c, t)) == Filter(Filter(media, InCountry(c)), InCity(c, t))
  {
    FilterTwice(media, InCountry(c), InCity(c, t));
    FilterSame(media, InCity(c, t), Both(InCountry(c), InCity(c, t)));
  }

  /** Opening a city's ID meets its assets, each once. */
  lemma OpenCity(media: seq<Asset>, o: Sorting, browse: string -> Answer, c: Name, t: Name, depth: nat)
    requires Rearranges(o) && Browses(media, o, browse) && c in Countries(media) && t in Cities(media, c) && depth >= 3
    ensures Follows(Opened(browse, depth - 2)(PlaceID("", c, Some(t))),
      Filter(Filter(media, InCountry(c)), InCity(c, t)), false)
  {
    var id := PlaceID("", c, Some(t));
    var mine := Filter(media, InCity(c, t));
    ChildrenOfCity(media, c, t, ALL, o, browse(id));
    AllIsAll(o.photos(mine));
    CityOfCountry(media, c, t);
  }

  lemma CityTestsCover(cities: seq<Name>, a: Asset)
    requires Located(a) && Distinct(cities) && a.city in cities
    ensures AnyOf(CityTests(a.country, cities))(a) && AtMostOne(a, CityTests(a.country, cities))
  {
    var i :| 0 <= i < |cities| && cities[i] == a.city;
    assert CityTests(a.country, cities)[i](a);
  }

  lemma CitiesCover(media: seq<Asset>, c: Name, cities: seq<Name>, a: Asset)
    requires HoldsOnce(cities, Cities(media, c)) && a in Filter(media, InCountry(c))
    ensures AnyOf(CityTests(c, cities))(a) && AtMostOne(a, CityTests(c, cities))
  {
    FilterIn(media, InCountry(c), a);
    CityTestsCover(cities, a);
  }

  lemma CitiesPermute(media: seq<Asset>, c: Name, cities: seq<Name>)
    requires HoldsOnce(cities, Cities(media, c))
    ensures var mine := Filter(media, InCountry(c)); multiset(FilterEach(mine, CityTests(c, cities))) == multiset(mine)
  {
    forall a | a in Filter(media, InCountry(c))
      ensures AnyOf(CityTests(c, cities))(a) && AtMostOne(a, CityTests(c, cities))
    {
      CitiesCover(media, c, cities, a);
    }
    FilterEachPermutes(Filter(media, InCountry(c)), CityTests(c, cities));
  }

  /** If opening each ID of a country's listing meets that city's assets, opening all of them meets the country's. */
  lemma CitiesFollow(media: seq<Asset>, c: Name, cities: seq<Name>, open: string -> seq<Asset>)
    requires HoldsOnce(cities, Cities(media, c))
    requires forall t | t in cities ::
      Follows(open(PlaceID("", c, Some(t))), Filter(Filter(media, InCountry(c)), InCity(c, t)), false)
    ensures Follows(Gather(Ids(CityEntries(media, c, cities)), open), Filter(media, InCountry(c)), false)
  {
    var ids := Ids(CityEntries(media, c, cities));
    forall i | 0 <= i < |ids|
      ensures Follows(open(ids[i]), Filter(Filter(media, InCountry(c)), CityTests(c, cities)[i]), false)
    {
      assert cities[i] in cities;
    }
    GatherFollows(ids, open, Filter(media, InCountry(c)), CityTests(c, cities), false);
    CitiesPermute(media, c, cities);
  }

  /** What browsing a country gives: a listing of its cities. */
  lemma CountryListing(media: seq<Asset>, o: Sorting, browse: string -> Answer, c: Name) returns (cities: seq<Name>)
    requires Browses(media, o, browse) && c in Countries(media)
    ensures HoldsOnce(cities, Cities(media, c))
    ensures browse(PlaceID("", c, None)) == Containers(CityEntries(media, c, cities), |cities|)
  {
    var a := browse(PlaceID("", c, None));
    ChildrenOfCountry(media, c, ALL, o, a);
    cities :| Lists(Order(o.lower, CityTitle, o.descending), Cities(media, c), cities) &&
      IsListing(CityEntries(media, c, cities), ALL, a);
    AllIsAll(CityEntries(media, c, cities));
  }

  lemma OpenListed(browse: string -> Answer, id: string, entries: seq<Entry>, depth: nat)
    requires depth >= 2 && browse(id) == Containers(entries, |entries|)
    ensures Opened(browse, depth - 1)(id) == Gather(Ids(entries), Opened(browse, depth - 2))
  {
  }

  lemma InCountryIsLocated(media: seq<Asset>, c: Name)
    ensures Filter(Filter(media, Located), InCountry(c)) == Filter(media, InCountry(c))
  {
    FilterTwice(media, Located, InCountry(c));
    FilterSame(media, InCountry(c), Both(Located, InCountry(c)));
  }

  lemma OpenCities(media: seq<Asset>, o: Sorting, browse: string -> Answer, c: Name, cities: seq<Name>, depth: nat)
    requires Rearranges(o) && Browses(media, o, browse) && c in Countries(media) && depth >= 3
    requires HoldsOnce(cities, Cities(media, c))
    ensures Follows(Gather(Ids(CityEntries(media, c, cities)), Opened(browse, depth - 2)),
      Filter(media, InCountry(c)), false)
  {
    forall t | t in cities
      ensures Follows(Opened(browse, depth - 2)(PlaceID("", c, Some(t))),
        Filter(Filter(media, InCountry(c)), InCity(c, t)), false)
    {
      OpenCity(media, o, browse, c, t, depth);
    }
    CitiesFollow(media, c, cities, Opened(browse, depth - 2));
  }

  /** Opening a country's ID meets its assets, each once. */
  lemma OpenCountry(media: seq<Asset>, o: Sorting, browse: string -> Answer, c: Name, depth: nat)
    requires Rearranges(o) && Browses(media, o, browse) && c in Countries(media) && depth >= 3
    ensures Follows(Opened(browse, depth - 1)(PlaceID("", c, None)),
      Filter(Filter(media, Located), InCountry(c)), false)
  {
    var cities := CountryListing(media, o, browse, c);
    OpenListed(browse, PlaceID("", c, None), CityEntries(media, c, cities), depth);
    OpenCities(media, o, browse, c, cities, depth);
    InCountryIsLocated(media, c);
  }

  lemma CountriesCover(media: seq<Asset>, countries: seq<Name>, a: Asset)
    requires HoldsOnce(countries, Countries(media)) && a in Filter(media, Located)
    ensures AnyOf(CountryTests(countries))(a) && AtMostOne(a, CountryTests(countries))
  {
    FilterIn(media, Located, a);
    assert a.country in countries;
    var i :| 0 <= i < |countries| && countries[i] == a.country;
    assert CountryTests(countries)[i](a);
  }

  lemma CountriesPermute(media: seq<Asset>, countries: seq<Name>)
    requires HoldsOnce(countries, Countries(media))
    ensures var mine := Filter(media, Located); multiset(FilterEach(mine, CountryTests(countries))) == multiset(mine)
  {
    forall a | a in Filter(media, Located)
      ensures AnyOf(CountryTests(countries))(a) && AtMostOne(a, CountryTests(countries))
    {
      CountriesCover(media, countries, a);
    }
    FilterEachPermutes(Filter(media, Located), CountryTests(countries));
  }

  lemma CountriesFollow(media: seq<Asset>, countries: seq<Name>, open: string -> seq<Asset>)
    requires HoldsOnce(countries, Countries(media))
    requires forall c | c in countries ::
      Follows(open(PlaceID("", c, None)), Filter(Filter(media, Located), InCountry(c)), false)
    ensures Follows(Gather(Ids(CountryEntries(media, countries)), open), Filter(media, Located), false)
  {
    var ids := Ids(CountryEntries(media, countries));
    forall i | 0 <= i < |ids|
      ensures Follows(open(ids[i]), Filter(Filter(media, Located), CountryTests(countries)[i]), false)
    {
      assert countries[i] in countries;
    }
    GatherFollows(ids, open, Filter(media, Located), CountryTests(countries), false);
    CountriesPermute(media, countries);
  }

  lemma OpenCountries(media: seq<Asset>, o: Sorting, browse: string -> Answer, countries: seq<Name>, depth: nat)
    requires Rearranges(o) && Browses(media, o, browse) && depth >= 3 && HoldsOnce(countries, Countries(media))
    ensures Follows(Gather(Ids(CountryEntries(media, countries)), Opened(browse, depth - 1)),
      Filter(media, Located), false)
  {
    forall c | c in countries
      ensures Follows(Opened(browse, depth - 1)(PlaceID("", c, None)),
        Filter(Filter(media, Located), InCountry(c)), false)
    {
      OpenCountry(media, o, browse, c, depth);
    }
    CountriesFollow(media, countries, Opened(browse, depth - 1));
  }

  /** Browsing Places, every ID it lists, and every ID those list, meets every
      asset with a country exactly once, and no other, in whatever order the
      listings come and are sorted. */
  lemma PlacesHoldEveryLocatedAssetOnce(media: seq<Asset>, o: Sorting, browse: string -> Answer, depth: nat)
    requires Rearranges(o) && Browses(media, o, browse) && depth >= 3
    ensures multiset(Walk(browse, PLACES, depth)) == multiset(Filter(media, Located))
    ensures forall a: Asset ::
      multiset(Walk(browse, PLACES, depth))[a] == if a.country != "" then multiset(media)[a] else 0
  {
    forall a: Asset
      ensures multiset(Filter(media, Located))[a] == if a.country != "" then multiset(media)[a] else 0
    {
      FilterCounts(media, Located, a);
    }
    assert MayAnswer(media, PLACES, ALL, o, browse(PLACES));
    var countries: seq<Name> :| Lists(Order(o.lower, Same, o.descending), Countries(media), countries) &&
      IsListing(CountryEntries(media, countries), ALL, browse(PLACES));
    AllIsAll(CountryEntries(media, countries));
    OpenCountries(media, o, browse, countries, depth);
  }
}
