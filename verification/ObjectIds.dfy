/** The identifiers the server hands out in listings and URLs, and takes back
    later: place and account ObjectIDs, media paths, listing-cache keys. */
module ObjectIds {
  import opened Basics
  import opened Text
  import opened FileSystem

  // ----- url.QueryEscape and url.QueryUnescape -----

  /** A Go string: a sequence of bytes, here as characters below 256. */
  predicate ByteString(s: string) { forall i | 0 <= i < |s| :: s[i] as int < 256 }

  /** RFC 3986 section 2.3 */
  predicate Unreserved(c: char) {
    'a' <= c <= 'z' || 'A' <= c <= 'Z' || '0' <= c <= '9' || c == '-' || c == '_' || c == '.' || c == '~'
  }

  function HexDigit(d: nat): char
    requires d < 16
  {
    "0123456789ABCDEF"[d]
  }

  function HexValue(c: char): Option<nat> {
    if '0' <= c <= '9' then Some(c as int - '0' as int)
    else if 'a' <= c <= 'f' then Some(c as int - 'a' as int + 10)
    else if 'A' <= c <= 'F' then Some(c as int - 'A' as int + 10)
    else None
  }

  function EscapeByte(c: char): string
    requires c as int < 256
  {
    if Unreserved(c) then [c]
    else if c == ' ' then "+"
    else ['%', HexDigit(c as int / 16), HexDigit(c as int % 16)]
  }

  function QueryEscape(s: string): string
    requires ByteString(s)
  {
    if s == "" then "" else EscapeByte(s[0]) + QueryEscape(s[1..])
  }

  /** None where url.QueryUnescape reports an error: a '%' not followed by two hex digits. */
  function QueryUnescape(s: string): Option<string> {
    if s == "" then Some("")
    else if s[0] == '%' then
      if |s| < 3 then None
      else
        var hi, lo := HexValue(s[1]), HexValue(s[2]);
        var rest := QueryUnescape(s[3..]);
        if hi.None? || lo.None? || rest.None? then None
        else Some([(hi.value * 16 + lo.value) as char] + rest.value)
    else
      var rest := QueryUnescape(s[1..]);
      if rest.None? then None else Some([if s[0] == '+' then ' ' else s[0]] + rest.value)
  }

  lemma HexRoundTrip(d: nat)
    requires d < 16
    ensures HexValue(HexDigit(d)) == Some(d) && HexDigit(d) != ':' && HexDigit(d) != '/'
  {}

  lemma EscapedByte(c: char, rest: string)
    requires c as int < 256
    ensures QueryUnescape(EscapeByte(c) + rest) ==
      if QueryUnescape(rest).None? then None else Some([c] + QueryUnescape(rest).value)
    ensures ':' !in EscapeByte(c) && '/' !in EscapeByte(c)
  {
    HexRoundTrip(c as int / 16);
    HexRoundTrip(c as int % 16);
    var s := EscapeByte(c) + rest;
    if Unreserved(c) || c == ' ' {
      assert s[1..] == rest;
    } else {
      assert s[3..] == rest;
      assert c as int / 16 * 16 + c as int % 16 == c as int;
    }
  }

  /** Escaping is undone by unescaping, for every name, and what it yields holds no separator. */
  lemma {:induction false} UnescapeEscaped(s: string)
    requires ByteString(s)
    ensures QueryUnescape(QueryEscape(s)) == Some(s) && ':' !in QueryEscape(s) && '/' !in QueryEscape(s)
  {
    if s != "" {
      UnescapeEscaped(s[1..]);
      EscapedByte(s[0], QueryEscape(s[1..]));
      assert [s[0]] + s[1..] == s;
    }
  }

  // ----- places -----

  function PlaceID(childPrefix: string, country: string, city: Option<string>): string
    requires ByteString(country) && (city.Some? ==> ByteString(city.value))
  {
    var id := childPrefix + "place:" + QueryEscape(country);
    if city.Some? then id + ":" + QueryEscape(city.value) else id
  }

  function TrimPrefix(s: string, prefix: string): string {
    if prefix <= s then s[|prefix|..] else s
  }

  /** parsePlaceID: (country, city), or None when the source reports !ok. */
  function ParsePlaceID(local: string): Option<(string, Option<string>)> {
    var (c, ci, hasCity) := Cut(TrimPrefix(local, "place:"), ':');
    var country := QueryUnescape(c);
    if country.None? || country.value == "" then None
    else if !hasCity then Some((country.value, None))
    else
      var city := QueryUnescape(ci);
      if city.None? then None else Some((country.value, Some(city.value)))
  }

  lemma CountryRoundTrip(country: string)
    requires ByteString(country)
    ensures ParsePlaceID("place:" + QueryEscape(country)) == if country == "" then None else Some((country, None))
  {
    UnescapeEscaped(country);
    assert TrimPrefix("place:" + QueryEscape(country), "place:") == QueryEscape(country);
    CutNone(QueryEscape(country), ':');
  }

  lemma CityRoundTrip(country: string, city: string)
    requires ByteString(country) && ByteString(city)
    ensures ParsePlaceID("place:" + (QueryEscape(country) + [':'] + QueryEscape(city))) ==
      if country == "" then None else Some((country, Some(city)))
  {
    UnescapeEscaped(country);
    UnescapeEscaped(city);
    var rest := QueryEscape(country) + [':'] + QueryEscape(city);
    assert TrimPrefix("place:" + rest, "place:") == rest;
    CutAt(QueryEscape(country), ':', QueryEscape(city));
  }

  /** A printed place ID parses back to its country and city, whatever bytes
      the names hold and even if the city is empty; only an empty country, which
      browsePlaces never lists, is refused. */
  lemma PlaceRoundTrip(country: string, city: Option<string>)
    requires ByteString(country) && (city.Some? ==> ByteString(city.value))
    ensures ParsePlaceID(PlaceID("", country, city)) == if country == "" then None else Some((country, city))
  {
    PlaceIDIs(country, city);
    if city.Some? {
      CityRoundTrip(country, city.value);
    } else {
      CountryRoundTrip(country);
    }
  }

  lemma PlaceIDIs(country: string, city: Option<string>)
    requires ByteString(country) && (city.Some? ==> ByteString(city.value))
    ensures PlaceID("", country, city) == "place:" +
      match city
      case None => QueryEscape(country)
      case Some(t) => QueryEscape(country) + [':'] + QueryEscape(t)
  {
    var esc := QueryEscape(country);
    if city.Some? {
      Associate("place:", esc, [':'], QueryEscape(city.value));
    }
    assert "" + "place:" == "place:";
  }

  lemma Associate(a: string, b: string, c: string, d: string)
    ensures a + b + c + d == a + (b + c + d)
  {
  }

  // ----- accounts -----

  /** strconv.Atoi: optional sign, decimal digits, in the range of int. */
  function Atoi(s: string): Option<int> {
    var digits := if s != "" && (s[0] == '-' || s[0] == '+') then s[1..] else s;
    if digits == "" || !AllDigits(digits) then None
    else
      var v: int := if s[0] == '-' then 0 - Value(digits) else Value(digits);
      if -0x8000_0000_0000_0000 <= v <= 0x7FFF_FFFF_FFFF_FFFF then Some(v) else None
  }

  lemma AtoiOfItoa(n: nat)
    requires n <= 0x7FFF_FFFF_FFFF_FFFF
    ensures Atoi(Itoa(n)) == Some(n)
  {
    ValueOfItoa(n);
    assert IsDigit(Itoa(n)[0]);
  }

  function UserObjectID(idx: nat): string { "user:" + Itoa(idx) }

  /** What an account's own tree prefixes its children's IDs with. */
  function ChildPrefix(idx: nat): string { "user:" + Itoa(idx) + ":" }

  function ParseUserObjectID(objectID: string, numUsers: int): Option<(int, string)> {
    var (idxStr, rest, found) := Cut(TrimPrefix(objectID, "user:"), ':');
    var local := if found then rest else "0";
    var n := Atoi(idxStr);
    if n.None? || n.value < 0 || n.value >= numUsers then None else Some((n.value, local))
  }

  lemma UserRootRoundTrip(idx: nat, numUsers: int)
    requires idx < numUsers <= 0x7FFF_FFFF_FFFF_FFFF
    ensures ParseUserObjectID(UserObjectID(idx), numUsers) == Some((idx, "0"))
  {
    AtoiOfItoa(idx);
    assert TrimPrefix(UserObjectID(idx), "user:") == Itoa(idx);
    CutNone(Itoa(idx), ':');
  }

  lemma UserChildRoundTrip(idx: nat, numUsers: int, local: string)
    requires idx < numUsers <= 0x7FFF_FFFF_FFFF_FFFF
    ensures ParseUserObjectID(ChildPrefix(idx) + local, numUsers) == Some((idx, local))
  {
    AtoiOfItoa(idx);
    UserChildParts(idx, local);
    CutAt(Itoa(idx), ':', local);
  }

  lemma UserChildParts(idx: nat, local: string)
    ensures TrimPrefix(ChildPrefix(idx) + local, "user:") == Itoa(idx) + [':'] + local
  {
  }

  /** Every ID an account hands out leads back to that account and, within it, to the same object. */
  lemma UserRoundTrip(idx: nat, numUsers: int, local: string)
    requires idx < numUsers <= 0x7FFF_FFFF_FFFF_FFFF
    ensures ParseUserObjectID(UserObjectID(idx), numUsers) == Some((idx, "0"))
    ensures ParseUserObjectID(ChildPrefix(idx) + local, numUsers) == Some((idx, local))
  {
    UserRootRoundTrip(idx, numUsers);
    UserChildRoundTrip(idx, numUsers, local);
  }

  /** Both together: a place listed by account idx is found again in account idx. */
  lemma AccountPlaceRoundTrip(idx: nat, numUsers: int, country: string, city: Option<string>)
    requires idx < numUsers <= 0x7FFF_FFFF_FFFF_FFFF
    requires ByteString(country) && country != "" && (city.Some? ==> ByteString(city.value))
    ensures var parsed := ParseUserObjectID(PlaceID(ChildPrefix(idx), country, city), numUsers);
      parsed.Some? && parsed.value.0 == idx && ParsePlaceID(parsed.value.1) == Some((country, city))
  {
    assert PlaceID(ChildPrefix(idx), country, city) == ChildPrefix(idx) + PlaceID("", country, city);
    UserRoundTrip(idx, numUsers, PlaceID("", country, city));
    PlaceRoundTrip(country, city);
  }

  /** Whatever the text, an account it parses to exists. */
  lemma ParsedAccountExists(objectID: string, numUsers: int)
    ensures var parsed := ParseUserObjectID(objectID, numUsers);
      parsed.Some? ==> 0 <= parsed.value.0 < numUsers
  {}

  // ----- media paths -----

  const MEDIA: string := "/media/"
  const PERSON: string := "/media/person/"

  /** The path of mediaURL, personThumbnailURL and thumbnailURL, after the base URL; account -1 is "the only one". */
  function MediaPath(route: string, userIdx: int, id: string): string {
    if userIdx < 0 then route + id else route + Itoa(userIdx) + "/" + id
  }

  function ParseMediaPath(path: string, numUsers: int): Option<(int, string)> {
    if path == "" then None
    else
      var (head, tail, found) := Cut(path, '/');
      if !found then Some((0, path))
      else
        var idx := Atoi(head);
        if idx.None? || idx.value < 0 || idx.value >= numUsers || !ValidId(tail) then None
        else Some((idx.value, tail))
  }

  /** A media URL is parsed back, by the handler of its route, to its account and asset. */
  lemma MediaRoundTrip(route: string, userIdx: int, id: string, numUsers: int)
    requires ValidId(id) && -1 <= userIdx < numUsers <= 0x7FFF_FFFF_FFFF_FFFF && numUsers > 0
    ensures ParseMediaPath(TrimPrefix(MediaPath(route, userIdx, id), route), numUsers) ==
      Some((if userIdx < 0 then 0 else userIdx, id))
  {
    if userIdx < 0 {
      assert TrimPrefix(MediaPath(route, userIdx, id), route) == id;
      CutNone(id, '/');
    } else {
      AtoiOfItoa(userIdx);
      assert TrimPrefix(MediaPath(route, userIdx, id), route) == Itoa(userIdx) + ['/'] + id;
      CutAt(Itoa(userIdx), '/', id);
    }
  }

  /** Whatever the path, its account exists, and its ID is valid unless the path has no slash and is taken as it is. */
  lemma ParsedMediaIsValid(path: string, numUsers: int)
    requires numUsers > 0
    ensures ParseMediaPath("", numUsers) == None
    ensures var parsed := ParseMediaPath(path, numUsers);
      parsed.Some? ==>
        && 0 <= parsed.value.0 < numUsers
        && (if '/' in path then ValidId(parsed.value.1) else parsed.value == (0, path))
  {}

  /** An asset's URL is never routed to the person handler, whose prefix is longer. */
  lemma AssetsAreNotPeople(userIdx: int, id: string)
    requires ValidId(id) && -1 <= userIdx
    ensures !(PERSON <= MediaPath(MEDIA, userIdx, id))
  {
    var path := MediaPath(MEDIA, userIdx, id);
    assert PERSON[7] == 'p' && PERSON[13] == '/';
    if userIdx < 0 {
      assert path[7..] == id;
      assert |path| > 13 ==> path[13] == id[6];
    } else {
      assert path[7..] == Itoa(userIdx) + "/" + id;
      assert path[7] == Itoa(userIdx)[0];
    }
  }

  // ----- listing-cache keys -----

  /** What a cachedClient method asks the listing cache for. */
  datatype Listing =
    | Albums
    | Album(id: string)
    | AlbumAssets(id: string)
    | People
    | Favorites
    | Person(id: string)
    | PersonAssets(id: string)
    | Asset(id: string)
    | OnThisDay(date: string)

  function KeyWithin(l: Listing): string {
    match l
    case Albums => "albums"
    case Album(id) => "album:" + id
    case AlbumAssets(id) => "album-assets:" + id
    case People => "people"
    case Favorites => "favorites"
    case Person(id) => "person:" + id
    case PersonAssets(id) => "person-assets:" + id
    case Asset(id) => "asset:" + id
    case OnThisDay(date) => "onthisday:" + date
  }

  function ListingKey(idx: nat, l: Listing): string { Itoa(idx) + "|" + KeyWithin(l) }

  /** The parameter of a listing, or "" for those without one. */
  function Param(l: Listing): string {
    match l
    case Album(id) => id
    case AlbumAssets(id) => id
    case Person(id) => id
    case PersonAssets(id) => id
    case Asset(id) => id
    case OnThisDay(date) => date
    case _ => ""
  }

  function Label(l: Listing): string {
    match l
    case Albums => "albums"
    case Album(_) => "album:"
    case AlbumAssets(_) => "album-assets:"
    case People => "people"
    case Favorites => "favorites"
    case Person(_) => "person:"
    case PersonAssets(_) => "person-assets:"
    case Asset(_) => "asset:"
    case OnThisDay(_) => "onthisday:"
  }

  lemma LabelsDiffer(l: Listing, m: Listing)
    requires Label(l) <= Label(m)
    ensures Label(l) == Label(m)
  {
    assert |Label(l)| > 6 ==> Label(l)[6] == Label(m)[6];
    assert Label(l)[0] == Label(m)[0] && Label(l)[1] == Label(m)[1] && Label(l)[5] == Label(m)[5];
  }

  /** Two listings share a cache key only if they are the same listing of the
      same account, so a value cached under a key always has the type its
      reader expects. */
  lemma ListingKeysInjective(i: nat, l: Listing, j: nat, m: Listing)
    requires ListingKey(i, l) == ListingKey(j, m)
    ensures i == j && l == m
  {
    CutAt(Itoa(i), '|', KeyWithin(l));
    CutAt(Itoa(j), '|', KeyWithin(m));
    assert ListingKey(i, l) == Itoa(i) + ['|'] + KeyWithin(l) && ListingKey(j, m) == Itoa(j) + ['|'] + KeyWithin(m);
    ValueOfItoa(i);
    ValueOfItoa(j);
    KeysWithinInjective(l, m);
  }

  lemma KeysWithinInjective(l: Listing, m: Listing)
    requires KeyWithin(l) == KeyWithin(m)
    ensures l == m
  {
    var k := KeyWithin(l);
    assert KeyWithin(l) == Label(l) + Param(l) && KeyWithin(m) == Label(m) + Param(m);
    assert k[..|Label(l)|] == Label(l) && k[..|Label(m)|] == Label(m);
    if |Label(l)| <= |Label(m)| {
      assert Label(l) <= Label(m);
      LabelsDiffer(l, m);
    } else {
      assert Label(m) <= Label(l);
      LabelsDiffer(m, l);
    }
    assert k[|Label(l)|..] == Param(l) && k[|Label(m)|..] == Param(m);
  }
}
