/** The "On this day" folder: a handful of date-window searches instead of a
    listing of the whole library. */
module OnThisDay {
  import opened Basics
  import opened Calendar

  /** An asset. Immich searches by `taken`; `created` is FileCreatedAt as the
      proxy parses it, `local` LocalDateTime, whose fields are local time
      written as if they were UTC. Either may be missing. */
  datatype Asset = Asset(id: string, taken: int, created: Option<int>, local: Option<int>)

  function LocalCaptureDate(a: Asset): Option<Date> {
    if a.local.Some? then Some(DateOf(DayOf(a.local.value)))
    else if a.created.Some? then Some(DateOf(DayOf(a.created.value)))
    else None
  }

  const MIN_YEAR: int := 1900

  predicate TakenBetween(a: Asset, after: int, before: int) { after <= a.taken < before }

  function TakenIn(after: int, before: int): Asset -> bool { (a: Asset) => TakenBetween(a, after, before) }

  /** Client.ListAssetsTakenBetween over a library listed newest first. */
  function Search(library: seq<Asset>, after: int, before: int): seq<Asset> {
    Filter(library, TakenIn(after, before))
  }

  /** The search for month/day in year y, from 14 hours before its UTC midnight to 36 hours after. */
  predicate InWindow(a: Asset, y: int, month: int, day: int)
    requires 1 <= month <= 12
  {
    TakenBetween(a, Midnight(y, month, day) - 14 * HOUR, Midnight(y, month, day) + 36 * HOUR)
  }

  predicate CapturedOn(a: Asset, y: int, month: int, day: int) { LocalCaptureDate(a) == Some(Date(y, month, day)) }

  function DatedOn(y: int, month: int, day: int): Asset -> bool { (a: Asset) => CapturedOn(a, y, month, day) }

  /** The lowest year searched. */
  function LowestYear(oldest: int): int {
    var y := YearOf(DayOf(oldest)) - 1;
    if y < MIN_YEAR then MIN_YEAR else y
  }

  /** time.Date(y, month, day, ...).Month() == month */
  function DateExists(month: int, day: int): int -> bool
    requires 1 <= month <= 12
  {
    (y: int) => DateOf(DayNumber(y, month, day)).month == month
  }

  /** The years searched, latest first: those from `low` on in which the date exists. */
  function Years(low: int, now: Date): seq<int>
    requires Valid(now)
  {
    Down(now.year - 1, low, DateExists(now.month, now.day))
  }

  function SearchYear(library: seq<Asset>, y: int, month: int, day: int): seq<Asset>
    requires 1 <= month <= 12
  {
    var start := Midnight(y, month, day);
    Filter(Search(library, start - 14 * HOUR, start + 36 * HOUR), DatedOn(y, month, day))
  }

  function SearchYears(library: seq<Asset>, years: seq<int>, month: int, day: int): seq<Asset>
    requires 1 <= month <= 12
  {
    if years == [] then []
    else SearchYears(library, years[..|years| - 1], month, day) + SearchYear(library, years[|years| - 1], month, day)
  }

  /** What onThisDaySearch returns when every request succeeds. */
  function OnThisDay(library: seq<Asset>, oldest: int, now: Date): seq<Asset>
    requires Valid(now)
  {
    SearchYears(library, Years(LowestYear(oldest), now), now.month, now.day)
  }

  /** The simple definition: captured, by local date, on today's month and day in an earlier year. */
  predicate Wanted(a: Asset, now: Date) {
    var d := LocalCaptureDate(a);
    d.Some? && d.value.month == now.month && d.value.day == now.day && MIN_YEAR <= d.value.year < now.year
  }

  /** What the windowed searches see of it. */
  predicate Found(a: Asset, low: int, now: Date)
    requires Valid(now)
  {
    Wanted(a, now) &&
    var y := LocalCaptureDate(a).value.year;
    low <= y && InWindow(a, y, now.month, now.day)
  }

  predicate NewestFirst(library: seq<Asset>) {
    forall i, j | 0 <= i < j < |library| :: library[i].taken >= library[j].taken
  }

  // ----- concatenating the years is filtering the library -----

  ghost function WantedBy(now: Date): Asset -> bool { (a: Asset) => Wanted(a, now) }

  ghost function FoundBy(low: int, now: Date): Asset -> bool
    requires Valid(now)
  {
    (a: Asset) => Found(a, low, now)
  }

  ghost function FoundIn(y: int, month: int, day: int): Asset -> bool
    requires 1 <= month <= 12
  {
    (a: Asset) => InWindow(a, y, month, day) && CapturedOn(a, y, month, day)
  }

  ghost function FoundInEach(years: seq<int>, month: int, day: int): seq<Asset -> bool>
    requires 1 <= month <= 12
  {
    seq(|years|, i requires 0 <= i < |years| => FoundIn(years[i], month, day))
  }

  lemma WindowIs(library: seq<Asset>, after: int, before: int, date: Asset -> bool, both: Asset -> bool)
    requires forall a | a in library :: both(a) == (TakenBetween(a, after, before) && date(a))
    ensures Filter(Search(library, after, before), date) == Filter(library, both)
  {
    FilterTwice(library, TakenIn(after, before), date);
    FilterSame(library, Both(TakenIn(after, before), date), both);
  }

  lemma FoundInIs(a: Asset, y: int, month: int, day: int)
    requires 1 <= month <= 12
    ensures var start := Midnight(y, month, day);
      FoundIn(y, month, day)(a) == (TakenBetween(a, start - 14 * HOUR, start + 36 * HOUR) && DatedOn(y, month, day)(a))
  {
  }

  lemma SearchYearIs(library: seq<Asset>, y: int, month: int, day: int)
    requires 1 <= month <= 12
    ensures SearchYear(library, y, month, day) == Filter(library, FoundIn(y, month, day))
  {
    var start := Midnight(y, month, day);
    forall a | a in library
      ensures FoundIn(y, month, day)(a) ==
        (TakenBetween(a, start - 14 * HOUR, start + 36 * HOUR) && DatedOn(y, month, day)(a))
    {
      FoundInIs(a, y, month, day);
    }
    WindowIs(library, start - 14 * HOUR, start + 36 * HOUR, DatedOn(y, month, day), FoundIn(y, month, day));
  }

  lemma {:induction false} SearchYearsIsFilterEach(library: seq<Asset>, years: seq<int>, month: int, day: int)
    requires 1 <= month <= 12
    ensures SearchYears(library, years, month, day) == FilterEach(library, FoundInEach(years, month, day))
  {
    var ps := FoundInEach(years, month, day);
    if years != [] {
      var n := |years| - 1;
      SearchYearsIsFilterEach(library, years[..n], month, day);
      SearchYearIs(library, years[n], month, day);
      assert ps[..n] == FoundInEach(years[..n], month, day);
    }
  }

  /** What one year's search finds was taken before anything a later year's search finds. */
  lemma LaterYearsComeFirst(a: Asset, b: Asset, y: int, z: int, month: int, day: int)
    requires 1 <= month <= 12 && y < z && InWindow(a, y, month, day) && InWindow(b, z, month, day)
    ensures a.taken < b.taken
  {
    SameDateApart(y, z, month, day);
  }

  lemma SearchYearsIsFilter(library: seq<Asset>, years: seq<int>, month: int, day: int)
    requires 1 <= month <= 12 && NewestFirst(library)
    requires Descending(years)
    ensures SearchYears(library, years, month, day) == Filter(library, AnyOf(FoundInEach(years, month, day)))
  {
    var ps := FoundInEach(years, month, day);
    SearchYearsIsFilterEach(library, years, month, day);
    forall k, l, i, j | 0 <= k < l < |ps| && 0 <= i <= j < |library|
      ensures !(ps[l](library[i]) && ps[k](library[j]))
    {
      if ps[l](library[i]) && ps[k](library[j]) {
        LaterYearsComeFirst(library[i], library[j], years[l], years[k], month, day);
      }
    }
    FilterEachInOrder(library, ps);
  }

  lemma DateExistsIff(y: int, now: Date)
    requires Valid(now)
    ensures DateExists(now.month, now.day)(y) <==> Valid(Date(y, now.month, now.day))
  {
    MonthKeptIffValid(y, now.month, now.day);
  }

  lemma YearsAre(low: int, now: Date, y: int)
    requires Valid(now)
    ensures y in Years(low, now) <==> low <= y < now.year && Valid(Date(y, now.month, now.day))
  {
    DateExistsIff(y, now);
    DownIs(now.year - 1, low, DateExists(now.month, now.day), y);
  }

  lemma CapturedMeansValid(a: Asset, y: int, month: int, day: int)
    requires CapturedOn(a, y, month, day)
    ensures Valid(Date(y, month, day))
  {}

  /** The years are those from `low` on, before this one, in which the date exists. */
  ghost predicate AllYears(years: seq<int>, low: int, now: Date)
    requires Valid(now)
  {
    forall y :: y in years <==> low <= y < now.year && Valid(Date(y, now.month, now.day))
  }

  lemma YearsListed(low: int, now: Date)
    requires Valid(now)
    ensures Descending(Years(low, now)) && AllYears(Years(low, now), low, now)
  {
    DownDescends(now.year - 1, low, DateExists(now.month, now.day));
    forall y
      ensures y in Years(low, now) <==> low <= y < now.year && Valid(Date(y, now.month, now.day))
    {
      YearsAre(low, now, y);
    }
  }

  lemma AmongIsFound(a: Asset, years: seq<int>, low: int, now: Date)
    requires Valid(now) && low >= MIN_YEAR && AllYears(years, low, now) &&
      AnyOf(FoundInEach(years, now.month, now.day))(a)
    ensures Found(a, low, now)
  {
    var ps := FoundInEach(years, now.month, now.day);
    var k :| 0 <= k < |ps| && ps[k](a);
    assert FoundIn(years[k], now.month, now.day)(a);
    assert years[k] in years;
  }

  lemma FoundIsAmong(a: Asset, years: seq<int>, low: int, now: Date)
    requires Valid(now) && AllYears(years, low, now) && Found(a, low, now)
    ensures AnyOf(FoundInEach(years, now.month, now.day))(a)
  {
    var ps := FoundInEach(years, now.month, now.day);
    var y := LocalCaptureDate(a).value.year;
    CapturedMeansValid(a, y, now.month, now.day);
    assert y in years;
    var k :| 0 <= k < |years| && years[k] == y;
    assert ps[k](a);
  }

  lemma AmongIffFound(library: seq<Asset>, years: seq<int>, low: int, now: Date)
    requires Valid(now) && low >= MIN_YEAR && AllYears(years, low, now)
    ensures Filter(library, AnyOf(FoundInEach(years, now.month, now.day))) == Filter(library, FoundBy(low, now))
  {
    var among := AnyOf(FoundInEach(years, now.month, now.day));
    forall i | 0 <= i < |library|
      ensures among(library[i]) == Found(library[i], low, now)
    {
      if among(library[i]) {
        AmongIsFound(library[i], years, low, now);
      }
      if Found(library[i], low, now) {
        FoundIsAmong(library[i], years, low, now);
      }
    }
    FilterSame(library, among, FoundBy(low, now));
  }

  lemma SearchesAreFound(library: seq<Asset>, low: int, now: Date)
    requires Valid(now) && low >= MIN_YEAR && NewestFirst(library)
    ensures SearchYears(library, Years(low, now), now.month, now.day) == Filter(library, FoundBy(low, now))
  {
    var years := Years(low, now);
    YearsListed(low, now);
    SearchYearsIsFilter(library, years, now.month, now.day);
    AmongIffFound(library, years, low, now);
  }

  /** Whatever the library, the folder is the library filtered, in order, by what the searches can see. */
  lemma OnThisDayIsFound(library: seq<Asset>, oldest: int, now: Date)
    requires Valid(now) && NewestFirst(library)
    ensures OnThisDay(library, oldest, now) == Filter(library, FoundBy(LowestYear(oldest), now))
  {
    SearchesAreFound(library, LowestYear(oldest), now);
  }

  // ----- what is wanted and what is found, in terms of instants -----

  /** An instant is on the date of which it is in the 24 hours, and on no other. */
  lemma OnDateIff(t: int, d: Date)
    requires Valid(d)
    ensures DateOf(DayOf(t)) == d <==>
      Midnight(d.year, d.month, d.day) <= t < Midnight(d.year, d.month, d.day) + 86_400_000_000_000
  {
    if DateOf(DayOf(t)) == d {
      WithinItsDay(t);
    } else if Midnight(d.year, d.month, d.day) <= t < Midnight(d.year, d.month, d.day) + DAY {
      InsideDay(t, DayNumber(d.year, d.month, d.day));
      DateOfDayNumber(d);
    }
  }

  lemma InsideDay(t: int, n: int)
    requires n * DAY <= t < n * DAY + DAY
    ensures DayOf(t) == n
  {}

  /** An asset is wanted if and only if its local time, or where that is missing
      its UTC time, is within the 24 hours of today's date in a year from 1900
      on and before this one. */
  lemma WantedIff(a: Asset, now: Date)
    requires Valid(now)
    ensures Wanted(a, now) <==>
      && (a.local.Some? || a.created.Some?)
      && exists y | 1900 <= y < now.year && Valid(Date(y, now.month, now.day)) ::
           var t := if a.local.Some? then a.local.value else a.created.value;
           Midnight(y, now.month, now.day) <= t < Midnight(y, now.month, now.day) + 86_400_000_000_000
  {
    if a.local.Some? || a.created.Some? {
      var t := if a.local.Some? then a.local.value else a.created.value;
      forall y | 1900 <= y < now.year && Valid(Date(y, now.month, now.day))
        ensures DateOf(DayOf(t)) == Date(y, now.month, now.day) <==>
          Midnight(y, now.month, now.day) <= t < Midnight(y, now.month, now.day) + 86_400_000_000_000
      {
        OnDateIff(t, Date(y, now.month, now.day));
      }
    }
  }

  /** And the searches find it if and only if it was taken from 14 hours before
      to 36 hours after that date's UTC midnight, in a year that is searched:
      from the one before the oldest asset's on, but not before 1900. */
  lemma FoundIff(a: Asset, oldest: int, now: Date)
    requires Valid(now) && Wanted(a, now)
    ensures var y := LocalCaptureDate(a).value.year;
      Found(a, LowestYear(oldest), now) <==>
        && y >= DateOf(DayOf(oldest)).year - 1 && y >= 1900
        && Midnight(y, now.month, now.day) - 50_400_000_000_000 <= a.taken
        && a.taken < Midnight(y, now.month, now.day) + 129_600_000_000_000
  {}

  // ----- fast equals simple -----

  /** What the time zones of the world and Immich's fields guarantee. */
  predicate Sane(a: Asset, oldest: int) {
    && oldest <= a.taken
    && (a.created.Some? ==> a.created.value == a.taken)
    && (a.local.Some? ==> -12 * HOUR <= a.local.value - a.taken <= 14 * HOUR)
  }

  lemma SaneIsFound(a: Asset, oldest: int, now: Date)
    requires Valid(now) && Sane(a, oldest) && Wanted(a, now)
    ensures Found(a, LowestYear(oldest), now)
  {
    var local := if a.local.Some? then a.local.value else a.created.value;
    WithinItsDay(local);
    LateEnough(oldest, local);
  }

  lemma LateEnough(oldest: int, local: int)
    requires oldest - 12 * HOUR <= local
    ensures YearOf(DayOf(oldest)) - 1 <= DateOf(DayOf(local)).year
  {
    NearbyDays(oldest, local);
    YearOfMonotone(DayOf(oldest) - 1, DayOf(local));
    YearOfPrevious(DayOf(oldest));
  }

  /** For any library listed newest first, the folder equals filtering the
      whole library exactly when every asset the simple definition wants falls
      into its year's window and into the range of years searched. */
  lemma FastEqualsSimpleIff(library: seq<Asset>, oldest: int, now: Date)
    requires Valid(now) && NewestFirst(library)
    ensures OnThisDay(library, oldest, now) == Filter(library, WantedBy(now))
       <==> forall a | a in library :: Wanted(a, now) ==> Found(a, LowestYear(oldest), now)
  {
    OnThisDayIsFound(library, oldest, now);
    if forall a | a in library :: Wanted(a, now) ==> Found(a, LowestYear(oldest), now) {
      FilterSame(library, WantedBy(now), FoundBy(LowestYear(oldest), now));
    }
    forall a | a in library
      ensures (a in Filter(library, WantedBy(now)) <==> Wanted(a, now))
      ensures (a in Filter(library, FoundBy(LowestYear(oldest), now)) <==> Found(a, LowestYear(oldest), now))
    {
      FilterIn(library, WantedBy(now), a);
      FilterIn(library, FoundBy(LowestYear(oldest), now), a);
    }
  }

  /** And with local offsets between UTC-12 and UTC+14 and a correct oldest
      instant they do: 29 February and the first year included. */
  lemma FastEqualsSimple(library: seq<Asset>, oldest: int, now: Date)
    requires Valid(now) && NewestFirst(library)
    requires forall a | a in library :: Sane(a, oldest)
    ensures OnThisDay(library, oldest, now) == Filter(library, WantedBy(now))
  {
    forall a | a in library && Wanted(a, now)
      ensures Found(a, LowestYear(oldest), now)
    {
      SaneIsFound(a, LowestYear(oldest), now);
    }
    FastEqualsSimpleIff(library, oldest, now);
  }

  lemma CapturedAtMidnight(a: Asset, y: int, now: Date)
    requires Valid(now) && Valid(Date(y, now.month, now.day)) && a.local == Some(Midnight(y, now.month, now.day))
    ensures LocalCaptureDate(a) == Some(Date(y, now.month, now.day))
  {
    DateOfDayNumber(Date(y, now.month, now.day));
    assert DayOf(Midnight(y, now.month, now.day)) == DayNumber(y, now.month, now.day);
  }

  lemma OneMissed(a: Asset, oldest: int, now: Date)
    requires Valid(now) && Wanted(a, now) && !Found(a, LowestYear(oldest), now)
    ensures OnThisDay([a], oldest, now) == [] && Filter([a], WantedBy(now)) == [a]
  {
    OnThisDayIsFound([a], oldest, now);
    FilterNone([a], FoundBy(LowestYear(oldest), now));
    FilterAll([a], WantedBy(now));
  }

  /** An asset whose local time is 36 hours behind its instant is wanted, and missed: it lies outside its window. */
  lemma MissedOutsideWindow(id: string, y: int, now: Date) returns (a: Asset)
    requires Valid(now) && MIN_YEAR <= y < now.year && Valid(Date(y, now.month, now.day))
    ensures OnThisDay([a], a.taken, now) == [] && Filter([a], WantedBy(now)) == [a]
  {
    var start := Midnight(y, now.month, now.day);
    a := Asset(id, start + 36 * HOUR, Some(start + 36 * HOUR), Some(start));
    CapturedAtMidnight(a, y, now);
    OneMissed(a, a.taken, now);
  }

  /** An asset from more than a year before the instant given as the oldest is missed as well. */
  lemma MissedBeforeOldest(id: string, y: int, now: Date, oldest: int) returns (a: Asset)
    requires Valid(now) && MIN_YEAR <= y < now.year && Valid(Date(y, now.month, now.day))
    requires YearOf(DayOf(oldest)) > y + 1
    ensures OnThisDay([a], oldest, now) == [] && Filter([a], WantedBy(now)) == [a]
  {
    var start := Midnight(y, now.month, now.day);
    a := Asset(id, start, Some(start), Some(start));
    CapturedAtMidnight(a, y, now);
    OneMissed(a, oldest, now);
  }

  // ----- the search itself -----

  type Error = string

  /** The outcome of the searches for years: the error of the latest year that failed, or all results in year order. */
  predicate Outcome(library: seq<Asset>, years: seq<int>, month: int, day: int, failures: map<int, Error>,
                    out: Result<seq<Asset>, Error>)
    requires 1 <= month <= 12
  {
    match out
    case Success(found) => (forall y | y in years :: y !in failures) && found == SearchYears(library, years, month, day)
    case Failure(err) =>
      exists i | 0 <= i < |years| :: FirstFailure(years, failures, i) && err == failures[years[i]]
  }

  predicate FirstFailure(years: seq<int>, failures: map<int, Error>, i: nat)
    requires i < |years|
  {
    years[i] in failures && forall j | 0 <= j < i :: years[j] !in failures
  }

  /** onThisDaySearch, with the years whose request fails and their errors. */
  method OnThisDaySearch(library: seq<Asset>, oldest: Result<Option<int>, Error>, now: Date, failures: map<int, Error>)
    returns (out: Result<seq<Asset>, Error>)
    requires Valid(now)
    ensures oldest.Failure? ==> out == Failure(oldest.error)
    ensures oldest == Success(None) ==> out == Success([])
    ensures oldest.Success? && oldest.value.Some? ==>
      Outcome(library, Years(LowestYear(oldest.value.value), now), now.month, now.day, failures, out)
  {
    if oldest.Failure? {
      return Failure(oldest.error);
    }
    if oldest.value.None? {
      return Success([]);
    }
    out := SearchFrom(library, LowestYear(oldest.value.value), now, failures);
  }

  /** The same from a given lowest year on. */
  method SearchFrom(library: seq<Asset>, low: int, now: Date, failures: map<int, Error>)
    returns (out: Result<seq<Asset>, Error>)
    requires Valid(now)
    ensures Outcome(library, Years(low, now), now.month, now.day, failures, out)
  {
    var years := YearLoop(now.year - 1, low, DateExists(now.month, now.day));
    var results, errs := SearchAll(library, years, now.month, now.day, failures);
    out := Collect(library, years, now.month, now.day, failures, results, errs);
  }

  method YearLoop(from: int, low: int, dateExists: int -> bool) returns (years: seq<int>)
    ensures years == Down(from, low, dateExists)
  {
    years := [];
    var y := from;
    while y >= low
      invariant years + Down(y, low, dateExists) == Down(from, low, dateExists)
      decreases y - low
    {
      if dateExists(y) {
        years := years + [y];
      }
      y := y - 1;
    }
  }

  predicate Searched(library: seq<Asset>, y: int, month: int, day: int, failures: map<int, Error>,
                     result: seq<Asset>, err: Option<Error>)
    requires 1 <= month <= 12
  {
    if y in failures then err == Some(failures[y]) else err == None && result == SearchYear(library, y, month, day)
  }

  function Indices(n: nat): (s: set<nat>)
    ensures forall i: nat :: i in s <==> i < n
  {
    if n == 0 then {} else Indices(n - 1) + {n - 1}
  }

  /** The goroutines, one a year, which write their slots in whatever order they finish. */
  method SearchAll(library: seq<Asset>, years: seq<int>, month: int, day: int, failures: map<int, Error>)
    returns (results: array<seq<Asset>>, errs: array<Option<Error>>)
    requires 1 <= month <= 12
    ensures results.Length == errs.Length == |years|
    ensures forall i | 0 <= i < |years| :: Searched(library, years[i], month, day, failures, results[i], errs[i])
  {
    results := new seq<Asset>[|years|](_ => []);
    errs := new Option<Error>[|years|](_ => None);
    var running := Indices(|years|);
    while running != {}
      invariant running <= Indices(|years|)
      invariant forall i | 0 <= i < |years| && i !in running ::
        Searched(library, years[i], month, day, failures, results[i], errs[i])
      decreases running
    {
      var i :| i in running;
      results[i], errs[i] := SearchOne(library, years[i], month, day, failures);
      running := running - {i};
    }
  }

  method SearchOne(library: seq<Asset>, y: int, month: int, day: int, failures: map<int, Error>)
    returns (result: seq<Asset>, err: Option<Error>)
    requires 1 <= month <= 12
    ensures Searched(library, y, month, day, failures, result, err)
  {
    if y in failures {
      return [], Some(failures[y]);
    }
    var start := Midnight(y, month, day);
    var assets := Search(library, start - 14 * HOUR, start + 36 * HOUR);
    result := KeepIf(assets, DatedOn(y, month, day));
    err := None;
  }

  method KeepIf(assets: seq<Asset>, keep: Asset -> bool) returns (kept: seq<Asset>)
    ensures kept == Filter(assets, keep)
  {
    kept := [];
    for i := 0 to |assets|
      invariant kept == Filter(assets[..i], keep)
    {
      assert assets[..i + 1][..i] == assets[..i];
      if keep(assets[i]) {
        kept := kept + [assets[i]];
      }
    }
    assert assets[..|assets|] == assets;
  }

  method Collect(library: seq<Asset>, years: seq<int>, month: int, day: int, failures: map<int, Error>,
                 results: array<seq<Asset>>, errs: array<Option<Error>>)
    returns (out: Result<seq<Asset>, Error>)
    requires 1 <= month <= 12 && results.Length == errs.Length == |years|
    requires forall i | 0 <= i < |years| :: Searched(library, years[i], month, day, failures, results[i], errs[i])
    ensures Outcome(library, years, month, day, failures, out)
  {
    var found: seq<Asset> := [];
    for i := 0 to |years|
      invariant found == SearchYears(library, years[..i], month, day)
      invariant forall j | 0 <= j < i :: years[j] !in failures
    {
      assert Searched(library, years[i], month, day, failures, results[i], errs[i]);
      if errs[i].Some? {
        assert FirstFailure(years, failures, i);
        return Failure(errs[i].value);
      }
      assert years[..i + 1][..i] == years[..i];
      found := found + results[i];
    }
    assert years[..|years|] == years;
    return Success(found);
  }
}
