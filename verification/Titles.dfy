/** assetTitle's date prefixes, for TVs that sort by title themselves. */
module Titles {
  import opened Basics
  import opened Text

  /** farFutureUnix */
  const FAR_FUTURE: int := 9_999_999_999

  /** Seconds since 1970 of the instants a timestamp can hold: years 0000 to
      9999, offset by up to 24 hours and 60 minutes, which time.Parse accepts. */
  const FIRST_INSTANT: int := -62_167_219_200 - 90_000
  const LAST_INSTANT: int := 253_402_300_799 + 90_000

  /** An instant, in seconds since 1970 and nanoseconds. */
  datatype Instant = Instant(unix: int, nanos: nat)

  /** The zero time, by which the source means that no date is known: 0001-01-01T00:00:00Z exactly. */
  const ZERO: Instant := Instant(-62_135_596_800, 0)

  /** An instant that a timestamp can hold. */
  predicate Writable(t: Instant) { FIRST_INSTANT <= t.unix <= LAST_INSTANT && t.nanos < 1_000_000_000 }

  predicate Earlier(t: Instant, u: Instant) { t.unix < u.unix || (t.unix == u.unix && t.nanos < u.nanos) }

  function Countdown(unix: int): nat { if FAR_FUTURE - unix < 0 then 0 else FAR_FUTURE - unix }

  /** The title of an asset; `date` is its capture date in words, which the source formats. */
  function AssetTitle(fileName: string, capturedAt: Instant, date: string, prefix: bool, descending: bool): string {
    if !prefix || capturedAt == ZERO then fileName
    else
      var human := date + " " + fileName;
      if descending then ZeroPadded(Countdown(capturedAt.unix), 10) + " " + human else human
  }

  /** The title of an asset with the countdown prefix on. */
  function CountdownTitle(capturedAt: Instant, date: string, fileName: string): string {
    AssetTitle(fileName, capturedAt, date, true, true)
  }

  /** The countdown and whatever follows it. */
  function Title(unix: int, human: string): string { ZeroPadded(Countdown(unix), 10) + (" " + human) }

  lemma TitleIs(capturedAt: Instant, date: string, fileName: string)
    requires capturedAt != ZERO
    ensures CountdownTitle(capturedAt, date, fileName) == Title(capturedAt.unix, date + " " + fileName)
  {
    var unix, human := capturedAt.unix, date + " " + fileName;
    assert ZeroPadded(Countdown(unix), 10) + " " + human == ZeroPadded(Countdown(unix), 10) + (" " + human);
  }

  lemma TenDigits()
    ensures Pow10(10) == 10_000_000_000 && Pow10(11) == 100_000_000_000
  {
    assert Pow10(5) == 100_000;
    assert Pow10(10) == 10_000_000_000;
  }

  /** Captured in 1970 or later, the countdown has ten digits; before, eleven. */
  lemma CountdownWidth(unix: int)
    requires FIRST_INSTANT <= unix
    ensures Countdown(unix) < Pow10(11)
    ensures unix >= 0 ==> Countdown(unix) < Pow10(10) && ZeroPadded(Countdown(unix), 10) == Padded(Countdown(unix), 10)
    ensures unix < 0 ==> ZeroPadded(Countdown(unix), 10) == Padded(Countdown(unix), 11)
  {
    TenDigits();
    var c := Countdown(unix);
    if unix >= 0 {
      DigitsAtMost(c, 10);
    } else {
      DigitsAtLeast(c, 10);
      DigitsAtMost(c, 11);
    }
  }

  /** The newer asset's title sorts first, whatever the dates read like and the files are called. */
  ghost predicate SortsNewestFirst(newer: Instant, older: Instant) {
    forall d, f, e, g :: Before(CountdownTitle(newer, d, f), CountdownTitle(older, e, g))
  }

  lemma SameWidth(newer: int, older: int, w: nat, h: string, k: string)
    requires Countdown(newer) < Pow10(w) && Countdown(older) < Pow10(w)
    requires ZeroPadded(Countdown(newer), 10) == Padded(Countdown(newer), w)
    requires ZeroPadded(Countdown(older), 10) == Padded(Countdown(older), w)
    ensures Before(Title(newer, h), Title(older, k)) <==>
      Countdown(newer) < Countdown(older) || (Countdown(newer) == Countdown(older) && Before(h, k))
  {
    PaddedOrder(Countdown(newer), Countdown(older), w, " " + h, " " + k);
    assert (" " + h)[1..] == h && (" " + k)[1..] == k;
  }

  lemma AcrossEpoch(newer: int, older: int, h: string, k: string)
    requires FIRST_INSTANT <= older < 0 <= newer
    ensures Before(Title(newer, h), Title(older, k)) <==> Countdown(newer) <= Countdown(older) / 10
  {
    CountdownWidth(newer);
    CountdownWidth(older);
    AcrossWidths(Countdown(newer), Countdown(older), 10, h, k);
  }

  /** One digit less against one more: the last stands against a space, and loses. */
  lemma AcrossWidths(c: nat, d: nat, w: nat, h: string, k: string)
    requires c < Pow10(w) && d < Pow10(w + 1)
    ensures Before(Padded(c, w) + (" " + h), Padded(d, w + 1) + (" " + k)) <==> c <= d / 10
  {
    PaddedLast(d, w);
    var rest := [Digit(d % 10)] + (" " + k);
    PaddedOrder(c, d / 10, w, " " + h, rest);
    assert Padded(d, w + 1) + (" " + k) == Padded(d / 10, w) + rest;
    assert Before(" " + h, rest);
  }

  /** Within 1970 to 2286 the titles of assets from different seconds sort newest first. */
  lemma TitlesSortNewestFirst(newer: Instant, older: Instant, d: string, f: string, e: string, g: string)
    requires 0 <= older.unix < newer.unix <= 9_999_999_999
    ensures Before(AssetTitle(f, newer, d, true, true), AssetTitle(g, older, e, true, true))
  {
    CountdownWidth(newer.unix);
    CountdownWidth(older.unix);
    TitleIs(newer, d, f);
    TitleIs(older, e, g);
    SameWidth(newer.unix, older.unix, 10, d + " " + f, e + " " + g);
  }

  /** What a title reads: the countdown to 20 November 2286 as ten digits, the
      date and the file name; without the countdown, the date and the name;
      without prefixes, the name. */
  lemma TitleReads(t: Instant, d: string, f: string)
    requires 0 <= t.unix <= 9_999_999_999
    ensures var s := AssetTitle(f, t, d, true, true);
      && |s| >= 10 && AllDigits(s[..10]) && Value(s[..10]) == 9_999_999_999 - t.unix && s[10..] == " " + (d + " " + f)
    ensures AssetTitle(f, t, d, true, false) == d + " " + f
    ensures AssetTitle(f, t, d, false, true) == AssetTitle(f, t, d, false, false) == f
  {
    CountdownWidth(t.unix);
    TitleIs(t, d, f);
    ValueOfPadded(Countdown(t.unix), 10);
    assert Title(t.unix, d + " " + f)[..10] == Padded(Countdown(t.unix), 10);
  }

  /** What decides between two titles besides the text after the countdowns. */
  predicate Decided(newer: int, older: int) {
    if older < 0 <= newer then Countdown(newer) <= Countdown(older) / 10 else Countdown(newer) < Countdown(older)
  }

  lemma TitlesCompare(newer: Instant, older: Instant, d: string, f: string, e: string, g: string)
    requires newer != ZERO && older != ZERO && FIRST_INSTANT <= older.unix <= newer.unix
    ensures var n, o := newer.unix, older.unix;
      Before(CountdownTitle(newer, d, f), CountdownTitle(older, e, g)) <==>
        || Decided(n, o)
        || (!(o < 0 <= n) && Countdown(n) == Countdown(o) && Before(d + " " + f, e + " " + g))
  {
    var n, o := newer.unix, older.unix;
    CountdownWidth(n);
    CountdownWidth(o);
    TitleIs(newer, d, f);
    TitleIs(older, e, g);
    if o < 0 <= n {
      AcrossEpoch(n, o, d + " " + f, e + " " + g);
    } else {
      SameWidth(n, o, if o >= 0 then 10 else 11, d + " " + f, e + " " + g);
    }
  }

  /** A bare file name sorts before or after anything. */
  lemma BareName(newer: Instant, older: Instant)
    requires newer == ZERO || older == ZERO
    ensures !SortsNewestFirst(newer, older)
  {
    if newer == ZERO {
      var title := CountdownTitle(older, "", "");
      BeforeTotal(title, title);
      assert !Before(CountdownTitle(newer, "", title), CountdownTitle(older, "", ""));
    } else {
      var title := CountdownTitle(newer, "", "");
      BeforeTotal(title, title);
      assert !Before(CountdownTitle(newer, "", ""), CountdownTitle(older, "", title));
    }
  }

  /** Exactly when they do, for any two instants a timestamp can hold: not within
      one second; not for dates beyond 2286, which share the countdown 0; not
      with the zero time, whose title is the file name; and between an asset
      from before 1970 and one from after only if the newer one's countdown is
      at most a tenth of the older one's. */
  lemma SortsNewestFirstIff(newer: Instant, older: Instant)
    requires Writable(newer) && Writable(older) && Earlier(older, newer)
    ensures SortsNewestFirst(newer, older) <==>
      && newer != ZERO && older != ZERO && older.unix < newer.unix && older.unix < 9_999_999_999
      && (older.unix >= 0 || newer.unix < 0 || 9_999_999_999 - newer.unix <= (9_999_999_999 - older.unix) / 10)
  {
    if newer == ZERO || older == ZERO {
      BareName(newer, older);
      return;
    }
    TitlesCompare(newer, older, "", "", "", "");
    BeforeTotal("" + " " + "", "" + " " + "");
    if Decided(newer.unix, older.unix) {
      forall d, f, e, g
        ensures Before(CountdownTitle(newer, d, f), CountdownTitle(older, e, g))
      {
        TitlesCompare(newer, older, d, f, e, g);
      }
    }
  }

  /** A photo taken in the last second of 1969 sorts before one taken a second later. */
  lemma EpochSortsBackwards(d: string, f: string, e: string, g: string)
    ensures var before, after := CountdownTitle(Instant(-1, 0), d, f), CountdownTitle(Instant(0, 0), e, g);
      Before(before, after) && !Before(after, before)
  {
    var before, after := Instant(-1, 0), Instant(0, 0);
    TitlesCompare(after, before, e, g, d, f);
    TitleIs(before, d, f);
    TitleIs(after, e, g);
    FirstDigits(d + " " + f, e + " " + g);
    BeforeTotal(CountdownTitle(before, d, f), CountdownTitle(after, e, g));
  }

  lemma FirstDigits(h: string, k: string)
    ensures Title(0, k)[0] == '9' && Title(-1, h)[0] == '1'
  {
    TenDigits();
    CountdownWidth(0);
    CountdownWidth(-1);
    assert Pow10(9) == 1_000_000_000;
  }
}
