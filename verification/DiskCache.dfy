/** cache/cache.go, one call at a time: Get, Put and the eviction sweep. */
module DiskCache {
  import opened Basics
  import opened FileSystem

  /** One main file, as a sweep sees it. */
  datatype Entry = Entry(assetID: string, size: nat, mtime: int)

  // ----- sums over sets of files -----

  ghost function Total(files: set<Name>, size: Name -> nat): nat {
    if files == {} then 0 else var x :| x in files; size(x) + Total(files - {x}, size)
  }

  lemma {:induction false} TotalRemove(files: set<Name>, size: Name -> nat, x: Name)
    requires x in files
    ensures Total(files, size) == size(x) + Total(files - {x}, size)
    decreases files
  {
    var y :| y in files && Total(files, size) == size(y) + Total(files - {y}, size);
    if y != x {
      TotalRemove(files - {y}, size, x);
      TotalRemove(files - {x}, size, y);
      assert files - {y} - {x} == files - {x} - {y};
    }
  }

  // ----- sort.Slice by mtime -----

  predicate Sorted(s: seq<Entry>) { forall i, j | 0 <= i < j < |s| :: s[i].mtime <= s[j].mtime }

  predicate Distinct(s: seq<Entry>) { forall i, j | 0 <= i < j < |s| :: s[i].assetID != s[j].assetID }

  function Insert(e: Entry, s: seq<Entry>): (r: seq<Entry>)
    requires Sorted(s) && Distinct(s) && forall x | x in s :: x.assetID != e.assetID
    ensures Sorted(r) && Distinct(r)
    ensures forall x :: x in r <==> x == e || x in s
  {
    if s == [] || e.mtime <= s[0].mtime then [e] + s
    else
      var rest := Insert(e, s[1..]);
      FirstStaysFirst(e, s, rest);
      [s[0]] + rest
  }

  lemma FirstStaysFirst(e: Entry, s: seq<Entry>, rest: seq<Entry>)
    requires s != [] && Sorted(s) && Distinct(s) && s[0].mtime <= e.mtime && s[0].assetID != e.assetID
    requires Sorted(rest) && Distinct(rest) && forall x :: x in rest <==> x == e || x in s[1..]
    ensures Sorted([s[0]] + rest) && Distinct([s[0]] + rest)
  {
    forall i | 0 <= i < |rest|
      ensures s[0].mtime <= rest[i].mtime && s[0].assetID != rest[i].assetID
    {
      assert rest[i] in rest;
    }
  }

  /** Some order by mtime of the same entries. */
  function SortByMtime(s: seq<Entry>): (r: seq<Entry>)
    requires Distinct(s)
    ensures Sorted(r) && Distinct(r)
    ensures forall x :: x in r <==> x in s
  {
    if s == [] then [] else Insert(s[0], SortByMtime(s[1..]))
  }

  // ----- the directory before and after -----

  /** Every name has an inode of its own. */
  predicate ValidDisk(d: Disk) {
    && (forall n | n in d.names :: d.names[n] < |d.inodes|)
    && (forall n, m | n in d.names && m in d.names && n != m :: d.names[n] != d.names[m])
  }

  /** What a Get of key would find: its MIME type and bytes. */
  function Stored(d: Disk, key: string): Option<(Bytes, Bytes)> {
    if d.Holds(TypeName(key)) && d.Holds(key)
    then Some((d.ReadFile(TypeName(key)).value, d.ReadFile(key).value)) else None
  }

  function Copied(d: Disk, tmp: Name, content: Bytes, now: int): Disk {
    d.Create(tmp, [], now).Append(|d.inodes|, content, now)
  }

  function PutInto(d: Disk, key: string, mime: Bytes, content: Bytes, tmp: Name, now: int): Disk {
    var d' := Copied(d, tmp, content, now).WriteFile(TypeName(key), mime, now);
    if tmp in d'.names then d'.Rename(tmp, key).Remove(tmp) else d'
  }

  /** What is left when only the final rename fails: the sidecar is written, the temporary file gone. */
  function PutType(d: Disk, key: string, mime: Bytes, content: Bytes, tmp: Name, now: int): Disk {
    Copied(d, tmp, content, now).WriteFile(TypeName(key), mime, now).Remove(tmp)
  }

  /** The step at which a Put fails; a failed step itself changes nothing. */
  datatype Trouble = NoTrouble | CreateFails | CopyFails(copied: nat) | TypeFails | RenameFails | OpenFails

  lemma CopiedIs(d: Disk, tmp: Name, content: Bytes, now: int)
    requires ValidDisk(d) && tmp !in d.names
    ensures Copied(d, tmp, content, now) == Disk(d.names[tmp := |d.inodes|], d.inodes + [Inode(content, now)])
    ensures ValidDisk(Copied(d, tmp, content, now))
  {
    assert [] + content == content;
  }

  /** A temporary file given up on leaves every name as it was. */
  lemma AbandonedIs(d: Disk, tmp: Name, content: Bytes, now: int)
    requires ValidDisk(d) && tmp !in d.names
    ensures var d' := Copied(d, tmp, content, now).Remove(tmp);
      d'.names == d.names && d.inodes <= d'.inodes && ValidDisk(d')
  {
    CopiedIs(d, tmp, content, now);
    assert d.names[tmp := |d.inodes|] - {tmp} == d.names;
  }

  lemma NamesDiffer(key: string, random: string)
    requires ProperKey(key)
    ensures var tmp := TempName(key, random);
      && key != TypeName(key) && tmp != key && tmp != TypeName(key)
      && forall k | ProperKey(k) :: k != TypeName(key) && TypeName(k) != key && k != tmp && TypeName(k) != tmp &&
                                    (TypeName(k) == TypeName(key) ==> k == key)
  {
    NamesApart(key, key, random);
    forall k | ProperKey(k)
      ensures k != TypeName(key) && TypeName(k) != key && k != TempName(key, random) &&
              TypeName(k) != TempName(key, random) &&
              (TypeName(k) == TypeName(key) ==> k == key)
    {
      NamesApart(k, key, random);
      NamesApart(key, k, random);
    }
  }

  lemma PutNames(d: Disk, key: string, mime: Bytes, content: Bytes, random: string, now: int)
    requires ValidDisk(d) && ProperKey(key) && TempName(key, random) !in d.names
    ensures var d' := PutInto(d, key, mime, content, TempName(key, random), now);
      && d'.names.Keys == d.names.Keys + {key, TypeName(key)}
      && forall n | n in d.names && n != key && n != TypeName(key) :: n in d'.names && d'.names[n] == d.names[n]
  {
    CopiedIs(d, TempName(key, random), content, now);
    NamesDiffer(key, random);
  }

  /** Put stores the whole content and the MIME type under its key, leaves no
      temporary file behind, and changes no other name. */
  lemma PutStores(d: Disk, key: string, mime: Bytes, content: Bytes, random: string, now: int)
    requires ValidDisk(d) && ProperKey(key) && TempName(key, random) !in d.names
    ensures var d' := PutInto(d, key, mime, content, TempName(key, random), now);
      && Stored(d', key) == Some((mime, content))
      && d'.names.Keys == d.names.Keys + {key, TypeName(key)}
      && forall n | n in d.names && n != key && n != TypeName(key) :: n in d'.names && d'.names[n] == d.names[n]
  {
    PutNames(d, key, mime, content, random, now);
    CopiedIs(d, TempName(key, random), content, now);
    NamesDiffer(key, random);
  }

  lemma PutKeepsValid(d: Disk, key: string, mime: Bytes, content: Bytes, random: string, now: int)
    requires ValidDisk(d) && ProperKey(key) && TempName(key, random) !in d.names
    ensures ValidDisk(PutInto(d, key, mime, content, TempName(key, random), now))
  {
    CopiedIs(d, TempName(key, random), content, now);
    NamesDiffer(key, random);
  }

  lemma PutTypeKeepsValid(d: Disk, key: string, mime: Bytes, content: Bytes, random: string, now: int)
    requires ValidDisk(d) && ProperKey(key) && TempName(key, random) !in d.names
    ensures ValidDisk(PutType(d, key, mime, content, TempName(key, random), now))
  {
    CopiedIs(d, TempName(key, random), content, now);
    NamesDiffer(key, random);
  }

  /** A failed rename leaves the key's old bytes, with the new MIME type. */
  lemma PutTypeStores(d: Disk, key: string, mime: Bytes, content: Bytes, random: string, now: int)
    requires ValidDisk(d) && ProperKey(key) && TempName(key, random) !in d.names
    ensures var d' := PutType(d, key, mime, content, TempName(key, random), now);
      && d'.ReadFile(key) == d.ReadFile(key) && d'.ReadFile(TypeName(key)) == Some(mime)
      && d'.names.Keys == d.names.Keys + {TypeName(key)}
      && forall n | n in d.names :: n in d'.names && d'.names[n] == d.names[n]
  {
    CopiedIs(d, TempName(key, random), content, now);
    NamesDiffer(key, random);
  }

  /** Files already open, and other keys' files, keep their bytes. */
  lemma PutKeepsOthers(d: Disk, key: string, mime: Bytes, content: Bytes, random: string, now: int, other: string)
    requires ValidDisk(d) && ProperKey(key) && TempName(key, random) !in d.names && ProperKey(other) && other != key
    ensures var d' := PutInto(d, key, mime, content, TempName(key, random), now);
      && Stored(d', other) == Stored(d, other)
      && (key in d.names ==> d.names[key] < |d'.inodes| && d'.inodes[d.names[key]] == d.inodes[d.names[key]])
  {
    PutKeepsInodes(d, key, mime, content, random, now);
    PutNames(d, key, mime, content, random, now);
    NamesDiffer(key, random);
  }

  /** Of the inodes there were, a Put writes the key's sidecar only. */
  lemma PutKeepsInodes(d: Disk, key: string, mime: Bytes, content: Bytes, random: string, now: int)
    requires ValidDisk(d) && ProperKey(key) && TempName(key, random) !in d.names
    ensures var d' := PutInto(d, key, mime, content, TempName(key, random), now);
      && |d.inodes| <= |d'.inodes|
      && forall n | n in d.names && n != TypeName(key) :: d'.inodes[d.names[n]] == d.inodes[d.names[n]]
  {
    CopiedIs(d, TempName(key, random), content, now);
    NamesDiffer(key, random);
  }

  // ----- eviction -----

  predicate IsMain(n: Name) { !IsType(n) && !IsTemp(n) }

  ghost function MainFiles(d: Disk): set<Name> { set n | n in d.names && IsMain(n) }

  ghost function SizeIn(d: Disk): Name -> nat { (n: Name) => if d.Holds(n) then |d.inodes[d.names[n]].data| else 0 }

  /** The cache's size as evict measures it: main files only, without sidecars and temporary files. */
  ghost function CacheSize(d: Disk): nat { Total(MainFiles(d), SizeIn(d)) }

  function EntryFor(d: Disk, n: Name): Entry
    requires d.Holds(n)
  {
    var inode := d.inodes[d.names[n]];
    Entry(n, |inode.data|, inode.mtime)
  }

  ghost function Ids(s: seq<Entry>): set<Name> { set e | e in s :: e.assetID }

  /** The directory without the main files and the sidecars of the given entries. */
  ghost function Without(d: Disk, gone: seq<Entry>): Disk {
    d.(names := map n | n in d.names && forall e | e in gone ::
        n != e.assetID && n != TypeName(e.assetID) :: d.names[n])
  }

  /** What a sweep may do: remove the `gone` main files, least recently used
      first, with their sidecars, each of them while the cache was still over
      its budget, ending within it; everything else stays. */
  ghost predicate SweepOf(d: Disk, d': Disk, maxBytes: int, gone: seq<Entry>) {
    && d' == Without(d, gone)
    && Distinct(gone) && Sorted(gone)
    && (forall e | e in gone :: d.Holds(e.assetID) && IsMain(e.assetID) && e == EntryFor(d, e.assetID))
    && (forall e, n | e in gone && n in MainFiles(d') :: d.Holds(n) && e.mtime <= EntryFor(d, n).mtime)
    && (forall i | 0 <= i < |gone| :: CacheSize(Without(d, gone[..i])) > maxBytes)
    && CacheSize(d') <= maxBytes
  }

  /** The names an entry's own bytes are stored under: not the ".tmp-" files of
      running Puts, nor the ".type" sidecars. */
  ghost function KeyNames(d: Disk): set<Name> {
    set n | n in d.names && !(".tmp-" <= n) && !(|n| >= 5 && n[|n| - 5..] == ".type")
  }

  ghost function Length(d: Disk): Name -> nat { (n: Name) => if d.Holds(n) then |d.inodes[d.names[n]].data| else 0 }

  /** How many bytes the entries hold together. */
  ghost function Stock(d: Disk): nat { Total(KeyNames(d), Length(d)) }

  lemma MainIffKey(n: Name)
    ensures IsMain(n) <==> !(".tmp-" <= n) && !(|n| >= 5 && n[|n| - 5..] == ".type")
  {}

  lemma CacheSizeIsStock(d: Disk)
    ensures MainFiles(d) == KeyNames(d) && CacheSize(d) == Stock(d)
  {
    forall n
      ensures n in MainFiles(d) <==> n in KeyNames(d)
    {
      MainIffKey(n);
    }
    TotalSame(KeyNames(d), SizeIn(d), Length(d));
  }

  /** What any sweep leaves alone: every file but those of the entries it
      removes, whose names it may remove and nobody else's. */
  lemma SweepSpares(d: Disk, d': Disk, maxBytes: int, gone: seq<Entry>, n: Name)
    requires SweepOf(d, d', maxBytes, gone) && n in d.names
    requires ".tmp-" <= n
    ensures n in d'.names && d'.names[n] == d.names[n] && d'.inodes == d.inodes
  {
    forall e | e in gone
      ensures n != e.assetID && n != TypeName(e.assetID)
    {
      MainIffKey(e.assetID);
      NamesApart(e.assetID, e.assetID, "");
    }
  }

  /** A cache whose entries are within the budget is left as it is. */
  lemma SweepWithinBudget(d: Disk, d': Disk, maxBytes: int, gone: seq<Entry>)
    requires SweepOf(d, d', maxBytes, gone) && Stock(d) <= maxBytes
    ensures gone == [] && d' == d
  {
    CacheSizeIsStock(d);
    WithoutNone(d, gone);
    if gone != [] {
      FirstIsNeeded(d, d', maxBytes, gone);
    }
  }

  lemma FirstIsNeeded(d: Disk, d': Disk, maxBytes: int, gone: seq<Entry>)
    requires SweepOf(d, d', maxBytes, gone) && gone != []
    ensures CacheSize(d) > maxBytes
  {
    WithoutNone(d, gone);
    assert CacheSize(Without(d, gone[..0])) > maxBytes;
  }

  /** What a sweep removes was used no later than anything it leaves. */
  lemma SweepIsLeastRecent(d: Disk, d': Disk, maxBytes: int, gone: seq<Entry>, e: Entry, n: Name)
    requires SweepOf(d, d', maxBytes, gone) && e in gone && n in KeyNames(d')
    ensures d.Holds(e.assetID) && d.Holds(n)
    ensures d.inodes[d.names[e.assetID]].mtime <= d.inodes[d.names[n]].mtime
  {
    MainIffKey(n);
  }

  /** It is removed while the entries still there exceed the budget, and those left do not. */
  lemma SweepIsNeeded(d: Disk, d': Disk, maxBytes: int, gone: seq<Entry>, i: nat)
    requires SweepOf(d, d', maxBytes, gone) && i < |gone|
    ensures Stock(Without(d, gone[..i])) > maxBytes >= Stock(d')
  {
    CacheSizeIsStock(d');
    CacheSizeIsStock(Without(d, gone[..i]));
  }

  lemma SweepMeans(d: Disk, d': Disk, maxBytes: int, gone: seq<Entry>)
    requires SweepOf(d, d', maxBytes, gone)
    ensures d'.inodes == d.inodes && Stock(d') <= maxBytes && (Stock(d) <= maxBytes ==> d' == d)
    ensures forall n | n in d.names && ".tmp-" <= n :: n in d'.names && d'.names[n] == d.names[n]
  {
    CacheSizeIsStock(d');
    if Stock(d) <= maxBytes {
      SweepWithinBudget(d, d', maxBytes, gone);
    }
    forall n | n in d.names && ".tmp-" <= n
      ensures n in d'.names && d'.names[n] == d.names[n]
    {
      SweepSpares(d, d', maxBytes, gone, n);
    }
  }

  class Cache {
    const maxBytes: int
    var disk: Disk

    constructor (maxBytes: int)
      ensures this.maxBytes == maxBytes && disk == Disk(map[], [])
    {
      this.maxBytes := maxBytes;
      this.disk := Disk(map[], []);
    }

    /** A hit reports exactly what is stored and touches both files; anything missing is a miss. */
    method Get(key: string, now: int) returns (hit: Option<(Ino, Bytes, int)>)
      requires ValidDisk(disk)
      modifies this`disk
      ensures ValidDisk(disk) && disk.names == old(disk.names)
      ensures hit.Some? <==> old(Stored(disk, key)).Some?
      ensures hit.Some? ==>
        && hit.value.0 == disk.names[key] && hit.value.2 == now
        && old(Stored(disk, key)) == Some((hit.value.1, disk.inodes[hit.value.0].data))
        && disk.inodes[hit.value.0].mtime == now && disk.inodes[disk.names[TypeName(key)]].mtime == now
      ensures hit.None? ==> disk == old(disk)
      ensures forall k :: Stored(disk, k) == old(Stored(disk, k))
    {
      var typeBytes := disk.ReadFile(TypeName(key));
      if typeBytes.None? {
        return None;
      }
      var f := disk.Open(key);
      if f.None? {
        return None;
      }
      disk := disk.Chtimes(key, now);
      disk := disk.Chtimes(TypeName(key), now);
      return Some((f.value, typeBytes.value, now));
    }

    /** Put, with the step at which it fails, if any. Success stores the whole
        entry; whatever fails, the key's bytes are the old ones or the new ones
        in full, no temporary file stays and no other name changes. */
    method Put(key: string, mime: Bytes, content: Bytes, trouble: Trouble, random: string, now: int)
      returns (f: Option<Ino>)
      requires ValidDisk(disk) && ProperKey(key) && TempName(key, random) !in disk.names
      requires trouble.CopyFails? ==> trouble.copied <= |content|
      modifies this`disk
      ensures ValidDisk(disk)
      ensures f == if trouble.NoTrouble? then disk.Open(key) else None
      ensures trouble.NoTrouble? || trouble.OpenFails? ==>
        disk == PutInto(old(disk), key, mime, content, TempName(key, random), now)
      ensures trouble.RenameFails? ==> disk == PutType(old(disk), key, mime, content, TempName(key, random), now)
      ensures trouble.CreateFails? || trouble.CopyFails? || trouble.TypeFails? ==>
        disk.names == old(disk.names) && old(disk.inodes) <= disk.inodes
    {
      var tmp := TempName(key, random);
      if trouble.CreateFails? {
        return None;
      }
      ghost var before := disk;
      var ino := |disk.inodes|;
      disk := disk.Create(tmp, [], now);
      if trouble.CopyFails? {
        disk := disk.Append(ino, content[..trouble.copied], now);
        AbandonedIs(before, tmp, content[..trouble.copied], now);
        disk := disk.Remove(tmp);
        return None;
      }
      disk := disk.Append(ino, content, now);
      if trouble.TypeFails? {
        AbandonedIs(before, tmp, content, now);
        disk := disk.Remove(tmp);
        return None;
      }
      PutKeepsValid(before, key, mime, content, random, now);
      PutTypeKeepsValid(before, key, mime, content, random, now);
      disk := disk.WriteFile(TypeName(key), mime, now);
      if trouble.RenameFails? {
        disk := disk.Remove(tmp);
        return None;
      }
      disk := disk.Rename(tmp, key);
      f := if trouble.OpenFails? then None else disk.Open(key);
      disk := disk.Remove(tmp);
    }

    /** evict: a sweep if the cache is limited and over its budget, otherwise nothing. */
    method Evict() returns (ghost gone: seq<Entry>)
      requires ValidDisk(disk)
      modifies this`disk
      ensures maxBytes <= 0 ==> gone == [] && disk == old(disk)
      ensures maxBytes > 0 ==> SweepOf(old(disk), disk, maxBytes, gone)
      ensures disk.inodes == old(disk.inodes)
      ensures forall n | n in old(disk.names) && ".tmp-" <= n :: n in disk.names && disk.names[n] == old(disk.names[n])
      ensures Stock(old(disk)) <= maxBytes ==> disk == old(disk)
      ensures maxBytes > 0 ==> Stock(disk) <= maxBytes
    {
      gone := [];
      if maxBytes <= 0 {
        return;
      }
      gone := Sweep();
      SweepMeans(old(disk), disk, maxBytes, gone);
    }

    /** The sweep of a limited cache. */
    method Sweep() returns (ghost gone: seq<Entry>)
      requires ValidDisk(disk) && maxBytes > 0
      modifies this`disk
      ensures SweepOf(old(disk), disk, maxBytes, gone)
    {
      gone := [];
      ghost var d := disk;
      var entries, total: nat := Survey();
      if total <= maxBytes {
        SweepNone(d, maxBytes);
        return;
      }
      var sorted := SortByMtime(entries);
      WithoutNone(d, sorted);
      var i: nat := 0;
      while i < |sorted| && total > maxBytes
        invariant Swept(d, sorted, i, maxBytes, disk, total)
      {
        var e := sorted[i];
        SweptNext(d, sorted, i, maxBytes, disk, total);
        disk := disk.Remove(e.assetID);
        disk := disk.Remove(TypeName(e.assetID));
        total := total - e.size;
        i := i + 1;
      }
      gone := sorted[..i];
      SweepDone(d, sorted, i, maxBytes);
    }

    /** The loop over the directory listing, in whatever order it comes. */
    method Survey() returns (entries: seq<Entry>, total: nat)
      requires ValidDisk(disk)
      ensures Surveyed(disk, entries) && Ids(entries) == MainFiles(disk) && total == CacheSize(disk)
    {
      entries, total := [], 0;
      var listing := disk.names.Keys;
      ghost var seen: set<Name> := {};
      while listing != {}
        invariant listing <= disk.names.Keys
        invariant seen == set n | n in disk.names && n !in listing && IsMain(n)
        invariant Surveyed(disk, entries) && Ids(entries) == seen && total == Total(seen, SizeIn(disk))
        decreases listing
      {
        var name :| name in listing;
        listing := listing - {name};
        if IsMain(name) {
          var e := EntryFor(disk, name);
          SurveyOne(disk, entries, seen, name);
          seen := seen + {name};
          total := total + e.size;
          entries := entries + [e];
        }
      }
      assert seen == MainFiles(disk);
    }
  }

  predicate Surveyed(d: Disk, entries: seq<Entry>) {
    Distinct(entries) && forall e | e in entries ::
      d.Holds(e.assetID) && IsMain(e.assetID) && e == EntryFor(d, e.assetID)
  }

  lemma SurveyOne(d: Disk, entries: seq<Entry>, seen: set<Name>, name: Name)
    requires Surveyed(d, entries) && Ids(entries) == seen && name !in seen && d.Holds(name) && IsMain(name)
    ensures Surveyed(d, entries + [EntryFor(d, name)]) && Ids(entries + [EntryFor(d, name)]) == seen + {name}
    ensures Total(seen + {name}, SizeIn(d)) == Total(seen, SizeIn(d)) + EntryFor(d, name).size
  {
    var e := EntryFor(d, name);
    forall i | 0 <= i < |entries|
      ensures entries[i].assetID != name
    {
      assert entries[i] in entries;
    }
    assert forall x :: x in entries + [e] <==> x in entries || x == e;
    assert seen + {name} - {name} == seen;
    TotalRemove(seen + {name}, SizeIn(d), name);
  }

  lemma WithoutNext(d: Disk, entries: seq<Entry>, i: nat)
    requires i < |entries|
    ensures var d1, e := Without(d, entries[..i]), entries[i];
      Without(d, entries[..i + 1]) == d1.Remove(e.assetID).Remove(TypeName(e.assetID))
  {
    var d1, d2, e := Without(d, entries[..i]), Without(d, entries[..i + 1]), entries[i];
    assert entries[..i + 1] == entries[..i] + [e];
    assert d2.names == d1.Remove(e.assetID).Remove(TypeName(e.assetID)).names;
  }

  /** Removing one more entry takes its size off the total. */
  lemma RemoveNext(d: Disk, entries: seq<Entry>, i: nat)
    requires ValidDisk(d) && Surveyed(d, entries) && i < |entries|
    ensures var d1, d2, e := Without(d, entries[..i]), Without(d, entries[..i + 1]), entries[i];
      && d2 == d1.Remove(e.assetID).Remove(TypeName(e.assetID))
      && CacheSize(d1) == e.size + CacheSize(d2)
  {
    var d1, d2, e := Without(d, entries[..i]), Without(d, entries[..i + 1]), entries[i];
    WithoutNext(d, entries, i);
    assert e.assetID in MainFiles(d1);
    assert MainFiles(d2) == MainFiles(d1) - {e.assetID};
    TotalRemove(MainFiles(d1), SizeIn(d1), e.assetID);
    TotalSame(MainFiles(d2), SizeIn(d1), SizeIn(d2));
  }

  lemma {:induction false} TotalSame(files: set<Name>, size: Name -> nat, size': Name -> nat)
    requires forall n | n in files :: size(n) == size'(n)
    ensures Total(files, size) == Total(files, size')
    decreases files
  {
    if files != {} {
      var x :| x in files;
      TotalRemove(files, size, x);
      TotalRemove(files, size', x);
      TotalSame(files - {x}, size, size');
    }
  }

  /** Before each of the first i removals the cache was still over its budget. */
  ghost predicate OverBudget(d: Disk, sorted: seq<Entry>, i: nat, maxBytes: int)
    requires i <= |sorted|
  {
    forall j | 0 <= j < i :: CacheSize(Without(d, sorted[..j])) > maxBytes
  }

  /** The first i entries are removed, and total is the size of what is left. */
  ghost predicate Swept(d: Disk, sorted: seq<Entry>, i: nat, maxBytes: int, disk: Disk, total: nat) {
    i <= |sorted| && disk == Without(d, sorted[..i]) && total == CacheSize(disk) && OverBudget(d, sorted, i, maxBytes)
  }

  lemma SweptNext(d: Disk, sorted: seq<Entry>, i: nat, maxBytes: int, disk: Disk, total: nat)
    requires ValidDisk(d) && Surveyed(d, sorted) && i < |sorted|
    requires Swept(d, sorted, i, maxBytes, disk, total) && total > maxBytes
    ensures total >= sorted[i].size
    ensures var e := sorted[i];
      Swept(d, sorted, i + 1, maxBytes, disk.Remove(e.assetID).Remove(TypeName(e.assetID)), total - e.size)
  {
    RemoveNext(d, sorted, i);
    StillOver(d, sorted, i, maxBytes);
  }

  lemma WithoutNone(d: Disk, sorted: seq<Entry>)
    ensures Without(d, sorted[..0]) == Without(d, []) == d
  {
    assert sorted[..0] == [];
    assert Without(d, []).names == d.names;
  }

  lemma SweepNone(d: Disk, maxBytes: int)
    requires ValidDisk(d) && CacheSize(d) <= maxBytes
    ensures SweepOf(d, d, maxBytes, [])
  {
    WithoutNone(d, []);
  }

  lemma StillOver(d: Disk, sorted: seq<Entry>, i: nat, maxBytes: int)
    requires i < |sorted| && OverBudget(d, sorted, i, maxBytes) && CacheSize(Without(d, sorted[..i])) > maxBytes
    ensures OverBudget(d, sorted, i + 1, maxBytes)
  {
  }

  lemma OthersAreLater(d: Disk, sorted: seq<Entry>, i: nat, n: Name)
    requires Surveyed(d, sorted) && Sorted(sorted) && Ids(sorted) == MainFiles(d) && i <= |sorted|
    requires n in MainFiles(Without(d, sorted[..i]))
    ensures i < |sorted| && d.Holds(n) && forall e | e in sorted[..i] :: e.mtime <= EntryFor(d, n).mtime
  {
    assert n in Ids(sorted);
    var e :| e in sorted && e.assetID == n;
    var j :| 0 <= j < |sorted| && sorted[j] == e;
    assert forall k | 0 <= k < i :: sorted[k] in sorted[..i];
  }

  lemma SweepDone(d: Disk, sorted: seq<Entry>, i: nat, maxBytes: int)
    requires ValidDisk(d) && Surveyed(d, sorted) && Sorted(sorted) && Ids(sorted) == MainFiles(d) && i <= |sorted|
    requires OverBudget(d, sorted, i, maxBytes) && maxBytes > 0
    requires i == |sorted| || CacheSize(Without(d, sorted[..i])) <= maxBytes
    ensures SweepOf(d, Without(d, sorted[..i]), maxBytes, sorted[..i])
  {
    var gone, d' := sorted[..i], Without(d, sorted[..i]);
    forall e, n | e in gone && n in MainFiles(d')
      ensures d.Holds(n) && e.mtime <= EntryFor(d, n).mtime
    {
      OthersAreLater(d, sorted, i, n);
    }
    forall j | 0 <= j < |gone|
      ensures CacheSize(Without(d, gone[..j])) > maxBytes
    {
      assert gone[..j] == sorted[..j];
    }
    if i == |sorted| {
      NothingLeft(d, sorted);
    }
  }

  lemma NothingLeft(d: Disk, sorted: seq<Entry>)
    requires Surveyed(d, sorted) && Sorted(sorted) && Ids(sorted) == MainFiles(d)
    ensures CacheSize(Without(d, sorted[..|sorted|])) == 0
  {
    var left := MainFiles(Without(d, sorted[..|sorted|]));
    if left != {} {
      var n :| n in left;
      OthersAreLater(d, sorted, |sorted|, n);
    }
  }
}
