/** dlna/listcache.go: listings remembered for a while, with concurrent loads of one key shared. */
module ListingCache {
  import opened Basics

  type Key = string
  type EntryId = nat
  type Value = string
  type Error = string

  /** A listingEntry; `leader` (who loads it), `closes` and `closedAt` describe its done channel. */
  datatype Entry = Entry(
    key: Key,
    leader: nat,
    result: Option<Result<Value, Error>>,
    expires: int,
    closes: nat,
    closedAt: int)
  {
    predicate IsDone() { closes > 0 }
  }

  datatype View = View(ttl: int, entries: map<Key, EntryId>, table: seq<Entry>)
  {
    /** An entry that cachedListing drops when it next looks at the map. */
    predicate Expired(e: EntryId, now: int) { e < |table| && table[e].IsDone() && now > table[e].expires }

    function Purge(now: int): View {
      this.(entries := map k | k in entries && !Expired(entries[k], now) :: entries[k])
    }

    /** The first critical section: purge, then find the key's entry or make one. */
    function Lookup(key: Key, caller: nat, now: int): (View, EntryId, bool) {
      var v := Purge(now);
      if key in v.entries then (v, v.entries[key], true)
      else (v.(entries := v.entries[key := |table|],
          table := table + [Entry(key, caller, None, 0, 0, 0)]), |table|, false)
    }

    function StoreResult(e: EntryId, res: Result<Value, Error>, now: int): View
      requires e < |table|
    {
      this.(table := table[e := table[e].(result := Some(res), expires := now + ttl)])
    }

    function Close(e: EntryId, now: int): View
      requires e < |table|
    {
      this.(table := table[e := table[e].(closes := table[e].closes + 1, closedAt := now)])
    }

    /** The cleanup after a failed load. */
    function Forget(key: Key, e: EntryId): View {
      if key in entries && entries[key] == e then this.(entries := entries - {key}) else this
    }
  }

  class Cache {
    const ttl: int
    var entries: map<Key, EntryId>
    var table: seq<Entry>

    constructor (ttl: int)
      ensures Abstract() == View(ttl, map[], [])
    {
      this.ttl := ttl;
      this.entries := map[];
      this.table := [];
    }

    ghost function Abstract(): View
      reads this
    {
      View(ttl, entries, table)
    }

    /** A finished entry whose time is over. */
    predicate Over(e: EntryId, now: int)
      reads this
    {
      e < |table| && table[e].closes > 0 && now > table[e].expires
    }

    /** The range loop over the map, which visits the keys in an arbitrary order. */
    method Purge(now: int)
      modifies this`entries
      ensures Abstract() == old(Abstract()).Purge(now)
      ensures forall k :: k in entries <==> k in old(entries) && !Over(old(entries[k]), now)
      ensures forall k | k in entries :: entries[k] == old(entries[k])
    {
      var unseen := entries.Keys;
      while unseen != {}
        invariant unseen <= entries.Keys <= old(entries).Keys
        invariant forall k | k in entries :: entries[k] == old(entries)[k]
        invariant forall k | k in old(entries) && k !in unseen ::
          k in entries <==> !old(Abstract()).Expired(old(entries)[k], now)
        decreases unseen
      {
        var k :| k in unseen;
        var e := entries[k];
        if e < |table| && table[e].closes > 0 && now > table[e].expires {
          entries := entries - {k};
        }
        unseen := unseen - {k};
      }
    }

    method Lookup(key: Key, caller: nat, now: int) returns (e: EntryId, found: bool)
      modifies this
      ensures (Abstract(), e, found) == old(Abstract()).Lookup(key, caller, now)
      ensures found <==> old(key in entries && !Over(entries[key], now))
      ensures if found then e == old(entries[key]) && table == old(table)
        else e == old(|table|) && |table| == old(|table|) + 1 && table[e].key == key && table[e].closes == 0
    {
      Purge(now);
      found := key in entries;
      if found {
        e := entries[key];
      } else {
        e := |table|;
        table := table + [Entry(key, caller, None, 0, 0, 0)];
        entries := entries[key := e];
      }
    }

    method StoreResult(e: EntryId, res: Result<Value, Error>, now: int)
      requires e < |table|
      modifies this`table
      ensures Abstract() == old(Abstract()).StoreResult(e, res, now)
    {
      table := table[e := table[e].(result := Some(res))];
      table := table[e := table[e].(expires := now + ttl)];
    }

    method Close(e: EntryId, now: int)
      requires e < |table|
      modifies this`table
      ensures Abstract() == old(Abstract()).Close(e, now)
    {
      table := table[e := table[e].(closes := table[e].closes + 1, closedAt := now)];
    }

    method Forget(key: Key, e: EntryId)
      modifies this`entries
      ensures Abstract() == old(Abstract()).Forget(key, e)
    {
      if key in entries && entries[key] == e {
        entries := entries - {key};
      }
    }
  }
}
