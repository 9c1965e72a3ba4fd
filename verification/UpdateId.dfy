/** dlna/updateid.go: the ContentDirectory's SystemUpdateID. */
module UpdateId {
  import opened Basics
  import opened Text

  type Hash = nat

  const UI4_RANGE: nat := 0x1_0000_0000

  /** One call of observe: a freshly fetched listing and its hash. */
  datatype Observation = Observation(key: string, hash: Hash)

  datatype View = View(id: nat, seen: map<string, Hash>)
  {
    function Observe(key: string, h: Hash): View {
      var changed := key in seen && seen[key] != h;
      var next := if id + 1 == UI4_RANGE then 1 else id + 1;
      View(if changed then next else id, seen[key := h])
    }
  }

  class Tracker {
    var id: nat // uint32
    var seen: map<string, Hash>

    constructor ()
      ensures Abstract() == View(1, map[]) && Valid()
    {
      id := 1;
      seen := map[];
    }

    ghost function Abstract(): View
      reads this
    {
      View(id, seen)
    }

    predicate Valid()
      reads this
    {
      0 < id < UI4_RANGE
    }

    method Observe(key: string, h: Hash)
      requires Valid()
      modifies this
      ensures Abstract() == old(Abstract()).Observe(key, h) && Valid()
    {
      if key in seen && seen[key] != h {
        id := (id + 1) % UI4_RANGE;
        if id == 0 {
          id := 1;
        }
      }
      seen := seen[key := h];
    }

    /** Decimal, and never the "0" that some clients read as unset. */
    method Current() returns (s: string)
      requires Valid()
      ensures s != "" && AllDigits(s) && Value(s) == id && s != "0"
    {
      s := Itoa(id);
      ValueOfItoa(id);
      assert Value("0") == 0;
    }
  }

  function ObserveAll(log: seq<Observation>): View {
    if log == [] then View(1, map[])
    else ObserveAll(log[..|log| - 1]).Observe(log[|log| - 1].key, log[|log| - 1].hash)
  }

  // ----- counting the changes without a tracker -----

  /** Observation j is of the same listing as observation i, and the last such before it. */
  predicate Previous(log: seq<Observation>, j: nat, i: nat)
    requires i < |log|
  {
    j < i && log[j].key == log[i].key && forall k | j < k < i :: log[k].key != log[i].key
  }

  /** Observation i shows something else than the previous one of the same listing. */
  ghost predicate Changed(log: seq<Observation>, i: nat)
    requires i < |log|
  {
    exists j: nat :: Previous(log, j, i) && log[j].hash != log[i].hash
  }

  ghost function Changes(log: seq<Observation>): nat {
    if log == [] then 0
    else Changes(log[..|log| - 1]) + (if Changed(log, |log| - 1) then 1 else 0)
  }

  /** `seen` holds the latest hash of every key observed. */
  lemma {:induction false} SeenIsLatest(log: seq<Observation>, key: string)
    ensures key in ObserveAll(log).seen <==> exists j :: 0 <= j < |log| && log[j].key == key
    ensures forall j | 0 <= j < |log| && log[j].key == key && (forall k | j < k < |log| :: log[k].key != key) ::
      ObserveAll(log).seen[key] == log[j].hash
  {
    if log != [] {
      var n := |log| - 1;
      SeenIsLatest(log[..n], key);
      assert forall j | 0 <= j < n :: log[..n][j] == log[j];
      if key in ObserveAll(log[..n]).seen {
        var j :| 0 <= j < n && log[..n][j].key == key;
        assert log[j].key == key;
      }
      assert log[n].key == key ==> exists j :: 0 <= j < |log| && log[j].key == key;
    }
  }

  /** A previous observation exists whenever the key was observed at all. */
  lemma {:induction false} PreviousExists(log: seq<Observation>, i: nat, n: nat)
    requires n <= i < |log| && (forall k | n <= k < i :: log[k].key != log[i].key)
    requires exists j :: 0 <= j < n && log[j].key == log[i].key
    ensures exists j: nat :: Previous(log, j, i)
  {
    if log[n - 1].key == log[i].key {
      assert Previous(log, n - 1, i);
    } else {
      PreviousExists(log, i, n - 1);
    }
  }

  lemma ChangedIffHashDiffers(log: seq<Observation>)
    requires log != []
    ensures var n := |log| - 1;
      var seen := ObserveAll(log[..n]).seen;
      Changed(log, n) <==> log[n].key in seen && seen[log[n].key] != log[n].hash
  {
    var n := |log| - 1;
    var key := log[n].key;
    SeenIsLatest(log[..n], key);
    if key in ObserveAll(log[..n]).seen {
      var l :| 0 <= l < n && log[..n][l].key == key;
      assert log[l].key == key;
      PreviousExists(log, n, n);
      var j: nat :| Previous(log, j, n);
      assert log[..n][j] == log[j];
    }
    if Changed(log, n) {
      var j: nat :| Previous(log, j, n) && log[j].hash != log[n].hash;
      assert log[..n][j] == log[j];
    }
  }

  /** After any observations, c of which showed a change, the ID is
      1 + c mod (2^32 - 1): it starts at 1, moves with every change and is never 0. */
  lemma {:induction false} IdCountsChanges(log: seq<Observation>)
    ensures ObserveAll(log).id == 1 + Changes(log) % 0xFFFF_FFFF
    ensures 0 < ObserveAll(log).id < 0x1_0000_0000
  {
    if log != [] {
      var n := |log| - 1;
      IdCountsChanges(log[..n]);
      ChangedIffHashDiffers(log);
      NextModulo(Changes(log[..n]), UI4_RANGE - 1);
    }
  }

  lemma NextModulo(c: nat, m: nat)
    requires m > 1
    ensures (c + 1) % m == if c % m + 1 == m then 0 else c % m + 1
  {
    DivMod(c, m);
    var q, r := c / m, c % m;
    if r + 1 == m {
      assert c + 1 == (q + 1) * m;
      ModuloIs(q + 1, 0, m, c + 1);
    } else {
      ModuloIs(q, r + 1, m, c + 1);
    }
  }

  lemma ModuloIs(q: nat, r: nat, m: nat, n: nat)
    requires r < m && n == q * m + r
    ensures n % m == r
  {
    DivMod(n, m);
    LeadingDigits(n / m, n % m, q, r, m);
  }
}
