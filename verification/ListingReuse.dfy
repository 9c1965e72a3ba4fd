/** For how long a remembered listing is reused, read off the actions of a run. */
module ListingReuse {
  import opened Basics
  import opened ListingCache
  import opened ListingRuns

  lemma {:induction false} SameTtl(states: seq<State>, actions: seq<Action>, i: nat)
    requires Run(states, actions) && i < |states|
    ensures states[i].view.ttl == states[0].view.ttl
  {
    if i > 0 {
      SameTtl(states, actions, i - 1);
    }
  }

  /** Entry e of this key holds this value until then. */
  predicate Remembers(v: View, e: EntryId, key: Key, value: Value, until: int) {
    e < |v.table| && v.table[e].key == key && v.table[e].result == Some(Success(value)) && v.table[e].expires == until
  }

  /** Its leader l has the value, and has not published it yet. */
  predicate Stored(s: State, l: nat, e: EntryId, key: Key, value: Value, until: int) {
    l < |s.callers| && s.callers[l].pc == Closing(e) && Remembers(s.view, e, key, value, until)
  }

  /** It is published, and in the map unless its time is over. */
  predicate Published(s: State, e: EntryId, key: Key, value: Value, until: int) {
    && Remembers(s.view, e, key, value, until) && s.view.table[e].closes > 0
    && (Mapped(s.view, key, e) || s.now > until)
  }

  lemma LoadStores(s: State, l: nat, e: EntryId, value: Value)
    requires Inv(s) && Enabled(s, Load(l, Success(value))) && s.callers[l].pc == Loading(e)
    ensures Stored(Apply(s, Load(l, Success(value))), l, e, s.callers[l].key, value, s.now + s.view.ttl)
  {
    assert LeaderOk(s.view, l, s.callers[l]) && CallerOk(s.view, s.now, s.callers[l]);
  }

  /** A running load stores elsewhere: e has its outcome already. */
  lemma OthersLoadElsewhere(s: State, a: Action, e: EntryId)
    requires Inv(s) && Enabled(s, a) && a.Load? && HasResult(s.view, e)
    ensures s.callers[a.c].pc != Loading(e)
  {
    assert LeaderOk(s.view, a.c, s.callers[a.c]) && CallerOk(s.view, s.now, s.callers[a.c]);
  }

  lemma StaysRemembered(s: State, a: Action, e: EntryId, key: Key, value: Value, until: int)
    requires Inv(s) && Enabled(s, a) && Remembers(s.view, e, key, value, until)
    ensures Remembers(Apply(s, a).view, e, key, value, until)
    ensures Apply(s, a).view.table[e].closes >= s.view.table[e].closes
  {
    if a.Load? {
      OthersLoadElsewhere(s, a, e);
    }
  }

  lemma StaysStored(s: State, a: Action, l: nat, e: EntryId, key: Key, value: Value, until: int)
    requires Inv(s) && Enabled(s, a) && a != Close(l) && Stored(s, l, e, key, value, until)
    ensures Stored(Apply(s, a), l, e, key, value, until)
  {
    StaysRemembered(s, a, e, key, value, until);
  }

  lemma ClosePublishes(s: State, l: nat, e: EntryId, key: Key, value: Value, until: int)
    requires Inv(s) && Enabled(s, Close(l)) && Stored(s, l, e, key, value, until)
    ensures Published(Apply(s, Close(l)), e, key, value, until)
  {
    assert LeaderOk(s.view, l, s.callers[l]) && CallerOk(s.view, s.now, s.callers[l]);
  }

  lemma StaysMapped(s: State, a: Action, e: EntryId, key: Key, value: Value, until: int)
    requires Inv(s) && Enabled(s, a) && Published(s, e, key, value, until)
    ensures Mapped(Apply(s, a).view, key, e) || Apply(s, a).now > until
  {
    if a.Clean? {
      assert LeaderOk(s.view, a.c, s.callers[a.c]) && CallerOk(s.view, s.now, s.callers[a.c]);
    }
  }

  lemma StaysPublished(s: State, a: Action, e: EntryId, key: Key, value: Value, until: int)
    requires Inv(s) && Enabled(s, a) && Published(s, e, key, value, until)
    ensures Published(Apply(s, a), e, key, value, until)
  {
    StaysRemembered(s, a, e, key, value, until);
    StaysMapped(s, a, e, key, value, until);
  }

  lemma {:induction false} StoredUntilClose(
    states: seq<State>, actions: seq<Action>, i: nat, j: nat, l: nat, e: EntryId, key: Key, value: Value, until: int)
    requires Run(states, actions) && i <= j < |states| && Stored(states[i], l, e, key, value, until)
    requires forall k | i <= k < j :: actions[k] != Close(l)
    ensures Stored(states[j], l, e, key, value, until)
  {
    if i < j {
      StoredUntilClose(states, actions, i, j - 1, l, e, key, value, until);
      RunKeepsInv(states, actions, j - 1);
      StaysStored(states[j - 1], actions[j - 1], l, e, key, value, until);
    }
  }

  lemma {:induction false} PublishedFrom(
    states: seq<State>, actions: seq<Action>, i: nat, j: nat, e: EntryId, key: Key, value: Value, until: int)
    requires Run(states, actions) && i <= j < |states| && Published(states[i], e, key, value, until)
    ensures Published(states[j], e, key, value, until)
  {
    if i < j {
      PublishedFrom(states, actions, i, j - 1, e, key, value, until);
      RunKeepsInv(states, actions, j - 1);
      StaysPublished(states[j - 1], actions[j - 1], e, key, value, until);
    }
  }

  /** A lookup finds the published entry exactly until its time is over. */
  lemma LookFinds(s: State, c: nat, e: EntryId, value: Value, until: int)
    requires Inv(s) && Enabled(s, Look(c)) && Published(s, e, s.callers[c].key, value, until)
    requires forall e' | e < e' < |s.view.table| :: s.view.table[e'].key != s.callers[c].key
    requires NoneOlder(s.view, s.callers[c].key, e)
    ensures Apply(s, Look(c)).callers[c].pc == if s.now <= until then Waiting(e) else Loading(|s.view.table|)
  {
  }

  /** What was mapped before e is gone: while its load ran, e was what its key mapped to. */
  predicate NoneOlder(v: View, key: Key, e: EntryId) { key in v.entries ==> v.entries[key] >= e }

  lemma MappedIsNotOlder(s: State, l: nat, e: EntryId)
    requires Inv(s) && l < |s.callers| && s.callers[l].made == Some(e)
    requires s.callers[l].pc.Loading? || s.callers[l].pc.Closing?
    ensures NoneOlder(s.view, s.callers[l].key, e)
  {
    assert LeaderOk(s.view, l, s.callers[l]);
  }

  lemma LoaderMade(s: State, l: nat, e: EntryId)
    requires Inv(s) && l < |s.callers| && s.callers[l].pc == Loading(e)
    ensures s.callers[l].made == Some(e) && e < |s.view.table|
  {
    assert LeaderOk(s.view, l, s.callers[l]) && CallerOk(s.view, s.now, s.callers[l]);
  }

  lemma StaysNoneOlder(s: State, a: Action, key: Key, e: EntryId)
    requires Inv(s) && Enabled(s, a) && NoneOlder(s.view, key, e) && e < |s.view.table|
    ensures NoneOlder(Apply(s, a).view, key, e) && e < |Apply(s, a).view.table|
  {}

  lemma {:induction false} NoneOlderKept(
    states: seq<State>, actions: seq<Action>, i: nat, j: nat, key: Key, e: EntryId)
    requires Run(states, actions) && i <= j < |states|
    requires NoneOlder(states[i].view, key, e) && e < |states[i].view.table|
    ensures NoneOlder(states[j].view, key, e) && e < |states[j].view.table|
  {
    if i < j {
      NoneOlderKept(states, actions, i, j - 1, key, e);
      RunKeepsInv(states, actions, j - 1);
      StaysNoneOlder(states[j - 1], actions[j - 1], key, e);
    }
  }

  /** A load by call l of entry e ends well at step a and is published at step b;
      at step j call c looks the same key up, before any newer entry for it is made. */
  ghost predicate LooksAgain(
    states: seq<State>, actions: seq<Action>, a: nat, b: nat, j: nat, l: nat, e: EntryId, value: Value, c: nat)
    requires |states| == |actions| + 1
  {
    && a < b < j < |actions|
    && actions[a] == Load(l, Success(value)) && l < |states[a].callers| && states[a].callers[l].pc == Loading(e)
    && actions[b] == Close(l) && (forall k | a < k < b :: actions[k] != Close(l))
    && actions[j] == Look(c) && c < |states[j].callers| && states[j].callers[c].key == states[a].callers[l].key
    && forall e' | e < e' < |states[j].view.table| :: states[j].view.table[e'].key != states[j].callers[c].key
  }

  /** A remembered listing is reused for the TTL from the end of its load, that
      instant included, and not a moment longer: then the next call for its key
      makes an entry of its own and loads. */
  lemma ReusedIff(
    states: seq<State>, actions: seq<Action>, a: nat, b: nat, j: nat, l: nat, e: EntryId, value: Value, c: nat)
    requires Run(states, actions) && LooksAgain(states, actions, a, b, j, l, e, value, c)
    ensures c < |states[j + 1].callers| && e < |states[j].view.table|
    ensures states[j + 1].callers[c].pc ==
      if states[j].now <= states[a].now + states[0].view.ttl then Waiting(e) else Loading(|states[j].view.table|)
    ensures states[j].view.table[e].result == Some(Success(value))
  {
    var key, until := states[a].callers[l].key, states[a].now + states[0].view.ttl;
    RunKeepsInv(states, actions, a);
    SameTtl(states, actions, a);
    LoadStores(states[a], l, e, value);
    LoaderMade(states[a], l, e);
    MappedIsNotOlder(states[a], l, e);
    NoneOlderKept(states, actions, a, j, key, e);
    StoredUntilClose(states, actions, a + 1, b, l, e, key, value, until);
    RunKeepsInv(states, actions, b);
    ClosePublishes(states[b], l, e, key, value, until);
    PublishedFrom(states, actions, b + 1, j, e, key, value, until);
    RunKeepsInv(states, actions, j);
    LookFinds(states[j], c, e, value, until);
  }

  /** Without a positive TTL nothing is shared: every call loads for itself. */
  lemma NoSharingIff(s: State, c: nat)
    requires Inv(s) && c < |s.callers| && !s.callers[c].pc.Returned?
    ensures s.callers[c].pc.Direct? <==> s.view.ttl <= 0
  {
    assert LeaderOk(s.view, c, s.callers[c]) && CallerOk(s.view, s.now, s.callers[c]);
    if s.callers[c].pc.Waiting? {
      var e := s.callers[c].pc.e;
      assert EntryOk(s.view, s.now, s.callers, e);
      var l := s.view.table[e].leader;
      assert LeaderOk(s.view, l, s.callers[l]);
    }
  }
}
