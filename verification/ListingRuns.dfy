/** Every interleaving of cachedListing calls over one listing cache. */
module ListingRuns {
  import opened Basics
  import opened ListingCache

  datatype PC =
    | Looking
    | Waiting(e: EntryId)   // <-e.done
    | Loading(e: EntryId)   // load()
    | Closing(e: EntryId)   // val, err and expires are set; close(e.done)
    | Cleaning(e: EntryId)  // the load failed; delete the entry if it is still ours
    | Direct                // no caching: load() for this call alone
    | Returned(result: Result<Value, Error>)

  /** One call of cachedListing. `made` is the entry it inserted, if it did,
      `lookedAt` when it held the lock: history only. */
  datatype Caller = Caller(key: Key, pc: PC, made: Option<EntryId>, lookedAt: int)

  datatype State = State(view: View, now: int, callers: seq<Caller>)

  datatype Action =
    | Tick(elapsed: nat)
    | Call(key: Key)
    | Look(c: nat)
    | Load(c: nat, res: Result<Value, Error>)
    | Close(c: nat)
    | Clean(c: nat)
    | Wake(c: nat)

  predicate HasResult(v: View, e: EntryId) { e < |v.table| && v.table[e].result.Some? }

  predicate Enabled(s: State, a: Action) {
    match a
    case Tick(_) => true
    case Call(_) => true
    case Look(c) => c < |s.callers| && s.callers[c].pc.Looking?
    case Load(c, _) =>
      c < |s.callers| && (s.callers[c].pc.Direct? || (s.callers[c].pc.Loading? && s.callers[c].pc.e < |s.view.table|))
    case Close(c) => c < |s.callers| && s.callers[c].pc.Closing? && HasResult(s.view, s.callers[c].pc.e)
    case Clean(c) => c < |s.callers| && s.callers[c].pc.Cleaning? && HasResult(s.view, s.callers[c].pc.e)
    case Wake(c) =>
      && c < |s.callers| && s.callers[c].pc.Waiting? && HasResult(s.view, s.callers[c].pc.e)
      && s.view.table[s.callers[c].pc.e].IsDone()
  }

  function Apply(s: State, a: Action): State
    requires Enabled(s, a)
  {
    match a
    case Tick(d) => s.(now := s.now + d)
    case Call(key) =>
      s.(callers := s.callers + [Caller(key, if s.view.ttl <= 0 then Direct else Looking, None, s.now)])
    case Look(c) =>
      var q := s.callers[c];
      var (v, e, found) := s.view.Lookup(q.key, c, s.now);
      var q' := if found then q.(pc := Waiting(e), lookedAt := s.now)
                else q.(pc := Loading(e), made := Some(e), lookedAt := s.now);
      s.(view := v, callers := s.callers[c := q'])
    case Load(c, res) =>
      var q := s.callers[c];
      if q.pc.Direct? then s.(callers := s.callers[c := q.(pc := Returned(res))])
      else s.(view := s.view.StoreResult(q.pc.e, res, s.now), callers := s.callers[c := q.(pc := Closing(q.pc.e))])
    case Close(c) =>
      var q := s.callers[c];
      var res := s.view.table[q.pc.e].result.value;
      s.(view := s.view.Close(q.pc.e, s.now),
         callers := s.callers[c := q.(pc := if res.Failure? then Cleaning(q.pc.e) else Returned(res))])
    case Clean(c) =>
      var q := s.callers[c];
      s.(view := s.view.Forget(q.key, q.pc.e),
         callers := s.callers[c := q.(pc := Returned(s.view.table[q.pc.e].result.value))])
    case Wake(c) =>
      var q := s.callers[c];
      s.(callers := s.callers[c := q.(pc := Returned(s.view.table[q.pc.e].result.value))])
  }

  predicate Init(s: State) { s.view.entries == map[] && s.view.table == [] && s.callers == [] }

  ghost predicate Run(states: seq<State>, actions: seq<Action>) {
    |states| == |actions| + 1 && Init(states[0]) &&
    forall i | 0 <= i < |actions| :: Enabled(states[i], actions[i]) && states[i + 1] == Apply(states[i], actions[i])
  }

  // ----- the invariant -----

  predicate Mapped(v: View, key: Key, e: EntryId) { key in v.entries && v.entries[key] == e }

  /** The entry a caller inserted, through the stages of its load. */
  predicate LeaderOk(v: View, c: nat, q: Caller) {
    q.made.Some? ==>
      var e := q.made.value;
      e < |v.table| && v.table[e].leader == c && v.table[e].key == q.key && v.ttl > 0 &&
      var entry := v.table[e];
      match q.pc
      case Loading(e') => e' == e && entry.result.None? && entry.closes == 0 && Mapped(v, q.key, e)
      case Closing(e') => e' == e && entry.result.Some? && entry.closes == 0 && Mapped(v, q.key, e)
      case Cleaning(e') => e' == e && entry.result.Some? && entry.result.value.Failure? && entry.closes == 1
      case Returned(res) =>
        entry.result == Some(res) && entry.closes == 1 && (res.Failure? ==> !Mapped(v, q.key, e))
      case _ => false
  }

  predicate CallerOk(v: View, now: int, q: Caller) {
    q.lookedAt <= now &&
    match q.pc
    case Looking => q.made.None? && v.ttl > 0
    case Direct => q.made.None? && v.ttl <= 0
    case Waiting(e) =>
      && q.made.None? && e < |v.table| && v.table[e].key == q.key
      && (v.table[e].IsDone() ==> v.table[e].expires >= q.lookedAt || v.table[e].closedAt >= q.lookedAt)
    case Returned(_) => true
    case _ => q.made.Some?
  }

  predicate EntryOk(v: View, now: int, callers: seq<Caller>, e: EntryId)
    requires e < |v.table|
  {
    var entry := v.table[e];
    && entry.leader < |callers| && callers[entry.leader].made == Some(e)
    && (entry.result.Some? ==> entry.expires - v.ttl <= now)
    && (entry.IsDone() ==> entry.result.Some? && entry.expires - v.ttl <= entry.closedAt <= now)
  }

  predicate MapOk(v: View) {
    forall k | k in v.entries :: v.entries[k] < |v.table| && v.table[v.entries[k]].key == k
  }

  ghost predicate Inv(s: State) {
    && MapOk(s.view)
    && (forall e | 0 <= e < |s.view.table| :: EntryOk(s.view, s.now, s.callers, e))
    && (forall c | 0 <= c < |s.callers| :: LeaderOk(s.view, c, s.callers[c]) && CallerOk(s.view, s.now, s.callers[c]))
  }

  lemma InitInv(s: State)
    requires Init(s)
    ensures Inv(s)
  {}

  lemma LookKeepsInv(s: State, c: nat)
    requires Inv(s) && Enabled(s, Look(c))
    ensures Inv(Apply(s, Look(c)))
  {
    var s' := Apply(s, Look(c));
    var q := s.callers[c];
    assert CallerOk(s.view, s.now, q);
    assert q.key in s.view.entries ==> EntryOk(s.view, s.now, s.callers, s.view.entries[q.key]);
    forall i | 0 <= i < |s.callers|
      ensures LeaderOk(s'.view, i, s'.callers[i]) && CallerOk(s'.view, s'.now, s'.callers[i])
    {
      assert LeaderOk(s.view, i, s.callers[i]) && CallerOk(s.view, s.now, s.callers[i]);
    }
    forall e | 0 <= e < |s'.view.table|
      ensures EntryOk(s'.view, s'.now, s'.callers, e)
    {
      if e < |s.view.table| {
        assert EntryOk(s.view, s.now, s.callers, e);
      }
    }
  }

  lemma WorkKeepsInv(s: State, a: Action)
    requires Inv(s) && Enabled(s, a) && (a.Load? || a.Close? || a.Clean? || a.Wake?)
    ensures Inv(Apply(s, a))
  {
    var s' := Apply(s, a);
    assert LeaderOk(s.view, a.c, s.callers[a.c]) && CallerOk(s.view, s.now, s.callers[a.c]);
    forall i | 0 <= i < |s.callers|
      ensures LeaderOk(s'.view, i, s'.callers[i]) && CallerOk(s'.view, s'.now, s'.callers[i])
    {
      assert LeaderOk(s.view, i, s.callers[i]) && CallerOk(s.view, s.now, s.callers[i]);
    }
    forall e | 0 <= e < |s'.view.table|
      ensures EntryOk(s'.view, s'.now, s'.callers, e)
    {
      assert EntryOk(s.view, s.now, s.callers, e);
    }
  }

  lemma CallKeepsInv(s: State, a: Action)
    requires Inv(s) && (a.Call? || a.Tick?)
    ensures Inv(Apply(s, a))
  {
    var s' := Apply(s, a);
    forall i | 0 <= i < |s'.callers|
      ensures LeaderOk(s'.view, i, s'.callers[i]) && CallerOk(s'.view, s'.now, s'.callers[i])
    {
      if i < |s.callers| {
        assert LeaderOk(s.view, i, s.callers[i]) && CallerOk(s.view, s.now, s.callers[i]);
      }
    }
    forall e | 0 <= e < |s'.view.table|
      ensures EntryOk(s'.view, s'.now, s'.callers, e)
    {
      assert EntryOk(s.view, s.now, s.callers, e);
    }
  }

  lemma ApplyKeepsInv(s: State, a: Action)
    requires Inv(s) && Enabled(s, a)
    ensures Inv(Apply(s, a))
  {
    match a
    case Look(c) => LookKeepsInv(s, c);
    case Tick(_) => CallKeepsInv(s, a);
    case Call(_) => CallKeepsInv(s, a);
    case _ => WorkKeepsInv(s, a);
  }

  lemma {:induction false} RunKeepsInv(states: seq<State>, actions: seq<Action>, i: nat)
    requires Run(states, actions) && i < |states|
    ensures Inv(states[i])
  {
    if i > 0 {
      RunKeepsInv(states, actions, i - 1);
      ApplyKeepsInv(states[i - 1], actions[i - 1]);
    }
  }

  // ----- what it gives -----

  predicate InFlight(q: Caller, key: Key) { q.key == key && (q.pc.Loading? || q.pc.Closing?) }

  /** At most one load per key is in flight; its entry is in the map and cannot be purged, however late it is. */
  lemma OneLoadPerKey(s: State, c: nat, d: nat, key: Key)
    requires Inv(s) && c < |s.callers| && d < |s.callers|
    requires InFlight(s.callers[c], key) && InFlight(s.callers[d], key)
    ensures c == d && Mapped(s.view, key, s.callers[c].pc.e)
    ensures forall now :: Mapped(s.view.Purge(now), key, s.callers[c].pc.e)
  {
    assert LeaderOk(s.view, c, s.callers[c]) && CallerOk(s.view, s.now, s.callers[c]);
    assert LeaderOk(s.view, d, s.callers[d]) && CallerOk(s.view, s.now, s.callers[d]);
  }

  /** The cleanup after a failed load removes the caller's own entry or nothing. */
  lemma CleanupOnlyOwn(s: State, c: nat, key: Key, e: EntryId)
    requires Inv(s) && Enabled(s, Clean(c)) && Mapped(s.view, key, e) && s.callers[c].made != Some(e)
    ensures Mapped(Apply(s, Clean(c)).view, key, e)
  {
    assert LeaderOk(s.view, c, s.callers[c]) && CallerOk(s.view, s.now, s.callers[c]);
  }

  /** When the load of a finished entry ended: the source takes the time for `expires` right after load() returns. */
  function LoadEnd(v: View, e: EntryId): int
    requires e < |v.table|
  {
    v.table[e].expires - v.ttl
  }

  /** What a waiting call returns is the outcome of a load of its own key. That
      load ended no earlier than its own lookup minus the TTL, unless the entry
      was closed only after the lookup; so it was published no earlier than that. */
  lemma SharedResultIsFresh(s: State, c: nat)
    requires Inv(s) && Enabled(s, Wake(c))
    ensures var entry := s.view.table[s.callers[c].pc.e];
      && Apply(s, Wake(c)).callers[c].pc == Returned(entry.result.value)
      && entry.key == s.callers[c].key && entry.closes == 1
      && entry.closedAt >= s.callers[c].lookedAt - s.view.ttl
      && (LoadEnd(s.view, s.callers[c].pc.e) >= s.callers[c].lookedAt - s.view.ttl ||
         entry.closedAt >= s.callers[c].lookedAt)
      && entry.leader < |s.callers| && s.callers[entry.leader].key == s.callers[c].key
  {
    var e := s.callers[c].pc.e;
    assert CallerOk(s.view, s.now, s.callers[c]) && EntryOk(s.view, s.now, s.callers, e);
    var l := s.view.table[e].leader;
    assert LeaderOk(s.view, l, s.callers[l]) && CallerOk(s.view, s.now, s.callers[l]);
  }

  /** Caller c waits on e since a lookup at `looked`, where e had (`stale`) a
      result that had expired and was not published yet, or not. */
  predicate WaitsSince(s: State, c: nat, e: EntryId, looked: int, stale: bool) {
    && c < |s.callers| && s.callers[c].pc == Waiting(e) &&
       s.callers[c].lookedAt == looked <= s.now && e < |s.view.table|
    && if HasResult(s.view, e) then s.view.table[e].expires < looked <==> stale else !stale
  }

  predicate StaleUnpublished(v: View, e: EntryId, now: int) {
    HasResult(v, e) && !v.table[e].IsDone() && now > v.table[e].expires
  }

  lemma LookStartsWaiting(s: State, c: nat)
    requires Inv(s) && Enabled(s, Look(c)) && Apply(s, Look(c)).callers[c].pc.Waiting?
    ensures var e := Apply(s, Look(c)).callers[c].pc.e;
      WaitsSince(Apply(s, Look(c)), c, e, s.now, StaleUnpublished(s.view, e, s.now))
  {
    var e := Apply(s, Look(c)).callers[c].pc.e;
    assert CallerOk(s.view, s.now, s.callers[c]);
    assert EntryOk(s.view, s.now, s.callers, e);
  }

  lemma KeepsWaiting(s: State, a: Action, c: nat, e: EntryId, looked: int, stale: bool)
    requires Inv(s) && Enabled(s, a) && a != Wake(c) && WaitsSince(s, c, e, looked, stale)
    ensures WaitsSince(Apply(s, a), c, e, looked, stale)
  {
    assert CallerOk(s.view, s.now, s.callers[c]);
    if a.Load? && s.callers[a.c].pc.Loading? {
      assert LeaderOk(s.view, a.c, s.callers[a.c]) && CallerOk(s.view, s.now, s.callers[a.c]);
    }
  }

  lemma {:induction false} WaitsUntil(
    states: seq<State>, actions: seq<Action>, i: nat, j: nat, c: nat, e: EntryId, looked: int, stale: bool)
    requires Run(states, actions) && i <= j < |states| && WaitsSince(states[i], c, e, looked, stale)
    requires forall k | i <= k < j :: actions[k] != Wake(c)
    ensures WaitsSince(states[j], c, e, looked, stale)
  {
    if i < j {
      WaitsUntil(states, actions, i, j - 1, c, e, looked, stale);
      RunKeepsInv(states, actions, j - 1);
      KeepsWaiting(states[j - 1], actions[j - 1], c, e, looked, stale);
    }
  }

  /** Exactly when a shared result is older than the TTL allows: the load that
      gave it ended before the lookup minus the TTL if and only if, at the
      lookup, the entry held a result that had already expired but was still
      unpublished, so that the purge, which asks isDone first, kept it. */
  lemma SharedLoadTooOldIff(states: seq<State>, actions: seq<Action>, i: nat, j: nat, c: nat)
    requires Run(states, actions) && i < j < |actions| && actions[i] == Look(c) && actions[j] == Wake(c)
    requires forall k | i < k < j :: actions[k] != Wake(c)
    requires states[i + 1].callers[c].pc.Waiting?
    ensures var e := states[i + 1].callers[c].pc.e;
      && states[j].callers[c].pc == Waiting(e) && e < |states[j].view.table|
      && (LoadEnd(states[j].view, e) < states[i].now - states[j].view.ttl <==>
            StaleUnpublished(states[i].view, e, states[i].now))
  {
    var e := states[i + 1].callers[c].pc.e;
    var stale := StaleUnpublished(states[i].view, e, states[i].now);
    RunKeepsInv(states, actions, i);
    LookStartsWaiting(states[i], c);
    WaitsUntil(states, actions, i + 1, j, c, e, states[i].now, stale);
  }

  lemma Extend(states: seq<State>, actions: seq<Action>, a: Action, next: State)
    returns (states': seq<State>, actions': seq<Action>)
    requires Run(states, actions) && Enabled(states[|actions|], a) && next == Apply(states[|actions|], a)
    ensures Run(states', actions') && states' == states + [next] && actions' == actions + [a]
  {
    states', actions' := states + [next], actions + [a];
    forall i | 0 <= i < |actions'|
      ensures Enabled(states'[i], actions'[i]) && states'[i + 1] == Apply(states'[i], actions'[i])
    {
      if i < |actions| {
        assert Enabled(states[i], actions[i]) && states[i + 1] == Apply(states[i], actions[i]);
      }
    }
  }

  /** Two calls for one key, the first about to close the entry it loaded at time 0. */
  function OneClosesOneLooks(key: Key, value: Value, now: int): State {
    var entry := Entry(key, 0, Some(Success(value)), 10, 0, 0);
    State(View(10, map[key := 0], [entry]), now, [Caller(key, Closing(0), Some(0), 0), Caller(key, Looking, None, 0)])
  }

  lemma ReachClosing(key: Key, value: Value) returns (states: seq<State>, actions: seq<Action>)
    ensures Run(states, actions) && |actions| == 5 && states[5] == OneClosesOneLooks(key, value, 100)
  {
    var q := Caller(key, Looking, None, 0);
    var v := View(10, map[key := 0], [Entry(key, 0, None, 0, 0, 0)]);
    states, actions := [State(View(10, map[], []), 0, [])], [];
    states, actions := Extend(states, actions, Call(key), State(View(10, map[], []), 0, [q]));
    states, actions := Extend(states, actions, Call(key), State(View(10, map[], []), 0, [q, q]));
    states, actions := Extend(states, actions, Look(0), State(v, 0, [q.(pc := Loading(0), made := Some(0)), q]));
    states, actions := Extend(states, actions, Load(0, Success(value)), OneClosesOneLooks(key, value, 0));
    states, actions := Extend(states, actions, Tick(100), OneClosesOneLooks(key, value, 100));
  }

  /** It happens: a load that ended at time 0 is returned to a lookup made at
      100 with a TTL of 10, its leader having been held up before it closed the entry. */
  lemma OldLoadShared(key: Key, value: Value) returns (states: seq<State>, actions: seq<Action>)
    ensures Run(states, actions) && |actions| == 8 && actions[5] == Look(1) && actions[7] == Wake(1)
    ensures states[7].view.ttl == 10 && states[5].now == 100 && states[7].callers[1].pc == Waiting(0)
    ensures states[7].view.table != [] && LoadEnd(states[7].view, 0) == 0
  {
    states, actions := ReachClosing(key, value);
    var s := states[5];
    assert s.view.Purge(100).entries == map[key := 0];
    var q := s.callers[1].(pc := Waiting(0), lookedAt := 100);
    states, actions := Extend(states, actions, Look(1), s.(callers := [s.callers[0], q]));
    var v := s.view.Close(0, 100);
    states, actions := Extend(states, actions, Close(0),
      State(v, 100, [s.callers[0].(pc := Returned(Success(value))), q]));
    var last := State(v, 100, [s.callers[0].(pc := Returned(Success(value))), q.(pc := Returned(Success(value)))]);
    states, actions := Extend(states, actions, Wake(1), last);
  }

  /** An outcome, once set, is never replaced. */
  lemma OutcomesAreFinal(s: State, a: Action, e: EntryId)
    requires Inv(s) && Enabled(s, a) && HasResult(s.view, e)
    ensures e < |Apply(s, a).view.table| && Apply(s, a).view.table[e].result == s.view.table[e].result
  {
    if a.Load? && s.callers[a.c].pc.Loading? {
      assert LeaderOk(s.view, a.c, s.callers[a.c]) && CallerOk(s.view, s.now, s.callers[a.c]);
    }
  }

  lemma {:induction false} ReturnedStays(states: seq<State>, actions: seq<Action>, i: nat, j: nat, c: nat)
    requires Run(states, actions) && i <= j < |states| && c < |states[i].callers| && states[i].callers[c].pc.Returned?
    ensures c < |states[j].callers| && states[j].callers[c] == states[i].callers[c]
  {
    if i < j {
      ReturnedStays(states, actions, i, j - 1, c);
    }
  }

  /** Failed loads are never cached: once the call that led a failed load has
      returned, no later lookup finds its entry. */
  lemma ErrorsForgotten(states: seq<State>, actions: seq<Action>, i: nat, j: nat, l: nat, c: nat)
    requires Run(states, actions) && i <= j < |actions|
    requires l < |states[i].callers| && states[i].callers[l].made.Some?
    requires states[i].callers[l].pc.Returned? && states[i].callers[l].pc.result.Failure?
    requires actions[j] == Look(c)
    ensures states[j + 1].callers[c].pc != Waiting(states[i].callers[l].made.value)
  {
    ReturnedStays(states, actions, i, j, l);
    RunKeepsInv(states, actions, j);
    assert LeaderOk(states[j].view, l, states[j].callers[l]);
  }

  /** No waiter is forgotten: its entry is done, or the caller loading it can go on. */
  lemma NoForgottenWaiter(s: State, c: nat, res: Result<Value, Error>)
    requires Inv(s) && c < |s.callers| && s.callers[c].pc.Waiting?
    ensures var e := s.callers[c].pc.e;
      && e < |s.view.table|
      && (Enabled(s, Wake(c)) || Enabled(s, Load(s.view.table[e].leader, res)) ||
          Enabled(s, Close(s.view.table[e].leader)))
  {
    var e := s.callers[c].pc.e;
    assert CallerOk(s.view, s.now, s.callers[c]) && EntryOk(s.view, s.now, s.callers, e);
    var l := s.view.table[e].leader;
    assert LeaderOk(s.view, l, s.callers[l]) && CallerOk(s.view, s.now, s.callers[l]);
  }
}
