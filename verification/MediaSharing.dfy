/** What sharing downloads through flights and the cache achieves, and where it stops. */
module MediaSharing {
  import opened Basics
  import opened MediaProtocol
  import opened MediaInvariant
  import opened MediaSafety

  // ----- serving from the cache -----

  /** As long as key is not evicted, what was stored under it stays stored. */
  lemma {:induction false} CachedStays(states: seq<State>, actions: seq<Action>, i: nat, j: nat, key: Key)
    requires Run(states, actions) && i <= j < |states|
    requires key in states[i].shared.cached
    requires forall k | i <= k < j :: actions[k] != Evict(key)
    ensures key in states[j].shared.cached
  {
    if i < j {
      CachedStays(states, actions, i, j - 1, key);
      ActionKeepsCached(states[j - 1], actions[j - 1], key);
    }
  }

  lemma ActionKeepsCached(s: State, a: Action, key: Key)
    requires Enabled(s, a) && key in s.shared.cached && a != Evict(key)
    ensures key in Apply(s, a).shared.cached
  {
    if a.Step? {
      CacheGrows(s.shared, a.r, s.reqs[a.r], a.choice);
    }
  }

  lemma CacheGrows(sh: Shared, r: RequestId, q: Request, c: Choice)
    requires StepEnabled(sh, q, c)
    ensures sh.cached <= StepOf(sh, r, q, c).0.cached
  {}

  /** A request's key and its flight, once it led one, never change. */
  lemma {:induction false} RequestStays(states: seq<State>, actions: seq<Action>, i: nat, j: nat, r: RequestId)
    requires Run(states, actions) && i <= j < |states| && r < |states[i].reqs|
    ensures r < |states[j].reqs| && states[j].reqs[r].key == states[i].reqs[r].key
    ensures states[i].reqs[r].led.Some? ==> states[j].reqs[r].led == states[i].reqs[r].led
  {
    if i < j {
      RequestStays(states, actions, i, j - 1, r);
      RunKeepsInv(states, actions, j - 1);
      ActionKeepsRequest(states[j - 1], actions[j - 1], r);
    }
  }

  lemma ActionKeepsRequest(s: State, a: Action, r: RequestId)
    requires Inv(s) && Enabled(s, a) && r < |s.reqs|
    ensures r < |Apply(s, a).reqs| && Apply(s, a).reqs[r].key == s.reqs[r].key
    ensures s.reqs[r].led.Some? ==> Apply(s, a).reqs[r].led == s.reqs[r].led
  {
    if s.reqs[r].led.Some? {
      LeadsAtMostOnce(s, a, r);
    }
    if !a.Arrive? && !StartsFlight(s, a) {
      OthersLeaveLeaders(s, a);
    }
  }

  /** A successful Put for flight f: by the request that leads it, or by the background fill it was handed to. */
  predicate FillsFlight(s: State, a: Action, f: FlightId) {
    || (a.Step? && a.r < |s.reqs| && a.choice.Plain? && s.reqs[a.r].fl == Some(f) &&
        (s.reqs[a.r].pc.Storing? || s.reqs[a.r].pc.Streaming?))
    || (a.FillStep? && a.r < |s.reqs| && a.choice.Plain? &&
        s.reqs[a.r].fillFlight == Some(f) && s.reqs[a.r].fill.Filling?)
  }

  lemma FillStores(s: State, a: Action, f: FlightId)
    requires Inv(s) && Enabled(s, a) && FillsFlight(s, a, f)
    ensures s.reqs[a.r].led == Some(f) && s.reqs[a.r].key in Apply(s, a).shared.cached
  {
    assert Fits(s.shared, a.r, s.reqs[a.r]);
    OwnsIsLed(s.shared.caching, s.reqs[a.r]);
  }

  lemma WaitsForOwnKey(s: State, r: RequestId, l: RequestId, f: FlightId)
    requires Inv(s) && r < |s.reqs| && l < |s.reqs| && s.reqs[r].pc == Waiting(f) && s.reqs[l].led == Some(f)
    ensures s.reqs[l].key == s.reqs[r].key
  {
    assert Fits(s.shared, r, s.reqs[r]) && Fits(s.shared, l, s.reqs[l]);
  }

  /** A request that waits for flight f, whose owner stored its download at
      step i, is served from the cache by its next operation after it is woken,
      if the key was not evicted meanwhile: without a slot, a fetch or a flight of its own. */
  lemma WaiterServedByItsFlight(
    states: seq<State>, actions: seq<Action>, i: nat, j: nat, k: nat, r: RequestId, f: FlightId)
    requires Run(states, actions) && i < j < k < |actions|
    requires FillsFlight(states[i], actions[i], f)
    requires r < |states[j].reqs| && states[j].reqs[r].pc == Waiting(f) && actions[j] == Step(r, OnDone)
    requires forall l | i < l < k :: actions[l] != Evict(states[j].reqs[r].key)
    requires forall l | j < l < k :: actions[l] != Step(r, Plain)
    requires actions[k] == Step(r, Plain)
    ensures var q := states[k + 1].reqs[r];
      q.pc.Done? && q.led.None? && q.acquired == 0 && !q.gotBody
  {
    var l := actions[i].r;
    RunKeepsInv(states, actions, i);
    FillStores(states[i], actions[i], f);
    RequestStays(states, actions, i, j, l);
    RequestStays(states, actions, i, i + 1, l);
    RunKeepsInv(states, actions, j);
    WaitsForOwnKey(states[j], r, l, f);
    WaiterServedFromCache(states, actions, i + 1, j, k, r);
  }

  /** A request that waited for a flight, and is woken at step j after the key
      was stored and not evicted since, is served from the cache by its next
      operation without having taken a slot, fetched anything or led a flight. */
  lemma WaiterServedFromCache(states: seq<State>, actions: seq<Action>, i: nat, j: nat, k: nat, r: RequestId)
    requires Run(states, actions) && i <= j < k < |actions|
    requires r < |states[j].reqs| && states[j].reqs[r].pc.Waiting? && actions[j] == Step(r, OnDone)
    requires states[j].reqs[r].key in states[i].shared.cached
    requires forall l | i <= l < k :: actions[l] != Evict(states[j].reqs[r].key)
    requires forall l | j < l < k :: actions[l] != Step(r, Plain)
    requires actions[k] == Step(r, Plain)
    ensures var q := states[k + 1].reqs[r];
      q.pc.Done? && q.led.None? && q.acquired == 0 && !q.gotBody
  {
    var key := states[j].reqs[r].key;
    StaysLookingUp(states, actions, j + 1, k, r, key);
    CachedStays(states, actions, i, k, key);
    RunKeepsInv(states, actions, k);
    assert Fits(states[k].shared, r, states[k].reqs[r]);
  }

  lemma {:induction false} StaysLookingUp(
    states: seq<State>, actions: seq<Action>, j: nat, k: nat, r: RequestId, key: Key)
    requires Run(states, actions) && j <= k < |states|
    requires r < |states[j].reqs| && states[j].reqs[r].pc.LookingUp? && states[j].reqs[r].key == key
    requires forall l | j <= l < k :: actions[l] != Step(r, Plain)
    ensures r < |states[k].reqs| && states[k].reqs[r].pc.LookingUp? && states[k].reqs[r].key == key
  {
    if j < k {
      StaysLookingUp(states, actions, j, k - 1, r, key);
      ActionKeepsPlace(states[k - 1], actions[k - 1], r);
    }
  }

  /** A request about to look up or join, or done, stays so until its own next operation. */
  lemma ActionKeepsPlace(s: State, a: Action, r: RequestId)
    requires Enabled(s, a) && r < |s.reqs| && (a != Step(r, Plain) || s.reqs[r].pc.Done?)
    requires s.reqs[r].pc.LookingUp? || s.reqs[r].pc.Joining? || s.reqs[r].pc.Done?
    ensures r < |Apply(s, a).reqs|
    ensures var q, q' := s.reqs[r], Apply(s, a).reqs[r];
      q'.pc == q.pc && q'.key == q.key && q'.led == q.led
  {}

  // ----- proxying -----

  /** Each key is asked for by one kind of source: with an openRange, or without. */
  ghost predicate RangesByKey(actions: seq<Action>, ranges: Key -> bool) {
    forall i | 0 <= i < |actions| && actions[i].Arrive? :: actions[i].ranged == ranges(actions[i].key)
  }

  /** A request is of its key's kind, and proxies only with an openRange. */
  ghost predicate RangeOk(ranges: Key -> bool, q: Request) {
    q.ranged == ranges(q.key) && (q.pc.Proxying? ==> q.ranged)
  }

  ghost predicate RangesOk(ranges: Key -> bool, s: State) {
    forall r | 0 <= r < |s.reqs| :: RangeOk(ranges, s.reqs[r])
  }

  predicate SameSource(q: Request, q': Request) { q'.key == q.key && q'.ranged == q.ranged && q'.gone == q.gone }

  lemma EnteringKeepsSource(sh: Shared, r: RequestId, q: Request, c: Choice)
    requires StepEnabled(sh, q, c) && Entering(q.pc)
    ensures SameSource(q, StepOf(sh, r, q, c).1)
  {}

  lemma PlayingKeepsSource(sh: Shared, r: RequestId, q: Request, c: Choice)
    requires StepEnabled(sh, q, c) && Playing(q.pc)
    ensures SameSource(q, StepOf(sh, r, q, c).1)
  {}

  lemma DownloadingKeepsSource(sh: Shared, r: RequestId, q: Request, c: Choice)
    requires StepEnabled(sh, q, c) && Downloading(q.pc)
    ensures SameSource(q, StepOf(sh, r, q, c).1)
  {}

  lemma DeliveringKeepsSource(sh: Shared, r: RequestId, q: Request, c: Choice)
    requires StepEnabled(sh, q, c) && Delivering(q.pc)
    ensures SameSource(q, StepOf(sh, r, q, c).1)
  {}

  lemma UnwindingKeepsSource(sh: Shared, r: RequestId, q: Request, c: Choice)
    requires StepEnabled(sh, q, c) && (Unwinding(q.pc) || q.pc.UnwindSlot?)
    ensures SameSource(q, StepOf(sh, r, q, c).1)
  {}

  lemma FinishingKeepsSource(sh: Shared, r: RequestId, q: Request, c: Choice)
    requires StepEnabled(sh, q, c) && (q.pc.Deleting? || q.pc.Closing?)
    ensures SameSource(q, StepOf(sh, r, q, c).1)
  {}

  lemma StepKeepsSource(sh: Shared, r: RequestId, q: Request, c: Choice)
    requires StepEnabled(sh, q, c)
    ensures SameSource(q, StepOf(sh, r, q, c).1)
  {
    if Entering(q.pc) {
      EnteringKeepsSource(sh, r, q, c);
    } else if Playing(q.pc) {
      PlayingKeepsSource(sh, r, q, c);
    } else if Downloading(q.pc) {
      DownloadingKeepsSource(sh, r, q, c);
    } else if Delivering(q.pc) {
      DeliveringKeepsSource(sh, r, q, c);
    } else if Unwinding(q.pc) || q.pc.UnwindSlot? {
      UnwindingKeepsSource(sh, r, q, c);
    } else {
      FinishingKeepsSource(sh, r, q, c);
    }
  }

  lemma FillKeepsSource(sh: Shared, q: Request, c: Choice)
    requires FillEnabled(sh, q, c)
    ensures SameSource(q, FillOf(sh, q, c).1) && FillOf(sh, q, c).1.pc == q.pc
  {}

  lemma AnnouncedIsRanged(caching: bool, q: Request)
    requires Local(caching, q) && Announced(q)
    ensures q.ranged
  {}

  /** Who tells a follower "video" asked for the same key with an openRange. */
  lemma VideoMeansRanges(s: State, r: RequestId)
    requires Inv(s) && r < |s.reqs| && s.reqs[r].pc.Waiting? && StepEnabled(s.shared, s.reqs[r], OnVideo)
    ensures var l := s.shared.table[s.reqs[r].pc.on].leader;
      l < |s.reqs| && s.reqs[l].key == s.reqs[r].key && s.reqs[l].ranged
  {
    var l := s.shared.table[s.reqs[r].pc.on].leader;
    assert Fits(s.shared, r, s.reqs[r]) && Fits(s.shared, l, s.reqs[l]);
    AnnouncedIsRanged(s.shared.caching, s.reqs[l]);
  }

  lemma OwnVideoHasRanges(sh: Shared, r: RequestId, q: Request, c: Choice)
    requires Local(sh.caching, q) && StepEnabled(sh, q, c) && !q.pc.Waiting? && StepOf(sh, r, q, c).1.pc.Proxying?
    ensures q.ranged
  {}

  lemma StepKeepsRange(s: State, r: RequestId, c: Choice, ranges: Key -> bool)
    requires Inv(s) && r < |s.reqs| && StepEnabled(s.shared, s.reqs[r], c) && RangesOk(ranges, s)
    ensures RangeOk(ranges, StepOf(s.shared, r, s.reqs[r], c).1)
  {
    var q, q' := s.reqs[r], StepOf(s.shared, r, s.reqs[r], c).1;
    StepKeepsSource(s.shared, r, q, c);
    assert Fits(s.shared, r, q);
    if q'.pc.Proxying? {
      if q.pc.Waiting? {
        VideoMeansRanges(s, r);
      } else {
        OwnVideoHasRanges(s.shared, r, q, c);
      }
    }
  }

  lemma ActionKeepsRanges(s: State, a: Action, ranges: Key -> bool)
    requires Inv(s) && Enabled(s, a) && RangesOk(ranges, s)
    requires a.Arrive? ==> a.ranged == ranges(a.key)
    ensures RangesOk(ranges, Apply(s, a))
  {
    match a
    case Step(r, c) => StepKeepsRange(s, r, c, ranges);
    case FillStep(r, c) => FillKeepsSource(s.shared, s.reqs[r], c);
    case _ =>
  }

  /** proxyRange is never entered without an openRange to call, by a leader or
      by a follower that was told "video", in any run in which a key always
      comes with the same kind of source. */
  lemma {:induction false} ProxyHasRanges(states: seq<State>, actions: seq<Action>, ranges: Key -> bool, i: nat)
    requires Run(states, actions) && RangesByKey(actions, ranges) && i < |states|
    ensures RangesOk(ranges, states[i])
  {
    if i > 0 {
      ProxyHasRanges(states, actions, ranges, i - 1);
      RunKeepsInv(states, actions, i - 1);
      ActionKeepsRanges(states[i - 1], actions[i - 1], ranges);
    }
  }

  // ----- when a stored key is downloaded again -----

  /** A request starts a download of its own (with caching on) exactly when, at
      its joinFlight, no flight for its key is in the map. */
  lemma LeadsIffNoFlightMapped(s: State, a: Action, r: RequestId)
    requires Inv(s) && Enabled(s, a) && r < |s.reqs| && s.reqs[r].led.None?
    ensures Apply(s, a).reqs[r].led.Some? <==> StartsFlight(s, a) && a.r == r
  {
    if !a.Arrive? && !StartsFlight(s, a) {
      OthersLeaveLeaders(s, a);
    }
  }

  /** The action that puts a key into the cache. */
  predicate Stores(s: State, a: Action, key: Key) {
    Enabled(s, a) && key !in s.shared.cached && key in Apply(s, a).shared.cached
  }

  /** Only the owner of the mapped flight of a key ever stores it, by its Put. */
  lemma StoredByItsFlight(s: State, a: Action, key: Key)
    requires Inv(s) && Stores(s, a, key)
    ensures key in s.shared.flights && s.shared.flights[key] < |s.shared.table|
    ensures a.Step? || a.FillStep?
    ensures a.choice.Plain? || a.choice == Fails(true)
    ensures s.shared.table[s.shared.flights[key]].leader == a.r && a.r < |s.reqs| && s.reqs[a.r].key == key
    ensures a.Step? ==> s.reqs[a.r].pc.Storing? || s.reqs[a.r].pc.Streaming?
    ensures a.FillStep? ==> s.reqs[a.r].fill.Filling?
  {
    if a.Step? || a.FillStep? {
      assert Fits(s.shared, a.r, s.reqs[a.r]);
      OwnsIsLed(s.shared.caching, s.reqs[a.r]);
    }
  }

  lemma {:induction false} StoredBetween(states: seq<State>, actions: seq<Action>, i: nat, j: nat, key: Key)
    returns (k: nat)
    requires Run(states, actions) && i <= j < |states|
    requires key !in states[i].shared.cached && key in states[j].shared.cached
    ensures i <= k < j && Stores(states[k], actions[k], key)
  {
    if key in states[j - 1].shared.cached {
      k := StoredBetween(states, actions, i, j - 1, key);
    } else {
      k := j - 1;
    }
  }

  lemma {:induction false} StaysJoining(
    states: seq<State>, actions: seq<Action>, j: nat, k: nat, r: RequestId, q: Request)
    requires Run(states, actions) && j <= k < |states| && r < |states[j].reqs|
    requires states[j].reqs[r].pc == q.pc && states[j].reqs[r].key == q.key && (q.pc.Joining? || q.pc.Done?)
    requires q.pc.Done? || forall l | j <= l < k :: actions[l] != Step(r, Plain)
    requires states[j].reqs[r].led == q.led
    ensures r < |states[k].reqs|
    ensures states[k].reqs[r].pc == q.pc && states[k].reqs[r].key == q.key && states[k].reqs[r].led == q.led
  {
    if j < k {
      StaysJoining(states, actions, j, k - 1, r, q);
      ActionKeepsPlace(states[k - 1], actions[k - 1], r);
    }
  }

  /** A flight for key stored it after step i, and at step j that flight has left the map and no other is in it. */
  ghost predicate StoredAndLeft(states: seq<State>, actions: seq<Action>, i: nat, j: nat, key: Key)
    requires |states| == |actions| + 1 && j < |states|
  {
    key !in states[j].shared.flights &&
    exists k :: i < k < j && Stores(states[k], actions[k], key) && key in states[k].shared.flights
  }

  /** Step i is request r's cache lookup and step j the joinFlight that follows it. */
  predicate LooksUpThenJoins(states: seq<State>, actions: seq<Action>, i: nat, j: nat, r: RequestId)
    requires |states| == |actions| + 1
  {
    && i < j < |actions| && actions[i] == Step(r, Plain) && actions[j] == Step(r, Plain)
    && r < |states[i].reqs| && states[i].reqs[r].pc.LookingUp?
    && forall l | i < l < j :: actions[l] != Step(r, Plain)
  }

  lemma MissThenJoin(states: seq<State>, actions: seq<Action>, i: nat, j: nat, r: RequestId)
    requires Run(states, actions) && LooksUpThenJoins(states, actions, i, j, r)
    ensures var key := states[i].reqs[r].key;
      && key !in states[i + 1].shared.cached
      && r < |states[j].reqs| && states[j].reqs[r].pc.Joining? &&
         states[j].reqs[r].key == key && states[j].reqs[r].led.None?
  {
    RunKeepsInv(states, actions, i);
    assert Fits(states[i].shared, r, states[i].reqs[r]);
    StaysJoining(states, actions, i + 1, j, r, states[i + 1].reqs[r]);
  }

  /** In any run in which its key is not evicted meanwhile, a request leads a
      flight for a key that is already stored exactly when the store fell between
      its lookup and its join and, at the join, the storing flight had left
      the map and no later one was in it. */
  lemma StoredKeyDownloadedIff(states: seq<State>, actions: seq<Action>, i: nat, j: nat, r: RequestId)
    requires Run(states, actions) && LooksUpThenJoins(states, actions, i, j, r)
    requires forall l | i < l < j :: actions[l] != Evict(states[i].reqs[r].key)
    ensures var key := states[i].reqs[r].key;
      && r < |states[j + 1].reqs|
      && (states[j + 1].reqs[r].led.Some? && key in states[j].shared.cached <==>
            StoredAndLeft(states, actions, i, j, key))
  {
    var key := states[i].reqs[r].key;
    MissThenJoin(states, actions, i, j, r);
    RunKeepsInv(states, actions, j);
    LeadsIffNoFlightMapped(states[j], actions[j], r);
    if key in states[j].shared.cached {
      var k := StoredBetween(states, actions, i + 1, j, key);
      RunKeepsInv(states, actions, k);
      StoredByItsFlight(states[k], actions[k], key);
    }
    if StoredAndLeft(states, actions, i, j, key) {
      var k :| i < k < j && Stores(states[k], actions[k], key) && key in states[k].shared.flights;
      CachedStays(states, actions, k + 1, j, key);
    }
  }

  /** A request whose lookup follows the store, with no eviction between, is over at once and never leads. */
  lemma LookupAfterStoreNeverLeads(states: seq<State>, actions: seq<Action>, k: nat, i: nat, j: nat, r: RequestId)
    requires Run(states, actions) && k < i < j < |states| && actions[i] == Step(r, Plain)
    requires r < |states[i].reqs| && states[i].reqs[r].pc.LookingUp?
    requires Stores(states[k], actions[k], states[i].reqs[r].key)
    requires forall l | k < l < i :: actions[l] != Evict(states[i].reqs[r].key)
    ensures r < |states[j].reqs| && states[j].reqs[r].pc.Done? && states[j].reqs[r].led.None?
  {
    CachedStays(states, actions, k + 1, i, states[i].reqs[r].key);
    RunKeepsInv(states, actions, i);
    assert Fits(states[i].shared, r, states[i].reqs[r]);
    StaysJoining(states, actions, i + 1, j, r, states[i + 1].reqs[r]);
  }

  /** An execution without evictions. */
  predicate QuietRun(actions: seq<Action>) { forall i | 0 <= i < |actions| :: !actions[i].Evict? }

  lemma Extend(states: seq<State>, actions: seq<Action>, a: Action, next: State)
    returns (states': seq<State>, actions': seq<Action>)
    requires Run(states, actions) && Enabled(states[|actions|], a) && next == Apply(states[|actions|], a)
    requires QuietRun(actions) && !a.Evict?
    ensures Run(states', actions') && states'[|actions'|] == next && QuietRun(actions')
  {
    states', actions' := states + [next], actions + [a];
    RunGoesOn(states, actions, a, next);
  }

  /** Two requests for one key, the first leading its flight and about to fetch, the second past its cache lookup. */
  function OneFetchesOneJoins(key: Key): State {
    var q := NewRequest(true, key, false).(pc := Joining);
    State(Shared(true, 1, {}, map[key := 0], [Flight(key, 0, 0, 0)], 1),
          [q.(pc := Fetching, led := Some(0), fl := Some(0), acquired := 1, slotHeld := true, follow := Following), q])
  }

  /** The same once the first has stored the key and left the map. */
  function OneStoredOneJoins(key: Key): State {
    var s := OneFetchesOneJoins(key);
    State(s.shared.(cached := {key}, flights := map[], slots := 0),
          [s.reqs[0].(pc := Closing(ToServe), gotBody := true, released := 1, slotHeld := false), s.reqs[1]])
  }

  lemma ReachFetching(key: Key) returns (states: seq<State>, actions: seq<Action>)
    ensures Run(states, actions) && QuietRun(actions) && states[|actions|] == OneFetchesOneJoins(key)
  {
    var q := NewRequest(true, key, false);
    var sh := Shared(true, 1, {}, map[], [], 0);
    states, actions := [State(sh, [])], [];
    states, actions := Extend(states, actions, Arrive(key, false), State(sh, [q]));
    states, actions := Extend(states, actions, Arrive(key, false), State(sh, [q, q]));
    var q1 := q.(pc := Joining);
    states, actions := Extend(states, actions, Step(0, Plain), State(sh, [q1, q]));
    states, actions := Extend(states, actions, Step(1, Plain), State(sh, [q1, q1]));
    sh := sh.(flights := map[key := 0], table := [Flight(key, 0, 0, 0)]);
    states, actions := Extend(states, actions, Step(0, Plain),
      State(sh, [q1.(pc := Queueing, led := Some(0), fl := Some(0)), q1]));
    states, actions := Extend(states, actions, Step(0, OnSlot), OneFetchesOneJoins(key));
  }

  lemma ReachStored(key: Key) returns (states: seq<State>, actions: seq<Action>)
    ensures Run(states, actions) && QuietRun(actions) && states[|actions|] == OneStoredOneJoins(key)
  {
    states, actions := ReachFetching(key);
    var s := OneFetchesOneJoins(key);
    var q0, q1, sh := s.reqs[0].(pc := Reading, gotBody := true), s.reqs[1], s.shared;
    states, actions := Extend(states, actions, Step(0, Photo), State(sh, [q0, q1]));
    q0 := q0.(pc := FreeingAfterRead);
    states, actions := Extend(states, actions, Step(0, Plain), State(sh, [q0, q1]));
    q0 := q0.(pc := Storing, released := 1, slotHeld := false);
    sh := sh.(slots := 0);
    states, actions := Extend(states, actions, Step(0, Plain), State(sh, [q0, q1]));
    q0 := q0.(pc := Deleting(ToServe));
    sh := sh.(cached := {key});
    states, actions := Extend(states, actions, Step(0, Plain), State(sh, [q0, q1]));
    states, actions := Extend(states, actions, Step(0, Plain), OneStoredOneJoins(key));
  }

  /** And it happens: a request that looked its key up before a concurrent fill
      stored it, and joins after that fill left the map, downloads the key
      again although it is stored and was never evicted. */
  lemma StoredKeyDownloadedAgain(key: Key) returns (states: seq<State>, actions: seq<Action>)
    ensures Run(states, actions) && QuietRun(actions)
    ensures var s := states[|actions|];
      && |s.reqs| == 2 && s.reqs[0].key == s.reqs[1].key == key
      && key in s.shared.cached && s.reqs[0].led.Some? && s.reqs[1].led.Some? && s.reqs[1].pc.Queueing?
  {
    states, actions := ReachStored(key);
    var s := OneStoredOneJoins(key);
    var q1 := s.reqs[1].(pc := Queueing, led := Some(1), fl := Some(1));
    var sh := s.shared.(flights := map[key := 1], table := [Flight(key, 0, 0, 0), Flight(key, 1, 0, 0)]);
    states, actions := Extend(states, actions, Step(1, Plain), State(sh, [s.reqs[0], q1]));
  }
}
