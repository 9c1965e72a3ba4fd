/** Every interleaving of getters, warm-ups and load goroutines over a timeline store. */
module TimelineRuns {
  import opened Basics
  import opened TimelineStore

  /** errTimelineLoading */
  const STILL_LOADING: Error := "timeline is still loading from Immich, try again shortly"

  datatype GetPC =
    | Entering
    | Waiting(done: ChannelId)
    | Leaving
    | Returned(assets: Option<Listing>, err: Option<Error>)

  datatype Getter = Getter(idx: Account, pc: GetPC)

  /** A load goroutine, and what it ended with, if it has. */
  datatype Load = Load(idx: Account, outcome: Option<Result<Option<Listing>, Error>>)

  datatype State = State(view: View, now: int, getters: seq<Getter>, loads: seq<Load>)

  datatype Action =
    | Tick(elapsed: nat)
    | Call(idx: Account)
    | Warm(idx: Account)
    | Enter(g: nat)
    | Wake(g: nat)
    | GiveUp(g: nat)   // timelineFirstLoadWait
    | Leave(g: nat)
    | Finish(l: nat, res: Result<Option<Listing>, Error>)

  function WithLoad(loads: seq<Load>, idx: Account, started: bool): seq<Load> {
    if started then loads + [Load(idx, None)] else loads
  }

  predicate Enabled(s: State, a: Action) {
    match a
    case Tick(_) => true
    case Call(_) => true
    case Warm(_) => true
    case Enter(g) => g < |s.getters| && s.getters[g].pc.Entering?
    case Wake(g) => g < |s.getters| && s.getters[g].pc.Waiting? && s.view.ChannelClosed(s.getters[g].pc.done)
    case GiveUp(g) => g < |s.getters| && s.getters[g].pc.Waiting?
    case Leave(g) => g < |s.getters| && s.getters[g].pc.Leaving? && s.getters[g].idx in s.view.entries
    case Finish(l, _) =>
      l < |s.loads| && s.loads[l].outcome.None? && s.loads[l].idx in s.view.entries &&
      s.view.entries[s.loads[l].idx].firstDone < |s.view.channels|
  }

  function Apply(s: State, a: Action): State
    requires Enabled(s, a)
  {
    match a
    case Tick(d) => s.(now := s.now + d)
    case Call(idx) => s.(getters := s.getters + [Getter(idx, Entering)])
    case Warm(idx) =>
      var (v, started) := s.view.WarmUp(idx);
      s.(view := v, loads := WithLoad(s.loads, idx, started))
    case Enter(g) =>
      var getter := s.getters[g];
      var (v, entered, started) := s.view.Enter(getter.idx, s.now);
      var pc := match entered case Answer(assets) => Returned(Some(assets), None) case Await(done) => Waiting(done);
      s.(view := v, loads := WithLoad(s.loads, getter.idx, started), getters := s.getters[g := getter.(pc := pc)])
    case Wake(g) => s.(getters := s.getters[g := s.getters[g].(pc := Leaving)])
    case GiveUp(g) => s.(getters := s.getters[g := s.getters[g].(pc := Returned(None, Some(STILL_LOADING)))])
    case Leave(g) =>
      var (assets, err) := s.view.Leave(s.getters[g].idx);
      s.(getters := s.getters[g := s.getters[g].(pc := Returned(assets, err))])
    case Finish(l, res) =>
      s.(view := s.view.FinishLoad(s.loads[l].idx, s.now, res),
         loads := s.loads[l := s.loads[l].(outcome := Some(res))])
  }

  /** WarmUp relies on no load attempt having failed: the account is new, loaded or being loaded. */
  predicate WarmUpAllowed(s: State, idx: Account) {
    idx in s.view.entries ==> s.view.entries[idx].assets.Some? || s.view.entries[idx].loading
  }

  predicate Allowed(s: State, a: Action) { a.Warm? ==> WarmUpAllowed(s, a.idx) }

  predicate Init(s: State) {
    s.view.refresh > 0 && s.view.entries == map[] && s.view.channels == [] && s.getters == [] && s.loads == []
  }

  /** An execution in which no warm-up follows a failed first attempt. */
  ghost predicate Run(states: seq<State>, actions: seq<Action>) {
    |states| == |actions| + 1 && Init(states[0]) &&
    forall i | 0 <= i < |actions| ::
      Enabled(states[i], actions[i]) && Allowed(states[i], actions[i]) && states[i + 1] == Apply(states[i], actions[i])
  }

  // ----- the invariant -----

  ghost function RunningFor(idx: Account): Load -> bool { (l: Load) => l.outcome.None? && l.idx == idx }

  predicate Loaded(l: Load, idx: Account) { l.idx == idx && l.outcome.Some? && l.outcome.value.Success? }

  function Contents(l: Load): Listing
    requires l.outcome.Some? && l.outcome.value.Success?
  {
    if l.outcome.value.value.Some? then l.outcome.value.value.value else []
  }

  /** What the account's latest successful load returned. */
  function Latest(loads: seq<Load>, idx: Account): Option<Listing> {
    if loads == [] then None
    else if Loaded(loads[|loads| - 1], idx) then Some(Contents(loads[|loads| - 1]))
    else Latest(loads[..|loads| - 1], idx)
  }

  predicate EntryOk(v: View, loads: seq<Load>, idx: Account)
    requires idx in v.entries
  {
    var e := v.entries[idx];
    && e.firstDone < |v.channels| && v.channels[e.firstDone].owner == idx
    && v.channels[e.firstDone].closes == (if e.assets.None? && e.loading then 0 else 1)
    && (e.assets.Some? || e.loading || e.firstErr.Some?)
    && e.assets == Latest(loads, idx)
  }

  /** A closed channel means there is something to tell whoever waited on it. */
  predicate Answerable(v: View, idx: Account) {
    idx in v.entries && (v.entries[idx].assets.Some? || v.entries[idx].firstErr.Some?)
  }

  predicate ChannelOk(v: View, c: ChannelId)
    requires c < |v.channels|
  {
    var ch := v.channels[c];
    && ch.owner in v.entries && ch.closes <= 1
    && (ch.closes == 1 ==> Answerable(v, ch.owner))
    && (ch.closes == 0 ==> v.entries[ch.owner].firstDone == c)
  }

  predicate GetterOk(v: View, g: Getter) {
    match g.pc
    case Entering => true
    case Waiting(done) => done < |v.channels| && v.channels[done].owner == g.idx
    case Leaving => Answerable(v, g.idx)
    case Returned(assets, err) => assets.Some? || err.Some?
  }

  /** A running load is its account's last one, and the entry knows of it. */
  predicate LoadOk(v: View, loads: seq<Load>, l: nat)
    requires l < |loads|
  {
    loads[l].outcome.None? ==>
      && loads[l].idx in v.entries && v.entries[loads[l].idx].loading
      && forall m | l < m < |loads| :: loads[m].idx != loads[l].idx
  }

  ghost predicate Inv(s: State) {
    && (forall idx | idx in s.view.entries :: EntryOk(s.view, s.loads, idx))
    && (forall c | 0 <= c < |s.view.channels| :: ChannelOk(s.view, c))
    && (forall g | 0 <= g < |s.getters| :: GetterOk(s.view, s.getters[g]))
    && (forall l | 0 <= l < |s.loads| :: LoadOk(s.view, s.loads, l))
    && (forall idx :: Count(s.loads, RunningFor(idx)) ==
          if idx in s.view.entries && s.view.entries[idx].loading then 1 else 0)
    && (forall idx | idx !in s.view.entries :: Latest(s.loads, idx) == None)
  }

  lemma InitInv(s: State)
    requires Init(s)
    ensures Inv(s)
  {}

  lemma {:induction false} LatestKept(loads: seq<Load>, l: nat, load: Load, idx: Account)
    requires l < |loads| && !Loaded(loads[l], idx) && !Loaded(load, idx)
    ensures Latest(loads[l := load], idx) == Latest(loads, idx)
  {
    var n := |loads| - 1;
    if l == n {
      assert loads[l := load][..n] == loads[..n];
    } else {
      assert loads[l := load][..n] == loads[..n][l := load];
      LatestKept(loads[..n], l, load, idx);
    }
  }

  lemma {:induction false} LatestSet(loads: seq<Load>, l: nat, load: Load)
    requires l < |loads| && Loaded(load, load.idx) && forall m | l < m < |loads| :: loads[m].idx != load.idx
    ensures Latest(loads[l := load], load.idx) == Some(Contents(load))
  {
    var n := |loads| - 1;
    if l < n {
      assert loads[l := load][..n] == loads[..n][l := load];
      LatestSet(loads[..n], l, load);
    }
  }

  /** No load of an account is running unless its entry says so. */
  lemma NoneRunning(s: State, idx: Account)
    requires Inv(s) && (idx in s.view.entries ==> !s.view.entries[idx].loading)
    ensures forall l | 0 <= l < |s.loads| :: s.loads[l].idx == idx ==> s.loads[l].outcome.Some?
  {
    CountZero(s.loads, RunningFor(idx));
  }

  lemma StartKeepsLoads(s: State, v': View, idx: Account)
    requires Inv(s) && (idx in s.view.entries ==> !s.view.entries[idx].loading)
    requires idx in v'.entries && v'.entries[idx].loading && v'.entries.Keys == s.view.entries.Keys + {idx}
    requires forall i | i in s.view.entries && i != idx :: v'.entries[i] == s.view.entries[i]
    ensures var loads := s.loads + [Load(idx, None)];
      && (forall l | 0 <= l < |loads| :: LoadOk(v', loads, l))
      && (forall i :: Count(loads, RunningFor(i)) == if i in v'.entries && v'.entries[i].loading then 1 else 0)
      && (forall i :: Latest(loads, i) == Latest(s.loads, i))
  {
    NoneRunning(s, idx);
    var loads := s.loads + [Load(idx, None)];
    assert loads[..|s.loads|] == s.loads;
    forall l | 0 <= l < |loads|
      ensures LoadOk(v', loads, l)
    {
      if l < |s.loads| {
        assert LoadOk(s.view, s.loads, l);
      }
    }
  }

  // ----- every action keeps it -----

  /** Account idx may have got an entry or a new channel; nothing else of the store is different. */
  predicate Touched(v: View, v': View, idx: Account) {
    && v'.refresh == v.refresh && idx in v'.entries && v'.entries.Keys == v.entries.Keys + {idx}
    && (forall i | i in v.entries && i != idx :: v'.entries[i] == v.entries[i])
    && |v.channels| <= |v'.channels| && v'.channels[..|v.channels|] == v.channels
    && (Answerable(v, idx) ==> Answerable(v', idx))
  }

  lemma TouchKeepsOthers(s: State, v': View, loads': seq<Load>, idx: Account)
    requires Inv(s) && Touched(s.view, v', idx) && EntryOk(v', loads', idx)
    requires forall i | i != idx :: Latest(loads', i) == Latest(s.loads, i)
    requires forall c | 0 <= c < |v'.channels| && v'.channels[c].owner == idx :: ChannelOk(v', c)
    requires forall c | |s.view.channels| <= c < |v'.channels| :: v'.channels[c].owner == idx
    ensures forall i | i in v'.entries :: EntryOk(v', loads', i)
    ensures forall c | 0 <= c < |v'.channels| :: ChannelOk(v', c)
    ensures forall g | 0 <= g < |s.getters| :: GetterOk(v', s.getters[g])
    ensures forall i | i !in v'.entries :: Latest(loads', i) == None
  {
    forall i | i in v'.entries
      ensures EntryOk(v', loads', i)
    {
      if i != idx {
        assert EntryOk(s.view, s.loads, i);
      }
    }
    forall c | 0 <= c < |v'.channels|
      ensures ChannelOk(v', c)
    {
      if v'.channels[c].owner != idx {
        assert ChannelOk(s.view, c) && v'.channels[c] == s.view.channels[c];
      }
    }
    forall g | 0 <= g < |s.getters|
      ensures GetterOk(v', s.getters[g])
    {
      assert GetterOk(s.view, s.getters[g]);
      var pc := s.getters[g].pc;
      if pc.Waiting? {
        assert v'.channels[pc.done] == s.view.channels[pc.done];
      }
    }
  }

  /** A critical section of get or WarmUp. */
  predicate Entered(s: State, idx: Account, v': View, started: bool) {
    || (v', started) == (s.view.Enter(idx, s.now).0, s.view.Enter(idx, s.now).2)
    || ((v', started) == s.view.WarmUp(idx) && WarmUpAllowed(s, idx))
  }

  lemma EnterTouches(s: State, idx: Account, v': View, started: bool)
    requires Entered(s, idx, v', started)
    requires idx in s.view.entries ==> EntryOk(s.view, s.loads, idx)
    ensures Touched(s.view, v', idx)
    ensures forall c | |s.view.channels| <= c < |v'.channels| :: v'.channels[c].owner == idx
    ensures started ==> v'.entries[idx].loading && (idx in s.view.entries ==> !s.view.entries[idx].loading)
    ensures !started ==> idx in s.view.entries && v' == s.view
  {}

  lemma EnterEntryOk(s: State, idx: Account, v': View, started: bool)
    requires Entered(s, idx, v', started)
    requires if idx in s.view.entries then EntryOk(s.view, s.loads, idx) else Latest(s.loads, idx) == None
    ensures idx in v'.entries && EntryOk(v', WithLoad(s.loads, idx, started), idx)
  {
    assert (s.loads + [Load(idx, None)])[..|s.loads|] == s.loads;
  }

  lemma EnterChannelOk(s: State, idx: Account, v': View, started: bool, c: ChannelId)
    requires Entered(s, idx, v', started) && c < |v'.channels| && v'.channels[c].owner == idx
    requires idx in s.view.entries ==> EntryOk(s.view, s.loads, idx)
    requires c < |s.view.channels| ==> ChannelOk(s.view, c)
    ensures ChannelOk(v', c)
  {}

  /** A critical section that starts the account's load, or leaves it running. */
  lemma EnterOk(s: State, idx: Account, v': View, started: bool)
    requires Inv(s) && Entered(s, idx, v', started)
    ensures Touched(s.view, v', idx) && EntryOk(v', WithLoad(s.loads, idx, started), idx)
    ensures forall c | |s.view.channels| <= c < |v'.channels| :: v'.channels[c].owner == idx
    ensures forall c | 0 <= c < |v'.channels| && v'.channels[c].owner == idx :: ChannelOk(v', c)
    ensures started ==> v'.entries[idx].loading && (idx in s.view.entries ==> !s.view.entries[idx].loading)
    ensures !started ==> idx in s.view.entries && v' == s.view
  {
    assert idx in s.view.entries ==> EntryOk(s.view, s.loads, idx);
    EnterTouches(s, idx, v', started);
    EnterEntryOk(s, idx, v', started);
    forall c | 0 <= c < |v'.channels| && v'.channels[c].owner == idx
      ensures ChannelOk(v', c)
    {
      assert c < |s.view.channels| ==> ChannelOk(s.view, c);
      EnterChannelOk(s, idx, v', started, c);
    }
  }

  lemma EnterKeepsInv(s: State, idx: Account, v': View, started: bool)
    requires Inv(s) && Entered(s, idx, v', started)
    ensures Inv(s.(view := v', loads := WithLoad(s.loads, idx, started)))
  {
    EnterOk(s, idx, v', started);
    var loads' := WithLoad(s.loads, idx, started);
    if started {
      StartKeepsLoads(s, v', idx);
    }
    TouchKeepsOthers(s, v', loads', idx);
  }

  lemma FinishOk(s: State, l: nat, res: Result<Option<Listing>, Error>, v': View, loads': seq<Load>)
    requires Inv(s) && Enabled(s, Finish(l, res))
    requires v' == s.view.FinishLoad(s.loads[l].idx, s.now, res)
    requires loads' == s.loads[l := s.loads[l].(outcome := Some(res))]
    ensures var idx := s.loads[l].idx;
      && EntryOk(v', loads', idx) && v'.entries.Keys == s.view.entries.Keys
      && (forall c | 0 <= c < |v'.channels| && v'.channels[c].owner == idx :: ChannelOk(v', c))
      && (forall i | i != idx :: Latest(loads', i) == Latest(s.loads, i))
      && !v'.entries[idx].loading
  {
    var idx := s.loads[l].idx;
    var load := s.loads[l].(outcome := Some(res));
    assert EntryOk(s.view, s.loads, idx) && LoadOk(s.view, s.loads, l);
    if res.Success? {
      LatestSet(s.loads, l, load);
    } else {
      LatestKept(s.loads, l, load, idx);
    }
    forall i | i != idx
      ensures Latest(loads', i) == Latest(s.loads, i)
    {
      LatestKept(s.loads, l, load, i);
    }
    forall c | 0 <= c < |v'.channels| && v'.channels[c].owner == idx
      ensures ChannelOk(v', c)
    {
      assert ChannelOk(s.view, c);
    }
  }

  lemma FinishKeepsLoads(s: State, l: nat, res: Result<Option<Listing>, Error>, v': View)
    requires Inv(s) && Enabled(s, Finish(l, res))
    requires v' == s.view.FinishLoad(s.loads[l].idx, s.now, res)
    ensures var loads' := s.loads[l := s.loads[l].(outcome := Some(res))];
      && (forall m | 0 <= m < |loads'| :: LoadOk(v', loads', m))
      && (forall i :: Count(loads', RunningFor(i)) == if i in v'.entries && v'.entries[i].loading then 1 else 0)
  {
    var idx := s.loads[l].idx;
    var load := s.loads[l].(outcome := Some(res));
    var loads' := s.loads[l := load];
    assert LoadOk(s.view, s.loads, l);
    forall m | 0 <= m < |loads'|
      ensures LoadOk(v', loads', m)
    {
      assert LoadOk(s.view, s.loads, m);
    }
    forall i
      ensures Count(loads', RunningFor(i)) == if i in v'.entries && v'.entries[i].loading then 1 else 0
    {
      CountUpdate(s.loads, RunningFor(i), l, load);
    }
  }

  lemma FinishKeepsEntries(s: State, l: nat, res: Result<Option<Listing>, Error>, v': View, loads': seq<Load>)
    requires Inv(s) && Enabled(s, Finish(l, res))
    requires v' == s.view.FinishLoad(s.loads[l].idx, s.now, res)
    requires loads' == s.loads[l := s.loads[l].(outcome := Some(res))]
    ensures v'.entries.Keys == s.view.entries.Keys
    ensures forall i | i in v'.entries :: EntryOk(v', loads', i)
  {
    var idx := s.loads[l].idx;
    FinishOk(s, l, res, v', loads');
    forall i | i in v'.entries
      ensures EntryOk(v', loads', i)
    {
      assert EntryOk(s.view, s.loads, i) && EntryOk(s.view, s.loads, idx);
    }
  }

  lemma FinishKeepsChannels(s: State, l: nat, res: Result<Option<Listing>, Error>, v': View, loads': seq<Load>)
    requires Inv(s) && Enabled(s, Finish(l, res))
    requires v' == s.view.FinishLoad(s.loads[l].idx, s.now, res)
    requires loads' == s.loads[l := s.loads[l].(outcome := Some(res))]
    ensures forall c | 0 <= c < |v'.channels| :: ChannelOk(v', c)
  {
    var idx := s.loads[l].idx;
    FinishOk(s, l, res, v', loads');
    forall c | 0 <= c < |v'.channels|
      ensures ChannelOk(v', c)
    {
      assert ChannelOk(s.view, c) && EntryOk(s.view, s.loads, idx);
    }
  }

  lemma FinishKeepsGetter(s: State, l: nat, res: Result<Option<Listing>, Error>, v': View, loads': seq<Load>, g: Getter)
    requires Inv(s) && Enabled(s, Finish(l, res))
    requires v' == s.view.FinishLoad(s.loads[l].idx, s.now, res)
    requires loads' == s.loads[l := s.loads[l].(outcome := Some(res))]
    requires GetterOk(s.view, g)
    ensures GetterOk(v', g)
  {
    var idx := s.loads[l].idx;
    assert LoadOk(s.view, s.loads, l);
    assert EntryOk(s.view, s.loads, idx);
  }

  lemma FinishKeepsAbsent(s: State, l: nat, res: Result<Option<Listing>, Error>, v': View, loads': seq<Load>)
    requires Inv(s) && Enabled(s, Finish(l, res))
    requires v' == s.view.FinishLoad(s.loads[l].idx, s.now, res)
    requires loads' == s.loads[l := s.loads[l].(outcome := Some(res))]
    ensures forall i | i !in v'.entries :: Latest(loads', i) == None
  {
    assert LoadOk(s.view, s.loads, l);
    FinishOk(s, l, res, v', loads');
  }

  lemma FinishKeepsInv(s: State, l: nat, res: Result<Option<Listing>, Error>, v': View, loads': seq<Load>)
    requires Inv(s) && Enabled(s, Finish(l, res))
    requires v' == s.view.FinishLoad(s.loads[l].idx, s.now, res)
    requires loads' == s.loads[l := s.loads[l].(outcome := Some(res))]
    ensures Inv(s.(view := v', loads := loads'))
  {
    FinishKeepsLoads(s, l, res, v');
    FinishKeepsEntries(s, l, res, v', loads');
    FinishKeepsChannels(s, l, res, v', loads');
    FinishKeepsAbsent(s, l, res, v', loads');
    forall g | 0 <= g < |s.getters|
      ensures GetterOk(v', s.getters[g])
    {
      FinishKeepsGetter(s, l, res, v', loads', s.getters[g]);
    }
  }

  lemma GetterKeepsInv(s: State, a: Action)
    requires Inv(s) && Enabled(s, a) && (a.Wake? || a.GiveUp? || a.Leave?)
    ensures Inv(Apply(s, a))
  {
    assert GetterOk(s.view, s.getters[a.g]);
    if a.Wake? {
      assert ChannelOk(s.view, s.getters[a.g].pc.done);
    }
  }

  lemma ApplyKeepsInv(s: State, a: Action)
    requires Inv(s) && Enabled(s, a) && Allowed(s, a)
    ensures Inv(Apply(s, a))
  {
    match a
    case Tick(_) =>
    case Call(_) =>
    case Warm(idx) => EnterKeepsInv(s, idx, Apply(s, a).view, s.view.WarmUp(idx).1);
    case Enter(g) =>
      var idx := s.getters[g].idx;
      EnterKeepsInv(s, idx, Apply(s, a).view, s.view.Enter(idx, s.now).2);
      EnteredOk(s, g);
    case Finish(l, res) => FinishKeepsInv(s, l, res, Apply(s, a).view, Apply(s, a).loads);
    case _ => GetterKeepsInv(s, a);
  }

  lemma EnteredOk(s: State, g: nat)
    requires Inv(s) && Enabled(s, Enter(g))
    ensures GetterOk(Apply(s, Enter(g)).view, Apply(s, Enter(g)).getters[g])
  {
    EnterOk(s, s.getters[g].idx, Apply(s, Enter(g)).view, s.view.Enter(s.getters[g].idx, s.now).2);
  }

  lemma {:induction false} RunKeepsInv(states: seq<State>, actions: seq<Action>, i: nat)
    requires Run(states, actions) && i < |states|
    ensures Inv(states[i])
  {
    if i > 0 {
      RunKeepsInv(states, actions, i - 1);
      ApplyKeepsInv(states[i - 1], actions[i - 1]);
    }
  }
}
