/** When the timeline store loads and what it answers, read off the ends of loads in a run. */
module TimelineRefresh {
  import opened Basics
  import opened TimelineStore
  import opened TimelineRuns

  /** Action a ends a load of account idx with a listing. */
  predicate EndsWell(s: State, a: Action, idx: Account) {
    a.Finish? && a.l < |s.loads| && s.loads[a.l].idx == idx && a.res.Success?
  }

  /** Or with an error. */
  predicate EndsBadly(s: State, a: Action, idx: Account) {
    a.Finish? && a.l < |s.loads| && s.loads[a.l].idx == idx && a.res.Failure?
  }

  /** The listing such an end brings: a nil listing is an empty one. */
  function Brought(a: Action): Listing
    requires a.Finish? && a.res.Success?
  {
    if a.res.value.Some? then a.res.value.value else []
  }

  /** Which of the first i actions was the last to end a load of idx with a listing. */
  ghost function LastGood(states: seq<State>, actions: seq<Action>, i: nat, idx: Account): (k: Option<nat>)
    requires |states| == |actions| + 1 && i <= |actions|
    ensures k.Some? ==> k.value < i && EndsWell(states[k.value], actions[k.value], idx)
    ensures k.Some? ==> forall m | k.value < m < i :: !EndsWell(states[m], actions[m], idx)
    ensures k.None? ==> forall m | 0 <= m < i :: !EndsWell(states[m], actions[m], idx)
  {
    if i == 0 then None
    else if EndsWell(states[i - 1], actions[i - 1], idx) then Some(i - 1)
    else LastGood(states, actions, i - 1, idx)
  }

  /** And which was the last to end one with an error. */
  ghost function LastBad(states: seq<State>, actions: seq<Action>, i: nat, idx: Account): (k: Option<nat>)
    requires |states| == |actions| + 1 && i <= |actions|
    ensures k.Some? ==> k.value < i && EndsBadly(states[k.value], actions[k.value], idx)
    ensures k.Some? ==> forall m | k.value < m < i :: !EndsBadly(states[m], actions[m], idx)
    ensures k.None? ==> forall m | 0 <= m < i :: !EndsBadly(states[m], actions[m], idx)
  {
    if i == 0 then None
    else if EndsBadly(states[i - 1], actions[i - 1], idx) then Some(i - 1)
    else LastBad(states, actions, i - 1, idx)
  }

  // ----- one action, seen by one account -----

  predicate SameEntry(v: View, v': View, idx: Account) {
    if idx in v.entries then
      idx in v'.entries && v'.entries[idx].assets == v.entries[idx].assets &&
      v'.entries[idx].fetchedAt == v.entries[idx].fetchedAt && v'.entries[idx].firstErr == v.entries[idx].firstErr
    else
      idx in v'.entries ==> v'.entries[idx].assets.None? && v'.entries[idx].firstErr.None?
  }

  lemma EnterKeepsEntry(v: View, idx: Account, now: int, other: Account)
    ensures SameEntry(v, v.Enter(idx, now).0, other)
  {}

  lemma WarmUpKeepsEntry(v: View, idx: Account, other: Account)
    ensures SameEntry(v, v.WarmUp(idx).0, other)
  {}

  lemma FinishKeepsEntry(v: View, idx: Account, now: int, res: Result<Option<Listing>, Error>, other: Account)
    requires idx in v.entries && v.entries[idx].firstDone < |v.channels| && other != idx
    ensures SameEntry(v, v.FinishLoad(idx, now, res), other)
  {}

  lemma QuietKeepsEntry(s: State, a: Action, idx: Account)
    requires Enabled(s, a) && !EndsWell(s, a, idx) && !EndsBadly(s, a, idx)
    ensures SameEntry(s.view, Apply(s, a).view, idx)
  {
    match a
    case Enter(g) => EnterKeepsEntry(s.view, s.getters[g].idx, s.now, idx);
    case Warm(i) => WarmUpKeepsEntry(s.view, i, idx);
    case Finish(l, res) => FinishKeepsEntry(s.view, s.loads[l].idx, s.now, res, idx);
    case _ =>
  }

  lemma GoodEnd(s: State, a: Action, idx: Account)
    requires Enabled(s, a) && EndsWell(s, a, idx)
    ensures var v := Apply(s, a).view;
      idx in v.entries && v.entries[idx].assets == Some(Brought(a)) && v.entries[idx].fetchedAt == s.now
  {}

  lemma BadEnd(s: State, a: Action, idx: Account)
    requires Enabled(s, a) && EndsBadly(s, a, idx)
    ensures var v, v' := s.view, Apply(s, a).view;
      && idx in v.entries && idx in v'.entries
      && v'.entries[idx].assets == v.entries[idx].assets && v'.entries[idx].fetchedAt == v.entries[idx].fetchedAt
      && (v.entries[idx].assets.None? ==> v'.entries[idx].firstErr == Some(a.res.error))
  {}

  // ----- what the store holds -----

  /** What the entry of idx has to be after these ends: the last good one's
      listing and time, or the last bad one's error. */
  ghost predicate Holds(states: seq<State>, actions: seq<Action>, i: nat, idx: Account)
    requires |states| == |actions| + 1 && i <= |actions|
  {
    var v, good, bad := states[i].view, LastGood(states, actions, i, idx), LastBad(states, actions, i, idx);
    if good.Some? then
      && idx in v.entries && v.entries[idx].assets == Some(Brought(actions[good.value]))
      && v.entries[idx].fetchedAt == states[good.value].now
    else if idx in v.entries then
      && v.entries[idx].assets.None?
      && v.entries[idx].firstErr == (if bad.Some? then Some(actions[bad.value].res.error) else None)
    else
      bad.None?
  }

  lemma {:induction false} StoreHolds(states: seq<State>, actions: seq<Action>, i: nat, idx: Account)
    requires Run(states, actions) && i <= |actions|
    ensures Holds(states, actions, i, idx)
  {
    if i > 0 {
      StoreHolds(states, actions, i - 1, idx);
      var s, a := states[i - 1], actions[i - 1];
      if EndsWell(s, a, idx) {
        GoodEnd(s, a, idx);
      } else if EndsBadly(s, a, idx) {
        BadEnd(s, a, idx);
      } else {
        QuietKeepsEntry(s, a, idx);
      }
    }
  }

  // ----- when a load is started -----

  /** How many loads of the account are running. */
  ghost function Running(s: State, idx: Account): nat { Count(s.loads, RunningFor(idx)) }

  lemma EnterStale(v: View, idx: Account, now: int)
    requires idx in v.entries && v.entries[idx].assets.Some?
    ensures var (v', answer, started) := v.Enter(idx, now);
      && answer == Answer(v.entries[idx].assets.value)
      && (started <==> !v.entries[idx].loading && now - v.entries[idx].fetchedAt >= v.refresh)
  {}

  lemma EnterFirst(v: View, idx: Account, now: int)
    requires idx in v.entries ==> v.entries[idx].assets.None?
    ensures var (v', answer, started) := v.Enter(idx, now);
      && answer.Await?
      && (started <==> !(idx in v.entries && v.entries[idx].loading))
  {}

  lemma WarmUpStarts(v: View, idx: Account)
    ensures v.WarmUp(idx).1 <==> !(idx in v.entries && (v.entries[idx].assets.Some? || v.entries[idx].loading))
  {}

  lemma RunningIff(s: State, idx: Account)
    requires Inv(s)
    ensures Running(s, idx) == if idx in s.view.entries && s.view.entries[idx].loading then 1 else 0
  {}

  lemma {:induction false} SameInterval(states: seq<State>, actions: seq<Action>, i: nat)
    requires Run(states, actions) && i < |states|
    ensures states[i].view.refresh == states[0].view.refresh
  {
    if i > 0 {
      SameInterval(states, actions, i - 1);
      ActionKeepsInterval(states[i - 1], actions[i - 1]);
    }
  }

  lemma ActionKeepsInterval(s: State, a: Action)
    requires Enabled(s, a)
    ensures Apply(s, a).view.refresh == s.view.refresh
  {}

  lemma OneMore(loads: seq<Load>, idx: Account)
    ensures Count(loads + [Load(idx, None)], RunningFor(idx)) == Count(loads, RunningFor(idx)) + 1
  {
    assert (loads + [Load(idx, None)])[..|loads|] == loads;
  }

  /** A get of an account whose last listing came at step i answers with it, and
      starts a load if and only if none is running and the listing is as old as
      the refresh interval, or older. So a stale one is being refreshed
      afterwards, and a fresh one is left alone. */
  lemma RefreshedIff(states: seq<State>, actions: seq<Action>, i: nat, j: nat, g: nat, idx: Account)
    requires Run(states, actions) && i < j < |actions| && EndsWell(states[i], actions[i], idx)
    requires forall k | i < k < j :: !EndsWell(states[k], actions[k], idx)
    requires actions[j] == Enter(g) && g < |states[j].getters| && states[j].getters[g].idx == idx
    ensures var age, refresh, s, s' := states[j].now - states[i].now, states[0].view.refresh, states[j], states[j + 1];
      && g < |s'.getters| && s'.getters[g].pc == Returned(Some(Brought(actions[i])), None)
      && s'.loads == (if Running(s, idx) == 0 && age >= refresh then s.loads + [Load(idx, None)] else s.loads)
      && (age >= refresh ==> Running(s', idx) == 1)
  {
    SameInterval(states, actions, j);
    StoreHolds(states, actions, j, idx);
    assert LastGood(states, actions, j, idx) == Some(i);
    RunKeepsInv(states, actions, j);
    RunningIff(states[j], idx);
    EnterStale(states[j].view, idx, states[j].now);
    OneMore(states[j].loads, idx);
  }

  /** A get of an account without a listing waits, and starts a load if and only if none is running. */
  lemma FirstGetLoads(states: seq<State>, actions: seq<Action>, j: nat, g: nat, idx: Account)
    requires Run(states, actions) && j < |actions|
    requires forall k | 0 <= k < j :: !EndsWell(states[k], actions[k], idx)
    requires actions[j] == Enter(g) && g < |states[j].getters| && states[j].getters[g].idx == idx
    ensures var s, s' := states[j], states[j + 1];
      && g < |s'.getters| && s'.getters[g].pc.Waiting?
      && s'.loads == (if Running(s, idx) == 0 then s.loads + [Load(idx, None)] else s.loads)
      && Running(s', idx) == 1
  {
    StoreHolds(states, actions, j, idx);
    RunKeepsInv(states, actions, j);
    RunningIff(states[j], idx);
    EnterFirst(states[j].view, idx, states[j].now);
    OneMore(states[j].loads, idx);
  }

  /** A warm-up starts a load if and only if there is no listing and no load running. */
  lemma WarmUpLoadsIff(states: seq<State>, actions: seq<Action>, j: nat, idx: Account)
    requires Run(states, actions) && j < |actions| && actions[j] == Warm(idx)
    ensures states[j + 1].loads ==
      if LastGood(states, actions, j, idx).None? && Running(states[j], idx) == 0
      then states[j].loads + [Load(idx, None)] else states[j].loads
  {
    StoreHolds(states, actions, j, idx);
    RunKeepsInv(states, actions, j);
    RunningIff(states[j], idx);
    WarmUpStarts(states[j].view, idx);
  }

  /** Who was woken gets the listing that came last, or, where none ever came, the error that came last. */
  lemma WokenGets(states: seq<State>, actions: seq<Action>, j: nat, g: nat)
    requires Run(states, actions) && j < |actions| && actions[j] == Leave(g) && g < |states[j].getters|
    ensures var idx := states[j].getters[g].idx;
      var good, bad := LastGood(states, actions, j, idx), LastBad(states, actions, j, idx);
      && (good.Some? || bad.Some?) && g < |states[j + 1].getters|
      && states[j + 1].getters[g].pc ==
           if good.Some? then Returned(Some(Brought(actions[good.value])), None)
           else Returned(None, Some(actions[bad.value].res.error))
  {
    var s, idx := states[j], states[j].getters[g].idx;
    StoreHolds(states, actions, j, idx);
    RunKeepsInv(states, actions, j);
    assert GetterOk(s.view, s.getters[g]);
  }
}
