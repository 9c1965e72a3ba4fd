/** What the timeline store promises in every execution. */
module TimelineTheorems {
  import opened Basics
  import opened TimelineStore
  import opened TimelineRuns

  /** An account never has two loads outstanding, `loading` holds exactly while
      one is, and no channel is closed twice. */
  lemma LoadsNeverOverlap(states: seq<State>, actions: seq<Action>, i: nat, idx: Account)
    requires Run(states, actions) && i < |states|
    ensures var s := states[i];
      && Count(s.loads, RunningFor(idx)) == (if idx in s.view.entries && s.view.entries[idx].loading then 1 else 0)
      && forall c | 0 <= c < |s.view.channels| :: s.view.channels[c].closes <= 1
  {
    RunKeepsInv(states, actions, i);
    forall c | 0 <= c < |states[i].view.channels|
      ensures states[i].view.channels[c].closes <= 1
    {
      assert ChannelOk(states[i].view, c);
    }
  }

  /** get never returns (nil, nil), not even to a waiter on an old channel that
      a retry has replaced; and a listing it returns is what the account's
      latest successful load returned, never anything else. */
  lemma GetAnswers(s: State, a: Action)
    requires Inv(s) && Enabled(s, a) && (a.Enter? || a.Leave? || a.GiveUp?)
    ensures var pc := Apply(s, a).getters[a.g].pc;
      pc.Returned? ==>
        && (pc.assets.Some? <==> pc.err.None?)
        && (pc.assets.Some? ==> pc.assets == Latest(s.loads, s.getters[a.g].idx))
  {
    var idx := s.getters[a.g].idx;
    assert GetterOk(s.view, s.getters[a.g]);
    assert idx in s.view.entries ==> EntryOk(s.view, s.loads, idx);
  }

  /** A loaded copy is only ever replaced by a newer successful load: it
      survives failed refreshes and never becomes nil again. */
  lemma CopySurvives(s: State, a: Action, idx: Account)
    requires Inv(s) && Enabled(s, a) && idx in s.view.entries && s.view.entries[idx].assets.Some?
    ensures var s' := Apply(s, a);
      && idx in s'.view.entries && s'.view.entries[idx].assets.Some?
      && if a.Finish? && s.loads[a.l].idx == idx && a.res.Success?
         then s'.view.entries[idx].fetchedAt == s.now
         else s'.view.entries[idx].assets == s.view.entries[idx].assets &&
              s'.view.entries[idx].fetchedAt == s.view.entries[idx].fetchedAt
  {
    if a.Enter? {
      EnterKeepsCopy(s.view, s.getters[a.g].idx, s.now, idx);
    } else if a.Finish? {
      FinishKeepsCopy(s.view, s.loads[a.l].idx, s.now, a.res, idx);
    }
  }

  lemma EnterKeepsCopy(v: View, idx: Account, now: int, other: Account)
    requires other in v.entries && v.entries[other].assets.Some?
    ensures var v' := v.Enter(idx, now).0;
      && other in v'.entries
      && v'.entries[other].assets == v.entries[other].assets &&
         v'.entries[other].fetchedAt == v.entries[other].fetchedAt
  {}

  lemma FinishKeepsCopy(v: View, idx: Account, now: int, res: Result<Option<Listing>, Error>, other: Account)
    requires idx in v.entries && other in v.entries && v.entries[other].assets.Some?
    requires v.entries[idx].firstDone < |v.channels|
    ensures var v' := v.FinishLoad(idx, now, res);
      && other in v'.entries && v'.entries[other].assets.Some?
      && if idx == other && res.Success? then v'.entries[other].fetchedAt == now
         else v'.entries[other].assets == v.entries[other].assets &&
                 v'.entries[other].fetchedAt == v.entries[other].fetchedAt
  {}

  /** get answers from memory without waiting whenever there is a copy, and if
      that copy is stale a refresh is running by the time it has answered. */
  lemma StaleOnlyWhileRefreshing(s: State, g: nat)
    requires Inv(s) && Enabled(s, Enter(g))
    requires s.getters[g].idx in s.view.entries && s.view.entries[s.getters[g].idx].assets.Some?
    ensures var s', idx := Apply(s, Enter(g)), s.getters[g].idx;
      && s'.getters[g].pc == Returned(s.view.entries[idx].assets, None)
      && (s.now - s.view.entries[idx].fetchedAt >= s.view.refresh ==> Count(s'.loads, RunningFor(idx)) == 1)
      && (s.now - s.view.entries[idx].fetchedAt < s.view.refresh ==> s'.loads == s.loads)
  {
    ApplyKeepsInv(s, Enter(g));
  }

  /** The load a waiter needs: running, and about to close the waiter's channel whatever it returns. */
  predicate WillWake(s: State, l: nat, c: ChannelId) {
    && l < |s.loads| && s.loads[l].outcome.None? && s.loads[l].idx in s.view.entries
    && s.view.entries[s.loads[l].idx].firstDone == c && s.view.entries[s.loads[l].idx].assets.None?
  }

  /** A getter that waits is never forgotten: its channel is closed, or a load
      is running whose end closes it. */
  lemma NoForgottenWaiter(s: State, g: nat)
    requires Inv(s) && g < |s.getters| && s.getters[g].pc.Waiting?
    ensures var c := s.getters[g].pc.done;
      c < |s.view.channels| &&
      if s.view.channels[c].closes > 0 then Enabled(s, Wake(g)) else exists l :: WillWake(s, l, c)
  {
    var c, idx := s.getters[g].pc.done, s.getters[g].idx;
    assert GetterOk(s.view, s.getters[g]);
    assert ChannelOk(s.view, c);
    assert EntryOk(s.view, s.loads, idx);
    if s.view.channels[c].closes == 0 {
      CountZero(s.loads, RunningFor(idx));
      var l :| 0 <= l < |s.loads| && RunningFor(idx)(s.loads[l]);
      assert WillWake(s, l, c);
    }
  }

  lemma WakesUp(s: State, l: nat, c: ChannelId, res: Result<Option<Listing>, Error>)
    requires Inv(s) && WillWake(s, l, c)
    ensures Enabled(s, Finish(l, res)) && Apply(s, Finish(l, res)).view.ChannelClosed(c)
  {
    assert EntryOk(s.view, s.loads, s.loads[l].idx);
  }

  // ----- warm-up after a failed attempt -----

  /** Account idx is being loaded for the first time with its channel already
      closed, so when load l ends the channel is closed a second time. */
  predicate Doomed(s: State, idx: Account, l: nat) {
    && l < |s.loads| && s.loads[l] == Load(idx, None) && idx in s.view.entries
    && var e := s.view.entries[idx];
    && e.loading && e.assets.None? && e.firstDone < |s.view.channels| && s.view.channels[e.firstDone].closes > 0
    && forall m | 0 <= m < |s.loads| && m != l :: s.loads[m].idx == idx ==> s.loads[m].outcome.Some?
  }

  /** warmUp is safe exactly when its guard holds: then the invariant goes on;
      otherwise it starts a load that cannot end without closing a closed
      channel. */
  lemma WarmUpSafeIff(s: State, idx: Account)
    requires Inv(s)
    ensures Inv(Apply(s, Warm(idx))) <==> WarmUpAllowed(s, idx)
    ensures !WarmUpAllowed(s, idx) ==> Doomed(Apply(s, Warm(idx)), idx, |s.loads|)
  {
    if WarmUpAllowed(s, idx) {
      ApplyKeepsInv(s, Warm(idx));
    } else {
      assert EntryOk(s.view, s.loads, idx);
      NoneRunning(s, idx);
      var s' := Apply(s, Warm(idx));
      assert !EntryOk(s'.view, s'.loads, idx);
    }
  }

  /** Nothing but the end of that load changes this, and its end double-closes. */
  lemma DoomedUntilPanic(s: State, idx: Account, l: nat, a: Action)
    requires Doomed(s, idx, l) && Enabled(s, a)
    ensures if a.Finish? && a.l == l
            then Apply(s, a).view.channels[s.view.entries[idx].firstDone].closes >= 2
            else Doomed(Apply(s, a), idx, l)
  {}

  /** A failed first attempt really leads there: the store, one failed get, then a warm-up. */
  lemma FailedGetThenWarmUp(s: State, err: Error) returns (s': State)
    requires Init(s)
    ensures Inv(s') && !WarmUpAllowed(s', 0) && s'.loads == [Load(0, Some(Failure(err)))]
  {
    InitInv(s);
    var s1 := Apply(s, Call(0));
    ApplyKeepsInv(s, Call(0));
    var s2 := Apply(s1, Enter(0));
    ApplyKeepsInv(s1, Enter(0));
    assert s2.loads == [Load(0, None)];
    s' := Apply(s2, Finish(0, Failure(err)));
    ApplyKeepsInv(s2, Finish(0, Failure(err)));
  }
}
