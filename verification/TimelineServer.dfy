/** get as dlna/timelinestore.go writes it, over a Store that other goroutines use meanwhile. */
module TimelineServer {
  import opened Basics
  import opened TimelineStore
  import opened TimelineRuns
  import opened TimelineTheorems

  predicate SameGetter(s: State, s': State, g: nat) {
    g < |s.getters| && g < |s'.getters| && s'.getters[g] == s.getters[g]
  }

  /** An operation of getter g itself. */
  predicate OfGetter(a: Action, g: nat) { (a.Enter? || a.Wake? || a.GiveUp? || a.Leave?) && a.g == g }

  lemma OthersKeepGetter(s: State, a: Action, g: nat)
    requires Enabled(s, a) && !OfGetter(a, g) && g < |s.getters|
    ensures SameGetter(s, Apply(s, a), g)
  {}

  lemma LeaveEnabled(s: State, g: nat)
    requires Inv(s) && g < |s.getters| && s.getters[g].pc.Leaving?
    ensures Enabled(s, Leave(g))
  {
    assert GetterOk(s.view, s.getters[g]);
  }

  /** What get returns comes from the latest successful load there is when it returns. */
  lemma AnswerIsLatest(s: State, a: Action)
    requires Inv(s) && Enabled(s, a) && (a.Enter? || a.Leave? || a.GiveUp?)
    ensures var s' := Apply(s, a); var pc := s'.getters[a.g].pc;
      pc.Returned? ==>
        && (pc.assets.Some? <==> pc.err.None?)
        && (pc.assets.Some? ==> pc.assets == Latest(s'.loads, s.getters[a.g].idx))
  {
    GetAnswers(s, a);
    var idx := s.getters[a.g].idx;
    assert (s.loads + [Load(idx, None)])[..|s.loads|] == s.loads;
  }

  class Server {
    const store: Store
    var now: int
    var getters: seq<Getter> // where each getter's goroutine is
    var loads: seq<Load>     // and each load's

    constructor (refresh: int)
      ensures Valid() && fresh(store) && getters == [] && loads == []
    {
      store := new Store(refresh);
      now, getters, loads := 0, [], [];
      new;
      InitInv(Now());
    }

    function Now(): State
      reads this, store
    {
      State(store.Abstract(), now, getters, loads)
    }

    ghost predicate Valid()
      reads this, store
    {
      Inv(Now())
    }

    method StartedLoad(idx: Account, started: bool)
      modifies this`loads
      ensures loads == WithLoad(old(loads), idx, started)
    {
      if started {
        loads := loads + [Load(idx, None)];
      }
    }

    /** get up to its first unlock: an answer, or a channel to wait on. */
    method BeginGet(g: nat) returns (outcome: Entered)
      requires Valid() && Enabled(Now(), Enter(g))
      modifies this`getters, this`loads, store
      ensures Valid() && Now() == old(Apply(Now(), Enter(g)))
      ensures getters[g].pc == match outcome
        case Answer(assets) => Returned(Some(assets), None)
        case Await(done) => Waiting(done)
    {
      ApplyKeepsInv(Now(), Enter(g));
      var idx, started := getters[g].idx, false;
      outcome, started := store.Get(idx, now);
      StartedLoad(idx, started);
      var pc := match outcome case Answer(assets) => Returned(Some(assets), None) case Await(done) => Waiting(done);
      getters := getters[g := getters[g].(pc := pc)];
    }

    /** get after the channel it waited on was closed. */
    method EndGet(g: nat) returns (assets: Option<Listing>, err: Option<Error>)
      requires Valid() && Enabled(Now(), Leave(g))
      modifies this`getters
      ensures Valid() && Now() == old(Apply(Now(), Leave(g))) && getters[g].pc == Returned(assets, err)
    {
      ApplyKeepsInv(Now(), Leave(g));
      assets, err := store.GetAgain(getters[g].idx);
      getters := getters[g := getters[g].(pc := Returned(assets, err))];
    }

    method WakeUp(g: nat)
      requires Valid() && Enabled(Now(), Wake(g))
      modifies this`getters
      ensures Valid() && Now() == old(Apply(Now(), Wake(g)))
    {
      ApplyKeepsInv(Now(), Wake(g));
      getters := getters[g := getters[g].(pc := Leaving)];
    }

    /** timelineFirstLoadWait is over. */
    method TimeOut(g: nat) returns (err: Error)
      requires Valid() && Enabled(Now(), GiveUp(g))
      modifies this`getters
      ensures Valid() && Now() == old(Apply(Now(), GiveUp(g))) && getters[g].pc == Returned(None, Some(err))
    {
      ApplyKeepsInv(Now(), GiveUp(g));
      err := STILL_LOADING;
      getters := getters[g := getters[g].(pc := Returned(None, Some(err)))];
    }

    /** Any other goroutine's operation. */
    method Perform(a: Action)
      requires Valid() && Enabled(Now(), a) && Allowed(Now(), a)
      modifies this, store
      ensures Valid() && Now() == old(Apply(Now(), a))
    {
      match a {
        case Enter(g) => var _ := BeginGet(g);
        case Leave(g) => var _, _ := EndGet(g);
        case Wake(g) => WakeUp(g);
        case GiveUp(g) => var _ := TimeOut(g);
        case _ => PerformOther(a);
      }
    }

    /** The clock, a new caller, a warm-up or the end of a load. */
    method PerformOther(a: Action)
      requires Valid() && Enabled(Now(), a) && Allowed(Now(), a) && (a.Tick? || a.Call? || a.Warm? || a.Finish?)
      modifies this, store
      ensures Valid() && Now() == old(Apply(Now(), a))
    {
      ApplyKeepsInv(Now(), a);
      match a {
        case Tick(elapsed) => now := now + elapsed;
        case Call(idx) => getters := getters + [Getter(idx, Entering)];
        case Warm(idx) =>
          var started := store.WarmUp(idx);
          StartedLoad(idx, started);
        case Finish(l, res) =>
          store.LoadEnds(loads[l].idx, now, res);
          loads := loads[l := loads[l].(outcome := Some(res))];
      }
    }

    /** Whatever of these the other goroutines can do, in turn, they do. */
    method Others(g: nat, acts: seq<Action>)
      requires Valid() && g < |getters|
      modifies this, store
      ensures Valid() && SameGetter(old(Now()), Now(), g)
    {
      for i := 0 to |acts|
        invariant Valid() && SameGetter(old(Now()), Now(), g)
      {
        if Enabled(Now(), acts[i]) && Allowed(Now(), acts[i]) && !OfGetter(acts[i], g) {
          OthersKeepGetter(Now(), acts[i], g);
          Perform(acts[i]);
        }
      }
    }

    /** get after its wait: the listing that closed its channel, or what followed it, or the first load's error. */
    method Collect(g: nat, acts: seq<Action>) returns (assets: Option<Listing>, err: Option<Error>)
      requires Valid() && Enabled(Now(), Wake(g))
      modifies this, store
      ensures Valid() && g < |getters| && getters[g] == Getter(old(getters[g].idx), Returned(assets, err))
      ensures (assets.Some? <==> err.None?) && (assets.Some? ==> assets == Latest(loads, getters[g].idx))
    {
      WakeUp(g);
      Others(g, acts);
      LeaveEnabled(Now(), g);
      AnswerIsLatest(Now(), Leave(g));
      assets, err := EndGet(g);
    }

    /** get, whole: `meanwhile` is what the others do while it waits, `afterwards`
        what they do between the close of its channel and its second lock, and
        `timely` whether the channel wins against the timer if it is closed.
        Whatever they are, it returns a listing or an error and never both or
        neither, and the listing is the latest successful load's. */
    method GetTimeline(g: nat, meanwhile: seq<Action>, afterwards: seq<Action>, timely: bool)
      returns (assets: Option<Listing>, err: Option<Error>)
      requires Valid() && g < |getters| && getters[g].pc.Entering?
      modifies this, store
      ensures Valid() && g < |getters| && getters[g] == Getter(old(getters[g].idx), Returned(assets, err))
      ensures assets.Some? <==> err.None?
      ensures assets.Some? ==> assets == Latest(loads, getters[g].idx)
    {
      AnswerIsLatest(Now(), Enter(g));
      var outcome := BeginGet(g);
      if outcome.Answer? {
        return Some(outcome.assets), None;
      }
      Others(g, meanwhile);
      if timely && outcome.done < |store.channels| && store.channels[outcome.done].closes > 0 {
        assets, err := Collect(g, afterwards);
      } else {
        var loading := TimeOut(g);
        return None, Some(loading);
      }
    }
  }
}
