/** serveMedia as dlna/server.go writes it, on a Server's fields: every
    operation is one operation of the protocol, with anything that other
    goroutines may do between them. */
module MediaServer {
  import opened Basics
  import opened MediaProtocol
  import opened MediaInvariant
  import opened MediaSafety
  import opened MediaLiveness

  /** The rest of the world, as far as a request notices it: what the other
      goroutines and the clients do before its next operation, and how that
      operation goes if it can go more than one way. Both depend on the state
      only, but no two operations of a request start in the same state, so the
      world may do anything at any time. */
  datatype World = World(others: State -> seq<Action>, choice: State -> Choice)

  /** Request r has returned, and has left nothing behind that is not in the hands of its background fill. */
  predicate Returned(s: State, r: RequestId) {
    r < |s.reqs| &&
    var q := s.reqs[r];
    && q.pc.Done? && q.fl.None? && !q.slotHeld && q.released == q.acquired
    && (q.fill.NoFill? && q.gotBody ==> q.bodyCloses == 1)
    && (q.fill.NoFill? && !q.follow.NoContext? ==> q.cancels.request)
    && (q.fill.NoFill? && q.led.Some? ==>
          && q.led.value < |s.shared.table| && s.shared.table[q.led.value].doneCloses == 1
          && !(q.key in s.shared.flights && s.shared.flights[q.key] == q.led.value))
    && (!q.fill.NoFill? ==> q.led.Some? && q.fillFlight == q.led)
  }

  lemma DoneIsReturned(s: State, r: RequestId)
    requires Inv(s) && r < |s.reqs| && s.reqs[r].pc.Done?
    ensures Returned(s, r)
  {
    assert Fits(s.shared, r, s.reqs[r]);
    OwnsIsLed(s.shared.caching, s.reqs[r]);
  }

  predicate SameFill(q: Request, q': Request) { q'.key == q.key && q'.fill == q.fill && q'.fillFlight == q.fillFlight }

  lemma HandlerKeepsFill(sh: Shared, r: RequestId, q: Request, c: Choice)
    requires Local(sh.caching, q) && StepEnabled(sh, q, c) && !q.fill.NoFill?
    ensures SameFill(q, StepOf(sh, r, q, c).1)
  {
  }

  /** Nothing but its own operations changes where a background fill is. */
  lemma OthersKeepFill(s: State, a: Action, r: RequestId)
    requires Inv(s) && Enabled(s, a) && !(a.FillStep? && a.r == r) && r < |s.reqs| && !s.reqs[r].fill.NoFill?
    ensures r < |Apply(s, a).reqs| && SameFill(s.reqs[r], Apply(s, a).reqs[r])
  {
    if a.Step? && a.r == r {
      assert Fits(s.shared, r, s.reqs[r]);
      HandlerKeepsFill(s.shared, r, s.reqs[r], a.choice);
    }
  }

  /** A background fill that has returned: its flight and its body closed once, its context cancelled by it alone. */
  predicate FillIsOver(s: State, r: RequestId) {
    r < |s.reqs| &&
    var q := s.reqs[r];
    && q.fillFlight.Some? && q.fillFlight == q.led && q.fillFlight.value < |s.shared.table|
    && s.shared.table[q.fillFlight.value].doneCloses == 1
    && !(q.key in s.shared.flights && s.shared.flights[q.key] == q.fillFlight.value)
    && q.bodyCloses == 1 && q.cancels == Cancels(false, false, true)
  }

  lemma DoneIsOver(s: State, r: RequestId)
    requires Inv(s) && r < |s.reqs| && s.reqs[r].fill.FillDone?
    ensures FillIsOver(s, r)
  {
    assert Fits(s.shared, r, s.reqs[r]);
    OwnsIsLed(s.shared.caching, s.reqs[r]);
  }

  datatype Fetched = APhoto | AVideo | AStream | Nothing

  function NextAfter(got: Fetched): PC {
    match got
    case APhoto => Reading
    case AVideo => FreeingForPlayback
    case AStream => Streaming
    case Nothing => UnwindContext
  }

  class Server {
    const caching: bool
    const capacity: nat
    var cached: set<Key>
    var flights: map<Key, FlightId>
    var table: seq<Flight>
    var slots: nat
    var reqs: seq<Request> // where each request's goroutine is
    ghost const start: State
    ghost var states: seq<State>
    ghost var actions: seq<Action>

    /** NewServer: without a positive concurrency setting, 4 fetches may run at once. */
    constructor (caching: bool, concurrency: int)
      ensures Valid() && actions == [] && reqs == []
      ensures this.caching == caching && capacity == if concurrency <= 0 then 4 else concurrency
    {
      this.caching := caching;
      this.capacity := if concurrency <= 0 then 4 else concurrency;
      this.cached, this.flights, this.table, this.slots, this.reqs := {}, map[], [], 0, [];
      this.start := State(Shared(caching, if concurrency <= 0 then 4 else concurrency, {}, map[], [], 0), []);
      this.states, this.actions := [this.start], [];
    }

    function Now(): State
      reads this
    {
      State(Shared(caching, capacity, cached, flights, table, slots), reqs)
    }

    /** The server's history is an execution of the protocol that leads to where it is now. */
    ghost predicate Valid()
      reads this
    {
      Run(states, actions) && states[0] == start && states[|actions|] == Now()
    }

    ghost predicate At(r: RequestId, pc: PC)
      reads this
    {
      Valid() && r < |reqs| && reqs[r].pc == pc
    }

    /** The history goes on from there. Its first state is fixed, so its actions say everything about it. */
    ghost predicate Since(done: seq<Action>)
      reads this
    {
      done <= actions
    }

    /** A step of the protocol ends: the fields that goroutines share already hold its outcome. */
    method Advance(s: State, a: Action)
      requires Run(states, actions) && states[0] == start && states[|actions|] == s && Enabled(s, a)
      requires Now() == State(Apply(s, a).shared, s.reqs)
      modifies this`reqs, this`states, this`actions
      ensures Valid() && Now() == Apply(s, a) && actions == old(actions) + [a]
    {
      reqs := Apply(s, a).reqs;
      RunGoesOn(states, actions, a, Now());
      states, actions := states + [Now()], actions + [a];
    }

    /** An operation of somebody else. */
    method Perform(a: Action)
      requires Valid() && Enabled(Now(), a)
      modifies this
      ensures Valid() && Now() == old(Apply(Now(), a)) && actions == old(actions) + [a]
    {
      var s := Now();
      var next := Apply(s, a);
      SameServer(s, a);
      cached, flights, table, slots := next.shared.cached, next.shared.flights, next.shared.table, next.shared.slots;
      Advance(s, a);
    }

    /** Whatever of these the others can do, in turn, they do. */
    method Others(r: RequestId, acts: seq<Action>)
      requires Valid() && r < |reqs|
      modifies this
      ensures Valid() && Since(old(actions))
      ensures r < |reqs| && SameLocals(old(reqs[r]), reqs[r])
    {
      for i := 0 to |acts|
        invariant Valid() && Since(old(actions))
        invariant r < |reqs| && SameLocals(old(reqs[r]), reqs[r])
      {
        if Enabled(Now(), acts[i]) && ByOthers(acts[i], r) {
          OthersKeepLocals(Now(), acts[i], r);
          Perform(acts[i]);
        }
      }
    }

    // ----- the operations of serveMedia -----

    /** An operation of request r is possible now. */
    lemma Ready(r: RequestId)
      requires Valid() && r < |reqs| && !reqs[r].pc.Done? && !reqs[r].pc.Waiting?
      ensures Enabled(Now(), NextOf(Now(), r))
    {
      RunKeepsInv(states, actions, |actions|);
      CanGoOn(Now(), r);
    }

    lemma WaitsOnFlight(r: RequestId)
      requires Valid() && r < |reqs| && reqs[r].pc.Waiting?
      ensures reqs[r].pc.on < |table| && !reqs[r].gotBody
    {
      RunKeepsInv(states, actions, |actions|);
      assert Fits(Now().shared, r, reqs[r]);
    }

    lemma LocalNow(r: RequestId)
      requires Valid() && r < |reqs|
      ensures Local(caching, reqs[r])
    {
      RunKeepsInv(states, actions, |actions|);
      assert Fits(Now().shared, r, reqs[r]);
    }

    /** The flight that request r is about to finish: in the map while it has to be deleted,
        open while it has to be closed. */
    lemma OwnFlight(r: RequestId)
      requires Valid() && r < |reqs|
      ensures reqs[r].pc.Deleting? ==>
        reqs[r].fl.Some? && reqs[r].key in flights && flights[reqs[r].key] == reqs[r].fl.value
      ensures reqs[r].pc.Closing? ==>
        reqs[r].fl.Some? && reqs[r].fl.value < |table| && table[reqs[r].fl.value].doneCloses == 0
      ensures reqs[r].pc.ClosingVideo? ==>
        reqs[r].fl.Some? && reqs[r].fl.value < |table| && table[reqs[r].fl.value].videoCloses == 0
    {
      RunKeepsInv(states, actions, |actions|);
      FinishFlightIsOwn(Now(), r);
    }

    /** One operation of request r ended, and it is where `pc` says. */
    ghost predicate Stepped(done: seq<Action>, r: RequestId, c: Choice, pc: PC)
      reads this
    {
      At(r, pc) && actions == done + [Step(r, c)]
    }

    /** An operation that only moves its request on. */
    method Move(r: RequestId, c: Choice)
      requires Valid() && r < |reqs| && StepEnabled(Now().shared, reqs[r], c)
      requires StepOf(Now().shared, r, reqs[r], c).0 == Now().shared
      modifies this
      ensures r < |reqs| && reqs[r] == StepOf(old(Now()).shared, r, old(reqs[r]), c).1
      ensures Stepped(old(actions), r, c, reqs[r].pc)
    {
      Advance(Now(), Step(r, c));
    }

    /** s.serveFromCache */
    method LookUp(r: RequestId) returns (hit: bool)
      requires At(r, LookingUp)
      modifies this
      ensures Stepped(old(actions), r, Plain, if hit then Done else Joining)
      ensures hit <==> old(reqs[r].key in cached)
    {
      hit := reqs[r].key in cached;
      Move(r, Plain);
    }

    /** s.joinFlight, for the key of request r. */
    method JoinFlight(r: RequestId) returns (fl: FlightId, leader: bool)
      requires At(r, Joining)
      modifies this
      ensures Stepped(old(actions), r, Plain, if leader then Queueing else Waiting(fl))
      ensures leader ==> reqs[r].fl == Some(fl)
    {
      var s := Now();
      var key := reqs[r].key;
      if key in flights {
        fl, leader := flights[key], false;
      } else {
        fl, leader := |table|, true;
        table := table + [Flight(key, r, 0, 0)];
        flights := flights[key := fl];
      }
      Advance(s, Step(r, Plain));
    }

    /** The select of a follower. One whose client is gone can always take r.Context().Done(). */
    method Select(r: RequestId, c: Choice) returns (took: Choice)
      requires Valid() && r < |reqs| && reqs[r].pc.Waiting?
      modifies this
      ensures took.OnDone? || took.OnVideo? || took.OnGone?
      ensures c.OnGone? ==> took.OnGone?
      ensures At(r, if took.OnDone? then LookingUp else if took.OnVideo? then Proxying else Done)
      ensures Since(old(actions)) && !reqs[r].gotBody
    {
      WaitsOnFlight(r);
      took := c;
      if !StepEnabled(Now().shared, reqs[r], c) {
        if !reqs[r].gone {
          Perform(Disconnect(r));
        }
        took := OnGone;
      }
      Move(r, took);
    }

    /** The select on fetchSem, the timeout and r.Context().Done(). */
    method AcquireSlot(r: RequestId, c: Choice) returns (slotHeld: bool)
      requires At(r, Queueing)
      modifies this
      ensures r < |reqs| && At(r, if slotHeld then Fetching else AfterSlot(reqs[r]))
      ensures reqs[r].fl == old(reqs[r].fl) && reqs[r].slotHeld == slotHeld && !reqs[r].detached
      ensures Since(old(actions)) && (slotHeld ==> actions == old(actions) + [Step(r, OnSlot)])
      ensures slotHeld <==> c.OnSlot? && old(slots) < capacity
    {
      LocalNow(r);
      var s := Now();
      slotHeld := c.OnSlot? && slots < capacity;
      if slotHeld {
        slots := slots + 1;
        Advance(s, Step(r, OnSlot));
      } else {
        Move(r, if c.OnGone? && reqs[r].gone then OnGone else OnTimeout);
      }
    }

    /** releaseSlot: it gives a held slot back, never blocking, and a second call does nothing. */
    method ReleaseSlot(r: RequestId, slotHeld: bool)
      requires Valid() && r < |reqs| && reqs[r].slotHeld == slotHeld
      requires reqs[r].pc.FreeingForPlayback? || reqs[r].pc.FreeingAfterRead? || reqs[r].pc.UnwindSlot?
      modifies this
      ensures r < |reqs| && Stepped(old(actions), r, Plain, reqs[r].pc)
      ensures reqs[r].pc == match old(reqs[r].pc)
        case FreeingForPlayback => Detaching
        case FreeingAfterRead => Storing
        case _ => AfterSlot(reqs[r])
      ensures reqs[r].fl == old(reqs[r].fl) && reqs[r].detached == old(reqs[r].detached) && !reqs[r].slotHeld
    {
      Ready(r);
      LocalNow(r);
      var s := Now();
      if slotHeld {
        slots := slots - 1;
      }
      Advance(s, Step(r, Plain));
    }

    /** close(fl.video): the channel is open, so this never panics. */
    method CloseVideo(r: RequestId, fl: FlightId)
      requires At(r, ClosingVideo) && reqs[r].fl == Some(fl)
      modifies this
      ensures Stepped(old(actions), r, Plain, Spawning)
      ensures SameLocals(old(reqs[r]).(pc := Spawning), reqs[r])
    {
      OwnFlight(r);
      var s := Now();
      assert table[fl].videoCloses == 0;
      table := table[fl := table[fl].(videoCloses := table[fl].videoCloses + 1)];
      Advance(s, Step(r, Plain));
    }

    /** The locked half of finishFlight: it deletes by key, and the flight it removes is always the caller's own. */
    method DeleteFlight(r: RequestId, fl: FlightId)
      requires Valid() && r < |reqs| && reqs[r].pc.Deleting? && reqs[r].fl == Some(fl)
      modifies this
      ensures Stepped(old(actions), r, Plain, Closing(old(reqs[r].pc.after)))
      ensures SameLocals(old(reqs[r]).(pc := reqs[r].pc), reqs[r])
      ensures old(reqs[r].key in flights && flights[reqs[r].key] == fl) && flights == old(flights - {reqs[r].key})
    {
      OwnFlight(r);
      var s := Now();
      flights := flights - {reqs[r].key};
      Advance(s, Step(r, Plain));
    }

    /** close(fl.done): the channel is open, so this never panics. */
    method CloseDone(r: RequestId, fl: FlightId)
      requires Valid() && r < |reqs| && reqs[r].pc.Closing? && reqs[r].fl == Some(fl)
      modifies this
      ensures Stepped(old(actions), r, Plain, if old(reqs[r].pc.after.ToServe?) then Serving else Done)
      ensures SameLocals(old(reqs[r]).(pc := reqs[r].pc, fl := None), reqs[r])
      ensures fl < |table| && old(fl < |table|) && old(table[fl].doneCloses) == 0 && table[fl].doneCloses == 1
    {
      OwnFlight(r);
      var s := Now();
      table := table[fl := table[fl].(doneCloses := table[fl].doneCloses + 1)];
      Advance(s, Step(r, Plain));
    }

    /** finishFlight, with whatever others do between its two halves. */
    method FinishFlight(r: RequestId, fl: FlightId, world: World)
      requires Valid() && r < |reqs| && reqs[r].pc.Deleting? && reqs[r].fl == Some(fl)
      modifies this
      ensures At(r, if old(reqs[r].pc.after.ToServe?) then Serving else Done) && Since(old(actions))
      ensures reqs[r].fl.None? && reqs[r].detached == old(reqs[r].detached) && reqs[r].slotHeld == old(reqs[r].slotHeld)
      ensures fl < |table| && table[fl].doneCloses == 1
    {
      DeleteFlight(r, fl);
      Others(r, world.others(Now()));
      CloseDone(r, fl);
    }

    /** s.proxyRange: a follower is done after it, a leader still has its deferred calls. */
    method Proxy(r: RequestId)
      requires At(r, Proxying)
      modifies this
      ensures r < |reqs| && Stepped(old(actions), r, Plain, if reqs[r].gotBody then UnwindContext else Done)
      ensures SameLocals(old(reqs[r]).(pc := reqs[r].pc), reqs[r])
    {
      LocalNow(r);
      Move(r, Plain);
    }

    // ----- serveMedia -----

    /** A follower waits, and goes on as its select says; `again` means back to the cache. */
    method Follow(r: RequestId, stay: bool, world: World) returns (again: bool)
      requires Valid() && r < |reqs| && reqs[r].pc.Waiting?
      modifies this
      ensures At(r, if again then LookingUp else Done)
      ensures Since(old(actions)) && (!stay ==> !again)
    {
      Others(r, world.others(Now()));
      var took := Select(r, if stay then world.choice(Now()) else OnGone);
      if took.OnVideo? {
        Others(r, world.others(Now()));
        Proxy(r);
      }
      again := took.OnDone?;
    }

    /** A request that missed the cache joins the flight of its key. */
    method Join(r: RequestId, stay: bool, world: World) returns (again: bool, fl: Option<FlightId>)
      requires At(r, Joining)
      modifies this
      ensures At(r, if again then LookingUp else if fl.Some? then Queueing else Done)
      ensures Since(old(actions)) && (!stay ==> !again) && (fl.Some? ==> !again && reqs[r].fl == fl)
    {
      Others(r, world.others(Now()));
      var f, leader := JoinFlight(r);
      if leader {
        return false, Some(f);
      }
      again := Follow(r, stay, world);
      fl := None;
    }

    /** One turn of the loop. */
    method TryOnce(r: RequestId, stay: bool, world: World) returns (again: bool, fl: Option<FlightId>)
      requires At(r, LookingUp)
      modifies this
      ensures At(r, if again then LookingUp else if fl.Some? then Queueing else Done)
      ensures Since(old(actions)) && (!stay ==> !again) && (fl.Some? ==> !again && reqs[r].fl == fl)
    {
      Others(r, world.others(Now()));
      var hit := LookUp(r);
      if hit {
        return false, None;
      }
      again, fl := Join(r, stay, world);
    }

    /** The loop: the flight to lead, or None once the request is over. `patience`
        is how many flights the client waits for before it goes away. */
    method FindOrLead(r: RequestId, patience: nat, world: World) returns (fl: Option<FlightId>)
      requires At(r, LookingUp)
      modifies this
      ensures At(r, if fl.Some? then Queueing else Done)
      ensures Since(old(actions)) && (fl.Some? ==> reqs[r].fl == fl)
    {
      var left := patience;
      var again;
      again, fl := TryOnce(r, left > 0, world);
      while again
        invariant At(r, if again then LookingUp else if fl.Some? then Queueing else Done)
        invariant Since(old(actions)) && (fl.Some? ==> !again && reqs[r].fl == fl)
        invariant again ==> left > 0
        decreases left, again
      {
        left := left - 1;
        again, fl := TryOnce(r, left > 0, world);
      }
    }

    // ----- past the loop -----

    /** src.fetch: a photo, a video with or without ranges, or an error. */
    method Fetch(r: RequestId, c: Choice) returns (got: Fetched)
      requires At(r, Fetching)
      modifies this
      ensures Since(old(actions)) && At(r, NextAfter(got))
      ensures SameLocals(old(reqs[r]).(pc := reqs[r].pc, gotBody := reqs[r].gotBody), reqs[r])
    {
      got := if c.Photo? then APhoto else if !c.Video? then Nothing else if reqs[r].ranged then AVideo else AStream;
      Move(r, if c.Photo? || c.Video? then c else Fails(false));
    }

    /** fl != nil && stopFollowingRequest(), and detached = true if so. */
    method StopFollowing(r: RequestId) returns (detached: bool)
      requires At(r, Detaching)
      modifies this
      ensures Stepped(old(actions), r, Plain, if detached then ClosingVideo else DroppingBody)
      ensures detached <==> old(reqs[r].fl.Some? && !reqs[r].gone)
      ensures reqs[r].detached == detached && (detached ==> reqs[r].fl.Some?)
      ensures reqs[r].fl == old(reqs[r].fl) && reqs[r].slotHeld == old(reqs[r].slotHeld) && reqs[r].gotBody
    {
      LocalNow(r);
      Move(r, Plain);
      detached := reqs[r].detached;
    }

    /** fl = nil; go s.fillCacheInBackground(...) */
    method Spawn(r: RequestId)
      requires At(r, Spawning)
      modifies this
      ensures Stepped(old(actions), r, Plain, Proxying)
      ensures SameLocals(old(reqs[r]).(pc := Proxying, fl := None), reqs[r])
    {
      Move(r, Plain);
    }

    /** body.Close() of a video that nobody will cache. */
    method DropBody(r: RequestId)
      requires At(r, DroppingBody)
      modifies this
      ensures Stepped(old(actions), r, Plain, Proxying)
      ensures SameLocals(old(reqs[r]).(pc := Proxying), reqs[r])
    {
      Move(r, Plain);
    }

    /** close(fl.video), then the flight is the background fill's. */
    method HandOff(r: RequestId, fl: FlightId, world: World)
      requires At(r, ClosingVideo) && reqs[r].fl == Some(fl)
      modifies this
      ensures At(r, Proxying) && Since(old(actions))
      ensures SameLocals(old(reqs[r]).(pc := Proxying, fl := None), reqs[r])
    {
      CloseVideo(r, fl);
      Others(r, world.others(Now()));
      Spawn(r);
    }

    /** A video's slot is freed, and its download handed to the background if it still can be. */
    method FreeAndDetach(r: RequestId, world: World) returns (detached: bool)
      requires At(r, FreeingForPlayback) && reqs[r].slotHeld
      modifies this
      ensures At(r, if detached then ClosingVideo else DroppingBody) && Since(old(actions))
      ensures reqs[r].detached == detached && (detached ==> reqs[r].fl.Some?)
      ensures reqs[r].fl == old(reqs[r].fl) && !reqs[r].slotHeld && reqs[r].gotBody
    {
      ReleaseSlot(r, true);
      Others(r, world.others(Now()));
      detached := StopFollowing(r);
      Others(r, world.others(Now()));
    }

    /** If it could be detached it is handed off, otherwise its body is dropped. */
    method HandOffOrDrop(r: RequestId, fl0: Option<FlightId>, detached: bool, world: World)
      returns (fl: Option<FlightId>)
      requires At(r, if detached then ClosingVideo else DroppingBody)
      requires reqs[r].fl == fl0 && reqs[r].detached == detached && (detached ==> fl0.Some?)
      modifies this
      ensures At(r, Proxying) && Since(old(actions))
      ensures SameLocals(old(reqs[r]).(pc := Proxying, fl := fl), reqs[r])
    {
      fl := fl0;
      if detached {
        HandOff(r, fl.value, world);
        fl := None;
      } else {
        DropBody(r);
      }
    }

    /** The branch for a video that can be played with ranges. */
    method PlayVideo(r: RequestId, fl0: Option<FlightId>, world: World) returns (fl: Option<FlightId>, detached: bool)
      requires At(r, FreeingForPlayback) && reqs[r].slotHeld && reqs[r].fl == fl0
      modifies this
      ensures At(r, UnwindContext) && Since(old(actions))
      ensures reqs[r].fl == fl && reqs[r].detached == detached && !reqs[r].slotHeld
    {
      detached := FreeAndDetach(r, world);
      fl := HandOffOrDrop(r, fl0, detached, world);
      Others(r, world.others(Now()));
      Proxy(r);
    }

    /** s.serveStream, which stores what it has read in full. */
    method Stream(r: RequestId, c: Choice)
      requires At(r, Streaming)
      modifies this
      ensures At(r, UnwindBody) && Since(old(actions))
      ensures SameLocals(old(reqs[r]).(pc := UnwindBody), reqs[r])
    {
      var s := Now();
      var c' := if c.Fails? then Fails(caching && c.kept) else Plain;
      if caching && (c'.Plain? || c'.kept) {
        cached := cached + {reqs[r].key};
      }
      Advance(s, Step(r, c'));
    }

    /** io.ReadAll(body) */
    method Read(r: RequestId, c: Choice) returns (ok: bool)
      requires At(r, Reading)
      modifies this
      ensures At(r, if ok then FreeingAfterRead else UnwindBody) && Since(old(actions))
      ensures SameLocals(old(reqs[r]).(pc := reqs[r].pc), reqs[r])
    {
      ok := !c.Fails?;
      Move(r, if ok then Plain else Fails(false));
    }

    /** s.cache.Put or, without a cache, serving the bytes from memory. */
    method Store(r: RequestId, c: Choice) returns (stored: bool)
      requires At(r, Storing)
      modifies this
      ensures At(r, if stored then Deleting(ToServe) else UnwindBody) && Since(old(actions))
      ensures SameLocals(old(reqs[r]).(pc := reqs[r].pc), reqs[r]) && (stored ==> reqs[r].fl.Some?)
    {
      LocalNow(r);
      var s := Now();
      stored := caching && !c.Fails?;
      if stored || (caching && c.kept) {
        cached := cached + {reqs[r].key};
      }
      Advance(s, Step(r, if caching && c.Fails? then c else Plain));
    }

    /** serveFile */
    method Serve(r: RequestId)
      requires At(r, Serving)
      modifies this
      ensures Stepped(old(actions), r, Plain, UnwindBody)
      ensures SameLocals(old(reqs[r]).(pc := UnwindBody), reqs[r])
    {
      Move(r, Plain);
    }

    /** A photo in memory is stored, and its waiters are let go before it is served. */
    method StoreAndServe(r: RequestId, fl0: Option<FlightId>, world: World) returns (fl: Option<FlightId>)
      requires At(r, Storing) && reqs[r].fl == fl0 && !reqs[r].slotHeld && !reqs[r].detached
      modifies this
      ensures At(r, UnwindBody) && Since(old(actions))
      ensures reqs[r].fl == fl && !reqs[r].slotHeld && !reqs[r].detached
    {
      fl := fl0;
      var stored := Store(r, world.choice(Now()));
      if !stored {
        return;
      }
      Others(r, world.others(Now()));
      FinishFlight(r, fl.value, world);
      fl := None;
      Others(r, world.others(Now()));
      Serve(r);
    }

    /** The rest of serveMedia for a photo. */
    method KeepPhoto(r: RequestId, fl0: Option<FlightId>, world: World) returns (fl: Option<FlightId>, slotHeld: bool)
      requires At(r, Reading) && reqs[r].fl == fl0 && reqs[r].slotHeld && !reqs[r].detached
      modifies this
      ensures At(r, UnwindBody) && Since(old(actions))
      ensures reqs[r].fl == fl && reqs[r].slotHeld == slotHeld && !reqs[r].detached
    {
      fl, slotHeld := fl0, true;
      var ok := Read(r, world.choice(Now()));
      if !ok {
        return;
      }
      Others(r, world.others(Now()));
      ReleaseSlot(r, slotHeld);
      slotHeld := false;
      Others(r, world.others(Now()));
      fl := StoreAndServe(r, fl, world);
    }

    // ----- the deferred calls -----

    /** body.Close() */
    method CloseBody(r: RequestId)
      requires At(r, UnwindBody)
      modifies this
      ensures Stepped(old(actions), r, Plain, UnwindContext)
      ensures SameLocals(old(reqs[r]).(pc := UnwindContext), reqs[r])
    {
      Move(r, Plain);
    }

    /** stopFollowingRequest() and cancelFetch(), unless the download was handed off. */
    method CancelContext(r: RequestId, detached: bool)
      requires At(r, UnwindContext) && reqs[r].detached == detached
      modifies this
      ensures Stepped(old(actions), r, Plain, UnwindSlot)
      ensures SameLocals(old(reqs[r]).(pc := UnwindSlot), reqs[r])
    {
      Move(r, Plain);
    }

    /** finish(), the last one: it finishes the flight if the request still leads one. */
    method Finish(r: RequestId, fl: Option<FlightId>, world: World)
      requires r < |reqs| && reqs[r].fl == fl && At(r, AfterSlot(reqs[r]))
      modifies this
      ensures At(r, Done) && Since(old(actions))
    {
      if fl.Some? {
        Others(r, world.others(Now()));
        FinishFlight(r, fl.value, world);
      }
    }

    /** releaseSlot() and finish(). */
    method ReleaseAndFinish(r: RequestId, fl: Option<FlightId>, slotHeld: bool, world: World)
      requires At(r, UnwindSlot) && reqs[r].fl == fl && reqs[r].slotHeld == slotHeld
      modifies this
      ensures At(r, Done) && Since(old(actions))
    {
      ReleaseSlot(r, slotHeld);
      Finish(r, fl, world);
    }

    /** All of them, from the context's on. */
    method Unwind(r: RequestId, fl: Option<FlightId>, slotHeld: bool, detached: bool, world: World)
      requires At(r, UnwindContext) && reqs[r].fl == fl && reqs[r].slotHeld == slotHeld && reqs[r].detached == detached
      modifies this
      ensures At(r, Done) && Since(old(actions))
    {
      Others(r, world.others(Now()));
      CancelContext(r, detached);
      Others(r, world.others(Now()));
      ReleaseAndFinish(r, fl, slotHeld, world);
    }

    /** From the body's on. */
    method UnwindAll(r: RequestId, fl: Option<FlightId>, slotHeld: bool, world: World)
      requires At(r, UnwindBody) && reqs[r].fl == fl && reqs[r].slotHeld == slotHeld && !reqs[r].detached
      modifies this
      ensures At(r, Done) && Since(old(actions))
    {
      Others(r, world.others(Now()));
      CloseBody(r);
      Unwind(r, fl, slotHeld, false, world);
    }

    /** serveMedia once it holds a slot. */
    method Download(r: RequestId, fl0: Option<FlightId>, world: World)
      requires At(r, Fetching) && reqs[r].fl == fl0 && reqs[r].slotHeld && !reqs[r].detached
      modifies this
      ensures At(r, Done) && Since(old(actions))
    {
      var got := Fetch(r, world.choice(Now()));
      Others(r, world.others(Now()));
      match got {
        case APhoto => DownloadPhoto(r, fl0, world);
        case AVideo => DownloadVideo(r, fl0, world);
        case AStream =>
          Stream(r, world.choice(Now()));
          UnwindAll(r, fl0, true, world);
        case Nothing =>
          Unwind(r, fl0, true, false, world);
      }
    }

    method DownloadPhoto(r: RequestId, fl0: Option<FlightId>, world: World)
      requires At(r, Reading) && reqs[r].fl == fl0 && reqs[r].slotHeld && !reqs[r].detached
      modifies this
      ensures At(r, Done) && Since(old(actions))
    {
      var fl, slotHeld := KeepPhoto(r, fl0, world);
      UnwindAll(r, fl, slotHeld, world);
    }

    method DownloadVideo(r: RequestId, fl0: Option<FlightId>, world: World)
      requires At(r, FreeingForPlayback) && reqs[r].fl == fl0 && reqs[r].slotHeld
      modifies this
      ensures At(r, Done) && Since(old(actions))
    {
      var fl, detached := PlayVideo(r, fl0, world);
      Unwind(r, fl, false, detached, world);
    }

    /** serveMedia past its loop. */
    method Lead(r: RequestId, fl: Option<FlightId>, world: World)
      requires At(r, Queueing) && reqs[r].fl == fl
      modifies this
      ensures At(r, Done) && Since(old(actions))
    {
      Others(r, world.others(Now()));
      var slotHeld := AcquireSlot(r, world.choice(Now()));
      if slotHeld {
        Others(r, world.others(Now()));
        Download(r, fl, world);
      } else {
        Finish(r, fl, world);
      }
    }

    /** serveMedia for a request that has just arrived. Whatever the rest of the
        world does meanwhile, its operations continue the execution of the
        protocol that led here, none of them panics, and it returns with nothing
        left behind: no slot, no flight in the map or left open, no body, no
        context, except what its background fill now owns. */
    method ServeMedia(r: RequestId, patience: nat, world: World)
      requires At(r, if caching then LookingUp else Queueing) && reqs[r].fl.None?
      modifies this
      ensures Valid() && Since(old(actions))
      ensures Returned(Now(), r)
    {
      var fl: Option<FlightId> := None;
      if caching {
        fl := FindOrLead(r, patience, world);
      }
      if !caching || fl.Some? {
        Lead(r, fl, world);
      }
      RunKeepsInv(states, actions, |actions|);
      DoneIsReturned(Now(), r);
    }

    // ----- fillCacheInBackground -----

    /** The fill that request r started is at `fill`, for flight f. */
    ghost predicate FillAt(r: RequestId, fill: FillPC, f: FlightId)
      reads this
    {
      Valid() && r < |reqs| && reqs[r].fill == fill && reqs[r].fillFlight == Some(f)
    }

    /** What the others do, the handler of request r among them, between two operations of its fill. */
    method OthersOfFill(r: RequestId, acts: seq<Action>)
      requires Valid() && r < |reqs| && !reqs[r].fill.NoFill?
      modifies this
      ensures Valid() && Since(old(actions))
      ensures r < |reqs| && SameFill(old(reqs[r]), reqs[r])
    {
      for i := 0 to |acts|
        invariant Valid() && Since(old(actions))
        invariant r < |reqs| && SameFill(old(reqs[r]), reqs[r])
      {
        if Enabled(Now(), acts[i]) && !(acts[i].FillStep? && acts[i].r == r) {
          RunKeepsInv(states, actions, |actions|);
          OthersKeepFill(Now(), acts[i], r);
          Perform(acts[i]);
        }
      }
    }

    /** The flight a fill owns: in the map until it deletes it, open until it closes it. */
    lemma FillsOwnFlight(r: RequestId)
      requires Valid() && r < |reqs|
      ensures reqs[r].fill.FillDeleting? ==>
        reqs[r].fillFlight.Some? && reqs[r].key in flights && flights[reqs[r].key] == reqs[r].fillFlight.value
      ensures reqs[r].fill.FillClosing? ==>
        reqs[r].fillFlight.Some? && reqs[r].fillFlight.value < |table| &&
        table[reqs[r].fillFlight.value].doneCloses == 0
    {
      RunKeepsInv(states, actions, |actions|);
      FinishFlightIsOwn(Now(), r);
    }

    /** s.cache.Put of the rest of the video, and body.Close(). */
    method PutVideo(r: RequestId, f: FlightId, c: Choice, world: World)
      requires FillAt(r, Filling, f)
      modifies this
      ensures FillAt(r, FillDeleting, f) && Since(old(actions))
    {
      var s := Now();
      var c' := if c.Fails? then c else Plain;
      if c'.Plain? || c'.kept {
        cached := cached + {reqs[r].key};
      }
      Advance(s, FillStep(r, c'));
      OthersOfFill(r, world.others(Now()));
      Advance(Now(), FillStep(r, Plain));
    }

    /** finishFlight's first half, for the fill. */
    method DeleteFilled(r: RequestId, f: FlightId)
      requires FillAt(r, FillDeleting, f)
      modifies this
      ensures FillAt(r, FillClosing, f) && Since(old(actions))
      ensures old(reqs[r].key in flights && flights[reqs[r].key] == f) && flights == old(flights - {reqs[r].key})
    {
      FillsOwnFlight(r);
      var s := Now();
      flights := flights - {reqs[r].key};
      Advance(s, FillStep(r, Plain));
    }

    /** And its second: the channel is open, so this never panics. */
    method CloseFilled(r: RequestId, f: FlightId)
      requires FillAt(r, FillClosing, f)
      modifies this
      ensures FillAt(r, FillCancelling, f) && Since(old(actions))
      ensures f < |table| && old(f < |table|) && old(table[f].doneCloses) == 0 && table[f].doneCloses == 1
    {
      FillsOwnFlight(r);
      var s := Now();
      table := table[f := table[f].(doneCloses := table[f].doneCloses + 1)];
      Advance(s, FillStep(r, Plain));
    }

    /** finishFlight, for the fill. */
    method FinishFilled(r: RequestId, f: FlightId, world: World)
      requires FillAt(r, FillDeleting, f)
      modifies this
      ensures FillAt(r, FillCancelling, f) && Since(old(actions))
    {
      DeleteFilled(r, f);
      OthersOfFill(r, world.others(Now()));
      CloseFilled(r, f);
    }

    /** cancelFetch(), and the fill is over. */
    method CancelFilled(r: RequestId, f: FlightId)
      requires FillAt(r, FillCancelling, f)
      modifies this
      ensures FillAt(r, FillDone, f) && actions == old(actions) + [FillStep(r, Plain)]
    {
      Advance(Now(), FillStep(r, Plain));
    }

    /** fillCacheInBackground, for the flight that request r handed to it. It
        ends with its flight closed, its body closed and its context cancelled. */
    method FillCacheInBackground(r: RequestId, f: FlightId, world: World)
      requires FillAt(r, Filling, f)
      modifies this
      ensures FillAt(r, FillDone, f) && Since(old(actions))
      ensures FillIsOver(Now(), r)
    {
      OthersOfFill(r, world.others(Now()));
      PutVideo(r, f, world.choice(Now()), world);
      OthersOfFill(r, world.others(Now()));
      FinishFilled(r, f, world);
      OthersOfFill(r, world.others(Now()));
      CancelFilled(r, f);
      RunKeepsInv(states, actions, |actions|);
      DoneIsOver(Now(), r);
    }
  }
}
