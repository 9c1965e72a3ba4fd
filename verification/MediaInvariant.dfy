/** What every state of the single-flight protocol satisfies. */
module MediaInvariant {
  import opened Basics
  import opened MediaProtocol

  // ----- one request on its own -----

  predicate NotCancelled(q: Request) { q.cancels == Cancels(false, false, false) }

  predicate Untouched(q: Request) {
    q.acquired == 0 && q.released == 0 && !q.slotHeld && q.follow.NoContext? && NotCancelled(q) &&
    !q.detached && !q.gotBody && q.bodyCloses == 0
  }

  predicate NoFillYet(q: Request) { q.fill.NoFill? && q.fillFlight.None? }

  /** The request still has to finish the flight it leads (without a cache there is none). */
  predicate Leads(caching: bool, q: Request) {
    if caching then q.led.Some? && q.fl == q.led else q.led.None? && q.fl.None?
  }

  /** The request's own flight is over, or in the hands of its background fill. */
  predicate Finished(caching: bool, q: Request) {
    q.fl.None? && (caching <==> q.led.Some?)
  }

  predicate Holding(q: Request) { q.acquired == 1 && q.released == 0 && q.slotHeld }

  predicate Freed(q: Request) { q.acquired == 1 && q.released == 1 && !q.slotHeld }

  /** The download still follows its request. */
  predicate Attached(q: Request) {
    !q.detached && NoFillYet(q) && (if q.gone then q.follow.Fired? else q.follow.Following?) &&
    !q.cancels.request && !q.cancels.fill && (q.cancels.follower ==> q.follow.Fired?)
  }

  /** The download was handed off, or is just about to be. */
  predicate Detached(q: Request) {
    q.detached && q.follow.Stopped? && q.ranged && q.led.Some?
  }

  predicate Body(q: Request, closes: nat) { q.gotBody && q.bodyCloses == closes }

  predicate NoBody(q: Request) { !q.gotBody && q.bodyCloses == 0 }

  /** The background fill's share of a handed-off download. */
  predicate FillPart(q: Request) {
    match q.fill
    case NoFill => false
    case Filling => q.fillFlight == q.led && Body(q, 0) && NotCancelled(q)
    case FillBody => q.fillFlight == q.led && Body(q, 0) && NotCancelled(q)
    case FillDone => q.fillFlight == q.led && Body(q, 1) && q.cancels == Cancels(false, false, true)
    case _ => q.fillFlight == q.led && Body(q, 1) && NotCancelled(q)
  }

  /** The request's download is settled: handed off, or cancelled by the
      request with its body (if it got one) closed. */
  predicate Settled(q: Request) {
    || (Detached(q) && FillPart(q) && q.fl.None?)
    || (!q.detached && NoFillYet(q) && q.cancels.request && !q.cancels.fill &&
        (q.follow.Stopped? || q.follow.Fired?) && (q.cancels.follower ==> q.follow.Fired?) &&
        (NoBody(q) || Body(q, 1)))
  }

  predicate Local(caching: bool, q: Request) {
    match q.pc
    case LookingUp => caching && Untouched(q) && NoFillYet(q) && q.led.None? && q.fl.None?
    case Joining => caching && Untouched(q) && NoFillYet(q) && q.led.None? && q.fl.None?
    case Waiting(_) => caching && Untouched(q) && NoFillYet(q) && q.led.None? && q.fl.None?
    case Queueing => Untouched(q) && NoFillYet(q) && Leads(caching, q)
    case Fetching => Leads(caching, q) && Holding(q) && Attached(q) && NoBody(q)
    case FreeingForPlayback => Leads(caching, q) && Holding(q) && Attached(q) && Body(q, 0) && q.ranged
    case Detaching => Leads(caching, q) && Freed(q) && Attached(q) && Body(q, 0) && q.ranged
    case ClosingVideo =>
      caching && Leads(caching, q) && Freed(q) && Detached(q) && NoFillYet(q) && Body(q, 0) && NotCancelled(q)
    case Spawning =>
      caching && Leads(caching, q) && Freed(q) && Detached(q) && NoFillYet(q) && Body(q, 0) && NotCancelled(q)
    case DroppingBody => Leads(caching, q) && Freed(q) && Attached(q) && Body(q, 0) && q.ranged
    case Proxying =>
      || (caching && Untouched(q) && NoFillYet(q) && q.led.None? && q.fl.None?)
      || (Leads(caching, q) && Freed(q) && Attached(q) && Body(q, 1) && q.ranged)
      || (caching && Freed(q) && Detached(q) && FillPart(q) && q.fl.None?)
    case Streaming => Leads(caching, q) && Holding(q) && Attached(q) && Body(q, 0)
    case Reading => Leads(caching, q) && Holding(q) && Attached(q) && Body(q, 0)
    case FreeingAfterRead => Leads(caching, q) && Holding(q) && Attached(q) && Body(q, 0)
    case Storing => Leads(caching, q) && Freed(q) && Attached(q) && Body(q, 0)
    case Serving => caching && Finished(caching, q) && Freed(q) && Attached(q) && Body(q, 0)
    case UnwindBody =>
      (Leads(caching, q) || Finished(caching, q)) && (Holding(q) || Freed(q)) && Attached(q) && Body(q, 0)
    case UnwindContext =>
      && (Leads(caching, q) || Finished(caching, q)) && (Holding(q) || Freed(q))
      && ((Attached(q) && (NoBody(q) || Body(q, 1))) || (Freed(q) && Detached(q) && FillPart(q) && q.fl.None?))
    case UnwindSlot =>
      (Leads(caching, q) || Finished(caching, q)) && ((Holding(q) && !q.detached) || Freed(q)) && Settled(q)
    case Deleting(after) =>
      && caching && Leads(caching, q)
      && (if after.ToServe? then Freed(q) && Attached(q) && Body(q, 0)
          else (Untouched(q) && NoFillYet(q)) || (Freed(q) && Settled(q)))
    case Closing(after) =>
      && caching && Leads(caching, q)
      && (if after.ToServe? then Freed(q) && Attached(q) && Body(q, 0)
          else (Untouched(q) && NoFillYet(q)) || (Freed(q) && Settled(q)))
    case Done =>
      || (Untouched(q) && NoFillYet(q) && q.fl.None?)
      || (Freed(q) && Settled(q) && Finished(caching, q))
  }

  /** Whether the flight this request led is still in the map. */
  predicate InMap(q: Request) {
    q.led.Some? && ((q.fl.Some? && !q.pc.Closing?) || q.fill.Filling? || q.fill.FillBody? || q.fill.FillDeleting?)
  }

  /** Whether the flight this request led has been closed. */
  predicate Closed(q: Request) {
    q.led.Some? && q.fl.None? && (q.fill.NoFill? || q.fill.FillCancelling? || q.fill.FillDone?)
  }

  predicate Announced(q: Request) { q.detached && !q.pc.ClosingVideo? }

  // ----- all requests together -----

  /** Request r's flight, seen from the shared tables. */
  predicate FlightOf(sh: Shared, r: RequestId, q: Request) {
    q.led.Some? ==>
      var f := q.led.value;
      && f < |sh.table| && sh.table[f].leader == r && sh.table[f].key == q.key
      && (InMap(q) <==> q.key in sh.flights && sh.flights[q.key] == f)
      && sh.table[f].doneCloses == (if Closed(q) then 1 else 0)
      && sh.table[f].videoCloses == (if Announced(q) then 1 else 0)
  }

  predicate InLoop(q: Request) { q.pc.LookingUp? || q.pc.Joining? || q.pc.Waiting? }

  /** A request in serveMedia's retry loop only ever waits on later flights of its key. */
  predicate WaitsForward(sh: Shared, q: Request) {
    InLoop(q) ==>
      && q.nextWait <= |sh.table|
      && (q.key in sh.flights ==> q.nextWait <= sh.flights[q.key])
      && (q.pc.Waiting? ==> q.nextWait <= q.pc.on < |sh.table| && sh.table[q.pc.on].key == q.key)
  }

  predicate Holds(q: Request) { q.slotHeld }

  predicate TableOk(sh: Shared, n: nat) {
    && (forall k | k in sh.flights :: sh.flights[k] < |sh.table| && sh.table[sh.flights[k]].key == k)
    && (forall k, f | k in sh.flights && 0 <= f < |sh.table| && sh.table[f].key == k :: f <= sh.flights[k])
    && (forall f | 0 <= f < |sh.table| :: sh.table[f].leader < n)
    && (!sh.caching ==> sh.table == [])
  }

  predicate LedBack(s: State) {
    forall f | 0 <= f < |s.shared.table| ::
      s.shared.table[f].leader < |s.reqs| && s.reqs[s.shared.table[f].leader].led == Some(f)
  }

  predicate Fits(sh: Shared, r: RequestId, q: Request) {
    Local(sh.caching, q) && FlightOf(sh, r, q) && WaitsForward(sh, q)
  }

  ghost predicate Inv(s: State) {
    && TableOk(s.shared, |s.reqs|)
    && LedBack(s)
    && (forall r | 0 <= r < |s.reqs| :: Fits(s.shared, r, s.reqs[r]))
    && s.shared.slots == Count(s.reqs, Holds)
    && s.shared.slots <= s.shared.capacity && s.shared.capacity > 0
  }

  lemma InitInv(s: State)
    requires Init(s)
    ensures Inv(s)
  {}

  // ----- one operation, seen by the request that performs it -----

  predicate Entering(pc: PC) { pc.LookingUp? || pc.Joining? || pc.Waiting? || pc.Queueing? }

  predicate Playing(pc: PC) {
    pc.FreeingForPlayback? || pc.Detaching? || pc.ClosingVideo? || pc.Spawning? || pc.DroppingBody? || pc.Proxying?
  }

  predicate Downloading(pc: PC) { pc.Fetching? || pc.Streaming? || pc.Reading? }

  predicate Delivering(pc: PC) { pc.FreeingAfterRead? || pc.Storing? || pc.Serving? }

  predicate Unwinding(pc: PC) { pc.UnwindBody? || pc.UnwindContext? }

  lemma EnteringKeepsLocal(sh: Shared, r: RequestId, q: Request, c: Choice)
    requires Local(sh.caching, q) && StepEnabled(sh, q, c) && Entering(q.pc)
    ensures Local(sh.caching, StepOf(sh, r, q, c).1)
  {}

  lemma PlayingKeepsLocal(sh: Shared, r: RequestId, q: Request, c: Choice)
    requires Local(sh.caching, q) && StepEnabled(sh, q, c) && Playing(q.pc) && !q.pc.Proxying?
    ensures Local(sh.caching, StepOf(sh, r, q, c).1)
  {}

  lemma ProxyingKeepsLocal(sh: Shared, r: RequestId, q: Request, c: Choice)
    requires Local(sh.caching, q) && StepEnabled(sh, q, c) && q.pc.Proxying?
    ensures Local(sh.caching, StepOf(sh, r, q, c).1)
  {}

  lemma DownloadingKeepsLocal(sh: Shared, r: RequestId, q: Request, c: Choice)
    requires Local(sh.caching, q) && StepEnabled(sh, q, c) && Downloading(q.pc)
    ensures Local(sh.caching, StepOf(sh, r, q, c).1)
  {}

  lemma DeliveringKeepsLocal(sh: Shared, r: RequestId, q: Request, c: Choice)
    requires Local(sh.caching, q) && StepEnabled(sh, q, c) && Delivering(q.pc)
    ensures Local(sh.caching, StepOf(sh, r, q, c).1)
  {}

  lemma UnwindBodyKeepsLocal(sh: Shared, r: RequestId, q: Request, c: Choice)
    requires Local(sh.caching, q) && StepEnabled(sh, q, c) && q.pc.UnwindBody?
    ensures Local(sh.caching, StepOf(sh, r, q, c).1)
  {}

  lemma UnwindContextKeepsLocal(sh: Shared, r: RequestId, q: Request, c: Choice)
    requires Local(sh.caching, q) && StepEnabled(sh, q, c) && q.pc.UnwindContext?
    ensures Local(sh.caching, StepOf(sh, r, q, c).1)
  {}

  lemma UnwindSlotKeepsLocal(sh: Shared, r: RequestId, q: Request, c: Choice)
    requires Local(sh.caching, q) && StepEnabled(sh, q, c) && q.pc.UnwindSlot?
    ensures Local(sh.caching, StepOf(sh, r, q, c).1)
  {}

  lemma FinishingKeepsLocal(sh: Shared, r: RequestId, q: Request, c: Choice)
    requires Local(sh.caching, q) && StepEnabled(sh, q, c) && (q.pc.Deleting? || q.pc.Closing?)
    ensures Local(sh.caching, StepOf(sh, r, q, c).1)
  {}

  lemma StepKeepsLocal(sh: Shared, r: RequestId, q: Request, c: Choice)
    requires Local(sh.caching, q) && StepEnabled(sh, q, c)
    ensures Local(sh.caching, StepOf(sh, r, q, c).1)
  {
    if Entering(q.pc) {
      EnteringKeepsLocal(sh, r, q, c);
    } else if q.pc.Proxying? {
      ProxyingKeepsLocal(sh, r, q, c);
    } else if Playing(q.pc) {
      PlayingKeepsLocal(sh, r, q, c);
    } else if Downloading(q.pc) {
      DownloadingKeepsLocal(sh, r, q, c);
    } else if Delivering(q.pc) {
      DeliveringKeepsLocal(sh, r, q, c);
    } else if q.pc.UnwindBody? {
      UnwindBodyKeepsLocal(sh, r, q, c);
    } else if q.pc.UnwindContext? {
      UnwindContextKeepsLocal(sh, r, q, c);
    } else if q.pc.UnwindSlot? {
      UnwindSlotKeepsLocal(sh, r, q, c);
    } else {
      FinishingKeepsLocal(sh, r, q, c);
    }
  }

  /** A request whose download a background fill has taken over: all it still does is play and unwind. */
  predicate Backed(caching: bool, q: Request) {
    && caching && !q.fill.NoFill? && Freed(q) && Detached(q) && FillPart(q) && q.fl.None?
    && (q.pc.Proxying? || q.pc.UnwindContext? || q.pc.UnwindSlot? || q.pc.Done?)
  }

  lemma FillMeansBacked(caching: bool, q: Request)
    requires Local(caching, q) && !q.fill.NoFill?
    ensures Backed(caching, q)
  {}

  lemma BackedIsLocal(caching: bool, q: Request)
    requires Backed(caching, q)
    ensures Local(caching, q)
  {}

  /** The operation leaves the flights alone, and the request's standing towards its flight too. */
  predicate Quiet(sh: Shared, sh': Shared, q: Request, q': Request) {
    && sh'.flights == sh.flights && sh'.table == sh.table && sh'.caching == sh.caching && sh'.capacity == sh.capacity
    && SameStanding(q, q')
  }

  predicate SlotsFollow(sh: Shared, sh': Shared, q: Request, q': Request) {
    sh'.slots == sh.slots - (if q.slotHeld then 1 else 0) + (if q'.slotHeld then 1 else 0) <= sh.capacity
  }

  predicate TouchesFlights(pc: PC) { pc.Joining? || pc.ClosingVideo? || pc.Deleting? || pc.Closing? }

  lemma StepKeepsTable(sh: Shared, r: RequestId, q: Request, c: Choice)
    requires StepEnabled(sh, q, c) && !TouchesFlights(q.pc)
    ensures var sh' := StepOf(sh, r, q, c).0;
      sh'.flights == sh.flights && sh'.table == sh.table && sh'.caching == sh.caching && sh'.capacity == sh.capacity
  {}

  /** Where a request stands towards the flight it led, for its own operations that do not touch the flights. */
  predicate SameStanding(q: Request, q': Request) {
    && q'.key == q.key && q'.led == q.led
    && InMap(q') == InMap(q) && Closed(q') == Closed(q) && Announced(q') == Announced(q)
  }

  lemma BeforeUnwindingKeepsStanding(sh: Shared, r: RequestId, q: Request, c: Choice)
    requires Local(sh.caching, q) && StepEnabled(sh, q, c)
    requires Entering(q.pc) || Downloading(q.pc) || Delivering(q.pc)
    requires !q.pc.Joining?
    ensures SameStanding(q, StepOf(sh, r, q, c).1)
  {}

  lemma PlayingKeepsStanding(sh: Shared, r: RequestId, q: Request, c: Choice)
    requires Local(sh.caching, q) && StepEnabled(sh, q, c) && Playing(q.pc) && !q.pc.ClosingVideo?
    ensures SameStanding(q, StepOf(sh, r, q, c).1)
  {}

  lemma UnwindingKeepsStanding(sh: Shared, r: RequestId, q: Request, c: Choice)
    requires Local(sh.caching, q) && StepEnabled(sh, q, c) && (Unwinding(q.pc) || q.pc.UnwindSlot?)
    ensures SameStanding(q, StepOf(sh, r, q, c).1)
  {}

  lemma StepKeepsStanding(sh: Shared, r: RequestId, q: Request, c: Choice)
    requires Local(sh.caching, q) && StepEnabled(sh, q, c) && !TouchesFlights(q.pc)
    ensures SameStanding(q, StepOf(sh, r, q, c).1)
  {
    if Unwinding(q.pc) || q.pc.UnwindSlot? {
      UnwindingKeepsStanding(sh, r, q, c);
    } else if Playing(q.pc) {
      PlayingKeepsStanding(sh, r, q, c);
    } else {
      BeforeUnwindingKeepsStanding(sh, r, q, c);
    }
  }

  lemma StepKeepsSlots(sh: Shared, r: RequestId, q: Request, c: Choice)
    requires Local(sh.caching, q) && StepEnabled(sh, q, c) && sh.slots <= sh.capacity
    ensures SlotsFollow(sh, StepOf(sh, r, q, c).0, q, StepOf(sh, r, q, c).1)
  {}

  // ----- one operation, seen by everybody -----

  lemma SlotsCounted(s: State, sh': Shared, r: RequestId, q': Request)
    requires Inv(s) && r < |s.reqs| && SlotsFollow(s.shared, sh', s.reqs[r], q')
    ensures sh'.slots == Count(s.reqs[r := q'], Holds)
  {
    CountUpdate(s.reqs, Holds, r, q');
  }

  lemma QuietKeepsInv(s: State, sh': Shared, r: RequestId, q': Request)
    requires Inv(s) && r < |s.reqs|
    requires Quiet(s.shared, sh', s.reqs[r], q') && SlotsFollow(s.shared, sh', s.reqs[r], q')
    requires Local(sh'.caching, q') && WaitsForward(sh', q')
    ensures Inv(State(sh', s.reqs[r := q']))
  {
    SlotsCounted(s, sh', r, q');
    var s' := State(sh', s.reqs[r := q']);
    forall i | 0 <= i < |s'.reqs|
      ensures Fits(sh', i, s'.reqs[i])
    {
      assert Fits(s.shared, i, s.reqs[i]);
    }
  }

  /** A new flight is nobody else's. */
  lemma JoinFrame(sh: Shared, n: nat, key: Key, r: RequestId, i: RequestId, q: Request)
    requires TableOk(sh, n) && Fits(sh, i, q) && key !in sh.flights
    ensures Fits(sh.JoinFlight(key, r).0, i, q)
  {}

  lemma JoinKeepsTable(sh: Shared, n: nat, key: Key, r: RequestId)
    requires TableOk(sh, n) && r < n && key !in sh.flights && sh.caching
    ensures TableOk(sh.JoinFlight(key, r).0, n)
  {}

  lemma JoinOwn(sh: Shared, n: nat, r: RequestId, q: Request)
    requires TableOk(sh, n) && Fits(sh, r, q) && q.pc.Joining? && q.key !in sh.flights
    ensures Fits(StepOf(sh, r, q, Plain).0, r, StepOf(sh, r, q, Plain).1)
  {}

  lemma JoinKeepsLedBack(s: State, r: RequestId, q': Request)
    requires LedBack(s) && r < |s.reqs| && s.reqs[r].led.None? && q'.led == Some(|s.shared.table|)
    ensures LedBack(State(s.shared.JoinFlight(s.reqs[r].key, r).0, s.reqs[r := q']))
  {}

  lemma LeadKeepsInv(s: State, r: RequestId)
    requires Inv(s) && r < |s.reqs| && s.reqs[r].pc.Joining? && s.reqs[r].key !in s.shared.flights
    ensures Inv(Apply(s, Step(r, Plain)))
  {
    assert Fits(s.shared, r, s.reqs[r]);
    var s' := Apply(s, Step(r, Plain));
    LeadKeepsTable(s, r);
    forall i | 0 <= i < |s'.reqs|
      ensures Fits(s'.shared, i, s'.reqs[i])
    {
      LeadFits(s, r, i);
    }
  }

  lemma LeadKeepsTable(s: State, r: RequestId)
    requires TableOk(s.shared, |s.reqs|) && LedBack(s) && r < |s.reqs| && Fits(s.shared, r, s.reqs[r])
    requires s.reqs[r].pc.Joining? && s.reqs[r].key !in s.shared.flights
    ensures var s' := Apply(s, Step(r, Plain));
      && TableOk(s'.shared, |s'.reqs|) && LedBack(s') && Count(s'.reqs, Holds) == Count(s.reqs, Holds)
      && s'.shared.slots == s.shared.slots && s'.shared.capacity == s.shared.capacity && |s'.reqs| == |s.reqs|
  {
    var q' := Apply(s, Step(r, Plain)).reqs[r];
    JoinKeepsTable(s.shared, |s.reqs|, s.reqs[r].key, r);
    JoinKeepsLedBack(s, r, q');
    CountUpdate(s.reqs, Holds, r, q');
  }

  lemma LeadFits(s: State, r: RequestId, i: RequestId)
    requires TableOk(s.shared, |s.reqs|) && r < |s.reqs| && i < |s.reqs|
    requires Fits(s.shared, r, s.reqs[r]) && Fits(s.shared, i, s.reqs[i])
    requires s.reqs[r].pc.Joining? && s.reqs[r].key !in s.shared.flights
    ensures Fits(Apply(s, Step(r, Plain)).shared, i, Apply(s, Step(r, Plain)).reqs[i])
  {
    if i == r {
      JoinOwn(s.shared, |s.reqs|, r, s.reqs[r]);
    } else {
      JoinFrame(s.shared, |s.reqs|, s.reqs[r].key, r, i, s.reqs[i]);
    }
  }

  /** A request that finds a flight for its key waits on it. */
  lemma FollowKeepsInv(s: State, r: RequestId)
    requires Inv(s) && r < |s.reqs| && s.reqs[r].pc.Joining? && s.reqs[r].key in s.shared.flights
    ensures Inv(Apply(s, Step(r, Plain)))
  {
    var (sh', q') := StepOf(s.shared, r, s.reqs[r], Plain);
    assert Fits(s.shared, r, s.reqs[r]);
    QuietKeepsInv(s, sh', r, q');
  }

  /** The mapped flight of the key is this request's, so removing the key touches no other flight. */
  lemma DeleteFrame(sh: Shared, r: RequestId, q: Request, i: RequestId, other: Request)
    requires Fits(sh, r, q) && InMap(q) && Fits(sh, i, other) && i != r
    ensures Fits(sh.DeleteFlight(q.key), i, other)
  {}

  lemma DeleteKeepsTable(sh: Shared, n: nat, key: Key)
    requires TableOk(sh, n)
    ensures TableOk(sh.DeleteFlight(key), n)
  {}

  lemma DeleteKeepsInv(s: State, sh': Shared, r: RequestId, q': Request)
    requires Inv(s) && r < |s.reqs| && InMap(s.reqs[r]) && sh' == s.shared.DeleteFlight(s.reqs[r].key)
    requires q'.slotHeld == s.reqs[r].slotHeld && q'.led == s.reqs[r].led && Fits(sh', r, q')
    ensures Inv(State(sh', s.reqs[r := q']))
  {
    CountUpdate(s.reqs, Holds, r, q');
    DeleteKeepsTable(s.shared, |s.reqs|, s.reqs[r].key);
    var s' := State(sh', s.reqs[r := q']);
    assert Fits(s.shared, r, s.reqs[r]);
    forall i | 0 <= i < |s'.reqs|
      ensures Fits(sh', i, s'.reqs[i])
    {
      if i != r {
        DeleteFrame(s.shared, r, s.reqs[r], i, s.reqs[i]);
      }
    }
  }

  /** Closing a channel of one flight leaves the others alone. */
  lemma CloseFrame(sh: Shared, sh': Shared, f: FlightId, i: RequestId, other: Request)
    requires f < |sh.table| && (sh' == sh.CloseDone(f) || sh' == sh.CloseVideo(f))
    requires Fits(sh, i, other) && sh.table[f].leader != i
    ensures Fits(sh', i, other)
  {}

  lemma CloseKeepsTable(sh: Shared, n: nat, f: FlightId)
    requires TableOk(sh, n) && f < |sh.table|
    ensures TableOk(sh.CloseDone(f), n) && TableOk(sh.CloseVideo(f), n)
  {}

  lemma CloseKeepsInv(s: State, sh': Shared, r: RequestId, q': Request, done: bool)
    requires Inv(s) && r < |s.reqs| && s.reqs[r].led.Some? && s.reqs[r].led.value < |s.shared.table|
    requires sh' == if done then s.shared.CloseDone(s.reqs[r].led.value) else s.shared.CloseVideo(s.reqs[r].led.value)
    requires q'.slotHeld == s.reqs[r].slotHeld && q'.led == s.reqs[r].led && Fits(sh', r, q')
    ensures Inv(State(sh', s.reqs[r := q']))
  {
    CountUpdate(s.reqs, Holds, r, q');
    var f := s.reqs[r].led.value;
    CloseKeepsTable(s.shared, |s.reqs|, f);
    var s' := State(sh', s.reqs[r := q']);
    assert Fits(s.shared, r, s.reqs[r]);
    forall i | 0 <= i < |s'.reqs|
      ensures Fits(sh', i, s'.reqs[i])
    {
      if i != r {
        CloseFrame(s.shared, sh', f, i, s.reqs[i]);
      }
    }
  }

  /** A closed flight is out of the map, so a request that retries looks for a later one. */
  lemma MappedIsOpen(s: State, key: Key)
    requires Inv(s) && key in s.shared.flights
    ensures s.shared.table[s.shared.flights[key]].doneCloses == 0
  {
    var r := s.shared.table[s.shared.flights[key]].leader;
    assert Fits(s.shared, r, s.reqs[r]);
  }

  lemma RetryWaitsForward(sh: Shared, n: nat, q: Request)
    requires TableOk(sh, n) && WaitsForward(sh, q) && q.pc.Waiting? && sh.table[q.pc.on].doneCloses > 0
    requires q.key in sh.flights ==> sh.table[sh.flights[q.key]].doneCloses == 0
    ensures WaitsForward(sh, q.(pc := LookingUp, nextWait := q.pc.on + 1))
  {
    if q.key in sh.flights {
      assert q.pc.on != sh.flights[q.key];
    }
  }

  lemma StaysOutOfLoop(sh: Shared, r: RequestId, q: Request, c: Choice)
    requires StepEnabled(sh, q, c) && (Playing(q.pc) || Downloading(q.pc) || q.pc.Queueing?)
    ensures !InLoop(StepOf(sh, r, q, c).1)
  {}

  lemma StaysOutOfLoopToo(sh: Shared, r: RequestId, q: Request, c: Choice)
    requires StepEnabled(sh, q, c) && (Delivering(q.pc) || Unwinding(q.pc) || q.pc.UnwindSlot?)
    ensures !InLoop(StepOf(sh, r, q, c).1)
  {}

  lemma StepKeepsWaiting(s: State, r: RequestId, c: Choice)
    requires Inv(s) && r < |s.reqs| && StepEnabled(s.shared, s.reqs[r], c) && !TouchesFlights(s.reqs[r].pc)
    ensures WaitsForward(s.shared, StepOf(s.shared, r, s.reqs[r], c).1)
  {
    var q := s.reqs[r];
    assert Fits(s.shared, r, q);
    if q.pc.Waiting? && c.OnDone? {
      if q.key in s.shared.flights {
        MappedIsOpen(s, q.key);
      }
      RetryWaitsForward(s.shared, |s.reqs|, q);
    } else if Playing(q.pc) || Downloading(q.pc) || q.pc.Queueing? {
      StaysOutOfLoop(s.shared, r, q, c);
    } else if !InLoop(q) {
      StaysOutOfLoopToo(s.shared, r, q, c);
    }
  }

  lemma FinishFits(sh: Shared, r: RequestId, q: Request, c: Choice)
    requires Fits(sh, r, q) && StepEnabled(sh, q, c)
    requires q.pc.ClosingVideo? || q.pc.Deleting? || q.pc.Closing?
    ensures q.led.Some? && q.led.value < |sh.table| && (q.pc.Deleting? ==> InMap(q))
    ensures var (sh', q') := StepOf(sh, r, q, c); Fits(sh', r, q') && q'.slotHeld == q.slotHeld && q'.led == q.led
  {
    StepKeepsLocal(sh, r, q, c);
  }

  lemma FinishStepKeepsInv(s: State, r: RequestId, c: Choice)
    requires Inv(s) && r < |s.reqs| && StepEnabled(s.shared, s.reqs[r], c)
    requires s.reqs[r].pc.ClosingVideo? || s.reqs[r].pc.Deleting? || s.reqs[r].pc.Closing?
    ensures Inv(Apply(s, Step(r, c)))
  {
    var q := s.reqs[r];
    var (sh', q') := StepOf(s.shared, r, q, c);
    assert Fits(s.shared, r, q);
    FinishFits(s.shared, r, q, c);
    if q.pc.Deleting? {
      DeleteKeepsInv(s, sh', r, q');
    } else {
      CloseKeepsInv(s, sh', r, q', q.pc.Closing?);
    }
  }

  lemma StepIsQuiet(sh: Shared, r: RequestId, q: Request, c: Choice)
    requires Local(sh.caching, q) && StepEnabled(sh, q, c) && !TouchesFlights(q.pc) && sh.slots <= sh.capacity
    ensures var (sh', q') := StepOf(sh, r, q, c);
      Quiet(sh, sh', q, q') && SlotsFollow(sh, sh', q, q') && Local(sh'.caching, q') && sh'.table == sh.table
  {
    StepKeepsLocal(sh, r, q, c);
    StepKeepsTable(sh, r, q, c);
    StepKeepsStanding(sh, r, q, c);
    StepKeepsSlots(sh, r, q, c);
  }

  lemma WaitsTheSame(sh: Shared, sh': Shared, q: Request)
    requires WaitsForward(sh, q) && sh'.table == sh.table && sh'.flights == sh.flights
    ensures WaitsForward(sh', q)
  {}

  lemma QuietStepKeepsInv(s: State, r: RequestId, c: Choice)
    requires Inv(s) && r < |s.reqs| && StepEnabled(s.shared, s.reqs[r], c) && !TouchesFlights(s.reqs[r].pc)
    ensures Inv(Apply(s, Step(r, c)))
  {
    var q := s.reqs[r];
    var (sh', q') := StepOf(s.shared, r, q, c);
    assert Fits(s.shared, r, q);
    StepIsQuiet(s.shared, r, q, c);
    StepKeepsWaiting(s, r, c);
    WaitsTheSame(s.shared, sh', q');
    QuietKeepsInv(s, sh', r, q');
  }

  lemma StepKeepsInv(s: State, r: RequestId, c: Choice)
    requires Inv(s) && r < |s.reqs| && StepEnabled(s.shared, s.reqs[r], c)
    ensures Inv(Apply(s, Step(r, c)))
  {
    var q := s.reqs[r];
    assert Fits(s.shared, r, q);
    if !TouchesFlights(q.pc) {
      QuietStepKeepsInv(s, r, c);
    } else if q.pc.Joining? {
      if q.key in s.shared.flights {
        FollowKeepsInv(s, r);
      } else {
        LeadKeepsInv(s, r);
      }
    } else {
      FinishStepKeepsInv(s, r, c);
    }
  }

  lemma FillKeepsBacked(sh: Shared, r: RequestId, q: Request, c: Choice)
    requires Backed(sh.caching, q) && FillEnabled(sh, q, c) && FlightOf(sh, r, q)
    ensures Backed(FillOf(sh, q, c).0.caching, FillOf(sh, q, c).1)
    ensures FlightOf(FillOf(sh, q, c).0, r, FillOf(sh, q, c).1)
    ensures q.fill.FillDeleting? ==> InMap(q)
  {}

  lemma QuietFill(sh: Shared, q: Request, c: Choice)
    requires Backed(sh.caching, q) && FillEnabled(sh, q, c) && !q.fill.FillDeleting? && !q.fill.FillClosing?
    requires sh.slots <= sh.capacity
    ensures Quiet(sh, FillOf(sh, q, c).0, q, FillOf(sh, q, c).1)
    ensures SlotsFollow(sh, FillOf(sh, q, c).0, q, FillOf(sh, q, c).1)
  {}

  lemma FillStepKeepsInv(s: State, r: RequestId, c: Choice, sh': Shared, q': Request)
    requires Inv(s) && r < |s.reqs| && FillEnabled(s.shared, s.reqs[r], c)
    requires (sh', q') == FillOf(s.shared, s.reqs[r], c)
    ensures Inv(State(sh', s.reqs[r := q']))
  {
    var q := s.reqs[r];
    assert Fits(s.shared, r, q);
    FillMeansBacked(s.shared.caching, q);
    FillKeepsBacked(s.shared, r, q, c);
    BackedIsLocal(sh'.caching, q');
    if q.fill.FillDeleting? {
      DeleteKeepsInv(s, sh', r, q');
    } else if q.fill.FillClosing? {
      CloseKeepsInv(s, sh', r, q', true);
    } else {
      QuietFill(s.shared, q, c);
      QuietKeepsInv(s, sh', r, q');
    }
  }

  lemma ArriveKeepsInv(s: State, key: Key, ranged: bool)
    requires Inv(s)
    ensures Inv(Apply(s, Arrive(key, ranged)))
  {
    var s' := Apply(s, Arrive(key, ranged));
    assert s'.reqs[..|s.reqs|] == s.reqs;
    forall i | 0 <= i < |s'.reqs|
      ensures Fits(s'.shared, i, s'.reqs[i])
    {
      if i < |s.reqs| {
        assert Fits(s.shared, i, s.reqs[i]);
      }
    }
  }

  lemma DisconnectKeepsLocal(caching: bool, q: Request)
    requires Local(caching, q)
    ensures Local(caching, q.(gone := true, follow := if q.follow.Following? then Fired else q.follow))
  {}

  lemma FollowerKeepsLocal(caching: bool, q: Request)
    requires Local(caching, q) && q.follow.Fired?
    ensures Local(caching, q.(cancels := q.cancels.(follower := true)))
  {}

  lemma SignalKeepsInv(s: State, a: Action, q': Request)
    requires Inv(s) && Enabled(s, a) && (a.Disconnect? || a.FollowerCancels?)
    requires q' == Apply(s, a).reqs[a.r]
    ensures Inv(State(s.shared, s.reqs[a.r := q']))
  {
    assert Fits(s.shared, a.r, s.reqs[a.r]);
    if a.Disconnect? {
      DisconnectKeepsLocal(s.shared.caching, s.reqs[a.r]);
    } else {
      FollowerKeepsLocal(s.shared.caching, s.reqs[a.r]);
    }
    QuietKeepsInv(s, s.shared, a.r, q');
  }

  lemma ApplyKeepsInv(s: State, a: Action)
    requires Inv(s) && Enabled(s, a)
    ensures Inv(Apply(s, a))
  {
    match a
    case Arrive(key, ranged) => ArriveKeepsInv(s, key, ranged);
    case Evict(_) =>
      var s' := Apply(s, a);
      forall i | 0 <= i < |s'.reqs|
        ensures Fits(s'.shared, i, s'.reqs[i])
      {
        assert Fits(s.shared, i, s.reqs[i]);
      }
    case Step(r, c) => StepKeepsInv(s, r, c);
    case FillStep(r, c) => FillStepKeepsInv(s, r, c, Apply(s, a).shared, Apply(s, a).reqs[r]);
    case _ => SignalKeepsInv(s, a, Apply(s, a).reqs[a.r]);
  }
}
