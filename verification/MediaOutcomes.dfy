/** What becomes of a download, read off the actions of a run: which videos are
    handed to the background, when waiters are let go, who gets a fetch slot. */
module MediaOutcomes {
  import opened Basics
  import opened MediaProtocol
  import opened MediaInvariant
  import opened MediaSafety
  import opened MediaSharing
  import opened MediaLiveness

  // ----- disconnects -----

  lemma StepKeepsGone(s: State, a: Action, r: RequestId)
    requires Enabled(s, a) && r < |s.reqs|
    ensures r < |Apply(s, a).reqs| && (Apply(s, a).reqs[r].gone <==> s.reqs[r].gone || a == Disconnect(r))
  {
    if a.Step? && a.r == r {
      StepKeepsSource(s.shared, r, s.reqs[r], a.choice);
    } else if a.FillStep? && a.r == r {
      FillKeepsSource(s.shared, s.reqs[r], a.choice);
    }
  }

  lemma NewIsNotGone(s: State, a: Action, r: RequestId)
    requires Enabled(s, a) && |s.reqs| <= r < |Apply(s, a).reqs|
    ensures !Apply(s, a).reqs[r].gone && a != Disconnect(r)
  {}

  predicate Gone(s: State, r: RequestId) { r < |s.reqs| && s.reqs[r].gone }

  lemma ActionAndGone(s: State, a: Action, s': State, r: RequestId)
    requires Enabled(s, a) && s' == Apply(s, a)
    ensures Gone(s', r) <==> Gone(s, r) || a == Disconnect(r)
  {
    if r < |s.reqs| {
      StepKeepsGone(s, a, r);
    } else if r < |Apply(s, a).reqs| {
      NewIsNotGone(s, a, r);
    }
  }

  /** The client of request r disconnected during the first i actions. */
  ghost predicate Disconnected(actions: seq<Action>, i: nat, r: RequestId)
    requires i <= |actions|
  {
    exists k | 0 <= k < i :: actions[k] == Disconnect(r)
  }

  lemma DisconnectedNext(actions: seq<Action>, i: nat, r: RequestId)
    requires 0 < i <= |actions|
    ensures Disconnected(actions, i, r) <==> Disconnected(actions, i - 1, r) || actions[i - 1] == Disconnect(r)
  {}

  lemma {:induction false} GoneFrom(gone: seq<bool>, actions: seq<Action>, i: nat, r: RequestId)
    requires |gone| == |actions| + 1 && i <= |actions| && !gone[0]
    requires forall k | 0 <= k < i :: gone[k + 1] <==> gone[k] || actions[k] == Disconnect(r)
    ensures gone[i] <==> Disconnected(actions, i, r)
  {
    if i > 0 {
      GoneFrom(gone, actions, i - 1, r);
      DisconnectedNext(actions, i, r);
    }
  }

  lemma GoneIffDisconnected(states: seq<State>, actions: seq<Action>, i: nat, r: RequestId)
    requires Run(states, actions) && i <= |actions|
    ensures Gone(states[i], r) <==> Disconnected(actions, i, r)
  {
    var gone := seq(|states|, k requires 0 <= k < |states| => Gone(states[k], r));
    forall k | 0 <= k < i
      ensures gone[k + 1] <==> gone[k] || actions[k] == Disconnect(r)
    {
      ActionAndGone(states[k], actions[k], states[k + 1], r);
    }
    GoneFrom(gone, actions, i, r);
  }

  // ----- between two operations of one request -----

  /** Step j is request r's next operation after step i. */
  predicate Next(actions: seq<Action>, i: nat, j: nat, r: RequestId) {
    i < j < |actions| && actions[j].Step? && actions[j].r == r && forall k | i < k < j :: ByOthers(actions[k], r)
  }

  lemma {:induction false} Waits(states: seq<State>, actions: seq<Action>, i: nat, j: nat, r: RequestId)
    requires Run(states, actions) && i <= j < |states| && r < |states[i].reqs|
    requires forall k | i <= k < j :: ByOthers(actions[k], r)
    ensures r < |states[j].reqs| && SameLocals(states[i].reqs[r], states[j].reqs[r])
    ensures SameDownload(states[i].reqs[r], states[j].reqs[r])
  {
    if i < j {
      Waits(states, actions, i, j - 1, r);
      OthersKeepLocals(states[j - 1], actions[j - 1], r);
      OthersKeepDownload(states[j - 1], actions[j - 1], r);
    }
  }

  lemma LeadsIff(s: State, r: RequestId)
    requires Inv(s) && r < |s.reqs|
    ensures (exists f: FlightId :: LedBy(s, f, r)) <==> s.reqs[r].led.Some?
    ensures s.reqs[r].led.Some? ==> LedBy(s, s.reqs[r].led.value, r)
    ensures forall f: FlightId | LedBy(s, f, r) :: s.reqs[r].led == Some(f)
  {
    assert Fits(s.shared, r, s.reqs[r]);
    if s.reqs[r].led.Some? {
      assert LedBy(s, s.reqs[r].led.value, r);
    }
  }

  // ----- handing a video off -----

  /** A video that can be played with ranges, just fetched: its slot is freed, then it is handed off or not. */
  lemma VideoStep(s: State, r: RequestId)
    requires Inv(s) && r < |s.reqs| && Enabled(s, Step(r, Video)) && s.reqs[r].ranged
    ensures var q := Apply(s, Step(r, Video)).reqs[r];
      q.pc.FreeingForPlayback? && q.fill.NoFill? && q.bodyCloses == 0
  {
    assert Fits(s.shared, r, s.reqs[r]);
  }

  lemma FreeingStep(s: State, r: RequestId, c: Choice)
    requires Inv(s) && r < |s.reqs| && Enabled(s, Step(r, c)) && s.reqs[r].pc.FreeingForPlayback?
    ensures var q := Apply(s, Step(r, c)).reqs[r];
      q.pc.Detaching? && SameDownload(s.reqs[r], q) && q.led == s.reqs[r].led
  {}

  lemma DetachingStep(s: State, r: RequestId, c: Choice)
    requires Inv(s) && r < |s.reqs| && Enabled(s, Step(r, c)) && s.reqs[r].pc.Detaching?
    ensures var q, q' := s.reqs[r], Apply(s, Step(r, c)).reqs[r];
      && q'.pc == (if q.led.Some? && !q.gone then ClosingVideo else DroppingBody)
      && q'.led == q.led && q.fill.NoFill? && q'.fill.NoFill? && q.bodyCloses == 0 && q'.bodyCloses == 0
  {
    assert Fits(s.shared, r, s.reqs[r]);
  }

  lemma ClosingStep(s: State, r: RequestId, c: Choice)
    requires Inv(s) && r < |s.reqs| && Enabled(s, Step(r, c)) && s.reqs[r].pc.ClosingVideo?
    ensures s.reqs[r].led.Some? && LedBy(s, s.reqs[r].led.value, r)
    ensures var s', f := Apply(s, Step(r, c)), s.reqs[r].led.value;
      && s.shared.table[f].videoCloses == 0 && LedBy(s', f, r) && s'.shared.table[f].videoCloses == 1
      && s'.reqs[r].pc.Spawning? && s'.reqs[r].led == Some(f)
  {
    assert Fits(s.shared, r, s.reqs[r]);
  }

  lemma SpawningStep(s: State, r: RequestId, c: Choice)
    requires Inv(s) && r < |s.reqs| && Enabled(s, Step(r, c)) && s.reqs[r].pc.Spawning?
    ensures var q, q' := s.reqs[r], Apply(s, Step(r, c)).reqs[r];
      q.fill.NoFill? && q'.fill.Filling? && q'.fillFlight == q.led && q'.bodyCloses == 0 && q'.pc.Proxying?
  {
    assert Fits(s.shared, r, s.reqs[r]);
  }

  /** A body dropped for good: closed once, without a fill, its video never announced. */
  predicate Dropped(q: Request) {
    && !q.detached && q.fill.NoFill? && q.bodyCloses == 1 && q.gotBody
    && (q.pc.Proxying? || q.pc.UnwindContext? || q.pc.UnwindSlot? || q.pc.Deleting? || q.pc.Closing? || q.pc.Done?)
    && ((q.pc.Deleting? || q.pc.Closing?) ==> q.pc.after.ToExit?)
  }

  lemma DroppingStep(s: State, r: RequestId, c: Choice)
    requires Inv(s) && r < |s.reqs| && Enabled(s, Step(r, c)) && s.reqs[r].pc.DroppingBody?
    ensures Dropped(Apply(s, Step(r, c)).reqs[r]) && Apply(s, Step(r, c)).reqs[r].pc.Proxying?
  {
    assert Fits(s.shared, r, s.reqs[r]);
  }

  lemma DroppedStep(sh: Shared, r: RequestId, q: Request, c: Choice)
    requires StepEnabled(sh, q, c) && Dropped(q)
    ensures Dropped(StepOf(sh, r, q, c).1)
  {}

  lemma DroppedStays(s: State, a: Action, r: RequestId)
    requires Enabled(s, a) && r < |s.reqs| && Dropped(s.reqs[r])
    ensures r < |Apply(s, a).reqs| && Dropped(Apply(s, a).reqs[r])
  {
    if ByOthers(a, r) {
      OthersKeepLocals(s, a, r);
      OthersKeepDownload(s, a, r);
    } else {
      DroppedStep(s.shared, r, s.reqs[r], a.choice);
    }
  }

  /** At some state, request r's body was closed once, no fill of it runs or ran, and no flight of it said "video". */
  ghost predicate NeverHandedOff(s: State, r: RequestId) {
    && r < |s.reqs| && s.reqs[r].bodyCloses == 1 && s.reqs[r].fill.NoFill?
    && forall f: FlightId | LedBy(s, f, r) :: s.shared.table[f].videoCloses == 0
  }

  lemma DroppedMeans(s: State, r: RequestId)
    requires Inv(s) && r < |s.reqs| && Dropped(s.reqs[r])
    ensures NeverHandedOff(s, r)
  {
    assert Fits(s.shared, r, s.reqs[r]);
    LeadsIff(s, r);
  }

  lemma {:induction false} DroppedForGood(states: seq<State>, actions: seq<Action>, i: nat, j: nat, r: RequestId)
    requires Run(states, actions) && i <= j < |states| && r < |states[i].reqs| && Dropped(states[i].reqs[r])
    ensures r < |states[j].reqs| && Dropped(states[j].reqs[r])
  {
    if i < j {
      DroppedForGood(states, actions, i, j - 1, r);
      DroppedStays(states[j - 1], actions[j - 1], r);
    }
  }

  /** At step e request r closes its flight's video channel, and at step g it
      starts the fill of that flight, its body still open. */
  predicate HandsOff(states: seq<State>, e: nat, g: nat, r: RequestId, f: FlightId)
    requires e + 1 < |states| && g + 1 < |states|
  {
    && LedBy(states[e], f, r) && states[e].shared.table[f].videoCloses == 0
    && LedBy(states[e + 1], f, r) && states[e + 1].shared.table[f].videoCloses == 1
    && r < |states[g].reqs| && states[g].reqs[r].fill.NoFill?
    && r < |states[g + 1].reqs| && states[g + 1].reqs[r].fill.Filling? && states[g + 1].reqs[r].fillFlight == Some(f)
    && states[g + 1].reqs[r].bodyCloses == 0
  }

  /** Steps f, a, d, e and g are consecutive operations of request r, the first of
      which fetches a video that it can play with ranges. */
  predicate FetchesVideo(
    states: seq<State>, actions: seq<Action>, f: nat, a: nat, d: nat, e: nat, g: nat, r: RequestId)
    requires |states| == |actions| + 1
  {
    && f < |actions| && actions[f] == Step(r, Video) && r < |states[f].reqs| && states[f].reqs[r].ranged
    && Next(actions, f, a, r) && Next(actions, a, d, r) && Next(actions, d, e, r) && Next(actions, e, g, r)
  }

  /** The video's third operation is the hand-off's first, if it has led a flight and its client stayed. */
  lemma ReachesThird(states: seq<State>, actions: seq<Action>, f: nat, a: nat, d: nat, e: nat, g: nat, r: RequestId)
    requires Run(states, actions) && FetchesVideo(states, actions, f, a, d, e, g, r)
    ensures r < |states[d].reqs| && r < |states[e].reqs| && states[e].reqs[r].led == states[d].reqs[r].led
    ensures states[e].reqs[r].fill.NoFill? && states[e].reqs[r].bodyCloses == 0
    ensures states[e].reqs[r].pc ==
      if states[d].reqs[r].led.Some? && !Disconnected(actions, d, r) then ClosingVideo else DroppingBody
  {
    RunKeepsInv(states, actions, f);
    VideoStep(states[f], r);
    Waits(states, actions, f + 1, a, r);
    RunKeepsInv(states, actions, a);
    FreeingStep(states[a], r, actions[a].choice);
    Waits(states, actions, a + 1, d, r);
    RunKeepsInv(states, actions, d);
    DetachingStep(states[d], r, actions[d].choice);
    GoneIffDisconnected(states, actions, d, r);
    Waits(states, actions, d + 1, e, r);
  }

  /** A fetched video is handed to a background fill of the request's flight,
      whose waiters are told "video", if and only if the request leads a flight
      and its client has not disconnected by the time it stops following it;
      whatever anybody else does. */
  lemma HandedOffIff(
    states: seq<State>, actions: seq<Action>, f: nat, a: nat, d: nat, e: nat, g: nat, r: RequestId, fl: FlightId)
    requires Run(states, actions) && FetchesVideo(states, actions, f, a, d, e, g, r)
    ensures HandsOff(states, e, g, r, fl) <==> LedBy(states[d], fl, r) && !Disconnected(actions, d, r)
    ensures HandsOff(states, e, g, r, fl) ==> states[g + 1].reqs[r].pc.Proxying?
  {
    ReachesThird(states, actions, f, a, d, e, g, r);
    RunKeepsInv(states, actions, d);
    LeadsIff(states[d], r);
    RunKeepsInv(states, actions, e);
    LeadsIff(states[e], r);
    RunKeepsInv(states, actions, g);
    if states[e].reqs[r].pc.ClosingVideo? {
      ClosingStep(states[e], r, actions[e].choice);
      Waits(states, actions, e + 1, g, r);
      SpawningStep(states[g], r, actions[g].choice);
    } else {
      DroppingStep(states[e], r, actions[e].choice);
      DroppedForGood(states, actions, e + 1, g + 1, r);
    }
  }

  /** Otherwise its body is closed, once and for all, and neither a fill nor a "video" ever follows. */
  lemma OtherwiseDropped(
    states: seq<State>, actions: seq<Action>, f: nat, a: nat, d: nat, e: nat, g: nat, r: RequestId, j: nat)
    requires Run(states, actions) && FetchesVideo(states, actions, f, a, d, e, g, r) && e < j < |states|
    requires (forall fl: FlightId :: !LedBy(states[d], fl, r)) || Disconnected(actions, d, r)
    ensures r < |states[e].reqs| && states[e].reqs[r].bodyCloses == 0 && NeverHandedOff(states[j], r)
    ensures r < |states[e + 1].reqs| && states[e + 1].reqs[r].pc.Proxying?
  {
    ReachesThird(states, actions, f, a, d, e, g, r);
    RunKeepsInv(states, actions, d);
    LeadsIff(states[d], r);
    RunKeepsInv(states, actions, e);
    DroppingStep(states[e], r, actions[e].choice);
    DroppedForGood(states, actions, e + 1, j, r);
    RunKeepsInv(states, actions, j);
    DroppedMeans(states[j], r);
  }

  // ----- slots -----

  /** A waiting download may take a slot exactly while fewer requests than the
      capacity hold one, and then it goes on to fetch. */
  lemma SlotFreeIff(s: State, r: RequestId)
    requires Inv(s) && r < |s.reqs| && s.reqs[r].pc.Queueing?
    ensures Enabled(s, Step(r, OnSlot)) <==> Count(s.reqs, Holds) < s.shared.capacity
    ensures Enabled(s, Step(r, OnSlot)) ==>
      var s' := Apply(s, Step(r, OnSlot));
      Holds(s'.reqs[r]) && Enabled(s', Step(r, Photo)) && Enabled(s', Step(r, Video))
  {}

  // ----- followers -----

  /** What a follower can be woken by, exactly: its flight's close, its flight's
      "video", its client's going away. After the first it looks its key up
      again, after the second it plays through, after the third it is over. */
  lemma WokenBy(s: State, r: RequestId)
    requires Inv(s) && r < |s.reqs| && s.reqs[r].pc.Waiting?
    ensures var f := s.reqs[r].pc.on;
      && f < |s.shared.table| && s.shared.table[f].key == s.reqs[r].key
      && (Enabled(s, Step(r, OnDone)) <==> s.shared.table[f].doneCloses == 1)
      && (Enabled(s, Step(r, OnVideo)) <==> s.shared.table[f].videoCloses == 1)
      && (Enabled(s, Step(r, OnGone)) <==> s.reqs[r].gone)
    ensures Enabled(s, Step(r, OnDone)) ==> Apply(s, Step(r, OnDone)).reqs[r].pc.LookingUp?
    ensures Enabled(s, Step(r, OnVideo)) ==> Apply(s, Step(r, OnVideo)).reqs[r].pc.Proxying?
    ensures Enabled(s, Step(r, OnGone)) ==> Apply(s, Step(r, OnGone)).reqs[r].pc.Done?
  {
    assert Fits(s.shared, r, s.reqs[r]);
    ExactlyOneOwner(s, s.reqs[r].pc.on);
  }

  // ----- photos -----

  /** Steps f, a, b, c, d, e and g are consecutive operations of request r, of
      which the first fetches a photo and none fails. */
  predicate FetchesPhoto(
    states: seq<State>, actions: seq<Action>,
    f: nat, a: nat, b: nat, c: nat, d: nat, e: nat, g: nat, r: RequestId)
    requires |states| == |actions| + 1
  {
    && f < |actions| && actions[f] == Step(r, Photo) && r < |states[f].reqs|
    && Next(actions, f, a, r) && Next(actions, a, b, r) && Next(actions, b, c, r) && Next(actions, c, d, r)
    && Next(actions, d, e, r) && Next(actions, e, g, r)
    && actions[a] == Step(r, Plain) && actions[b] == Step(r, Plain) && actions[c] == Step(r, Plain)
    && actions[d] == Step(r, Plain) && actions[e] == Step(r, Plain) && actions[g] == Step(r, Plain)
  }

  /** A leader's operation in the chain from a fetched photo to its delivery. */
  predicate InChain(pc: PC) {
    pc.Reading? || pc.FreeingAfterRead? || pc.Storing? || pc == Deleting(ToServe) || pc == Closing(ToServe)
  }

  function AfterThat(pc: PC): PC
    requires InChain(pc)
  {
    match pc
    case Reading => FreeingAfterRead
    case FreeingAfterRead => Storing
    case Storing => Deleting(ToServe)
    case Deleting(_) => Closing(ToServe)
    case Closing(_) => Serving
  }

  lemma PhotoStep(s: State, r: RequestId)
    requires Inv(s) && s.shared.caching && r < |s.reqs| && Enabled(s, Step(r, Photo))
    ensures var q := Apply(s, Step(r, Photo)).reqs[r];
      s.reqs[r].led.Some? && q.led == s.reqs[r].led && q.pc.Reading? && q.slotHeld
  {
    assert Fits(s.shared, r, s.reqs[r]);
  }

  lemma ChainStep(s: State, r: RequestId)
    requires Inv(s) && r < |s.reqs| && s.reqs[r].led.Some? && InChain(s.reqs[r].pc) && Enabled(s, Step(r, Plain))
    ensures var s', q := Apply(s, Step(r, Plain)), s.reqs[r];
      && s'.reqs[r].pc == AfterThat(q.pc) && s'.reqs[r].led == q.led && s'.reqs[r].key == q.key
      && (q.pc.FreeingAfterRead? ==> !s'.reqs[r].slotHeld)
      && (q.pc.Storing? ==> q.key in s'.shared.cached)
      && (q.pc.Deleting? ==> q.key !in s'.shared.flights)
  {
    assert Fits(s.shared, r, s.reqs[r]);
  }

  lemma ChainCloses(s: State, r: RequestId)
    requires Inv(s) && r < |s.reqs| && s.reqs[r].pc == Closing(ToServe) && Enabled(s, Step(r, Plain))
    ensures s.reqs[r].led.Some? && LedBy(s, s.reqs[r].led.value, r)
    ensures var s', f := Apply(s, Step(r, Plain)), s.reqs[r].led.value;
      s.shared.table[f].doneCloses == 0 && LedBy(s', f, r) && s'.shared.table[f].doneCloses == 1
  {
    assert Fits(s.shared, r, s.reqs[r]);
  }

  /** One link: from an operation of r in the chain to its next. */
  lemma Link(states: seq<State>, actions: seq<Action>, i: nat, j: nat, r: RequestId)
    requires Run(states, actions) && Next(actions, i, j, r) && actions[i] == Step(r, Plain)
    requires r < |states[i].reqs| && states[i].reqs[r].led.Some? && InChain(states[i].reqs[r].pc)
    ensures r < |states[j].reqs| && states[j].reqs[r].pc == AfterThat(states[i].reqs[r].pc)
    ensures states[j].reqs[r].led == states[i].reqs[r].led && states[j].reqs[r].key == states[i].reqs[r].key
    ensures r < |states[i + 1].reqs| && (states[i].reqs[r].pc.FreeingAfterRead? ==> !states[i + 1].reqs[r].slotHeld)
    ensures states[i].reqs[r].pc.Storing? ==> states[i].reqs[r].key in states[i + 1].shared.cached
    ensures states[i].reqs[r].pc.Deleting? ==> states[i].reqs[r].key !in states[i + 1].shared.flights
  {
    RunKeepsInv(states, actions, i);
    ChainStep(states[i], r);
    Waits(states, actions, i + 1, j, r);
  }

  /** With a cache, a fetched photo that is read and stored without error goes
      this way, whatever the others do: its slot is free before it is stored;
      its key is in the cache once it is; its flight leaves the map and is
      closed, so its waiters go on; and only then is it served. */
  lemma PhotoDelivered(
    states: seq<State>, actions: seq<Action>,
    f: nat, a: nat, b: nat, c: nat, d: nat, e: nat, g: nat, r: RequestId)
    returns (fl: FlightId)
    requires Run(states, actions) && FetchesPhoto(states, actions, f, a, b, c, d, e, g, r) && states[f].shared.caching
    ensures r < |states[b + 1].reqs| && !states[b + 1].reqs[r].slotHeld
    ensures states[f].reqs[r].key in states[c + 1].shared.cached
    ensures states[f].reqs[r].key !in states[d + 1].shared.flights
    ensures LedBy(states[e], fl, r) && states[e].shared.table[fl].doneCloses == 0
    ensures LedBy(states[e + 1], fl, r) && states[e + 1].shared.table[fl].doneCloses == 1
    ensures r < |states[g].reqs| && states[g].reqs[r].pc.Serving?
  {
    RunKeepsInv(states, actions, f);
    PhotoStep(states[f], r);
    Waits(states, actions, f + 1, a, r);
    ActionKeepsRequest(states[f], actions[f], r);
    Link(states, actions, a, b, r);
    Link(states, actions, b, c, r);
    Link(states, actions, c, d, r);
    Link(states, actions, d, e, r);
    Link(states, actions, e, g, r);
    RunKeepsInv(states, actions, e);
    ChainCloses(states[e], r);
    fl := states[e].reqs[r].led.value;
  }
}
