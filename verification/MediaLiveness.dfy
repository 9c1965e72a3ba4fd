/** The single-flight protocol never gets stuck and never runs in circles. */
module MediaLiveness {
  import opened Basics
  import opened MediaProtocol
  import opened MediaInvariant
  import opened MediaSafety

  /** How many of its own operations a request can still perform, at most, while n flights exist. */
  function RequestRank(pc: PC, nextWait: FlightId, n: nat): nat {
    var loop := 40 + if nextWait <= n then 3 * (n - nextWait) else 0;
    match pc
    case LookingUp => loop + 2
    case Joining => loop + 1
    case Waiting(_) => loop
    case Queueing => 30
    case Fetching => 29
    case FreeingForPlayback => 28
    case Detaching => 27
    case ClosingVideo => 26
    case Spawning => 25
    case DroppingBody => 24
    case Proxying => 15
    case Streaming => 20
    case Reading => 23
    case FreeingAfterRead => 22
    case Storing => 21
    case Deleting(after) => if after.ToServe? then 20 else 7
    case Closing(after) => if after.ToServe? then 19 else 6
    case Serving => 18
    case UnwindBody => 10
    case UnwindContext => 9
    case UnwindSlot => 8
    case Done => 0
  }

  function FillRank(fill: FillPC): nat {
    match fill
    case Filling => 5
    case FillBody => 4
    case FillDeleting => 3
    case FillClosing => 2
    case FillCancelling => 1
    case _ => 0
  }

  /** The same for a request together with the background fill it started. */
  function Rank(q: Request, n: nat): nat { RequestRank(q.pc, q.nextWait, n) + FillRank(q.fill) }

  ghost function RankAt(n: nat): Request -> nat { (q: Request) => Rank(q, n) }

  ghost function Looping(s: State): nat { Count(s.reqs, InLoop) }

  ghost function Work(s: State): nat { Sum(s.reqs, RankAt(|s.shared.table|)) }

  predicate Internal(a: Action) { a.Step? || a.FillStep? }

  /** Outside the retry loop every operation brings its request closer to the end. */
  lemma StepLowersRank(sh: Shared, r: RequestId, q: Request, c: Choice, n: nat)
    requires Local(sh.caching, q) && StepEnabled(sh, q, c) && (Playing(q.pc) || Downloading(q.pc) || q.pc.Queueing?)
    ensures Rank(StepOf(sh, r, q, c).1, n) < Rank(q, n)
  {}

  lemma DeliveryLowersRank(sh: Shared, r: RequestId, q: Request, c: Choice, n: nat)
    requires Local(sh.caching, q) && StepEnabled(sh, q, c) && Delivering(q.pc)
    ensures Rank(StepOf(sh, r, q, c).1, n) < Rank(q, n)
    ensures !InLoop(StepOf(sh, r, q, c).1)
  {}

  lemma UnwindingLowersRank(sh: Shared, r: RequestId, q: Request, c: Choice, n: nat)
    requires Local(sh.caching, q) && StepEnabled(sh, q, c) && (Unwinding(q.pc) || q.pc.UnwindSlot?)
    ensures Rank(StepOf(sh, r, q, c).1, n) < Rank(q, n)
    ensures !InLoop(StepOf(sh, r, q, c).1)
  {}

  lemma FinishingLowersRank(sh: Shared, r: RequestId, q: Request, c: Choice, n: nat)
    requires Local(sh.caching, q) && StepEnabled(sh, q, c) && (q.pc.Deleting? || q.pc.Closing?)
    ensures Rank(StepOf(sh, r, q, c).1, n) < Rank(q, n)
    ensures !InLoop(StepOf(sh, r, q, c).1)
  {}

  lemma LateStepLowersRank(sh: Shared, r: RequestId, q: Request, c: Choice, n: nat)
    requires Local(sh.caching, q) && StepEnabled(sh, q, c)
    requires Delivering(q.pc) || Unwinding(q.pc) || q.pc.UnwindSlot? || q.pc.Deleting? || q.pc.Closing?
    ensures Rank(StepOf(sh, r, q, c).1, n) < Rank(q, n)
    ensures !InLoop(StepOf(sh, r, q, c).1)
  {
    if Delivering(q.pc) {
      DeliveryLowersRank(sh, r, q, c, n);
    } else if q.pc.Deleting? || q.pc.Closing? {
      FinishingLowersRank(sh, r, q, c, n);
    } else {
      UnwindingLowersRank(sh, r, q, c, n);
    }
  }

  /** Inside it, an operation either leaves the loop or waits for a later flight. */
  lemma LoopStepLowersRank(sh: Shared, r: RequestId, q: Request, c: Choice)
    requires Local(sh.caching, q) && WaitsForward(sh, q) && StepEnabled(sh, q, c) && InLoop(q)
    ensures var q' := StepOf(sh, r, q, c).1;
      InLoop(q') ==> Rank(q', |sh.table|) < Rank(q, |sh.table|) && StepOf(sh, r, q, c).0.table == sh.table
  {}

  lemma FillLowersRank(sh: Shared, q: Request, c: Choice, n: nat)
    requires FillEnabled(sh, q, c)
    ensures Rank(FillOf(sh, q, c).1, n) < Rank(q, n)
    ensures InLoop(FillOf(sh, q, c).1) == InLoop(q) && |FillOf(sh, q, c).0.table| == |sh.table|
  {
    assert FillOf(sh, q, c).1.pc == q.pc && FillOf(sh, q, c).1.nextWait == q.nextWait;
  }

  lemma StepKeepsTableSize(sh: Shared, r: RequestId, q: Request, c: Choice)
    requires StepEnabled(sh, q, c) && !q.pc.Joining?
    ensures |StepOf(sh, r, q, c).0.table| == |sh.table|
  {
    if !TouchesFlights(q.pc) {
      StepKeepsTable(sh, r, q, c);
    }
  }

  /** Every operation of a request or a fill lowers (requests in the retry
      loop, work left) lexicographically: between two environment actions
      (arrivals, disconnects, evictions) only finitely many operations happen,
      so the retry loop cannot go on for ever. */
  lemma EveryOperationLowersMeasure(s: State, a: Action)
    requires Inv(s) && Enabled(s, a) && Internal(a)
    ensures var s' := Apply(s, a);
      Looping(s') < Looping(s) || (Looping(s') == Looping(s) && Work(s') < Work(s))
  {
    var q := s.reqs[a.r];
    assert Fits(s.shared, a.r, q);
    if a.FillStep? {
      FillLowersRank(s.shared, q, a.choice, |s.shared.table|);
      LowersMeasure(s, a.r, FillOf(s.shared, q, a.choice).0, FillOf(s.shared, q, a.choice).1);
    } else {
      var sh', q' := StepOf(s.shared, a.r, q, a.choice).0, StepOf(s.shared, a.r, q, a.choice).1;
      OperationLowersRank(s.shared, a.r, q, a.choice);
      LowersMeasure(s, a.r, sh', q');
    }
  }

  lemma OperationLowersRank(sh: Shared, r: RequestId, q: Request, c: Choice)
    requires Fits(sh, r, q) && StepEnabled(sh, q, c)
    ensures var (sh', q') := StepOf(sh, r, q, c);
      || (InLoop(q) && !InLoop(q'))
      || (InLoop(q') == InLoop(q) && |sh'.table| == |sh.table| && Rank(q', |sh.table|) < Rank(q, |sh.table|))
  {
    if InLoop(q) {
      LoopStepLowersRank(sh, r, q, c);
    } else {
      StepKeepsTableSize(sh, r, q, c);
      if Playing(q.pc) || Downloading(q.pc) || q.pc.Queueing? {
        StepLowersRank(sh, r, q, c, |sh.table|);
        StaysOutOfLoop(sh, r, q, c);
      } else {
        LateStepLowersRank(sh, r, q, c, |sh.table|);
      }
    }
  }

  lemma LowersMeasure(s: State, r: RequestId, sh': Shared, q': Request)
    requires r < |s.reqs|
    requires var q := s.reqs[r];
      || (InLoop(q) && !InLoop(q'))
      || (InLoop(q') == InLoop(q) && |sh'.table| == |s.shared.table| &&
          Rank(q', |s.shared.table|) < Rank(q, |s.shared.table|))
    ensures var s' := State(sh', s.reqs[r := q']);
      Looping(s') < Looping(s) || (Looping(s') == Looping(s) && Work(s') < Work(s))
  {
    CountUpdate(s.reqs, InLoop, r, q');
    SumUpdate(s.reqs, RankAt(|s.shared.table|), r, q');
  }

  /** So no execution consists of operations alone for ever. */
  lemma {:induction false} NoInfiniteActivity(states: nat -> State, actions: nat -> Action, i: nat)
    requires Inv(states(i))
    requires forall j | i <= j ::
      Internal(actions(j)) && Enabled(states(j), actions(j)) && states(j + 1) == Apply(states(j), actions(j))
    ensures false
    decreases Looping(states(i)), Work(states(i))
  {
    ApplyKeepsInv(states(i), actions(i));
    EveryOperationLowersMeasure(states(i), actions(i));
    NoInfiniteActivity(states, actions, i + 1);
  }

  // ----- progress -----

  predicate Unfinished(q: Request) { !q.pc.Done? || FillRank(q.fill) > 0 }

  /** An operation of request r, or of its fill, that is possible now. */
  function NextOf(s: State, r: RequestId): Action
    requires r < |s.reqs|
  {
    var q := s.reqs[r];
    if q.pc.Done? || q.pc.Waiting? then FillStep(r, Plain)
    else Step(r, if q.pc.Queueing? then OnTimeout else if q.pc.Fetching? then Photo else Plain)
  }

  /** A request that is neither over nor waiting for a flight can always go
      on, and so can a background fill. */
  lemma CanGoOn(s: State, r: RequestId)
    requires Inv(s) && r < |s.reqs| && Unfinished(s.reqs[r]) && !s.reqs[r].pc.Waiting?
    ensures Enabled(s, NextOf(s, r))
  {
    var q := s.reqs[r];
    assert Fits(s.shared, r, q);
    SlotsConserved(s, r);
    OwnsIsLed(s.shared.caching, q);
  }

  /** No follower is stranded: the flight it waits for is closed, or has an
      owner that can perform an operation now. By OwnerDrawsCloser each of them
      brings the owner closer to closing the flight. */
  lemma NoStrandedWaiter(s: State, r: RequestId)
    requires Inv(s) && r < |s.reqs| && s.reqs[r].pc.Waiting?
    ensures var f := s.reqs[r].pc.on;
      && f < |s.shared.table| && s.shared.table[f].leader < |s.reqs|
      && if s.shared.table[f].doneCloses > 0 then Enabled(s, Step(r, OnDone))
         else Owned(s, f) && Enabled(s, NextOf(s, s.shared.table[f].leader))
  {
    var f := s.reqs[r].pc.on;
    assert Fits(s.shared, r, s.reqs[r]);
    var l := s.shared.table[f].leader;
    assert Fits(s.shared, l, s.reqs[l]);
    if s.shared.table[f].doneCloses == 0 {
      OwnsIsLed(s.shared.caching, s.reqs[l]);
      CanGoOn(s, l);
    }
  }

  // ----- how soon a flight is closed -----

  /** How many operations a request that still leads its flight performs, at most, up to the one that closes it. */
  function LeaderLeft(pc: PC): nat {
    match pc
    case Queueing => 13
    case Fetching => 12
    case FreeingForPlayback => 11
    case Detaching => 10
    case ClosingVideo => 9
    case Spawning => 8
    case Reading => 8
    case FreeingAfterRead => 7
    case Storing => 6
    case Streaming => 6
    case DroppingBody => 6
    case Proxying => 5
    case UnwindBody => 5
    case UnwindContext => 4
    case UnwindSlot => 3
    case Deleting(_) => 2
    case Closing(_) => 1
    case _ => 0
  }

  /** The same for one whose fill has the flight: it only plays and unwinds. */
  function PlayerLeft(pc: PC): nat {
    match pc
    case Proxying => 3
    case UnwindContext => 2
    case UnwindSlot => 1
    case _ => 0
  }

  function FillLeft(fill: FillPC): nat {
    match fill
    case Filling => 4
    case FillBody => 3
    case FillDeleting => 2
    case FillClosing => 1
    case _ => 0
  }

  /** The same for a leader together with its fill. */
  function UntilClose(q: Request): nat {
    if q.fill.NoFill? then LeaderLeft(q.pc) else PlayerLeft(q.pc) + FillLeft(q.fill)
  }

  /** The request leads a flight that is still open. */
  predicate LeadsOpen(caching: bool, q: Request) { Local(caching, q) && q.led.Some? && !Closed(q) }

  predicate CloserBy1(q: Request, q': Request) { Closed(q') || UntilClose(q') < UntilClose(q) }

  lemma PlayingDrawsCloser(sh: Shared, r: RequestId, q: Request, c: Choice)
    requires LeadsOpen(sh.caching, q) && StepEnabled(sh, q, c) && (Playing(q.pc) || q.pc.Queueing?)
    ensures CloserBy1(q, StepOf(sh, r, q, c).1)
  {}

  lemma DownloadingDrawsCloser(sh: Shared, r: RequestId, q: Request, c: Choice)
    requires LeadsOpen(sh.caching, q) && StepEnabled(sh, q, c) && (Downloading(q.pc) || Delivering(q.pc))
    ensures CloserBy1(q, StepOf(sh, r, q, c).1)
  {}

  lemma UnwindingDrawsCloser(sh: Shared, r: RequestId, q: Request, c: Choice)
    requires LeadsOpen(sh.caching, q) && StepEnabled(sh, q, c) && (Unwinding(q.pc) || q.pc.UnwindSlot?)
    ensures CloserBy1(q, StepOf(sh, r, q, c).1)
  {}

  lemma FinishingDrawsCloser(sh: Shared, r: RequestId, q: Request, c: Choice)
    requires LeadsOpen(sh.caching, q) && StepEnabled(sh, q, c) && (q.pc.Deleting? || q.pc.Closing?)
    ensures CloserBy1(q, StepOf(sh, r, q, c).1)
  {}

  lemma FillDrawsCloser(sh: Shared, q: Request, c: Choice)
    requires LeadsOpen(sh.caching, q) && FillEnabled(sh, q, c)
    ensures CloserBy1(q, FillOf(sh, q, c).1)
  {}

  lemma OpenWithin13(caching: bool, q: Request)
    requires LeadsOpen(caching, q)
    ensures 1 <= UntilClose(q) <= 13 && !InLoop(q)
  {}

  lemma StepDrawsCloser(sh: Shared, r: RequestId, q: Request, c: Choice)
    requires LeadsOpen(sh.caching, q) && StepEnabled(sh, q, c)
    ensures CloserBy1(q, StepOf(sh, r, q, c).1)
  {
    OpenWithin13(sh.caching, q);
    if Playing(q.pc) || q.pc.Queueing? {
      PlayingDrawsCloser(sh, r, q, c);
    } else if Downloading(q.pc) || Delivering(q.pc) {
      DownloadingDrawsCloser(sh, r, q, c);
    } else if q.pc.Deleting? || q.pc.Closing? {
      FinishingDrawsCloser(sh, r, q, c);
    } else {
      UnwindingDrawsCloser(sh, r, q, c);
    }
  }

  predicate LedBy(s: State, f: FlightId, l: RequestId) {
    f < |s.shared.table| && s.shared.table[f].leader == l && l < |s.reqs|
  }

  lemma LeaderKept(s: State, a: Action, f: FlightId, l: RequestId)
    requires Inv(s) && Enabled(s, a) && LedBy(s, f, l)
    ensures LedBy(Apply(s, a), f, l)
  {
    ApplyKeepsInv(s, a);
    LeadsAtMostOnce(s, a, l);
  }

  /** Whether a flight is closed shows in its leader. */
  lemma ClosedShows(s: State, f: FlightId, l: RequestId)
    requires Inv(s) && LedBy(s, f, l)
    ensures Local(s.shared.caching, s.reqs[l]) && s.reqs[l].led.Some?
    ensures s.shared.table[f].doneCloses == if Closed(s.reqs[l]) then 1 else 0
  {
    assert Fits(s.shared, l, s.reqs[l]);
  }

  predicate OperationOf(a: Action, l: RequestId) { Internal(a) && a.r == l }

  lemma OthersDrawNothing(s: State, a: Action, l: RequestId)
    requires Enabled(s, a) && l < |s.reqs| && !OperationOf(a, l)
    ensures l < |Apply(s, a).reqs|
    ensures Closed(Apply(s, a).reqs[l]) == Closed(s.reqs[l]) && UntilClose(Apply(s, a).reqs[l]) == UntilClose(s.reqs[l])
  {}

  lemma OwnDrawsCloser(s: State, a: Action, l: RequestId)
    requires Enabled(s, a) && l < |s.reqs| && OperationOf(a, l) && LeadsOpen(s.shared.caching, s.reqs[l])
    ensures l < |Apply(s, a).reqs| && CloserBy1(s.reqs[l], Apply(s, a).reqs[l])
  {
    if a.Step? {
      StepDrawsCloser(s.shared, l, s.reqs[l], a.choice);
    } else {
      FillDrawsCloser(s.shared, s.reqs[l], a.choice);
    }
  }

  /** Every operation of an open flight's leader, or of its fill, closes the
      flight or leaves fewer of them to do before it is closed, at most 13 from
      the start; nobody else's operation, and no environment action, closes it
      or changes how many are left. */
  lemma OwnerDrawsCloser(s: State, a: Action, f: FlightId, l: RequestId)
    requires Inv(s) && Enabled(s, a) && LedBy(s, f, l) && s.shared.table[f].doneCloses == 0
    ensures 1 <= UntilClose(s.reqs[l]) <= 13 && LedBy(Apply(s, a), f, l)
    ensures var s' := Apply(s, a);
      if OperationOf(a, l)
      then s'.shared.table[f].doneCloses == 1 || UntilClose(s'.reqs[l]) < UntilClose(s.reqs[l])
      else s'.shared.table[f].doneCloses == 0 && UntilClose(s'.reqs[l]) == UntilClose(s.reqs[l])
  {
    ClosedShows(s, f, l);
    OpenWithin13(s.shared.caching, s.reqs[l]);
    LeaderKept(s, a, f, l);
    ApplyKeepsInv(s, a);
    ClosedShows(Apply(s, a), f, l);
    if OperationOf(a, l) {
      OwnDrawsCloser(s, a, l);
    } else {
      OthersDrawNothing(s, a, l);
    }
  }

  /** A closed flight stays closed. */
  lemma ClosedStays(s: State, a: Action, f: FlightId, l: RequestId)
    requires Inv(s) && Enabled(s, a) && LedBy(s, f, l) && s.shared.table[f].doneCloses == 1
    ensures LedBy(Apply(s, a), f, l) && Apply(s, a).shared.table[f].doneCloses == 1
  {
    ClosedShows(s, f, l);
    LeaderKept(s, a, f, l);
    ApplyKeepsInv(s, a);
    ClosedShows(Apply(s, a), f, l);
    if OperationOf(a, l) {
      ClosedRequestStays(s, a, l);
    } else {
      OthersDrawNothing(s, a, l);
    }
  }

  lemma ClosedRequestStays(s: State, a: Action, l: RequestId)
    requires Enabled(s, a) && l < |s.reqs| && OperationOf(a, l)
    requires Local(s.shared.caching, s.reqs[l]) && Closed(s.reqs[l])
    ensures l < |Apply(s, a).reqs| && Closed(Apply(s, a).reqs[l])
  {}

  /** How many of actions i to j are operations of request l or of the fill it started. */
  ghost function OperationsOf(actions: seq<Action>, i: nat, j: nat, l: RequestId): nat
    requires i <= j <= |actions|
  {
    if i == j then 0
    else OperationsOf(actions, i, j - 1, l) + if OperationOf(actions[j - 1], l) then 1 else 0
  }

  /** What is left of n after that many were done. */
  function Less(n: nat, done: nat): nat { if done <= n then n - done else 0 }

  /** Where every operation of l takes one off until none is left, the operations performed are off the start. */
  lemma {:induction false} CountsDown(lefts: seq<nat>, actions: seq<Action>, i: nat, j: nat, l: RequestId)
    requires |lefts| == |actions| + 1 && i <= j <= |actions|
    requires forall k | i <= k < j :: lefts[k + 1] <= Less(lefts[k], if OperationOf(actions[k], l) then 1 else 0)
    ensures lefts[j] <= Less(lefts[i], OperationsOf(actions, i, j, l))
  {
    if i < j {
      CountsDown(lefts, actions, i, j - 1, l);
    }
  }

  lemma {:induction false} LedStays(states: seq<State>, actions: seq<Action>, i: nat, j: nat, f: FlightId, l: RequestId)
    requires Run(states, actions) && i <= j < |states| && LedBy(states[i], f, l)
    ensures LedBy(states[j], f, l)
  {
    if i < j {
      LedStays(states, actions, i, j - 1, f, l);
      RunKeepsInv(states, actions, j - 1);
      LeaderKept(states[j - 1], actions[j - 1], f, l);
    }
  }

  /** The operations left until the flight is closed; none once it is. */
  function LeftIn(s: State, f: FlightId, l: RequestId): nat {
    if LedBy(s, f, l) && s.shared.table[f].doneCloses == 0 then UntilClose(s.reqs[l]) else 0
  }

  lemma LeaderStep(s: State, a: Action, f: FlightId, l: RequestId)
    requires Inv(s) && Enabled(s, a) && LedBy(s, f, l)
    ensures LeftIn(Apply(s, a), f, l) <= Less(LeftIn(s, f, l), if OperationOf(a, l) then 1 else 0)
  {
    ClosedShows(s, f, l);
    if s.shared.table[f].doneCloses == 0 {
      OwnerDrawsCloser(s, a, f, l);
    } else {
      ClosedStays(s, a, f, l);
    }
  }

  /** Of an open flight at least one operation is left, and at most 13. */
  lemma NoneLeftIff(s: State, f: FlightId, l: RequestId)
    requires Inv(s) && LedBy(s, f, l)
    ensures LeftIn(s, f, l) <= 13 && (LeftIn(s, f, l) == 0 <==> s.shared.table[f].doneCloses == 1)
  {
    ClosedShows(s, f, l);
    if s.shared.table[f].doneCloses == 0 {
      OpenWithin13(s.shared.caching, s.reqs[l]);
    }
  }

  /** However the others interleave, a flight is closed once its leader and the
      leader's fill have performed 13 operations between them. */
  lemma FlightClosedWithin13(states: seq<State>, actions: seq<Action>, i: nat, j: nat, f: FlightId)
    requires Run(states, actions) && i <= j < |states| && f < |states[i].shared.table|
    requires OperationsOf(actions, i, j, states[i].shared.table[f].leader) >= 13
    ensures f < |states[j].shared.table| && states[j].shared.table[f].doneCloses == 1
  {
    RunKeepsInv(states, actions, i);
    var l := states[i].shared.table[f].leader;
    var lefts := seq(|states|, k requires 0 <= k < |states| => LeftIn(states[k], f, l));
    forall k | i <= k < j
      ensures lefts[k + 1] <= Less(lefts[k], if OperationOf(actions[k], l) then 1 else 0)
    {
      LedStays(states, actions, i, k, f, l);
      RunKeepsInv(states, actions, k);
      LeaderStep(states[k], actions[k], f, l);
    }
    CountsDown(lefts, actions, i, j, l);
    NoneLeftIff(states[i], f, l);
    LedStays(states, actions, i, j, f, l);
    RunKeepsInv(states, actions, j);
    NoneLeftIff(states[j], f, l);
  }

  lemma {:induction false} AllOwn(actions: seq<Action>, i: nat, j: nat, l: RequestId)
    requires i <= j <= |actions| && forall k | i <= k < j :: OperationOf(actions[k], l)
    ensures OperationsOf(actions, i, j, l) == j - i
  {
    if i < j {
      AllOwn(actions, i, j - 1, l);
    }
  }

  /** From its fourth action on, only request 0 and its fill operate. */
  ghost predicate Alone(states: seq<State>, actions: seq<Action>) {
    Run(states, actions) && forall k | 3 <= k < |actions| :: OperationOf(actions[k], 0)
  }

  lemma Operate(states: seq<State>, actions: seq<Action>, a: Action, next: State)
    returns (states': seq<State>, actions': seq<Action>)
    requires Alone(states, actions) && Enabled(states[|actions|], a) && next == Apply(states[|actions|], a)
    requires |actions| < 3 || OperationOf(a, 0)
    ensures Alone(states', actions') && states' == states + [next] && actions' == actions + [a]
  {
    states', actions' := states + [next], actions + [a];
    RunGoesOn(states, actions, a, next);
  }

  /** One request for a video, leading the flight for its key. */
  function Leading(key: Key): State {
    State(Shared(true, 1, {}, map[key := 0], [Flight(key, 0, 0, 0)], 0),
          [NewRequest(true, key, true).(pc := Queueing, led := Some(0), fl := Some(0))])
  }

  /** The same with a slot, and the video fetched. */
  function Fetched(key: Key): State {
    var s := Leading(key);
    State(s.shared.(slots := 1),
          [s.reqs[0].(pc := FreeingForPlayback, acquired := 1, slotHeld := true, follow := Following, gotBody := true)])
  }

  /** Its download handed off to the background fill. */
  function HandedOff(key: Key): State {
    var s := Fetched(key);
    State(s.shared.(slots := 0, table := [Flight(key, 0, 0, 1)]),
          [s.reqs[0].(pc := Proxying, released := 1, slotHeld := false, follow := Stopped, detached := true,
                      fl := None, fill := Filling, fillFlight := Some(0))])
  }

  /** The handler returned, the fill stored the video and about to close the flight. */
  function AboutToClose(key: Key): State {
    var s := HandedOff(key);
    State(s.shared.(cached := {key}, flights := map[]),
          [s.reqs[0].(pc := Done, fill := FillClosing, bodyCloses := 1)])
  }

  lemma ReachFetched(key: Key) returns (states: seq<State>, actions: seq<Action>)
    ensures Alone(states, actions) && |actions| == 5 && states[3] == Leading(key) && states[5] == Fetched(key)
  {
    var q := NewRequest(true, key, true);
    var sh := Shared(true, 1, {}, map[], [], 0);
    states, actions := [State(sh, [])], [];
    states, actions := Operate(states, actions, Arrive(key, true), State(sh, [q]));
    states, actions := Operate(states, actions, Step(0, Plain), State(sh, [q.(pc := Joining)]));
    states, actions := Operate(states, actions, Step(0, Plain), Leading(key));
    sh, q := Leading(key).shared.(slots := 1), Leading(key).reqs[0];
    q := q.(pc := Fetching, acquired := 1, slotHeld := true, follow := Following);
    states, actions := Operate(states, actions, Step(0, OnSlot), State(sh, [q]));
    states, actions := Operate(states, actions, Step(0, Video), Fetched(key));
  }

  lemma ReachHandedOff(key: Key) returns (states: seq<State>, actions: seq<Action>)
    ensures Alone(states, actions) && |actions| == 9 && states[3] == Leading(key) && states[9] == HandedOff(key)
  {
    states, actions := ReachFetched(key);
    var sh, q := Fetched(key).shared.(slots := 0), Fetched(key).reqs[0];
    q := q.(pc := Detaching, released := 1, slotHeld := false);
    states, actions := Operate(states, actions, Step(0, Plain), State(sh, [q]));
    q := q.(pc := ClosingVideo, follow := Stopped, detached := true);
    states, actions := Operate(states, actions, Step(0, Plain), State(sh, [q]));
    sh, q := sh.(table := [Flight(key, 0, 0, 1)]), q.(pc := Spawning);
    states, actions := Operate(states, actions, Step(0, Plain), State(sh, [q]));
    states, actions := Operate(states, actions, Step(0, Plain), HandedOff(key));
  }

  lemma ReachAboutToClose(key: Key) returns (states: seq<State>, actions: seq<Action>)
    ensures Alone(states, actions) && |actions| == 15 && states[3] == Leading(key) && states[15] == AboutToClose(key)
  {
    states, actions := ReachHandedOff(key);
    var sh, q := HandedOff(key).shared, HandedOff(key).reqs[0].(pc := UnwindContext);
    states, actions := Operate(states, actions, Step(0, Plain), State(sh, [q]));
    q := q.(pc := UnwindSlot);
    states, actions := Operate(states, actions, Step(0, Plain), State(sh, [q]));
    q := q.(pc := Done);
    states, actions := Operate(states, actions, Step(0, Plain), State(sh, [q]));
    sh, q := sh.(cached := {key}), q.(fill := FillBody);
    states, actions := Operate(states, actions, FillStep(0, Plain), State(sh, [q]));
    q := q.(fill := FillDeleting, bodyCloses := 1);
    states, actions := Operate(states, actions, FillStep(0, Plain), State(sh, [q]));
    states, actions := Operate(states, actions, FillStep(0, Plain), AboutToClose(key));
  }

  /** 13 is met, and fewer would not do: of a handed-off video whose handler
      returns first, the thirteenth operation is the close. */
  lemma ThirteenthCloses(key: Key) returns (states: seq<State>, actions: seq<Action>)
    ensures Run(states, actions) && |actions| == 16 && LedBy(states[3], 0, 0)
    ensures OperationsOf(actions, 3, 15, 0) == 12 && OperationsOf(actions, 3, 16, 0) == 13
    ensures LedBy(states[15], 0, 0) && states[15].shared.table[0].doneCloses == 0
    ensures LedBy(states[16], 0, 0) && states[16].shared.table[0].doneCloses == 1
  {
    states, actions := ReachAboutToClose(key);
    var s := AboutToClose(key);
    var last := State(s.shared.(table := [Flight(key, 0, 1, 1)]), [s.reqs[0].(fill := FillCancelling)]);
    states, actions := Operate(states, actions, FillStep(0, Plain), last);
    AllOwn(actions, 3, 15, 0);
    AllOwn(actions, 3, 16, 0);
  }

  /** Where nothing can move any more, everything is over: every request has
      returned, every slot is free, no flight is left in the map and each was
      closed exactly once, every body fetched was closed exactly once and
      every download context was cancelled. */
  lemma QuiescentMeansDone(s: State)
    requires Inv(s)
    requires forall a :: Internal(a) ==> !Enabled(s, a)
    ensures s.shared.slots == 0 && s.shared.flights == map[]
    ensures forall f | 0 <= f < |s.shared.table| :: s.shared.table[f].doneCloses == 1
    ensures forall r | 0 <= r < |s.reqs| :: var q := s.reqs[r];
      && q.pc.Done? && q.released == q.acquired && q.bodyCloses == (if q.gotBody then 1 else 0)
      && (!q.follow.NoContext? ==> q.cancels.request || q.cancels.fill)
  {
    forall r | 0 <= r < |s.reqs|
      ensures !Unfinished(s.reqs[r])
    {
      if Unfinished(s.reqs[r]) {
        if s.reqs[r].pc.Waiting? {
          NoStrandedWaiter(s, r);
        } else {
          CanGoOn(s, r);
        }
      }
    }
    forall r | 0 <= r < |s.reqs|
      ensures Over(s, r)
    {
      AllOver(s, r);
    }
    CountZero(s.reqs, Holds);
    forall f | 0 <= f < |s.shared.table|
      ensures s.shared.table[f].doneCloses == 1
    {
      assert Over(s, s.shared.table[f].leader);
    }
    forall key | key in s.shared.flights
      ensures false
    {
      MappedIsOpen(s, key);
    }
  }

  predicate Over(s: State, r: RequestId)
    requires r < |s.reqs|
  {
    var q := s.reqs[r];
    && q.pc.Done? && !q.slotHeld && q.released == q.acquired && q.bodyCloses == (if q.gotBody then 1 else 0)
    && (!q.follow.NoContext? ==> q.cancels.request || q.cancels.fill)
    && (q.led.Some? ==> q.led.value < |s.shared.table| && s.shared.table[q.led.value].doneCloses == 1)
  }

  lemma AllOver(s: State, r: RequestId)
    requires Inv(s) && r < |s.reqs| && !Unfinished(s.reqs[r])
    ensures Over(s, r)
  {
    assert Fits(s.shared, r, s.reqs[r]);
  }
}
