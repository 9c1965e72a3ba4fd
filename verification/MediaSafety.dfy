/** Safety of the single-flight protocol over every interleaving. */
module MediaSafety {
  import opened Basics
  import opened MediaProtocol
  import opened MediaInvariant

  lemma {:induction false} RunKeepsInv(states: seq<State>, actions: seq<Action>, i: nat)
    requires Run(states, actions) && i < |states|
    ensures Inv(states[i])
  {
    if i == 0 {
      InitInv(states[0]);
    } else {
      RunKeepsInv(states, actions, i - 1);
      ApplyKeepsInv(states[i - 1], actions[i - 1]);
    }
  }

  /** A run goes on with any action that is possible at its end. */
  lemma RunGoesOn(states: seq<State>, actions: seq<Action>, a: Action, next: State)
    requires Run(states, actions) && Enabled(states[|actions|], a) && next == Apply(states[|actions|], a)
    ensures Run(states + [next], actions + [a])
  {
    var states', actions' := states + [next], actions + [a];
    forall i | 0 <= i < |actions'|
      ensures Enabled(states'[i], actions'[i]) && states'[i + 1] == Apply(states'[i], actions'[i])
    {
      if i < |actions| {
        assert Enabled(states[i], actions[i]) && states[i + 1] == Apply(states[i], actions[i]);
      }
    }
  }

  // ----- what others leave alone -----

  /** What others never change of a request: what serveMedia keeps in local variables. */
  predicate SameLocals(q: Request, q': Request) {
    && q'.key == q.key && q'.ranged == q.ranged && q'.pc == q.pc && q'.led == q.led && q'.fl == q.fl
    && q'.slotHeld == q.slotHeld && q'.detached == q.detached && q'.gotBody == q.gotBody
  }

  predicate ByOthers(a: Action, r: RequestId) { !(a.Step? && a.r == r) }

  lemma FillKeepsLocals(sh: Shared, q: Request, c: Choice)
    requires FillEnabled(sh, q, c)
    ensures SameLocals(q, FillOf(sh, q, c).1)
  {
  }

  lemma OthersKeepLocals(s: State, a: Action, r: RequestId)
    requires Enabled(s, a) && ByOthers(a, r) && r < |s.reqs|
    ensures r < |Apply(s, a).reqs| && SameLocals(s.reqs[r], Apply(s, a).reqs[r])
  {
    if a.FillStep? {
      FillKeepsLocals(s.shared, s.reqs[a.r], a.choice);
    }
  }

  /** Its download, as long as no fill has taken it over. */
  predicate SameDownload(q: Request, q': Request) {
    q.fill.NoFill? ==> q'.fill.NoFill? && q'.bodyCloses == q.bodyCloses
  }

  lemma OthersKeepDownload(s: State, a: Action, r: RequestId)
    requires Enabled(s, a) && ByOthers(a, r) && r < |s.reqs|
    ensures r < |Apply(s, a).reqs| && SameDownload(s.reqs[r], Apply(s, a).reqs[r])
  {}

  lemma SameServer(s: State, a: Action)
    requires Enabled(s, a)
    ensures Apply(s, a).shared.caching == s.shared.caching && Apply(s, a).shared.capacity == s.shared.capacity
  {
  }

  // ----- who owns a flight -----

  /** A goroutine that can hold a flight: a request, or the background fill a request started. */
  datatype Goroutine = Handler(r: RequestId) | Background(r: RequestId)

  /** g still has to close flight f. */
  predicate Owns(s: State, g: Goroutine, f: FlightId) {
    g.r < |s.reqs| &&
    var q := s.reqs[g.r];
    if g.Handler? then q.fl == Some(f)
    else (q.fill.Filling? || q.fill.FillBody? || q.fill.FillDeleting? || q.fill.FillClosing?) && q.fillFlight == Some(f)
  }

  predicate Owned(s: State, f: FlightId)
    requires f < |s.shared.table| && s.shared.table[f].leader < |s.reqs|
  {
    var r := s.shared.table[f].leader;
    Owns(s, Handler(r), f) || Owns(s, Background(r), f)
  }

  lemma OwnsIsLed(caching: bool, q: Request)
    requires Local(caching, q)
    ensures q.fl.Some? ==> q.led == q.fl && q.fill.NoFill?
    ensures !q.fill.NoFill? ==> q.fillFlight == q.led && q.led.Some? && q.fl.None? && q.ranged
  {}

  /** Only the leader of a flight, or the fill it started, ever owns it, and never both. */
  lemma OwnersAgree(s: State, g: Goroutine, f: FlightId)
    requires Inv(s) && f < |s.shared.table| && Owns(s, g, f)
    ensures g.r == s.shared.table[f].leader
    ensures g.Background? <==> !s.reqs[g.r].fill.NoFill?
  {
    assert Fits(s.shared, g.r, s.reqs[g.r]);
    OwnsIsLed(s.shared.caching, s.reqs[g.r]);
  }

  /** A flight that is not closed yet has exactly one owner, a closed one has
      none, and every flight in the map is open. */
  lemma ExactlyOneOwner(s: State, f: FlightId)
    requires Inv(s) && f < |s.shared.table|
    ensures s.shared.table[f].doneCloses <= 1 && s.shared.table[f].videoCloses <= 1
    ensures s.shared.table[f].doneCloses == 0 <==> exists g :: Owns(s, g, f)
    ensures forall g, h :: Owns(s, g, f) && Owns(s, h, f) ==> g == h
    ensures forall key | key in s.shared.flights && s.shared.flights[key] == f ::
      s.shared.table[f].key == key && s.shared.table[f].doneCloses == 0
  {
    var r := s.shared.table[f].leader;
    var q := s.reqs[r];
    assert Fits(s.shared, r, q);
    OwnsIsLed(s.shared.caching, q);
    if s.shared.table[f].doneCloses == 0 {
      var g := if q.fl.Some? then Handler(r) else Background(r);
      assert Owns(s, g, f);
    }
    forall g | Owns(s, g, f)
      ensures s.shared.table[f].doneCloses == 0 && g == if q.fill.NoFill? then Handler(r) else Background(r)
    {
      OwnersAgree(s, g, f);
    }
    forall key | key in s.shared.flights && s.shared.flights[key] == f
      ensures s.shared.table[f].key == key && s.shared.table[f].doneCloses == 0
    {
      MappedIsOpen(s, key);
    }
  }

  /** finishFlight deletes by key alone, and still always removes the caller's
      own flight; when it then closes `done`, the channel is open. */
  lemma FinishFlightIsOwn(s: State, r: RequestId)
    requires Inv(s) && r < |s.reqs|
    ensures var q := s.reqs[r];
      && (q.pc.Deleting? ==> q.fl.Some? && q.key in s.shared.flights && s.shared.flights[q.key] == q.fl.value)
      && (q.fill.FillDeleting? ==>
            q.fillFlight.Some? && q.key in s.shared.flights && s.shared.flights[q.key] == q.fillFlight.value)
      && (q.pc.Closing? ==>
            q.fl.Some? && q.fl.value < |s.shared.table| && s.shared.table[q.fl.value].doneCloses == 0)
      && (q.fill.FillClosing? ==>
            q.fillFlight.Some? && q.fillFlight.value < |s.shared.table| &&
            s.shared.table[q.fillFlight.value].doneCloses == 0)
      && (q.pc.ClosingVideo? ==>
            q.fl.Some? && q.fl.value < |s.shared.table| && s.shared.table[q.fl.value].videoCloses == 0)
  {
    assert Fits(s.shared, r, s.reqs[r]);
    OwnsIsLed(s.shared.caching, s.reqs[r]);
  }

  /** A goroutine that is filling the cache: leading a flight that is still in the map. */
  predicate Filler(s: State, g: Goroutine, key: Key) {
    g.r < |s.reqs| && s.reqs[g.r].key == key &&
    var q := s.reqs[g.r];
    if g.Handler? then q.fl.Some? && !q.pc.Closing?
    else q.fill.Filling? || q.fill.FillBody? || q.fill.FillDeleting?
  }

  /** Fills of one key never overlap. */
  lemma FillsExclude(s: State, g: Goroutine, h: Goroutine, key: Key)
    requires Inv(s) && Filler(s, g, key) && Filler(s, h, key)
    ensures g == h
  {
    assert Fits(s.shared, g.r, s.reqs[g.r]) && Fits(s.shared, h.r, s.reqs[h.r]);
    OwnsIsLed(s.shared.caching, s.reqs[g.r]);
    OwnsIsLed(s.shared.caching, s.reqs[h.r]);
  }

  // ----- how many fills -----

  ghost function LedFor(key: Key): Request -> bool { (q: Request) => q.led.Some? && q.key == key }

  ghost function FilledFor(key: Key): Request -> bool { (q: Request) => !q.fill.NoFill? && q.key == key }

  ghost function AskedFor(key: Key): Request -> bool { (q: Request) => q.key == key }

  ghost function FlightFor(key: Key): Flight -> bool { (f: Flight) => f.key == key }

  lemma {:induction false} CountMonotone<T>(s: seq<T>, p: T -> bool, p': T -> bool)
    requires forall i | 0 <= i < |s| :: p(s[i]) ==> p'(s[i])
    ensures Count(s, p) <= Count(s, p')
  {
    if s != [] {
      CountMonotone(s[..|s| - 1], p, p');
    }
  }

  lemma {:induction false} CountSameKeys(a: seq<Flight>, b: seq<Flight>, key: Key)
    requires |a| == |b| && forall i | 0 <= i < |a| :: a[i].key == b[i].key
    ensures Count(a, FlightFor(key)) == Count(b, FlightFor(key))
  {
    if a != [] {
      CountSameKeys(a[..|a| - 1], b[..|b| - 1], key);
    }
  }

  /** The table keeps its flights and their keys. */
  predicate SameKeys(a: seq<Flight>, b: seq<Flight>) {
    |a| == |b| && forall i | 0 <= i < |a| :: a[i].key == b[i].key
  }

  predicate StartsFlight(s: State, a: Action) {
    a.Step? && a.r < |s.reqs| && s.reqs[a.r].pc.Joining? && s.reqs[a.r].key !in s.shared.flights
  }

  lemma StepLeavesLeaders(sh: Shared, r: RequestId, q: Request, c: Choice)
    requires Local(sh.caching, q) && StepEnabled(sh, q, c) && !(q.pc.Joining? && q.key !in sh.flights)
    ensures var (sh', q') := StepOf(sh, r, q, c); q'.led == q.led && q'.key == q.key && SameKeys(sh.table, sh'.table)
  {
    if q.pc.Joining? {
    } else if TouchesFlights(q.pc) {
      FinishLeavesLeaders(sh, r, q, c);
    } else {
      StepKeepsTable(sh, r, q, c);
      StepKeepsStanding(sh, r, q, c);
    }
  }

  lemma FinishLeavesLeaders(sh: Shared, r: RequestId, q: Request, c: Choice)
    requires StepEnabled(sh, q, c) && (q.pc.ClosingVideo? || q.pc.Deleting? || q.pc.Closing?)
    ensures var (sh', q') := StepOf(sh, r, q, c); q'.led == q.led && q'.key == q.key && SameKeys(sh.table, sh'.table)
  {}

  predicate LeavesLeaders(s: State, s': State) {
    && SameKeys(s.shared.table, s'.shared.table) && |s'.reqs| == |s.reqs|
    && forall i | 0 <= i < |s.reqs| :: s'.reqs[i].led == s.reqs[i].led && s'.reqs[i].key == s.reqs[i].key
  }

  /** Nothing but a successful joinFlight starts a flight or makes a leader. */
  lemma OthersLeaveLeaders(s: State, a: Action)
    requires Inv(s) && Enabled(s, a) && !a.Arrive? && !StartsFlight(s, a)
    ensures LeavesLeaders(s, Apply(s, a))
  {
    if a.Step? {
      var (sh', q') := StepOf(s.shared, a.r, s.reqs[a.r], a.choice);
      assert Fits(s.shared, a.r, s.reqs[a.r]);
      StepLeavesLeaders(s.shared, a.r, s.reqs[a.r], a.choice);
    } else if a.FillStep? {
      FillLeavesLeaders(s.shared, s.reqs[a.r], a.choice);
    }
  }

  lemma FillLeavesLeaders(sh: Shared, q: Request, c: Choice)
    requires FillEnabled(sh, q, c)
    ensures var (sh', q') := FillOf(sh, q, c); q'.led == q.led && q'.key == q.key && SameKeys(sh.table, sh'.table)
  {}

  /** Once a request has led a flight it never leads another. */
  lemma LeadsAtMostOnce(s: State, a: Action, r: RequestId)
    requires Inv(s) && Enabled(s, a) && r < |s.reqs| && s.reqs[r].led.Some?
    ensures r < |Apply(s, a).reqs| && Apply(s, a).reqs[r].led == s.reqs[r].led
  {
    assert Fits(s.shared, r, s.reqs[r]);
    if !a.Arrive? && !StartsFlight(s, a) {
      OthersLeaveLeaders(s, a);
    }
  }

  lemma {:induction false} CountSameLeaders(a: seq<Request>, b: seq<Request>, key: Key)
    requires |a| == |b| && forall i | 0 <= i < |a| :: a[i].key == b[i].key && a[i].led == b[i].led
    ensures Count(a, LedFor(key)) == Count(b, LedFor(key))
  {
    if a != [] {
      CountSameLeaders(a[..|a| - 1], b[..|b| - 1], key);
    }
  }

  /** As many flights were started for key as requests led one. */
  ghost predicate Balanced(table: seq<Flight>, reqs: seq<Request>, key: Key) {
    Count(table, FlightFor(key)) == Count(reqs, LedFor(key))
  }

  lemma ArrivalKeepsBalance(table: seq<Flight>, reqs: seq<Request>, q: Request, key: Key)
    requires Balanced(table, reqs, key) && q.led.None?
    ensures Balanced(table, reqs + [q], key)
  {
    assert (reqs + [q])[..|reqs|] == reqs;
  }

  lemma StartKeepsBalance(table: seq<Flight>, reqs: seq<Request>, f: Flight, r: RequestId, q: Request, key: Key)
    requires Balanced(table, reqs, key) && r < |reqs| && reqs[r].led.None? && q.led.Some? && q.key == f.key
    ensures Balanced(table + [f], reqs[r := q], key)
  {
    assert (table + [f])[..|table|] == table;
    CountUpdate(reqs, LedFor(key), r, q);
  }

  lemma SameLeadersKeepBalance(s: State, s': State, key: Key)
    requires LeavesLeaders(s, s') && Balanced(s.shared.table, s.reqs, key)
    ensures Balanced(s'.shared.table, s'.reqs, key)
  {
    CountSameKeys(s.shared.table, s'.shared.table, key);
    CountSameLeaders(s.reqs, s'.reqs, key);
  }

  lemma ActionKeepsBalance(s: State, a: Action, key: Key)
    requires Inv(s) && Enabled(s, a) && Balanced(s.shared.table, s.reqs, key)
    ensures Balanced(Apply(s, a).shared.table, Apply(s, a).reqs, key)
  {
    if a.Arrive? {
      ArrivalKeepsBalance(s.shared.table, s.reqs, NewRequest(s.shared.caching, a.key, a.ranged), key);
    } else if StartsFlight(s, a) {
      assert Fits(s.shared, a.r, s.reqs[a.r]);
      var q := s.reqs[a.r];
      StartKeepsBalance(s.shared.table, s.reqs, Flight(q.key, a.r, 0, 0), a.r, Apply(s, a).reqs[a.r], key);
    } else {
      OthersLeaveLeaders(s, a);
      SameLeadersKeepBalance(s, Apply(s, a), key);
    }
  }

  lemma {:induction false} RunKeepsBalance(states: seq<State>, actions: seq<Action>, i: nat, key: Key)
    requires Run(states, actions) && i < |states|
    ensures Balanced(states[i].shared.table, states[i].reqs, key)
  {
    if i > 0 {
      RunKeepsInv(states, actions, i - 1);
      RunKeepsBalance(states, actions, i - 1, key);
      ActionKeepsBalance(states[i - 1], actions[i - 1], key);
    }
  }

  lemma FillersLed(s: State, key: Key)
    requires Inv(s)
    ensures Count(s.reqs, FilledFor(key)) <= Count(s.reqs, LedFor(key)) <= Count(s.reqs, AskedFor(key))
  {
    forall r | 0 <= r < |s.reqs|
      ensures !s.reqs[r].fill.NoFill? ==> s.reqs[r].led.Some?
    {
      assert Fits(s.shared, r, s.reqs[r]);
      OwnsIsLed(s.shared.caching, s.reqs[r]);
    }
    CountMonotone(s.reqs, FilledFor(key), LedFor(key));
    CountMonotone(s.reqs, LedFor(key), AskedFor(key));
  }

  /** In every run, the flights ever started for a key are as many as the
      requests that led one, so never more than the requests made for it; and
      background fills are fewer still. */
  lemma FlightsBoundedByRequests(states: seq<State>, actions: seq<Action>, i: nat, key: Key)
    requires Run(states, actions) && i < |states|
    ensures var s := states[i];
      && Count(s.shared.table, FlightFor(key)) == Count(s.reqs, LedFor(key)) <= Count(s.reqs, AskedFor(key))
      && Count(s.reqs, FilledFor(key)) <= Count(s.shared.table, FlightFor(key))
  {
    RunKeepsInv(states, actions, i);
    RunKeepsBalance(states, actions, i, key);
    FillersLed(states[i], key);
  }

  // ----- slots, bodies, contexts -----

  /** Fetch slots: exactly the requests holding one occupy them, within
      capacity, each acquired at most once and released as often as acquired
      unless still held; freeing a slot never blocks; playback and background
      fills hold none. */
  lemma SlotsConserved(s: State, r: RequestId)
    requires Inv(s) && r < |s.reqs|
    ensures s.shared.slots == Count(s.reqs, Holds) <= s.shared.capacity
    ensures var q := s.reqs[r];
      && q.acquired <= 1 && q.released + (if q.slotHeld then 1 else 0) == q.acquired
      && (q.slotHeld ==> s.shared.slots > 0)
      && (q.pc.Proxying? || q.pc.Done? || !q.fill.NoFill? ==> !q.slotHeld)
  {
    assert Fits(s.shared, r, s.reqs[r]);
    CountUpdate(s.reqs, Holds, r, s.reqs[r].(slotHeld := false));
  }

  /** A body is closed at most once and only once fetched; the download's
      context, once handed off, is cancelled by nobody but the background fill,
      and one that was not handed off is never cancelled by a fill. */
  lemma DownloadsTidied(s: State, r: RequestId)
    requires Inv(s) && r < |s.reqs|
    ensures var q := s.reqs[r];
      && q.bodyCloses <= (if q.gotBody then 1 else 0)
      && (q.detached ==> !q.cancels.follower && !q.cancels.request && !q.follow.Fired?)
      && (!q.detached ==> !q.cancels.fill)
  {
    assert Fits(s.shared, r, s.reqs[r]);
  }
}
