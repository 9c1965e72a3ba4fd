/**
 The single-flight protocol of dlna/server.go: any number of requests for any
 keys, each running serveMedia, plus the background video fills they start,
 interleaved at the granularity of the operations that other goroutines can
 observe (a mutex-protected section, a channel operation, a context cancel).
 */
module MediaProtocol {
  import opened Basics

  type Key = string
  type FlightId = nat
  type RequestId = nat

  /** A flight. Its channels are modelled by how often they have been closed:
      0 is open, 1 is closed, and 2 is what the Go runtime panics on. */
  datatype Flight = Flight(key: Key, leader: RequestId, doneCloses: nat, videoCloses: nat)

  /** What every goroutine shares: the disk cache (as the set of keys a lookup
      hits), the flights map, all flights ever made, and the fetch semaphore. */
  datatype Shared = Shared(
    caching: bool,
    capacity: nat,
    cached: set<Key>,
    flights: map<Key, FlightId>,
    table: seq<Flight>,
    slots: nat)
  {
    function JoinFlight(key: Key, r: RequestId): (Shared, FlightId, bool) {
      if key in flights then (this, flights[key], false)
      else (this.(flights := flights[key := |table|], table := table + [Flight(key, r, 0, 0)]), |table|, true)
    }

    function DeleteFlight(key: Key): Shared {
      this.(flights := flights - {key})
    }

    function CloseDone(f: FlightId): Shared
      requires f < |table|
    {
      this.(table := table[f := table[f].(doneCloses := table[f].doneCloses + 1)])
    }

    function CloseVideo(f: FlightId): Shared
      requires f < |table|
    {
      this.(table := table[f := table[f].(videoCloses := table[f].videoCloses + 1)])
    }

    function Remember(key: Key): Shared {
      this.(cached := cached + {key})
    }
  }

  /** Where a finish() call returns to. */
  datatype After = ToServe | ToExit

  /** The next observable operation of serveMedia. */
  datatype PC =
    | LookingUp             // s.serveFromCache
    | Joining               // s.joinFlight
    | Waiting(on: FlightId) // select on done, video, r.Context().Done()
    | Queueing              // select on fetchSem, the timeout, r.Context().Done()
    | Fetching              // src.fetch(fetchCtx)
    | FreeingForPlayback    // releaseSlot() for a video
    | Detaching             // fl != nil && stopFollowingRequest()
    | ClosingVideo          // close(fl.video)
    | Spawning              // fl = nil; go s.fillCacheInBackground(...)
    | DroppingBody          // body.Close() of a video nobody will cache
    | Proxying              // s.proxyRange
    | Streaming             // s.serveStream
    | Reading               // io.ReadAll(body)
    | FreeingAfterRead      // releaseSlot() once the photo is in memory
    | Storing               // s.cache.Put (or, without a cache, serving the bytes)
    | Serving               // serveFile
    | UnwindBody            // deferred body.Close()
    | UnwindContext         // deferred stopFollowingRequest(); cancelFetch()
    | UnwindSlot            // deferred releaseSlot()
    | Deleting(after: After) // finishFlight: delete(s.flights, cacheKey)
    | Closing(after: After)  // finishFlight: close(fl.done)
    | Done

  /** The next observable operation of fillCacheInBackground. */
  datatype FillPC = NoFill | Filling | FillBody | FillDeleting | FillClosing | FillCancelling | FillDone

  /** The context.AfterFunc that cancels the download when the request ends. */
  datatype Follow = NoContext | Following | Stopped | Fired

  /** Who has called cancelFetch: the AfterFunc, the request's own cleanup, the background fill. */
  datatype Cancels = Cancels(follower: bool, request: bool, fill: bool)

  /** One request: serveMedia's local variables, the download it started (its
      body, its context and who cancelled it) and the background fill it
      started, if any. `led`, `acquired` and `released` are history only. */
  datatype Request = Request(
    key: Key,
    ranged: bool,
    pc: PC,
    gone: bool,
    nextWait: FlightId,
    led: Option<FlightId>,
    fl: Option<FlightId>,
    acquired: nat,
    released: nat,
    slotHeld: bool,
    follow: Follow,
    cancels: Cancels,
    detached: bool,
    gotBody: bool,
    bodyCloses: nat,
    fill: FillPC,
    fillFlight: Option<FlightId>)

  datatype State = State(shared: Shared, reqs: seq<Request>)

  /** The outcome of an operation that can go more than one way. */
  datatype Choice =
    | Plain
    | OnDone | OnVideo | OnGone  // which ready channel a select took
    | OnSlot | OnTimeout
    | Photo | Video              // what a successful fetch returned
    | Fails(kept: bool)          // an error; a failed Put may still leave the entry behind

  datatype Action =
    | Arrive(key: Key, ranged: bool)
    | Evict(key: Key)
    | Disconnect(r: RequestId)       // r.Context() ends; an armed AfterFunc is started
    | FollowerCancels(r: RequestId)  // that AfterFunc calls cancelFetch
    | Step(r: RequestId, choice: Choice)
    | FillStep(r: RequestId, choice: Choice)

  function NewRequest(caching: bool, key: Key, ranged: bool): Request {
    Request(key, ranged, if caching then LookingUp else Queueing, false, 0, None, None, 0, 0, false,
            NoContext, Cancels(false, false, false), false, false, 0, NoFill, None)
  }

  /** serveMedia past its deferred context cleanup: only the slot and the flight are left. */
  function AfterSlot(q: Request): PC {
    if q.fl.Some? then Deleting(ToExit) else Done
  }

  predicate StepEnabled(sh: Shared, q: Request, c: Choice) {
    match q.pc
    case Waiting(f) =>
      f < |sh.table| &&
      (match c
       case OnDone => sh.table[f].doneCloses > 0
       case OnVideo => sh.table[f].videoCloses > 0
       case OnGone => q.gone
       case _ => false)
    case Queueing =>
      (match c
       case OnSlot => sh.slots < sh.capacity
       case OnTimeout => true
       case OnGone => q.gone
       case _ => false)
    case Fetching => c.Photo? || c.Video? || c == Fails(false)
    case Reading => c.Plain? || c == Fails(false)
    case Streaming => c.Plain? || (c.Fails? && (c.kept ==> sh.caching))
    case Storing => c.Plain? || (sh.caching && c.Fails?)
    case ClosingVideo => c.Plain? && q.fl.Some? && q.fl.value < |sh.table|
    case Closing(_) => c.Plain? && q.fl.Some? && q.fl.value < |sh.table|
    case UnwindSlot => c.Plain? && (q.slotHeld ==> sh.slots > 0)
    case FreeingForPlayback => c.Plain? && sh.slots > 0
    case FreeingAfterRead => c.Plain? && sh.slots > 0
    case Done => false
    case _ => c.Plain?
  }

  /** One operation of request r, with local variables q. */
  function StepOf(sh: Shared, r: RequestId, q: Request, c: Choice): (Shared, Request)
    requires StepEnabled(sh, q, c)
  {
    match q.pc
    case LookingUp => (sh, q.(pc := if q.key in sh.cached then Done else Joining))
    case Joining =>
      var (sh', f, leader) := sh.JoinFlight(q.key, r);
      (sh', if leader then q.(pc := Queueing, led := Some(f), fl := Some(f)) else q.(pc := Waiting(f)))
    case Waiting(f) =>
      (match c
       case OnDone => (sh, q.(pc := LookingUp, nextWait := f + 1))
       case OnVideo => (sh, q.(pc := Proxying))
       case _ => (sh, q.(pc := Done)))
    case Queueing =>
      if c.OnSlot? then
        (sh.(slots := sh.slots + 1),
         q.(pc := Fetching, acquired := q.acquired + 1, slotHeld := true,
            follow := if q.gone then Fired else Following))
      else (sh, q.(pc := AfterSlot(q)))
    case Fetching =>
      (match c
       case Photo => (sh, q.(pc := Reading, gotBody := true))
       case Video => (sh, q.(pc := if q.ranged then FreeingForPlayback else Streaming, gotBody := true))
       case _ => (sh, q.(pc := UnwindContext)))
    case FreeingForPlayback =>
      (sh.(slots := sh.slots - 1), q.(pc := Detaching, released := q.released + 1, slotHeld := false))
    case Detaching =>
      (sh, if q.fl.Some? && q.follow.Following? then q.(pc := ClosingVideo, follow := Stopped, detached := true)
           else q.(pc := DroppingBody))
    case ClosingVideo => (sh.CloseVideo(q.fl.value), q.(pc := Spawning))
    case Spawning => (sh, q.(pc := Proxying, fl := None, fill := Filling, fillFlight := q.fl))
    case DroppingBody => (sh, q.(pc := Proxying, bodyCloses := q.bodyCloses + 1))
    case Proxying => (sh, q.(pc := if q.follow.NoContext? then Done else UnwindContext))
    case Streaming =>
      (if sh.caching && (c.Plain? || c.kept) then sh.Remember(q.key) else sh, q.(pc := UnwindBody))
    case Reading => (sh, q.(pc := if c.Plain? then FreeingAfterRead else UnwindBody))
    case FreeingAfterRead =>
      (sh.(slots := sh.slots - 1), q.(pc := Storing, released := q.released + 1, slotHeld := false))
    case Storing =>
      if !sh.caching then (sh, q.(pc := UnwindBody))
      else if c.Plain? then (sh.Remember(q.key), q.(pc := if q.fl.Some? then Deleting(ToServe) else Serving))
      else (if c.kept then sh.Remember(q.key) else sh, q.(pc := UnwindBody))
    case Serving => (sh, q.(pc := UnwindBody))
    case UnwindBody => (sh, q.(pc := UnwindContext, bodyCloses := q.bodyCloses + 1))
    case UnwindContext =>
      (sh, if q.detached then q.(pc := UnwindSlot)
           else q.(pc := UnwindSlot, cancels := q.cancels.(request := true),
                   follow := if q.follow.Following? then Stopped else q.follow))
    case UnwindSlot =>
      if q.slotHeld then
        (sh.(slots := sh.slots - 1), q.(pc := AfterSlot(q), released := q.released + 1, slotHeld := false))
      else (sh, q.(pc := AfterSlot(q)))
    case Deleting(after) => (sh.DeleteFlight(q.key), q.(pc := Closing(after)))
    case Closing(after) =>
      (sh.CloseDone(q.fl.value), q.(pc := if after.ToServe? then Serving else Done, fl := None))
  }

  predicate FillEnabled(sh: Shared, q: Request, c: Choice) {
    match q.fill
    case Filling => c.Plain? || c.Fails?
    case FillClosing => c.Plain? && q.fillFlight.Some? && q.fillFlight.value < |sh.table|
    case NoFill => false
    case FillDone => false
    case _ => c.Plain?
  }

  /** One operation of the background fill that request q started. */
  function FillOf(sh: Shared, q: Request, c: Choice): (Shared, Request)
    requires FillEnabled(sh, q, c)
  {
    match q.fill
    case Filling => (if c.Plain? || c.kept then sh.Remember(q.key) else sh, q.(fill := FillBody))
    case FillBody => (sh, q.(fill := FillDeleting, bodyCloses := q.bodyCloses + 1))
    case FillDeleting => (sh.DeleteFlight(q.key), q.(fill := FillClosing))
    case FillClosing => (sh.CloseDone(q.fillFlight.value), q.(fill := FillCancelling))
    case FillCancelling => (sh, q.(fill := FillDone, cancels := q.cancels.(fill := true)))
  }

  predicate Enabled(s: State, a: Action) {
    match a
    case Arrive(_, _) => true
    case Evict(key) => key in s.shared.cached
    case Disconnect(r) => r < |s.reqs| && !s.reqs[r].gone
    case FollowerCancels(r) => r < |s.reqs| && s.reqs[r].follow.Fired? && !s.reqs[r].cancels.follower
    case Step(r, c) => r < |s.reqs| && StepEnabled(s.shared, s.reqs[r], c)
    case FillStep(r, c) => r < |s.reqs| && FillEnabled(s.shared, s.reqs[r], c)
  }

  function Apply(s: State, a: Action): State
    requires Enabled(s, a)
  {
    match a
    case Arrive(key, ranged) => s.(reqs := s.reqs + [NewRequest(s.shared.caching, key, ranged)])
    case Evict(key) => s.(shared := s.shared.(cached := s.shared.cached - {key}))
    case Disconnect(r) =>
      var q := s.reqs[r];
      s.(reqs := s.reqs[r := q.(gone := true, follow := if q.follow.Following? then Fired else q.follow)])
    case FollowerCancels(r) =>
      s.(reqs := s.reqs[r := s.reqs[r].(cancels := s.reqs[r].cancels.(follower := true))])
    case Step(r, c) =>
      var (sh, q) := StepOf(s.shared, r, s.reqs[r], c);
      State(sh, s.reqs[r := q])
    case FillStep(r, c) =>
      var (sh, q) := FillOf(s.shared, s.reqs[r], c);
      State(sh, s.reqs[r := q])
  }

  predicate Init(s: State) {
    s.reqs == [] && s.shared.flights == map[] && s.shared.table == [] && s.shared.slots == 0 && s.shared.capacity > 0
  }

  /** An execution: every state follows from the one before it by one action. */
  ghost predicate Run(states: seq<State>, actions: seq<Action>) {
    |states| == |actions| + 1 && Init(states[0]) &&
    forall i | 0 <= i < |actions| :: Enabled(states[i], actions[i]) && states[i + 1] == Apply(states[i], actions[i])
  }
}
