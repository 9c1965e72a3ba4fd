/** dlna/timelinestore.go: each account's full timeline, kept in memory and
    refreshed in the background (stale-while-revalidate). */
module TimelineStore {
  import opened Basics

  type Account = nat
  type ChannelId = nat
  type Listing = seq<string>
  type Error = string

  /** A firstDone channel: whose it is, and how often it has been closed (twice panics). */
  datatype Channel = Channel(owner: Account, closes: nat)

  datatype Entry = Entry(
    assets: Option<Listing>,
    fetchedAt: int,
    loading: bool,
    firstDone: ChannelId,
    firstErr: Option<Error>)

  /** What get's first critical section decides. */
  datatype Entered = Answer(assets: Listing) | Await(done: ChannelId)

  datatype View = View(refresh: int, entries: map<Account, Entry>, channels: seq<Channel>)
  {
    /** entry(idx): the account's entry, created on first use. */
    function WithEntry(idx: Account): View {
      if idx in entries then this
      else this.(entries := entries[idx := Entry(None, 0, false, |channels|, None)],
            channels := channels + [Channel(idx, 0)])
    }

    function StartLoad(idx: Account): View
      requires idx in entries
    {
      this.(entries := entries[idx := entries[idx].(loading := true)])
    }

    predicate Stale(idx: Account, now: int)
      requires idx in entries
    {
      now - entries[idx].fetchedAt >= refresh
    }

    predicate ChannelClosed(c: ChannelId) { c < |channels| && channels[c].closes > 0 }

    function FreshChannel(idx: Account): View
      requires idx in entries
    {
      if ChannelClosed(entries[idx].firstDone) then
        this.(entries := entries[idx := entries[idx].(firstDone := |channels|)],
              channels := channels + [Channel(idx, 0)])
      else this
    }

    /** get up to its first unlock; the flag says whether it started a load. */
    function Enter(idx: Account, now: int): (View, Entered, bool) {
      var v := WithEntry(idx);
      var e := v.entries[idx];
      if e.assets.Some? then
        var start := !e.loading && v.Stale(idx, now);
        (if start then v.StartLoad(idx) else v, Answer(e.assets.value), start)
      else if e.loading then (v, Await(e.firstDone), false)
      else
        var v' := v.FreshChannel(idx).StartLoad(idx);
        (v', Await(v'.entries[idx].firstDone), true)
    }

    function WarmUp(idx: Account): (View, bool) {
      var v := WithEntry(idx);
      var e := v.entries[idx];
      if e.assets.None? && !e.loading then (v.StartLoad(idx), true) else (v, false)
    }

    function CloseFirstDone(idx: Account): View
      requires idx in entries && entries[idx].firstDone < |channels|
    {
      var c := entries[idx].firstDone;
      this.(channels := channels[c := channels[c].(closes := channels[c].closes + 1)])
    }

    /** The end of a load goroutine; a nil listing without an error counts as empty. */
    function FinishLoad(idx: Account, now: int, res: Result<Option<Listing>, Error>): View
      requires idx in entries && entries[idx].firstDone < |channels|
    {
      var e := entries[idx].(loading := false);
      var first := e.assets.None?;
      match res
      case Failure(err) =>
        if first then this.(entries := entries[idx := e.(firstErr := Some(err))]).CloseFirstDone(idx)
        else this.(entries := entries[idx := e])
      case Success(listing) =>
        var loaded := e.(assets := Some(if listing.Some? then listing.value else []), fetchedAt := now);
        if first then this.(entries := entries[idx := loaded.(firstErr := None)]).CloseFirstDone(idx)
        else this.(entries := entries[idx := loaded])
    }

    /** get's second critical section: a (listing, error) pair, each possibly nil. */
    function Leave(idx: Account): (Option<Listing>, Option<Error>)
      requires idx in entries
    {
      if entries[idx].assets.None? then (None, entries[idx].firstErr) else (entries[idx].assets, None)
    }
  }

  class Store {
    const refresh: int
    var entries: map<Account, Entry>
    var channels: seq<Channel>

    /** newTimelineStore: without a positive interval, 15 minutes (in seconds). */
    constructor (refresh: int)
      ensures Abstract() == View(if refresh <= 0 then 900 else refresh, map[], [])
    {
      this.refresh := if refresh <= 0 then 900 else refresh;
      this.entries := map[];
      this.channels := [];
    }

    function Abstract(): View
      reads this
    {
      View(refresh, entries, channels)
    }

    method MakeChannel(idx: Account) returns (c: ChannelId)
      modifies this`channels
      ensures c == old(|channels|) && channels == old(channels) + [Channel(idx, 0)]
    {
      c := |channels|;
      channels := channels + [Channel(idx, 0)];
    }

    method EntryOf(idx: Account)
      modifies this
      ensures Abstract() == old(Abstract()).WithEntry(idx)
    {
      if idx !in entries {
        var done := MakeChannel(idx);
        entries := entries[idx := Entry(None, 0, false, done, None)];
      }
    }

    method StartLoadLocked(idx: Account)
      requires idx in entries
      modifies this`entries
      ensures Abstract() == old(Abstract()).StartLoad(idx)
    {
      entries := entries[idx := entries[idx].(loading := true)];
    }

    /** get, up to its first unlock. */
    method Get(idx: Account, now: int) returns (outcome: Entered, started: bool)
      modifies this
      ensures (Abstract(), outcome, started) == old(Abstract()).Enter(idx, now)
      ensures if old(idx in entries && entries[idx].assets.Some?) then
          && outcome == Answer(old(entries[idx].assets.value))
          && (started <==> old(!entries[idx].loading && now - entries[idx].fetchedAt >= refresh))
        else
          outcome.Await? && (started <==> old(idx in entries ==> !entries[idx].loading))
    {
      EntryOf(idx);
      var e := entries[idx];
      if e.assets.Some? {
        started := !e.loading && now - e.fetchedAt >= refresh;
        if started {
          StartLoadLocked(idx);
        }
        return Answer(e.assets.value), started;
      }
      started := !e.loading;
      if started {
        if e.firstDone < |channels| && channels[e.firstDone].closes > 0 {
          var done := MakeChannel(idx);
          entries := entries[idx := e.(firstDone := done)];
        }
        StartLoadLocked(idx);
      }
      outcome := Await(entries[idx].firstDone);
    }

    /** get, after the channel it waited on was closed. */
    method GetAgain(idx: Account) returns (assets: Option<Listing>, err: Option<Error>)
      requires idx in entries
      ensures (assets, err) == Abstract().Leave(idx)
    {
      if entries[idx].assets.None? {
        return None, entries[idx].firstErr;
      }
      return entries[idx].assets, None;
    }

    method WarmUp(idx: Account) returns (started: bool)
      modifies this
      ensures (Abstract(), started) == old(Abstract()).WarmUp(idx)
      ensures started <==> old(idx in entries ==> entries[idx].assets.None? && !entries[idx].loading)
    {
      EntryOf(idx);
      started := entries[idx].assets.None? && !entries[idx].loading;
      if started {
        StartLoadLocked(idx);
      }
    }

    method CloseFirstDone(idx: Account)
      requires idx in entries && entries[idx].firstDone < |channels|
      modifies this`channels
      ensures Abstract() == old(Abstract()).CloseFirstDone(idx)
    {
      var c := entries[idx].firstDone;
      channels := channels[c := channels[c].(closes := channels[c].closes + 1)];
    }

    /** The critical section at the end of a load goroutine. */
    method LoadEnds(idx: Account, now: int, res: Result<Option<Listing>, Error>)
      requires idx in entries && entries[idx].firstDone < |channels|
      modifies this
      ensures Abstract() == old(Abstract()).FinishLoad(idx, now, res)
    {
      entries := entries[idx := entries[idx].(loading := false)];
      var first := entries[idx].assets.None?;
      match res {
        case Failure(err) =>
          if first {
            entries := entries[idx := entries[idx].(firstErr := Some(err))];
            CloseFirstDone(idx);
          }
        case Success(listing) =>
          var assets := if listing.Some? then listing.value else [];
          entries := entries[idx := entries[idx].(assets := Some(assets), fetchedAt := now)];
          if first {
            entries := entries[idx := entries[idx].(firstErr := None)];
            CloseFirstDone(idx);
          }
      }
    }
  }
}
