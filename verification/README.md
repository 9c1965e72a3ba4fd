# Verification model of the photo proxy

A Dafny model of the parts of this DLNA/UPnP proxy whose correctness is hard to
see from the code: the protocols by which requests share downloads and
listings, the disk cache, the date, grouping and image algorithms, and the small
encoders. `dafny verify dfyconfig.toml` checks all of it.

Code that mutates shared state is a class with the source's fields and, method
by method, its lock-protected sections and loops; each method is proved to
have the effect that a function on values describes. Those functions are the
steps of a state machine in which any number of callers interleave, one
operation at a time, and the theorems are about every reachable state or every
run of it. `serveMedia` and `fillCacheInBackground` are methods in full:
`MediaServer` proves that, whatever other goroutines do between their
operations, what they do continues a run of the protocol and ends with nothing
left behind.
Channels are counters of how often they were closed, goroutines program
counters, and histories (who wrote an inode, which load last succeeded) are
recorded only for the theorems.

| files | what they model |
|---|---|
| `MediaProtocol`, `MediaInvariant`, `MediaSafety`, `MediaSharing`, `MediaLiveness`, `MediaOutcomes`, `MediaServer` | `serveMedia`, `joinFlight`, `finishFlight` and background fills (`dlna/server.go`) |
| `TimelineStore`, `TimelineRuns`, `TimelineTheorems`, `TimelineRefresh`, `TimelineServer` | the stale-while-revalidate store (`dlna/timelinestore.go`) |
| `ListingCache`, `ListingRuns`, `ListingReuse` | the listing cache (`dlna/listcache.go`) |
| `FileSystem`, `DiskCache`, `DiskCacheRuns`, `DiskCacheHits` | the disk cache, call by call and interleaved (`cache/cache.go`) |
| `Calendar`, `OnThisDay` | the per-year searches of "On this day" (`dlna/extrafolders.go`) |
| `Timeline`, `TimelineTree`, `TimelineWalk`, `Places`, `Paging` | the browse trees and paging (`dlna/timeline.go`, `dlna/extrafolders.go`, `dlna/contentdirectory.go`) |
| `Orientation`, `PixelLoops`, `ExifScan` | orientation and the JPEG/Exif scan (`imageproc/orientation.go`) |
| `Boxes`, `Downscale` | downscaling (`imageproc/resize.go`) |
| `ObjectIds`, `Titles`, `UpdateId`, `Durations` | identifiers, title prefixes, SystemUpdateID, durations |
| `Basics`, `Text` | counting, filtering, digits and string order |

## Where the code does less than its documentation says

The model follows the code; each point is a theorem with its exact condition.

- Concurrent misses for one key are said to share one download
  (`docs/architecture.md:436-444`, `README.md:181`). A request that missed the
  cache before a fill stored the key and joins after that fill left the map
  downloads it again (`MediaSharing.StoredKeyDownloadedAgain`). In any run
  without evictions of the key a stored key is downloaded again only so: the
  store falls between the request's own lookup and its join, and no flight is
  mapped at the join (`MediaSharing.StoredKeyDownloadedIff`); a lookup that
  follows the store never leads (`MediaSharing.LookupAfterStoreNeverLeads`).
- A listing shared with a waiter is meant to be at most a TTL old
  (`dlna/listcache.go:62-69`). The entry's age is only looked at once it is
  published, so a lookup between `e.expires` being set and `close(e.done)`
  shares a load of any age: `ListingRuns.OldLoadShared` is such a run, and
  `ListingRuns.SharedLoadTooOldIff` says that there is no other way.
- A cache hit's MIME type and bytes may come from different `Put`s of its key
  (`DiskCacheHits.MixedHit`), exactly as `DiskCacheHits.HitIsOnePutIff` says.
- `warmUp` may only be called where no first attempt has failed
  (`TimelineTheorems.WarmUpSafeIff`). `main.go` calls it once, at start-up.
- `jpegOrientation` is documented to return 1 to 8 (`imageproc/orientation.go:42-44`).
  It does for every file except those whose deciding Exif segment's first
  readable orientation entry exceeds 8 (`ExifScan.TagWithin8Iff`); any value up
  to 65535 occurs (`ExifScan.TagRange`). `FixOrientation` ignores those above 8.
- Countdown titles are meant to sort newest first. They do from 1970 to
  2286, and beyond that exactly as `Titles.SortsNewestFirstIff` says;
  `Titles.EpochSortsBackwards` is a pair in the wrong order.
- `page` panics where StartingIndex + RequestedCount exceeds the range of int
  (`Paging.PageIff`, and `Paging.PageOverflows` for an input); values of the
  declared type ui4 never do.
- In month mode the listing shows a year's number of assets as its child count,
  its own metadata its number of months (`TimelineWalk.ListedCountIff`, and
  `TimelineWalk.TwoAssetsOneMonth` for a year listed with 2 that has 1 child).
- "On this day" relies on time zones between UTC-12 and UTC+14 and on a
  correct oldest instant (`OnThisDay.FastEqualsSimpleIff`); it misses
  assets outside the window (`OnThisDay.MissedOutsideWindow`) or older
  than the searched years (`OnThisDay.MissedBeforeOldest`).

Standards: UPnP ContentDirectory:1 (section 2.7.4, Browse), RFC 3986 (section
2.1), ITU-T T.81 (Annex B, section B.1.1), TIFF 6.0 (sections 2 and 8).

## Model

| member | source | states |
|---|---|---|
| `MediaInvariant.ApplyKeepsInv` | dlna/server.go:323-516 | every operation of a request or a background fill, every arrival, disconnect and eviction, keeps the protocol invariant, the gap between `delete(flights, key)` and `close(done)` included |
| `MediaSafety.RunKeepsInv` | dlna/server.go:323-516 | the invariant holds in every state of every interleaving of any number of requests |
| `MediaSafety.ExactlyOneOwner` | dlna/server.go:346-354 | a flight that is not closed yet has exactly one owner, its leader request or one background fill; a closed one has none; every mapped flight is open; `done` and `video` are closed at most once |
| `MediaSafety.FinishFlightIsOwn` | dlna/server.go:492-497 | `finishFlight` deletes by key alone and still always removes the caller's own flight, and the channels it and the handoff close are open |
| `MediaSafety.FillsExclude` | dlna/server.go:481-490 | two fills of one key never overlap |
| `MediaSafety.LeadsAtMostOnce` | dlna/server.go:325-345 | a request that has led a flight never leads another |
| `MediaSharing.StoredKeyDownloadedIff` | docs/architecture.md:436-444 | in any run that does not evict its key meanwhile, a request leads a flight for a key already stored if and only if the store fell between its own lookup and its join, and at the join the storing flight had left the map with none after it |
| `MediaSharing.LookupAfterStoreNeverLeads` | dlna/server.go:325-331 | a request whose lookup follows the store, with no eviction between, is over at once and never leads a flight |
| `MediaSharing.StoredByItsFlight` | dlna/server.go:443-451 | nobody but the owner of the key's mapped flight ever stores it, and only by its `Put`: the leader, or the fill it handed the flight to |
| `MediaSafety.FlightsBoundedByRequests` | dlna/server.go:325-345 | in every run, flights ever started for a key equal the requests that led one and never exceed the requests for it; background fills are no more than that |
| `MediaSafety.SlotsConserved` | dlna/server.go:360-376 | occupied fetch slots are exactly the requests holding one, within capacity; each is released as often as acquired unless still held; a release never blocks; proxied playback and background fills hold none |
| `MediaSafety.DownloadsTidied` | dlna/server.go:378-413 | a body is closed at most once and only once fetched; the context of a handed-off download is cancelled by the background fill alone |
| `MediaSharing.CachedStays` | dlna/server.go:443-451 | a stored key stays stored until it is evicted |
| `MediaSharing.WaiterServedByItsFlight` | dlna/server.go:325-338 | a request that waits on a flight whose owner's `Put` succeeded is served from the cache by its next operation after it wakes, unless the key was evicted in between: no slot, no fetch, no flight of its own |
| `MediaSharing.StoredKeyDownloadedAgain` | docs/architecture.md:436-444 | and that happens: a run without evictions in which a second request, having looked up before the store and joined after the delete, downloads a stored key again |
| `MediaSharing.ProxyHasRanges` | dlna/server.go:337-341 | where a key always comes with the same kind of source, in no run is `proxyRange` entered, by a leader or by a follower told "video", with a source that has no `openRange` to call |
| `MediaSharing.VideoMeansRanges` | dlna/server.go:396-408 | whoever tells a follower "video" asked for the same key with an `openRange` |
| `MediaOutcomes.HandedOffIff` | dlna/server.go:396-417 | in every run, a fetched video that can be played with ranges closes its flight's video channel and starts a fill of that flight, and then plays through, if and only if its request leads the flight and no disconnect of its client comes before it stops following it, whatever anybody else does or holds |
| `MediaOutcomes.OtherwiseDropped` | dlna/server.go:409-416 | and otherwise its body is closed once, it plays through, and neither a fill nor a "video" ever follows |
| `MediaOutcomes.PhotoDelivered` | dlna/server.go:425-451 | a fetched photo that is read and stored without error frees its slot before it is stored, has its key in the cache then, unmaps and closes its flight next, and only then is served |
| `MediaOutcomes.SlotFreeIff` | dlna/server.go:356-368 | a waiting download may take a slot exactly while fewer requests than the capacity hold one |
| `MediaOutcomes.WokenBy` | dlna/server.go:335-344 | a follower is woken exactly by its flight's close, its flight's "video" or its client's going away, and then looks its key up again, plays through, or is over |
| `MediaLiveness.EveryOperationLowersMeasure` | dlna/server.go:326-345 | every operation lowers (requests in the retry loop, work left), so the retry loop terminates between two outside events |
| `MediaLiveness.NoInfiniteActivity` | dlna/server.go:323-516 | no execution consists of operations alone for ever (a refutation: its hypotheses cannot hold) |
| `MediaLiveness.CanGoOn` | dlna/server.go:323-451 | a request that is neither over nor waiting for a flight has a possible operation, and so has a background fill |
| `MediaLiveness.NoStrandedWaiter` | dlna/server.go:335-344 | a follower waits on a closed flight or on one whose owner has a possible operation |
| `MediaLiveness.OwnerDrawsCloser` | dlna/server.go:335-344 | each operation of an open flight's leader or its fill closes the flight or leaves fewer of them before the close, at most 13 from the start, and nothing anybody else does closes it or changes that number |
| `MediaLiveness.FlightClosedWithin13` | dlna/server.go:335-344 | so in every run a flight is closed once its leader and the leader's fill have performed 13 operations between them, however the others interleave |
| `MediaLiveness.ThirteenthCloses` | dlna/server.go:396-516 | and no fewer would do: a run in which the flight of a handed-off video is open after 12 of them and closed by the thirteenth |
| `MediaLiveness.QuiescentMeansDone` | dlna/server.go:323-516 | where nothing can move, every request has returned, the map is empty, each flight was closed exactly once, every slot is free, every fetched body was closed exactly once and every download context was cancelled |
| `MediaServer.Server.ServeMedia` | dlna/server.go:323-451 | with any other goroutines, clients and outcomes between its operations, every operation of serveMedia is enabled when it is reached, the server's history stays a run of the protocol, and on return no slot is held, the request's own flight is closed once and unmapped, and its body is closed and its context cancelled, except what its background fill now owns |
| `MediaServer.Server.FindOrLead` | dlna/server.go:325-345 | the retry loop ends with the request answered, or leading a flight of its own |
| `MediaServer.Server.FinishFlight` | dlna/server.go:492-497 | both halves, others acting in between: the flight is closed exactly once, and the caller no longer has it |
| `MediaServer.Server.DeleteFlight` | dlna/server.go:492-495 | deleting by key removes the caller's own flight and no other |
| `MediaServer.Server.CloseDone` | dlna/server.go:496 | the channel is still open, so the close never panics |
| `MediaServer.Server.FillCacheInBackground` | dlna/server.go:504-516 | started for a handed-off flight, it ends with that flight closed once and unmapped, the body closed once, and the context cancelled by it alone, whatever its request and the others do |
| `TimelineRuns.ApplyKeepsInv` | dlna/timelinestore.go:69-154 | getters, timeouts, load ends and allowed warm-ups, in any order, keep the store's invariant |
| `TimelineTheorems.LoadsNeverOverlap` | dlna/timelinestore.go:127-154 | in every run at most one load per account is outstanding, `loading` holds exactly then, and no `firstDone` channel is closed twice |
| `TimelineTheorems.GetAnswers` | dlna/timelinestore.go:69-104 | `get` never returns (nil, nil), even to a waiter on a replaced channel, and what it returns is the account's latest successful load |
| `TimelineTheorems.CopySurvives` | dlna/timelinestore.go:134-152 | a loaded copy is replaced only by a newer successful load and never becomes nil |
| `TimelineTheorems.StaleOnlyWhileRefreshing` | dlna/timelinestore.go:72-79 | with a copy in memory `get` answers at once; if the copy is as old as the refresh interval a refresh is running by then, and otherwise none is started |
| `TimelineRefresh.RefreshedIff` | dlna/timelinestore.go:72-79 | in every run, a `get` answers with what the last successful load brought, and starts a load if and only if none is running and the time since that load ended is at least the refresh interval |
| `TimelineRefresh.FirstGetLoads` | dlna/timelinestore.go:80-91 | before any successful load a `get` waits, and starts a load if and only if none is running |
| `TimelineRefresh.WarmUpLoadsIff` | dlna/timelinestore.go:108-114 | a warm-up starts a load if and only if no load has succeeded and none is running |
| `TimelineRefresh.WokenGets` | dlna/timelinestore.go:98-103 | a woken getter returns what the last successful load brought, or, where there was none, the last failed load's error |
| `TimelineRefresh.StoreHolds` | dlna/timelinestore.go:134-152 | what the store holds for an account is the last successful load's listing and time, or else the last failed load's error |
| `TimelineTheorems.NoForgottenWaiter` | dlna/timelinestore.go:90-97 | a waiting getter's channel is closed or a load is running whose end closes it |
| `TimelineTheorems.WakesUp` | dlna/timelinestore.go:131-152 | however that load ends, it closes that channel |
| `TimelineTheorems.WarmUpSafeIff` | dlna/timelinestore.go:106-114 | `warmUp` is safe exactly when the account has no failed first attempt behind it; otherwise it starts a load that cannot end well |
| `TimelineTheorems.DoomedUntilPanic` | dlna/timelinestore.go:137-152 | that load's end, and nothing else, closes the closed channel a second time |
| `TimelineTheorems.FailedGetThenWarmUp` | main.go:85-88 | a failed `get` before the warm-up reaches that situation, which the call at start-up rules out |
| `TimelineStore.Store.Get` | dlna/timelinestore.go:69-91 | `get` up to its first unlock is the specification's entry step |
| `TimelineServer.Server.GetTimeline` | dlna/timelinestore.go:69-104 | `get` whole, with any operations of others while it waits and before it locks again: it keeps the store's invariant and returns a listing or an error, never both or neither, and the listing is the latest successful load's when it returns |
| `TimelineStore.Store.WarmUp` | dlna/timelinestore.go:108-114 | `warmUp`, which keeps a closed `firstDone` |
| `TimelineStore.Store.LoadEnds` | dlna/timelinestore.go:132-152 | the end of a load goroutine, failed, successful or empty |
| `ListingRuns.ApplyKeepsInv` | dlna/listcache.go:43-83 | lookups, loads, closes, cleanups and wake-ups, in any order and at any time, keep the cache's invariant |
| `ListingRuns.OneLoadPerKey` | dlna/listcache.go:48-62 | at most one load per key is in flight, and its entry is mapped and survives every purge |
| `ListingRuns.CleanupOnlyOwn` | dlna/listcache.go:75-81 | the cleanup after an error never removes another call's entry |
| `ListingRuns.SharedResultIsFresh` | dlna/listcache.go:62-69 | a shared result is the outcome of a load of the same key, published no earlier than the lookup minus the TTL, and completed no earlier than that unless it was published after the lookup |
| `ListingRuns.SharedLoadTooOldIff` | dlna/listcache.go:50-69 | in every run, the load a waiter shares completed before its lookup minus the TTL if and only if, at the lookup, the entry was still unpublished although its `expires` had passed |
| `ListingRuns.OldLoadShared` | dlna/listcache.go:71-74 | and that happens: a run in which a lookup at 100 shares a load that completed at 0 under a TTL of 10 |
| `ListingRuns.OutcomesAreFinal` | dlna/listcache.go:71-74 | an outcome once set is never replaced |
| `ListingReuse.ReusedIff` | dlna/listcache.go:48-62 | in every run, a call for a key whose listing was loaded at time t and published shares it if and only if it looks at t plus the TTL or before; later it makes an entry of its own and loads |
| `ListingReuse.NoSharingIff` | dlna/listcache.go:43-46 | without a positive TTL, and only then, every call loads for itself |
| `ListingRuns.ErrorsForgotten` | dlna/listcache.go:75-82 | after the call that led a failed load has returned, no lookup finds its entry |
| `ListingRuns.NoForgottenWaiter` | dlna/listcache.go:62-74 | a waiter's entry is done or the call loading it can go on |
| `ListingCache.Cache.Purge` | dlna/listcache.go:50-54 | the loop over the map, in any order, removes exactly the entries that are closed and whose `expires` is past |
| `ListingCache.Cache.Lookup` | dlna/listcache.go:48-60 | the key's entry is found exactly if it is mapped and not both closed and past its `expires`; otherwise a new open entry is made |
| `ObjectIds.ListingKeysInjective` | dlna/listcache.go:105-165 | two listings share a cache key only if they are the same listing of the same account |
| `DiskCacheRuns.ApplyKeepsInv` | cache/cache.go:50-168 | every file-system operation of interleaved `Get`s, `Put`s and evictions keeps the directory's invariant |
| `DiskCacheRuns.HitIsWhole` | cache/cache.go:50-67 | a hit yields the complete bytes of exactly one `Put` of its key and a MIME type some `Put` of that key gave |
| `DiskCacheHits.HitComesFrom` | cache/cache.go:50-67 | in every run, a hit's MIME type is that of the `Put` that wrote the sidecar last before it was read, and its bytes are those of the `Put` renamed last before the main file was opened, in full |
| `DiskCacheHits.HitIsOnePutIff` | cache/cache.go:92-104 | both come from one and the same `Put` if and only if those two are the same |
| `DiskCacheHits.UndisturbedHit` | cache/cache.go:92-104 | which they are if no `Put` of the key is, or was given up, between writing its type and renaming its file when the `Get` begins, and none renames its file before the `Get` opened it |
| `DiskCacheHits.MixedHit` | cache/cache.go:92-104 | and they need not be: a `Get` between those two operations of a second `Put` returns the second's type with the first's bytes |
| `DiskCacheRuns.MainFilesWhole` | cache/cache.go:75-104 | no main file is ever torn, whatever is half done |
| `DiskCacheRuns.PutReturnsWhole` | cache/cache.go:101-109 | a successful `Put` returns a handle on a whole file of its key |
| `DiskCacheRuns.HandlesOutliveEviction` | cache/cache.go:69-74 | a handle keeps yielding the same bytes through any later operations, evictions included |
| `DiskCacheRuns.ImproperGetMisses` | dlna/server.go:160-163 | a key taken unchecked from a URL that no `Put` could have used is a miss in every reachable state |
| `DiskCache.PutStores` | cache/cache.go:75-109 | an undisturbed `Put` stores bytes and MIME type, leaves no temporary file and changes no other name |
| `DiskCache.PutKeepsOthers` | cache/cache.go:75-109 | it leaves other keys and open handles alone |
| `DiskCache.Cache.Get` | cache/cache.go:50-67 | a hit exactly when both files exist; it touches both, and a miss changes nothing |
| `DiskCache.Cache.Put` | cache/cache.go:75-109 | with any one step failing: success stores the whole entry, a failed rename leaves the old bytes with the new type, anything earlier leaves every name as it was, and never is a temporary file left |
| `DiskCache.PutTypeStores` | cache/cache.go:96-104 | what a failed rename leaves: the key's old bytes, the new MIME type, every other name |
| `DiskCache.Cache.Evict` | cache/cache.go:121-168 | a sweep removes a prefix by modification time with sidecars, each removal while over budget, ends within the budget and leaves everything else: every ".tmp-" file in any case, and everything if the entries' own bytes are within the budget |
| `DiskCache.SweepMeans` | cache/cache.go:136-168 | any such sweep: no inode is written, no ".tmp-" name is lost, the bytes stored under keys end within the budget, and nothing changes if they began there |
| `DiskCache.SweepIsLeastRecent` | cache/cache.go:156-167 | whatever a sweep removes was modified or used no later than any entry it leaves |
| `DiskCache.SweepIsNeeded` | cache/cache.go:160-167 | and removed while the bytes still stored under keys exceeded the budget |
| `DiskCacheHits.SweepIsEvictions` | cache/cache.go:160-167 | every removal of a sweep is an eviction of the interleaved model |
| `DiskCacheRuns.EvictLeavesRenames` | cache/cache.go:139-143 | and no eviction disables a running `Put`'s pending rename |
| `DiskCacheHits.HitTouches` | cache/cache.go:60-64 | a hit marks its entry as used now and leaves its bytes |
| `DiskCache.RemoveNext` | cache/cache.go:160-167 | each removal lowers the measured size by exactly its entry's size |
| `DiskCache.Cache.Survey` | cache/cache.go:136-154 | the directory loop finds exactly the main files and their total size |
| `FileSystem.ServerKeysProper` | immich/client.go:76-88 | the keys made from valid IDs cannot be taken for sidecars or temporary files |
| `FileSystem.ServerKeysApart` | dlna/server.go:257-306 | an asset's own key, a face's and a thumbnail's never collide, and different IDs have different ones |
| `FileSystem.NamesApart` | cache/cache.go:35-41 | main, sidecar and temporary names of any keys never collide |
| `OnThisDay.FastEqualsSimple` | dlna/extrafolders.go:150-205 | for a library listed newest first, local offsets within UTC-12 to UTC+14 and a correct oldest instant, the per-year searches equal, as a sequence, filtering the whole library by today's month and day |
| `OnThisDay.FastEqualsSimpleIff` | dlna/extrafolders.go:150-205 | for any library listed newest first, they are equal if and only if each wanted asset was taken in its year's window and in a searched year |
| `OnThisDay.WantedIff` | immich/types.go:164-178 | an asset is wanted if and only if its local time, or where that is missing its UTC time, lies in the 24 hours of today's month and day in some year from 1900 on and before this one |
| `OnThisDay.FoundIff` | dlna/extrafolders.go:166-195 | and is found if and only if it was taken from 14 hours before to 36 hours after that date's UTC midnight, in a year from the one before the oldest asset's on and not before 1900 |
| `OnThisDay.MissedOutsideWindow` | dlna/extrafolders.go:182-183 | and an asset whose local date is off by more than the window allows is missed |
| `OnThisDay.MissedBeforeOldest` | dlna/extrafolders.go:165-170 | as is one older than the years searched |
| `OnThisDay.OnThisDayIsFound` | dlna/extrafolders.go:166-204 | the concatenated results are the library filtered in place: nothing twice, nothing out of order |
| `OnThisDay.OnThisDaySearch` | dlna/extrafolders.go:156-205 | with any set of failing years, the goroutine version returns the latest failing year's error or the concatenation |
| `Calendar.MonthKeptIffValid` | dlna/extrafolders.go:167 | `time.Date` keeps the month exactly if the day exists in that year: no 29 February in other years |
| `Calendar.DateOfDayNumber` | immich/types.go:170-178 | calendar arithmetic round trip: the date of a day number is the date it was made from |
| `Calendar.DateIsCounted` | immich/types.go:170-178 | the date of every day number is the one that counting days from 1 January of year 0 arrives at, with the month lengths and the leap year rule written out |
| `Calendar.NextDay` | immich/types.go:170-178 | consecutive dates have consecutive day numbers |
| `Calendar.Anchors` | immich/types.go:170-178 | 1 January 1970 is day 719528 and 31 March 2024 day 739341 |
| `Timeline.ZeroIsYearOne` | immich/types.go:156-162 | the time that stands for no date is midnight of 1 January of year 1 |
| `Calendar.MonthLengths` | immich/types.go:170-178 | 31, 28 or 29, 31, 30, 31, 30, 31, 31, 30, 31, 30 and 31 days |
| `Calendar.SameDateApart` | dlna/extrafolders.go:182-183 | the windows of one date in different years are disjoint and ordered |
| `Timeline.GroupTimeline` | dlna/timeline.go:54-80 | the indexing loop and sort return the grouping |
| `Timeline.GroupsIsGrouping` | dlna/timeline.go:45-53 | groups are unique, strictly newest first with unknown last, keep the order given, are never empty and miss nothing |
| `Timeline.GroupingUnique` | dlna/timeline.go:45-53 | that description determines the result |
| `Timeline.LabelsAscend` | dlna/timeline.go:28-42 | formatted year and month labels sort like dates |
| `Timeline.LabelsSay` | dlna/timeline.go:28-42 | read as numbers, the labels are the year and the month of the instant's date |
| `TimelineTree.BrowseTimeline` | dlna/timeline.go:91-178 | the method answers what the browse function says, in every mode, for every ID, with paging, any sorting of a container's items and a failing listing, which is reported exactly where a listing is needed |
| `TimelineTree.FilterSupportedAssets` | dlna/contentdirectory.go:462-470 | the loop keeps photos and videos, in order |
| `TimelineTree.MetadataCountsChildren` | dlna/timeline.go:162-175 | BrowseMetadata and BrowseDirectChildren of one node, however sorted, agree on its existence and on a positive child count |
| `TimelineTree.YearPrefixDropsNothing` | dlna/timeline.go:167-174 | for one year's assets the year-prefix filter is a no-op |
| `TimelineTree.ListedOpens` | dlna/timeline.go:97-107 | every listed container is accepted and non-empty when browsed |
| `TimelineTree.OpensMeans` | dlna/timeline.go:97-160 | a name opens exactly if the folder is grouped and some asset has it as its year, or as its month where years are split, or has no date and the name is "unknown" |
| `TimelineTree.TopListing` | dlna/timeline.go:116-141 | the folder lists the assets themselves, or one container for each year that occurs and one for undated assets |
| `TimelineTree.YearListing` | dlna/timeline.go:162-178 | a year holds exactly its assets, or, where years are split, one container for each of its months |
| `TimelineTree.TotalIsWhole` | dlna/timeline.go:116-178 | TotalMatches is the size of the whole container, and the page is the one asked for |
| `TimelineWalk.TreeHoldsEveryAssetOnce` | dlna/timeline.go:82-178 | in every mode, walking the tree meets each photo and each video as often as the library lists it, and nothing else |
| `TimelineWalk.TreeIsNewestFirst` | dlna/timeline.go:82-178 | if dated assets are listed newest first, the walk is the dated assets in that order, then the undated ones |
| `TimelineWalk.ListedCountIff` | dlna/timeline.go:132-141 | the child count beside a listed container is its number of children, except for a year split by month with two assets in one month |
| `TimelineWalk.TwoAssetsOneMonth` | dlna/timeline.go:132-141 | such a year is listed with 2 and has 1 child |
| `Places.GroupPlaces` | dlna/extrafolders.go:265-276 | the nested-map loop indexes exactly the located assets, in order |
| `Places.BrowsePlaces` | dlna/extrafolders.go:264-332 | every answer, page by page and however a city's items are sorted, is one the folder's description allows, the order of equal titles left open |
| `Places.ListedCountryOpens` | dlna/extrafolders.go:293-302 | on whatever page it is listed, a country's printed ID opens, with as many cities as listed |
| `Places.ListedCityOpens` | dlna/extrafolders.go:310-322 | and a city's, with as many assets as listed |
| `Places.MetadataCountsChildren` | dlna/extrafolders.go:311-331 | BrowseMetadata and BrowseDirectChildren agree |
| `Places.CountriesInOrder` | dlna/extrafolders.go:282-302 | on any page countries stand in the order of their names, ignoring case, or in the reverse order |
| `Places.CitiesInOrder` | dlna/extrafolders.go:252-322 | so do a country's cities by their titles, the assets without a city under "Other" among them |
| `Places.ListingUnique` | dlna/extrafolders.go:282-291 | where titles differ in more than case, the listing is determined |
| `Places.PlacesHoldEveryLocatedAssetOnce` | dlna/extrafolders.go:261-332 | with any browse function that answers each ID as the folder allows, following the printed IDs from the folder down to items meets each asset with a country as often as the library lists it, and nothing else |
| `ObjectIds.UnescapeEscaped` | dlna/extrafolders.go:222-232 | query escaping is undone for every byte string and yields no separator |
| `ObjectIds.PlaceRoundTrip` | dlna/extrafolders.go:226-251 | a printed place ID parses back to its country and city, the empty city included; only an empty country is refused |
| `ObjectIds.UserRoundTrip` | dlna/contentdirectory.go:174-200 | IDs an account hands out lead back to that account and object |
| `ObjectIds.AccountPlaceRoundTrip` | dlna/contentdirectory.go:174-200 | both encodings together |
| `ObjectIds.MediaRoundTrip` | dlna/server.go:156-204 | media and thumbnail URLs parse back to account and asset |
| `ObjectIds.ParsedMediaIsValid` | dlna/server.go:156-173 | whatever the path, the account it parses to exists, and its ID is valid unless the path has no slash |
| `ObjectIds.ParsedAccountExists` | dlna/contentdirectory.go:187-199 | whatever the ObjectID, the account it parses to exists |
| `ObjectIds.AssetsAreNotPeople` | dlna/server.go:180-194 | an asset's URL is never taken for a person's |
| `Paging.PageIff` | dlna/contentdirectory.go:443-457 | a page is delivered as described exactly unless start + count overflows an int |
| `Paging.PageOverflows` | dlna/contentdirectory.go:443-457 | and start 1 with count 2^63 - 1, which an int read from XML can be, panics |
| `Paging.PageUnique` | dlna/contentdirectory.go:443-457 | the description of a page determines it |
| `Paging.PagesRebuildListing` | dlna/contentdirectory.go:443-457 | reading on with any ui4 page sizes, 0 included, rebuilds the listing exactly |
| `Paging.EmptyPageIff` | dlna/contentdirectory.go:448-451 | a page is empty exactly past the end |
| `Orientation.FilledOnce` | imageproc/orientation.go:146-235 | each place of the turned picture is filled from exactly one pixel |
| `Orientation.BakedLooksRight` | imageproc/orientation.go:111-133 | a picture is the baked one if and only if each stored row and column lies on the side the TIFF 6.0 Orientation field names, as far from it as stored |
| `Orientation.ApplyAfter` | imageproc/orientation.go:114-133 | turning twice is turning once, by the composite |
| `Orientation.Closed` | imageproc/orientation.go:114-133 | the eight orientations are closed under composition |
| `Orientation.InverseUndoes` | imageproc/orientation.go:114-133 | 2, 3, 4, 5 and 7 undo themselves; 6 and 8 undo each other |
| `Orientation.UndoneIff` | imageproc/orientation.go:114-133 | on all pictures one orientation undoes another exactly if it is that inverse |
| `Orientation.Composites` | imageproc/orientation.go:223-235 | transverse is rotate180 after transpose; three right turns are a left turn |
| `PixelLoops.FlipH` | imageproc/orientation.go:146-156 | the nested loops write exactly the turned picture, for every width, height and bounds origin |
| `PixelLoops.FlipV` | imageproc/orientation.go:158-168 | the nested loops write exactly the turned picture, for every width, height and bounds origin |
| `PixelLoops.Rotate180` | imageproc/orientation.go:170-180 | the nested loops write exactly the turned picture, for every width, height and bounds origin |
| `PixelLoops.Rotate90CW` | imageproc/orientation.go:182-193 | the nested loops write exactly the turned picture, for every width, height and bounds origin |
| `PixelLoops.Rotate90CCW` | imageproc/orientation.go:195-207 | the nested loops write exactly the turned picture, for every width, height and bounds origin |
| `PixelLoops.Transpose` | imageproc/orientation.go:209-221 | the nested loops write exactly the turned picture, for every width, height and bounds origin |
| `PixelLoops.Transverse` | imageproc/orientation.go:223-235 | the nested loops write exactly the turned picture, for every width, height and bounds origin |
| `PixelLoops.ToNRGBA` | imageproc/orientation.go:135-144 | the nested loops write exactly the turned picture, for every width, height and bounds origin |
| `PixelLoops.ApplyOrientation` | imageproc/orientation.go:111-133 | the dispatch on the tag |
| `ExifScan.JpegOrientation` | imageproc/orientation.go:45-75 | the scan stays in bounds, ends, and returns what the recursive reading of the bytes says |
| `ExifScan.ParseExifOrientation` | imageproc/orientation.go:77-109 | the directory loop stays in bounds, ends, and returns the specified value |
| `ExifScan.ExifOrientationIff` | imageproc/orientation.go:77-109 | that value is the first readable orientation entry's, or 0 if there is none |
| `ExifScan.ExifRoundTrip` | imageproc/orientation.go:84-108 | a block written in either byte order, directory anywhere, any entries, is read back |
| `ExifScan.FileSaysWhatItsBlockSays` | imageproc/orientation.go:49-73 | after any well-formed other segments, the Exif segment is found and its block decides |
| `ExifScan.TagIsFound` | imageproc/orientation.go:45-109 | both together: entries before tag 0x0112 and segments before the Exif one do not matter |
| `ExifScan.KnownFiles` | imageproc/orientation.go:45-109 | files given byte by byte, one in either byte order, have the tag their entry 0x0112 holds |
| `ExifScan.BareBytes` | imageproc/orientation.go:53-61 | FF D0 to FF D9 are passed over without a length, and FF DA ends the scan |
| `ExifScan.SizedBytes` | imageproc/orientation.go:62-73 | any other marker is passed over by its length, unless it is FF E1 with "Exif" and two zeros |
| `ExifScan.EveryFileSplits` | imageproc/orientation.go:49-75 | every byte string splits into segments read past and a tail that decides |
| `ExifScan.FinalVerdict` | imageproc/orientation.go:63-74 | only an Exif segment makes the verdict other than 1 |
| `ExifScan.TagWithin8Iff` | imageproc/orientation.go:42-75 | documented as 1 to 8, and so for each file exactly unless the segment that decides is an Exif segment whose block's first readable orientation entry exceeds 8 |
| `ExifScan.FixOrientation` | imageproc/orientation.go:24-40 | the picture is replaced exactly for tags 2 to 8 of files that decode, by one that looks right without a tag, and fails only if encoding does |
| `Boxes.ShrinksToFit` | imageproc/resize.go:78-92 | an oversized picture shrinks to at least 1 x 1, within the limits and its own size, touching a limit |
| `Boxes.AspectKept` | imageproc/resize.go:78-92 | the side nearer to its limit is scaled to it and the other in proportion, to half a pixel, but to no less than one |
| `Boxes.BoxesTile` | imageproc/resize.go:96-112 | every source pixel is in exactly one box |
| `Boxes.StartAscends` | imageproc/resize.go:97-110 | no box is empty, so the fallback for an empty box is never used when shrinking |
| `Boxes.BoxInside` | imageproc/resize.go:97-112 | every box lies inside the source, even when a picture grows |
| `Downscale.AverageBox` | imageproc/resize.go:119-148 | the summing loops compute the box average |
| `Downscale.Downscale` | imageproc/resize.go:78-117 | every destination pixel is its box's average |
| `Downscale.MaybeDownscale` | imageproc/resize.go:22-71 | exactly JPEG and PNG pictures that exceed a positive limit and decode are replaced, by box averages that fit and keep the aspect ratio, and it fails only if encoding does |
| `Downscale.ClampNeverActs` | imageproc/resize.go:137-155 | for premultiplied pixels `to8`'s clamp never acts |
| `Downscale.OpaqueWithinBox` | imageproc/resize.go:117-148 | an opaque box averages to an opaque colour between its 8-bit minimum and maximum |
| `Downscale.TranslucentBox` | imageproc/resize.go:137-155 | a box of one translucent 8-bit colour keeps its alpha, and each channel exactly where channel times alpha is at least 254 and to one less otherwise |
| `Downscale.AlphaWithinBox` | imageproc/resize.go:137-145 | alpha stays within the box's range |
| `Downscale.SolidBox` | imageproc/resize.go:117-148 | a box of one opaque 8-bit colour keeps it exactly |
| `Downscale.SolidStaysSolid` | imageproc/resize.go:73-117 | and so does a whole picture |
| `Downscale.BoxesConserve` | imageproc/resize.go:96-135 | the sums over all boxes add up to the sum over the source |
| `Downscale.SumsFit` | imageproc/resize.go:120-131 | the sums of up to 2^48 pixels fit 64-bit integers |
| `UpdateId.IdCountsChanges` | dlna/updateid.go:28-45 | after c observed changes the ID is 1 + c mod (2^32 - 1), never 0 |
| `UpdateId.Tracker.Observe` | dlna/updateid.go:32-45 | the method is the specification's step |
| `UpdateId.Tracker.Current` | dlna/updateid.go:47-56 | the decimal string of the ID, never "0" |
| `Titles.TitlesSortNewestFirst` | dlna/contentdirectory.go:558-593 | titles of assets from different seconds of 1970 to 2286 sort newest first, whatever their dates and file names |
| `Titles.SortsNewestFirstIff` | dlna/contentdirectory.go:558-593 | and exactly when they do, for any two instants a timestamp can hold, the zero time with its bare file name included |
| `Titles.EpochSortsBackwards` | dlna/contentdirectory.go:558-593 | a photo from the last second of 1969 sorts before one taken a second later |
| `Titles.TitleReads` | dlna/contentdirectory.go:574-593 | what a title reads: the seconds left to 9999999999 as ten digits, the date and the file name; without the countdown the date and the name; without prefixes the name |
| `Durations.ParsePrinted` | immich/types.go:94-132 | parsing a printed length gives it back truncated to milliseconds, for every length an int64 holds |
| `Durations.ClockValue` | immich/types.go:94-119 | a well-formed clock is its hours, minutes, seconds and the first nine digits of its fraction, wherever that fits a Go duration |
| `Durations.NonzeroIsClock` | immich/types.go:94-119 | anything else is no length |
| `Durations.PrintedIff` | immich/types.go:121-132 | only photos and videos without a positive length have no duration printed |

## Left out

- MediaServer.Server.ServeMedia: `fetchQueueTimeout`, response bodies and headers, and `src.transform` (local to the request) are not modelled; the retry loop is given up by the client after any number of rounds, `patience`, because that it ends by itself is `MediaLiveness.NoInfiniteActivity`.
- MediaServer.Server.FindOrLead: likewise ends for every number of rounds after which the client goes away.
- MediaSharing.StoredKeyDownloadedIff: says when a stored key is downloaded again in runs that do not evict it; after an eviction a new download is what is wanted.
- MediaSharing.ProxyHasRanges: that a key comes with one kind of source follows for valid IDs from `FileSystem.ServerKeysApart`; a media path of one segment is not checked (`dlna/server.go:160-163`), so for other IDs it rests on Immich refusing the fetch.
- ListingRuns.SharedResultIsFresh: that a shared load completed no earlier than lookup minus TTL is false of the code; the exact condition is `ListingRuns.SharedLoadTooOldIff`. A load's return and the setting of `e.expires` are one step.
- DiskCacheRuns.ApplyKeepsInv: a `Put` under a key that looks like a sidecar or a temporary file. `Get`s of such keys are modelled, because a media path of one segment reaches the cache unchecked (`dlna/server.go:160-163`); a `Put` is excluded only because Immich is assumed to refuse the fetch.
- DiskCacheRuns.HitIsWhole: the sidecar is written in one atomic step, although `os.WriteFile` truncates first; a type read in between is not covered.
- DiskCache.Cache.Put: a step that fails changes nothing, apart from a copy, which may have written part of the content; `os.CreateTemp` succeeds with a free name, and in `DiskCacheRuns` never picks one that an unfinished `Put` still holds.
- DiskCache.Cache.Evict: no other process changes the directory during a sweep, and removals succeed; entries of equal age go in some order.
- TimelineTree.BrowseTimeline: which order a SortCriteria asks for; the library's sorting is any function that rearranges a listing.
- Places.BrowsePlaces: likewise for a city's items; the trimming of white space from names, which arrive trimmed; `strings.ToLower` is a parameter.
- PixelLoops.ToNRGBA: the arithmetic of `color.NRGBAModel`; pixels are taken as that model converts them.
- Boxes.ShrinksToFit: real numbers stand for float64, so rounding of the scale factor is not modelled.
- Downscale.Downscale: likewise for the size of the destination.
- Downscale.MaybeDownscale: likewise; decoding and encoding are given by what they return, and why an encoder fails is not modelled.
- Downscale.AverageBox: Uint64 wrap-around; sums are unbounded, and `Downscale.SumsFit` gives the sizes for which that makes no difference.
- ExifScan.FixOrientation: decoding and encoding are given by what they return.
- MediaProtocol: `Put` is one step that stores the key or fails; waiting for a slot and creating the download's context are one step; timers fire at any time.
- ListingCache: a missing cache. A TTL of zero or less, which bypasses the cache too, is in `ListingRuns`.
- UpdateId: a missing tracker, and the hash functions, whose results are inputs.
- Timeline.LabelsAscend: capture times are UTC, as Immich sends them; other offsets in a timestamp are not modelled.
- The formatted date inside titles: any text.
- HTTP, SOAP, DIDL and SSDP: requests are served or not, and answers are values instead of XML.
- The Immich client: loads, fetches and searches end in success, failure or never, as the environment chooses; a search is a filter of an abstract library listed newest first, and its paging is not modelled.
- Albums, people, favourites and the Random folder, whose listings are paged library or Immich results, and the random sample, which depends on a generator.
- Parsing a printed ID is proved to give back what was printed; that printing a parsed ID gives back its text is false (`Atoi` accepts several spellings) and not claimed.
- Configuration, health check, logging and descriptions.
