# Verified model of the chat server's delivery and recovery core

This project models, in Dafny, the parts of the server whose correctness depends on
interleaving, accounting or careful text handling, and proves what they promise.

**Live-update delivery.** One notification builds a bounded window of an account's event
log and gives every connection of that account the part above its own watermark, while
sender-result barriers hold back events a sender receives in an RPC reply. `Transport`
has the connection's critical sections as functions, `Connection` has the connection with
its fields as the server keeps them, `Window` builds a window, `Delivery` is one
connection's share of it and `Fanout` the whole notification. Other goroutines act between
any two critical sections: `Traffic` holds arbitrary lists of their actions, and the
relation they must respect (`Permitted`) is the one the delivery itself is proved to
respect, so the results hold for any number of concurrent deliveries. "Under order" means
that every barrier stands in the queue in the order of the events the barriers turn out to
be for, named yet or not, and is for a message that renders; others may register, name and
release barriers at any time as long as that stays so. `PushHistory` and `DeliveryFacts`
state what this means for the client over whole runs, `ResultFacts` what a barrier's ready
flag stands for.

**Dialog-filter recovery.** `FilterClock` is the invalidation clock with one connection's
coverage over arbitrary interleavings, `FilterSync` the compare-and-swap loops,
`RecoveryQueue` the compacting queue and `RecoverySweep` the sweep with its slots and the
goroutines it starts.

**The rest.** `Broadcaster` (one-slot mailboxes under a lock with racing readers),
`EventStream` (the event-stream printer against the reading rules of sections 9.2.5 and
9.2.6 of the WHATWG HTML Standard), `DeliveryLag` (lock-free publication of samples),
`Upload` (assembly of parts), `SecretChat` (racing accept and discard handlers),
`DownloadLimit` and `LoginLimit` (rate limits), `FilterEntities` (UTF-16 boundaries, section
2.1 of RFC 2781) and `ClassOrder` (order restoration of class lists).

`dafny verify dfyconfig.toml` checks everything.

## Where the code and its description part

- `MarkRPCUpdate` is described as accounting the contiguous next event; the code jumps to
  any higher pts when no barrier or a matching barrier is first. `MarkIsSoundIff` says
  exactly when that skips nothing, and every call the delivery makes is proved to meet it.
- A notification is described as bringing near connections to the head. A window leaves out
  events that no longer render, so a connection with nothing renderable above its watermark
  stays where it is (`StaysBelowHead`); `EndPoint` is where every connection ends.
- A connection whose key leaves the account and returns during one delivery can have the
  whole log stepped over by an accounting that was safe when it was decided
  (`RebindReopensGap`), or, when it returns between an accounting and the reading of the
  watermark that follows, by a push (`ReturnLowersReading`). `MarkIsSoundIff` and
  `PushIsWholeIff` are the exact conditions. The other results assume an account that is
  lost during a delivery is not regained before it ends.
- Barriers are guarded by the write lock so that a notification cannot pass a result between
  its check and its push; but check and push are two critical sections, and the push compares
  the watermark only. A retry that registers its known event in between has that event pushed
  (`RaceCrosses`). `RaceIff` is the exact condition: a push goes wrong if and only if a barrier
  registered since the last look is for an event in its range. `PushTakesIff` is the test the
  push could make of the named barriers under its lock.
- Of the barriers a delivery looked at, events owed as RPC results are held back exactly when
  they lie at or beyond a barrier read ahead or the share waits (`ShareHoldsBackIff`). The
  updates after a keyed event do not wait: a next barrier that is not named yet lets them
  through (`SuffixCrosses`). Barriers reported out of order mislead even a plain push
  (`PlainCrosses`), and so does a keyed event that no longer renders (`UnrenderedCrosses`).
- A delivery reads the first barrier, its ready flag and the accounting in three critical
  sections. `AccountedWasWritten` shows that the event accounted was written as a result if
  the barrier read is still first then; if it was released meanwhile, the flag can be another
  barrier's (`FlagOfAnother`).
- The download limiter uses the zero time as "no window yet"; `ForgetsOnlyAtZero` shows
  that this is the only moment at which it admits more than its limit.

## Model

| member | source | states |
|---|---|---|
| `PushHistory.RunKeepsSound` | internal/api/notify.go:339-348 | over every run of lawful actions, everything renderable between a connection's base and its watermark was pushed to it or accounted as an RPC result, each once and in ascending order, and nothing beyond the watermark was given |
| `PushHistory.StepKeepsSound` | internal/mtproto/send.go:1083-1110 | each critical section of the connection keeps that invariant |
| `PushHistory.WatermarkMoves` | internal/mtproto/send.go:112-116 | the watermark moves only by a push that was written, an accounted result or a change of owner |
| `DeliveryFacts.StoryIsSound` | internal/api/notify.go:343-346 | the invariant holds of every history the modelled methods produce |
| `DeliveryFacts.PushesAreDisjoint` | internal/api/notify.go:404-406 | pushes to one connection cover disjoint pts ranges in order: no update is pushed twice |
| `DeliveryFacts.MarkIsSoundIff` | internal/mtproto/send.go:523-563 | accounting an event keeps the invariant if and only if nothing renderable lies between the watermark and it |
| `DeliveryFacts.RebindReopensGap` | internal/mtproto/send.go:600-618 | a concrete run in which the account leaves and returns and an accounting then skips the log |
| `DeliveryFacts.ShareHoldsBackIff` | internal/api/notify.go:556-655 | for every window and every reading, a prefix, plain or suffix push holds no event still owed if and only if each such event of the window above the watermark lies at or beyond a barrier read ahead, or the share waits |
| `DeliveryFacts.PushTakesIff` | internal/mtproto/send.go:1083-1110 | a push that skips nothing holds an event owed if and only if such an event lies between the watermark it expects and the pts it advertises |
| `DeliveryFacts.RaceIff` | internal/mtproto/send.go:122-125 | a push below the first barrier seen holds an event owed if and only if a barrier registered after that look is for an event in its range |
| `DeliveryFacts.RaceCrosses` | internal/api/messages.go:373-382 | a concrete run in which a retry registers its event between the look and the push, and the event is pushed |
| `DeliveryFacts.PushEnds` | internal/api/notify.go:746-795 | the three kinds of push end where `PushEnd` says |
| `DeliveryFacts.SuffixCrosses` | internal/api/notify.go:782-795 | a concrete connection whose unnamed barrier lets the suffix take an owed event along |
| `DeliveryFacts.PlainCrosses` | internal/api/notify.go:618-655 | a concrete connection whose barriers, reported out of order, let a plain push take an owed event along |
| `DeliveryFacts.UnrenderedCrosses` | internal/api/notify.go:618-655 | a concrete connection whose keyed event no longer renders and whose plain push takes the next owed event along |
| `DeliveryFacts.StaysBelowHead` | internal/api/updates.go:455-462 | a concrete log whose window moves nobody although the head is ahead |
| `DeliveryFacts.PushIsWholeIff` | internal/api/notify.go:655 | a push of all a window has above a watermark skips nothing if and only if nothing renderable lies between that watermark and the window |
| `DeliveryFacts.ReturnLowersReading` | internal/api/notify.go:693-696 | a concrete run in which the account leaves and returns after an accounting, and the push that follows skips events |
| `BarrierFacts.RunKeepsCaps` | internal/mtproto/send.go:212-222 | in every run neither barrier queue outgrows its cap |
| `BarrierFacts.RunKeepsFresh` | internal/mtproto/send.go:270-336 | in every run short of counter wrap-around all barriers have distinct ids and new ids are unused |
| `BarrierFacts.AbortReleasesItsOwn` | internal/mtproto/send.go:425-456 | aborting an attempt releases exactly the barrier with its id, and only if it owns one |
| `BarrierFacts.OwnedIdsDiffer` | internal/mtproto/send.go:193-204 | no two attempts of a run own a barrier under the same id, so no attempt releases another's |
| `BarrierFacts.ActionsThin` | internal/mtproto/send.go:1032-1078 | apart from starting an attempt, no action adds or reorders barriers; at most one is removed unless all are dropped |
| `BarrierFacts.IdsAreOld` | internal/mtproto/send.go:270-336 | no action brings a barrier back under an id handed out before |
| `ResultFacts.ReadyIsWritten` | internal/mtproto/send.go:1032-1078 | in every run a barrier is ready only if a result for its event was written to the present owner under the present key |
| `ResultFacts.FirstThroughout` | internal/mtproto/send.go:118-122 | in every run a barrier that was first and is still there is still first, for the same event and still ready if it was |
| `ResultFacts.AccountedWasWritten` | internal/api/notify.go:556-587 | over every run between the three readings: if the barrier read is still first when its event is accounted, a result for that event was written before |
| `ResultFacts.FlagOfAnother` | internal/api/notify.go:556-562 | a concrete run in which the ready flag read belongs to another barrier and an event without a result is accounted |
| `Connection.PermittedKeeps` | internal/api/notify.go:540-542 | what one goroutine may do preserves what every other one relies on, its last look at the barriers included |
| `Connection.OngoingStep` | internal/mtproto/send.go:79-84 | any permitted action of another goroutine leaves a delivery under way lawful and what it relies on true |
| `Connection.Conn.constructor` | internal/mtproto/send.go:620-640 | a fresh connection has an empty history at its starting watermark |
| `Connection.Conn.PendingRPCUpdate` | internal/mtproto/send.go:489-509 | reports the first barrier of the regular queue, then of the overflow, then the saturated hold |
| `Connection.Conn.PendingRPCUpdateReady` | internal/mtproto/send.go:511-521 | reports whether that barrier's result was written |
| `Connection.Conn.PushToAtWatermark` | internal/mtproto/send.go:1083-1110 | writes only for the bound owner at the expected watermark, says stale or failed otherwise, and the step is recorded as lawful whenever it was permitted |
| `Connection.Conn.MarkRPCUpdate` | internal/mtproto/send.go:248-255 | releases only the first barrier and only for the bound owner and key; success means the event is at or below the watermark |
| `Connection.Conn.SendResultAndMark` | internal/mtproto/send.go:1022-1026 | readies the rightmost barrier of the event and resolves it only when the watermark has reached its predecessor |
| `Connection.Conn.ReadyResult` | internal/mtproto/send.go:1039-1061 | the two backward searches find the rightmost matching barriers and mark them ready |
| `Connection.Conn.BeginRPCUpdateAttempt` | internal/mtproto/send.go:270-336 | reserves, deduplicates, overflows or saturates as the queues require, moving neither binding nor watermark |
| `Connection.Conn.SetRPCUpdatePtsAttempt` | internal/mtproto/send.go:362-407 | names the committed event on the attempt's own barrier and on no other |
| `Connection.Conn.ClearRPCUpdateAttempt` | internal/mtproto/send.go:425-456 | removes the attempt's own barrier from the parallel slices or the overflow |
| `Connection.Conn.SetOwnerTo` | internal/mtproto/send.go:600-618 | a new owner starts at watermark zero with no barriers; the same owner changes nothing |
| `Connection.Conn.SetKeyTo` | internal/mtproto/send.go:643-661 | a new key drops all barriers and keeps the watermark |
| `Connection.Conn.Yield` | internal/api/notify.go:540-542 | whatever permitted actions others take, the delivery's expectations still hold |
| `Window.BuildUpdates` | internal/api/updates.go:419-479 | the window holds every renderable event from its start to the pts it advertises, in order, reaches the head or a full batch, and says which |
| `Window.SliceIsWhole` | internal/api/updates.go:404-409 | a contiguous slice taken from where a reader stands has no hole |
| `Delivery.PushNow` | internal/api/notify.go:708-719 | a slice below the floor of the last look is lawful and holds no event of a barrier registered before that look |
| `Delivery.PushOrdered` | internal/api/notify.go:708-719 | a slice is written only if the connection still stands where the slice begins, and then ends exactly at the advertised pts |
| `Delivery.AccountPending` | internal/api/notify.go:672-697 | a barrier is accounted only when already passed or when it is the very next event and rendered as a message |
| `Delivery.DeliverBeforePending` | internal/api/notify.go:746-761 | pushes what precedes a barrier and nothing else |
| `Delivery.BarrierTurn` | internal/api/notify.go:564-612 | one turn of the barrier loop stops at a keyed, unready, unknown or later barrier |
| `Delivery.ReadyTurn` | internal/api/notify.go:576-611 | a turn at a known barrier accounts it, pushes its prefix, stops or asks for a rebuild |
| `Delivery.PrefixTurn` | internal/api/notify.go:590-611 | a turn that goes on has moved the watermark |
| `Delivery.DrainBarriers` | internal/api/notify.go:556-617 | the barrier loop ends under any interference: the other goroutines' remaining steps, then outstanding barriers plus the gap to the window's end, decrease |
| `Delivery.TurnAndRead` | internal/api/notify.go:564-612 | a turn that goes on has consumed steps of other goroutines, or its reading is current and barriers plus gap are fewer than before |
| `Delivery.MarkSuppressed` | internal/api/notify.go:779-781 | the keyed event is accounted only from a watermark with nothing renderable before it |
| `Delivery.PushSuffix` | internal/api/notify.go:782-803 | what follows the keyed event is pushed up to the next barrier named ahead, and blindly only when the reading names none |
| `Delivery.PushEnd` | internal/api/notify.go:556-655 | a share pushes nothing below its watermark and nothing at or past a barrier read ahead of it |
| `Delivery.SuffixEnd` | internal/api/notify.go:782-791 | the suffix stops before a known next barrier beyond the keyed event |
| `Delivery.DeliverWithSuppression` | internal/api/notify.go:763-804 | prefix, accounting and suffix leave the history lawful and, under order, cross no barrier of the last look unless the suffix is blind |
| `Delivery.MustHold` | internal/api/notify.go:618-628 | a delivery that does not wait has seen no barrier for an event of the window, named or not, but the keyed notification's own |
| `Delivery.DeliverConn` | internal/api/notify.go:543-665 | under any interference the connection's history only grows and stays lawful; under order no prefix or plain push, and no suffix that knows the next barrier, holds the event of an outstanding barrier registered before the delivery's last look, whether that barrier is named or not; only a keyed notification ever pushes blindly; order is left behind; undisturbed and unheld, the outcome is exactly the window's end or nothing |
| `Fanout.Build` | internal/api/notify.go:389-393 | whatever head and set of vanished events a build sees, its window covers its range, reaches as far as it says and never past the horizon; an undisturbed one covers everything up to it |
| `Fanout.ReadMarks` | internal/api/notify.go:371-375 | the watermarks are read one after another under interference; each is the connection's own when read, and histories only grow |
| `Fanout.WindowStart` | internal/api/notify.go:371-388 | starts at the lowest watermark, later at the head less a batch, the lowest or the highest, as the source chooses |
| `Fanout.PlacedServes` | internal/api/notify.go:350-356 | every window starts at or below some remaining connection; the first serves everybody, a later one everybody within a batch of the head |
| `Fanout.Place` | internal/api/notify.go:371-394 | reading, placing and building together give a window that covers its range from such a start |
| `Fanout.Fan` | internal/api/notify.go:401-411 | each remaining connection gets its share once; the others are untouched |
| `Fanout.Collect` | internal/api/notify.go:413-422 | the next round serves exactly the connections left ahead, and any stale share asks for a rebuild |
| `Fanout.HandOut` | internal/api/notify.go:395-434 | a pass keeps every connection lawful and, undisturbed, moves each served one to where the window says |
| `Fanout.WindowCarries` | internal/api/notify.go:350-356 | exactly where a window takes an undisturbed connection and whether it leaves it to a further one |
| `Fanout.FirstPass` | internal/api/notify.go:350-352 | the first pass leaves everybody where its window takes them and keeps exactly those left ahead |
| `Fanout.SecondPass` | internal/api/notify.go:352-358 | the second pass takes everybody left ahead to their end point and moves nobody else |
| `Fanout.NearCatchUp` | internal/api/notify.go:350-356 | everybody within a batch of the head whom the first window reached or left ahead ends at the head, or where they were if nothing above renders |
| `Fanout.Pass` | internal/api/notify.go:370-434 | one pass of the loop keeps an undisturbed notification on course, and under order crosses no barrier but blindly |
| `Fanout.Deliver` | internal/api/notify.go:367-435 | at most ten builds for any number of sockets and any pattern of stale results; every connection stays lawful; under order no push of the whole notification, other than the blind suffix of a keyed one, holds the event of an outstanding barrier, named or not, that was registered before the look it goes by; undisturbed, every connection ends exactly at its end point |
| `FilterClock.RunIsSound` | internal/api/dialog_filter_sync.go:104-126 | in every run clocks are numbered consecutively with epoch at most sequence, coverage is the newest clock among the binding's start and its acknowledged fetches, and the generation is the newest number marked |
| `FilterClock.NothingIsHidden` | internal/mtproto/send.go:760-767 | in every run a bound connection is pending if and only if a marked number or the epoch is newer than its start and every acknowledged fetch |
| `FilterClock.NumbersIncrease` | internal/api/dialog_filter_sync.go:104-126 | numbers handed out by any two installs strictly increase |
| `FilterClock.FetchCoversOnlyOlder` | internal/api/dialog_filter_sync.go:159-172 | in every interleaving a fetch newly covers a number only if that number was handed out before the fetch loaded the clock |
| `FilterClock.FetchLeavesNewer` | internal/api/dialog_filter_sync.go:159-160 | a fetch covers no number handed out after its read began |
| `FilterClock.EpochWithinSequence` | internal/api/dialog_filter_sync.go:117-126 | the reconnect epoch never exceeds the sequence |
| `FilterClock.ClaimsBetweenResets` | internal/mtproto/send.go:823-856 | in every run a connection gets at most three attempts until a mark, a covering fetch or a new binding gives them back |
| `FilterClock.ClaimsAreSpaced` | internal/mtproto/send.go:823-851 | in every run the second of them comes at least 20 seconds after the first and the third at least 40 after the second |
| `FilterSync.Replica.constructor` | internal/api/dialog_filter_sync.go:38-43 | the clock starts at zero |
| `FilterSync.Replica.Next` | internal/api/dialog_filter_sync.go:104-112 | the loop ends, and its number was installed by one step of this very call |
| `FilterSync.Replica.ListenerReconnected` | internal/api/dialog_filter_sync.go:117-126 | the loop ends with one reconnect step |
| `FilterSync.Replica.EnsureRecovery` | internal/mtproto/send.go:694-714 | at some moment of the call the connection was bound and initialised for this owner and session |
| `FilterSync.Replica.EnsureBinding` | internal/api/dialog_filter_sync.go:130-136 | the same for a request, which it ignores when unauthenticated or provisional |
| `FilterSync.Replica.MarkRecovery` | internal/mtproto/send.go:717-747 | success means one step marked the number on a connection then bound to this owner and session |
| `FilterSync.Replica.CoverRecovery` | internal/mtproto/send.go:779-801 | success means one step covered what was captured on a connection then bound and initialised |
| `FilterSync.Replica.CaptureState` | internal/api/dialog_filter_sync.go:139-157 | a capture carries the number of the clock that was current at one moment of the call, or nothing |
| `FilterSync.Replica.AcknowledgeFetch` | internal/api/dialog_filter_sync.go:161-172 | an expired or foreign capture covers nothing; otherwise exactly the captured clock is covered, in one step |
| `FilterSync.Replica.GetDialogFilters` | internal/api/dialog_filters.go:69-125 | from capture to acknowledgement: numbers handed out after the database read began stay uncovered |
| `FilterSync.Replica.RequesterRepair` | internal/api/dialog_filter_sync.go:194-203 | a repair marks the requester with a number of its own |
| `FilterSync.Replica.OwnerInvalidation` | internal/api/dialog_filter_sync.go:207-218 | one number, taken by this call, serves all listed connections; this one is marked with it only if listed and bound to the owner, and each time it is listed under the owner it is marked unless it was not bound to that owner and session at some moment of the call |
| `RecoveryQueue.Queued` | internal/api/dialog_filter_sync.go:45-65 | the FIFO it refines: appending keeps order, admits no duplicate and adds exactly the new members |
| `RecoveryQueue.Queue.constructor` | internal/api/dialog_filter_sync.go:38-43 | starts empty |
| `RecoveryQueue.Queue.Enqueue` | internal/api/dialog_filter_sync.go:45-59 | array, head and map behave as that FIFO; the map is its member set |
| `RecoveryQueue.Queue.EnqueueBatch` | internal/api/dialog_filter_sync.go:61-65 | a batch goes in as its members one by one |
| `RecoveryQueue.Queue.Take` | internal/api/dialog_filter_sync.go:67-95 | returns exactly the first entries in order, as many as asked and there, leaves the rest, and keeps the dead prefix under 256 or under half the array |
| `RecoverySweep.StepKeeps` | internal/mtproto/send.go:694-873 | whatever step another goroutine takes, a connection with an attempt to spend stays queued or minded by a goroutine that will look again |
| `RecoverySweep.JobHandsOver` | internal/api/notify.go:158-167 | a finishing push re-queues the connection if it is still due and otherwise has seen that it is not |
| `RecoverySweep.EventKeeps` | internal/api/dialog_filter_sync.go:161-218 | whatever makes a connection due leaves a goroutine behind that minds it |
| `RecoverySweep.LaunchIsSafe` | internal/api/notify.go:157-178 | a started push takes over the connection the sweep held |
| `RecoverySweep.Updater.constructor` | internal/api/notify.go:52-71 | starts with no slot in use |
| `RecoverySweep.Updater.Claim` | internal/mtproto/send.go:826-856 | claims exactly when an attempt is pending, none is in flight and its delay is over |
| `RecoverySweep.Updater.EnqueueAll` | internal/api/notify.go:143-144 | everything left in hand goes back |
| `RecoverySweep.Updater.Attempt` | internal/api/notify.go:146-178 | the slot passes to the push or is given back, exactly once, and the connection is not lost |
| `RecoverySweep.Updater.SweepTaken` | internal/api/notify.go:134-179 | none of the connections taken is lost, whether the loop ends or runs out of slots |
| `RecoverySweep.Updater.Sweep` | internal/api/notify.go:115-180 | every connection that was queued or scanned and is due under the sweep's epoch is queued or minded when it returns; slots in use equal pushes in flight and never exceed sixteen; the scan budget is spent as read |
| `Broadcaster.FanoutIsGood` | internal/admin/sse.go:290-310 | replacing every mailbox's content keeps all streams orderly and gives every live one the newest payload |
| `Broadcaster.ReplacedIsOrderly` | internal/admin/sse.go:296-308 | dropping a superseded payload and queueing the next keeps a stream strictly increasing |
| `Broadcaster.OrderlyShows` | internal/admin/sse.go:319-321 | a stream is its snapshot followed by strictly increasing later publishes |
| `Broadcaster.Broadcaster.constructor` | internal/admin/sse.go:193-224 | starts open with no streams and nothing published, with a cap of 32 unless one is set |
| `Broadcaster.Broadcaster.Receive` | internal/admin/sse.go:534-542 | a reader takes what its channel holds, learns of closing only after draining it, and keeps the broadcaster's invariant |
| `Broadcaster.Broadcaster.TrySend` | internal/admin/sse.go:296-307 | sends only into an empty slot of a channel that is not closed |
| `Broadcaster.Broadcaster.Offer` | internal/admin/sse.go:296-308 | however the reader races the three selects, the payload is next and at most the one waiting before it was dropped |
| `Broadcaster.Broadcaster.Fanout` | internal/admin/sse.go:290-310 | the newest publish is received or queued for every live stream, and each stream stays its snapshot followed by strictly increasing publishes |
| `Broadcaster.Broadcaster.Subscribe` | internal/admin/sse.go:322-359 | refused when closed or at the cap, otherwise starts from the newest payload; the first client wakes the sampler |
| `Broadcaster.Broadcaster.Unsubscribe` | internal/admin/sse.go:362-366 | removes the stream and keeps the rest |
| `Broadcaster.Broadcaster.CloseAll` | internal/admin/sse.go:369-378 | ends every stream, loses nothing already queued, and leaves none to send on |
| `Broadcaster.Broadcaster.Live` | internal/admin/sse.go:168-190 | over every sequence of publishes, subscriptions, reads, departures and shutdowns the invariant holds, the cap included, and no client is shown less than before |
| `EventStream.EncodeFragment` | internal/admin/sse.go:384-419 | prints exactly the event, selector, mode and fragment lines and the blank line |
| `EventStream.EncodePayload` | internal/admin/sse.go:277-280 | a payload is its fragments' lines one after another |
| `EventStream.ReplacedIsNormalised` | internal/admin/sse.go:398-399 | the two replacements turn every CR LF and CR into LF and leave no CR |
| `EventStream.SplitThenJoin` | internal/admin/sse.go:411-415 | the lines written one by one rejoin to the text |
| `EventStream.ReadPrinted` | internal/admin/sse.go:380-383 | reading a printed fragment gives back name, selector, mode and normalised HTML, and leaves the rest of the stream to be read |
| `EventStream.ReadPayload` | internal/admin/sse.go:277-280 | reading a payload gives back all its fragments in order |
| `EventStream.WriteStream` | internal/admin/sse.go:501-548 | the handler's writes one after another are the lines of the retry hint, keep-alives and payloads |
| `EventStream.RoundTrip` | internal/admin/sse.go:501-548 | all of that reads back as exactly its fragments in order |
| `DeliveryLag.CoverageIff` | internal/admin/delivery_lag.go:160-175 | exactly when a sample counts as full, partial or nothing |
| `DeliveryLag.SuccessorDescribes` | internal/admin/delivery_lag.go:126-145 | the next state describes the history extended by the attempt |
| `DeliveryLag.RespondTells` | internal/admin/delivery_lag.go:177-198 | a retained value is present exactly when some install was full, is that of the latest such install, and the state is available exactly when it was the last |
| `DeliveryLag.Sampler.constructor` | internal/admin/delivery_lag.go:77-87 | starts unavailable with nothing installed |
| `DeliveryLag.Sampler.BeginAttempt` | internal/admin/delivery_lag.go:107 | the number is fresh and above every installed one |
| `DeliveryLag.Sampler.Swap` | internal/admin/delivery_lag.go:147-149 | succeeds only if nobody replaced the state, and keeps installed attempts strictly increasing |
| `DeliveryLag.Sampler.Publish` | internal/admin/delivery_lag.go:116-151 | ends under any interference; the answer describes a moment of the call at which this attempt or a later one was the last installed |
| `DeliveryLag.Sampler.SampleLag` | internal/admin/delivery_lag.go:93-114 | the same for a whole attempt, whose time is taken only when the sample is full |
| `Upload.CountAndMaximum` | internal/api/media.go:574-581 | count and maximum match if and only if the recorded indexes are exactly 0 to parts-1 |
| `Upload.PartsReader.constructor` | internal/api/media.go:23-30 | starts before the first part |
| `Upload.PartsReader.Size` | internal/api/media.go:35-44 | the announced size, or the sum of the recorded ones |
| `Upload.PartsReader.Load` | internal/store/uploads.go:312-326 | takes the next part only if its bytes are there and as many as recorded |
| `Upload.PartsReader.Read` | internal/api/media.go:46-64 | fills the front of the buffer with the next bytes of the parts in order, makes progress whenever the buffer has room, and reports the end only after the last part |
| `Upload.Put` | internal/api/media.go:608-615 | for every sequence of buffer sizes the bytes read are the in-order concatenation of the parts; it fails only if some part does not match its record or the blob write fails |
| `Upload.CheckRows` | internal/api/media.go:569-581 | accepts exactly the contiguous non-empty uploads |
| `Upload.CheckRefs` | internal/api/media.go:598-605 | accepts exactly parts 0, 1, ... in order, each with bytes |
| `Upload.StoreFile` | internal/api/media.go:607-622 | a file is stored only with exactly the recorded total of bytes, the parts' concatenation |
| `Upload.AssembleFile` | internal/api/media.go:566-639 | completes only if the parts are exactly those announced, all readable, within quota and add up to the recorded total, and then with exactly their bytes; when the stores do not fail, also whenever they are |
| `SecretChat.RunIsSound` | internal/api/encryption.go:172-175 | the invariant of every interleaving of accept and discard handlers, with the store failing at will |
| `SecretChat.AtMostOnce` | internal/store/queries/secret_chats.sql:22-38 | in every run at most one accept and one discard match the row, and at most one notice of each kind is sent |
| `SecretChat.SettledStays` | internal/api/encryption.go:251-253 | once a chat left the requested state its keys never change, and a discarded row never changes again |
| `SecretChat.AcceptedMeansActive` | internal/api/encryption.go:226-249 | in every run already-accepted is answered only when the re-read found the chat active |
| `SecretChat.AnswersAreTrue` | internal/api/encryption.go:189-290 | in every run what a handler was answered is true of the row ever after: accepted keeps its own keys stored, declined and discarded chats stay discarded, an invalid id was no chat of the caller's; and every notice went to the party it was for |
| `SecretChat.StepEvolves` | internal/store/queries/secret_chats.sql:26-38 | any handler step leaves the row alone, keys it once from requested, or discards it keeping its keys |
| `DownloadLimit.Limiter.constructor` | internal/api/download_rate_limit.go:24-26 | starts with no window |
| `DownloadLimit.Limiter.Allow` | internal/api/download_rate_limit.go:31-47 | admits below the limit, otherwise answers what is left of the window |
| `DownloadLimit.WindowBound` | internal/api/download_rate_limit.go:38-46 | over every non-decreasing trace each window admits at most the limit |
| `DownloadLimit.IntervalBound` | internal/api/download_rate_limit.go:31-47 | any interval as long as the window, ends included, admits at most twice the limit |
| `DownloadLimit.DenialIsHonest` | internal/api/download.go:70-76 | a denial's wait is positive and within the window, and a caller who waits the rounded-up seconds with no call between is admitted |
| `DownloadLimit.FloodWaitCovers` | internal/api/download.go:70-76 | the seconds told are never shorter than the wait |
| `DownloadLimit.ForgetsOnlyAtZero` | internal/api/download_rate_limit.go:38-41 | of calls made together the limiter admits its limit at any time but the zero time, and all of them then |
| `LoginLimit.LaterTwice` | internal/admin/auth.go:139-148 | pruning a pruned list by a later moment is pruning the whole history |
| `LoginLimit.Prune` | internal/admin/auth.go:140-147 | the in-place filter keeps exactly the attempts strictly after the window start, in order |
| `LoginLimit.Append` | internal/admin/auth.go:151 | appends in place or into a fresh array |
| `LoginLimit.RateLimiter.constructor` | internal/admin/auth.go:125-129 | starts with no attempts |
| `LoginLimit.RateLimiter.Record` | internal/admin/auth.go:132-158 | the kept list is all attempts ever made by the address that lie strictly inside the last window, this one included, and the delay is applied exactly when they are more than five |
| `FilterEntities.Boundaries` | internal/api/dialog_filters.go:419-426 | collects exactly the UTF-16 lengths of the title's code-point prefixes |
| `FilterEntities.AdmittedIff` | internal/api/dialog_filters.go:430-438 | the tested bounds are exactly those of an entity covering one or more whole characters |
| `FilterEntities.BoundaryIff` | internal/api/dialog_filters.go:420-426 | a position is a boundary if and only if no trailing surrogate follows it |
| `FilterEntities.ValidateEntities` | internal/api/dialog_filters.go:418-442 | accepts exactly when every entity is a custom emoji with a positive document id covering whole characters, and stores them unchanged |
| `ClassOrder.FieldsOfJoin` | utils/shadcn-templ.go:118 | joined words split into the same words |
| `ClassOrder.OrderedIsSelect` | utils/shadcn-templ.go:104-111 | the result is a subsequence of the input |
| `ClassOrder.ChosenAreRightmost` | utils/shadcn-templ.go:91-92 | of repeated classes the last ones are kept |
| `ClassOrder.OrderedIsPermutation` | utils/shadcn-templ.go:112-116 | all survivors are placed if and only if they form a sub-multiset of the input |
| `ClassOrder.WalkBack` | utils/shadcn-templ.go:98-111 | the backward walk with its count map takes exactly those tokens |
| `ClassOrder.Reorder` | utils/shadcn-templ.go:93-119 | with two or more survivors from the input the result is their permutation in input order, otherwise the merge is returned unchanged |
| `ClassOrder.FindLastTopColon` | utils/shadcn-templ.go:37-52 | finds the last separator outside square brackets |
| `ClassOrder.LastBelowIsLast` | utils/shadcn-templ.go:34-36 | that position is a top-level colon with none after it |
| `ClassOrder.MarkerRoundTripIff` | utils/shadcn-templ.go:54-72 | moving the important marker there and back is the identity if and only if the token ends with it or has none in front |

## Left out

- Fanout.Deliver: runs the connections of one window one after another, each under arbitrary interference, where the source starts a goroutine per connection.
- Fanout.ReadMarks: takes the two loads of the first connection's watermark, which follow each other directly, as one.
- Delivery.DeliverConn: assumes an account lost during a delivery does not return before it ends, and connections that implement the ordered push; the plain `PushTo` fallback is not modelled.
- RecoverySweep.Updater.Claim: one step, where the source retries a compare-and-swap; the owner and session pair and the reset of the record change together.
- Broadcaster.Broadcaster.Receive: stands for the receiving loop of a stream; write failures, session checks and the stream's lifetime only end it early.
- FilterEntities.ValidateEntities: titles are sequences of Unicode scalar values, so text that is not valid UTF-8 is not modelled.
- Wrap-around of 64-bit counters, generations and pts, and saturation of time differences.
- The older barrier calls without a reservation, the non-atomic copy of the auth-key id, encoding of updates, metrics and logging.
- The session registry's cursor, the sampler and renderer behind the broadcaster, and the database and blob stores beyond the statements cited.
- Transient fan-out (typing, status, reactions, pins), peer normalisation, folder suggestions and the one-download-per-user map: independent of the parts modelled here.
- The regular expressions and the merge library behind class lists: outside code.
