# A verified model of the Canon runtime's event pipeline

This project models, in Dafny, the concurrent core of the Canon runtime and
proves what it keeps in every interleaving:

* **The event-subscription server** (`canon-event-subscribe`). One extractor
  thread tails a framed log, extracts a batch of events per frame, and pushes and
  broadcasts the batch while it holds the cache lock. Each connection thread
  registers, takes a backfill from a bounded cache, drains duplicates from its
  bounded queue and goes live. Registration takes only the registry lock, so it
  can land in the middle of a batch.
* **Three codecs**: the subscription wire frames, the `canon-host` request
  frames and the `.cxsf` fixture file.
* **Two concurrent fragments**: the compare-and-swap connection limiter and the
  benchmark runner.
* **Latency statistics**: nearest-rank percentiles and Welford's algorithm.

`dafny verify dfyconfig.toml` checks everything.

## How the server is modelled

The server is a step system (`pipeline.dfy`, `connection.dfy`): a `State`, a
`Step` datatype, `StepEnabled`, `Apply`, and `IsRun` for finite runs from the
initial state. One step is one access to state that another thread may change, so
registration, the cache query, each push, each flag check, each frame write, and
the single accesses that make up an offer or a shutdown request interleave freely:
an offer loads the disconnect flag, sends, and, if it must, sets the flag, in three
steps. What is still grouped into one step is listed under "Left out". A run may
contain any number of connections, log writers' appends, I/O errors, corrupt
bytes, failed extractions, lag evictions, operator stops and extractor halts. A few
fields are bookkeeping that no step depends on: every event ever pushed (`hist`),
where a connection joined the broadcast, what was queued and taken, and the first
event refused for a full queue that no backfill made up for (`missed`).

The parts that change in place are also classes with the same fields:
`EventCache`, `Subscriber`, `SubscriberRegistry`, `TailReader`, `Histogram`.
Their methods are proved against the same functions (`Push`, `Range`,
`TryEnqueue`, `RequestShutdown`, `Poll`, ...) that the step system uses, the
offers and requests through their accesses (`Subscription.AccessesCompose`).

Files, in the order they build on each other:

| files | contents |
|---|---|
| `events`, `byte_order`, `byte_stream` | sequenced events, fixed-width integers, fragmented reads |
| `event_cache`, `subscription`, `tail`, `tail_integrity` | the components and their classes, and what the log's trailer and header checks catch |
| `connection`, `pipeline` | the step system |
| `connection_invariant`, `placement`, `pipeline_invariant`, `pipeline_steps`, `pipeline_runs` | the invariant, and that every step keeps it |
| `delivery`, `notices`, `reasons`, `shutdown`, `stopping`, `log_refinement`, `resume`, `oversize`, `registry_leak`, `end_to_end` | the main theorems about runs |
| `witness_runs`, `witness_gap`, `witness_resume`, `witness_future`, `witness_late`, `witness_corrupt`, `witness_leak` | concrete runs where the documentation promises more than the code keeps |
| `subscribe_frame`, `host_frame`, `fixture_file`, `fixture_errors` | the codecs |
| `connection_limiter`, `bench_runner`, `bench_accounting`, `bench_latency`, `histogram` | the remaining concurrent and numeric parts |

## Where the code and its documentation differ

The model follows the code.

* `runtime/canon-event-subscribe/src/lib.rs:112` promises no silent data loss. A
  full queue drops an event, and the next accepted one resets the lag.
  `SilentGapWitness.SilentGap` is such a run. `Delivery.CompleteIffNothingMissed`
  and `Delivery.GapFreeIffUnbroken` say exactly when nothing is lost, and
  `Delivery.NoToleranceNoGap` that a tolerated lag of 0 always suffices. What the
  same passage says about control frames is kept: `Notices.NoSilentEnd`.
* Terminal frames carry the last delivered sequence number so that a client can
  resume from it. All events of a batch share one number and the dispatch loop can
  stop between them. `Resume.ResumeContinues` proves that resuming is lossless if
  the cut is at the end of a batch and, once the second connection has received
  anything, only if it is; `MidBatchWitness.MidBatchCutLosesEvent` is a run where it
  is not.
* `runtime/canon-event-subscribe/src/frame.rs:136-139` says a resume point asks for
  strictly later events only. A resume point beyond what the server has read (as
  after a restart, when numbering begins again) is answered with the live tail,
  older events included: `FutureResumeWitness.FutureResumeGetsOldEvent`.
  `Delivery.ResumeKeptIff` says exactly when it is kept.
* `runtime/canon-event-subscribe/src/subscription.rs:246` says that no enqueue
  follows the disconnect mark. That holds of a lag eviction. After the thread's own
  mark one offer that had already passed its check can still go through
  (`LateOfferWitness.EventEntersAfterDisconnect`), and never more than that one
  (`Delivery.NothingQueuedAfterDisconnect`).
* `runtime/canon-event-subscribe/src/event_cache.rs:81-88` calls the advertised
  point the smallest acceptable one. `EventCaches.AdvertisedNotSmallest` is a cache
  where it is not; `EventCaches.AdvertisedPoint` says exactly when it is.
* `runtime/canon-event-subscribe/src/event_cache.rs:272-279` says resume point 0
  is answered with the whole cache. `EventCaches.ZeroIsLiveTail`: it never is.
* `runtime/canon-event-subscribe/src/tail.rs:32-37` says a trailer mismatch is
  retried. `LogRefinement.CorruptFrameHalts` shows that the poll meeting it halts
  the extractor, and `LogRefinement.HaltIsFinal` that this is final;
  `CorruptLogWitness.BadTrailerStopsServer` is such a run.
* `runtime/canon-event-subscribe/src/frame.rs:254-257` makes an event too large for a
  frame an error so that the caller can skip it. Neither caller does. The connection
  that reaches such an event ends without a control frame
  (`Oversize.OversizeEndsSilently`), and a client that resumes from before it stops
  there again (`Oversize.ResumeMeetsOversizeAgain`).
* The registry drops a subscriber when its thread ends, except at
  `runtime/canon-event-subscribe/src/server.rs:834-837`, where a failed write of the
  truncation notice returns early. `RegistryLeak.LeakedIffNoticeFailed` says that this
  is the only exception, and `LeakWitness.DeadRegistrationFillsCap` is a run where such
  a registration keeps a later client out.
* A truncation notice need not mean that a requested event was evicted
  (`EventCaches.UnjustifiedTruncation`); `EventCaches.TruncationJustified` says
  when it does. What the notice carries is always so: `Reasons.TruncationsAreTrue`.

## Model

| member | source | states |
|---|---|---|
| `Delivery.GapFreeIffUnbroken` | runtime/canon-event-subscribe/src/server.rs:959-1117 | In every run, what an admitted connection has received occupies consecutive positions of the push history from its start on if and only if every event it was refused, and no backfill made up for, comes after the last one it received |
| `Delivery.ExactlyOnce` | runtime/canon-event-subscribe/src/server.rs:797-863 | Such an unbroken connection has received exactly a slice of the push history starting at a batch's first event: no gap, no duplicate, whatever its resume point and even when it registered mid-batch; for resume point 0 the slice starts where it joined |
| `Delivery.ResumeKeptIff` | runtime/canon-event-subscribe/src/server.rs:815-863 | For resume point r > 0 that slice begins the events numbered above r if and only if nothing was received, or r was not above the last number broadcast when it joined, or r was below the newest number in the cache at the range query, or no event is numbered above that last number and up to r |
| `Delivery.CompleteIffNothingMissed` | runtime/canon-event-subscribe/src/subscription.rs:226-254 | A caught-up admitted connection, alive and with only event frames on its wire, backfilled or not, has received everything from its start to the end of the history if and only if no event was refused for a full queue since it joined or, if it was backfilled, since that query |
| `Delivery.NoToleranceNoGap` | runtime/canon-event-subscribe/src/subscription.rs:226-254 | With a tolerated lag of 0 no connection ever receives an event after a gap |
| `Delivery.DeliveredInOrder` | runtime/canon-event-subscribe/src/server.rs:959-1117 | For any resume point and any overflow pattern, events written on one connection sit at strictly increasing positions of the push history |
| `Delivery.DrainDropsOnlyDuplicates` | runtime/canon-event-subscribe/src/server.rs:980-1010 | The drain never discards an event past the resume point that the backfill did not already write |
| `Delivery.BoundedLag` | runtime/canon-event-subscribe/src/subscription.rs:222-263 | Over every run the queue stays within its depth, at most `max_lag` consecutive history positions are missing before or between queued events, and for a connected subscriber the lag counter is exactly the number of events offered since the last queued one, within its bound except between the refusal that exceeds it and the eviction |
| `Delivery.NothingQueuedAfterDisconnect` | runtime/canon-event-subscribe/src/subscription.rs:222-263 | Once a subscriber is disconnected nothing enters its queue for the rest of the run, except the one event whose offer had already loaded the flag; after a lag eviction there is no such offer |
| `LateOfferWitness.EventEntersAfterDisconnect` | runtime/canon-event-subscribe/src/subscription.rs:222-226 | A run in which the offer loads the flag, the connection thread sets it, and the event still enters |
| `Delivery.StreamsHaveShape` | runtime/canon-event-subscribe/src/server.rs:777-863 | Every connection's frames are events followed by at most one terminal frame; LagExceeded and ServerShutdown carry the number of the last event written (0 if none); Truncated and InvalidRequest are only ever the sole frame |
| `Notices.NoSilentEnd` | runtime/canon-event-subscribe/src/server.rs:1015-1116 | A thread that has ended with every write successful and its peer still there has a control frame as its last frame; LagExceeded or ServerShutdown if the cache admitted it |
| `Notices.NoticesAreTrue` | runtime/canon-event-subscribe/src/server.rs:1022-1049 | An admitted connection is told LagExceeded only if its lag exceeded the bound, and anyone is told ServerShutdown only if shutdown was requested |
| `Notices.SentinelIsKept` | runtime/canon-event-subscribe/src/server.rs:980-1010 | Whatever the drain discards, a shutdown sentinel stays in the channel or in the thread's hand until the thread ends |
| `Reasons.TruncationsAreTrue` | runtime/canon-event-subscribe/src/server.rs:815-839 | If Truncated with number n is on a connection's wire, there was an earlier moment of the run, with the lock free, when the push history did not cover the resume point and determined n: the oldest kept number if the point missed it by more than one, otherwise the number after the partly evicted batch; the resume point is below n, the cache refused it then and would have accepted n |
| `Reasons.RefusedIsTold` | runtime/canon-event-subscribe/src/server.rs:820-839 | A thread that the cache refused writes Truncated with exactly that number and nothing else before it ends, unless its peer is lost |
| `Reasons.RefusalsAreTrue` | runtime/canon-event-subscribe/src/server.rs:777-813 | InvalidRequest answers a handshake; a connection that was never admitted is sent LagExceeded only with 0, and only if there was no connection slot for it or the registry was at its cap |
| `Reasons.ResumePointIsAsked` | runtime/canon-event-subscribe/src/server.rs:777-793 | From its handshake on, a connection's resume point is the number it asked for |
| `Reasons.LostPeerIsFinal` | runtime/canon-event-subscribe/src/server.rs:1060-1104 | After a failed write or a probe that finds the peer gone, a thread writes nothing more and has ended; if it was serving events it is marked disconnected |
| `Reasons.PartedForCause` | runtime/canon-event-subscribe/src/server.rs:1060-1104 | A thread gives up on its peer only in a step of its own in which a write failed or the peer was found gone, unless it was turned away on arrival; with `Notices.NoSilentEnd` this accounts for every end |
| `Reasons.ReceiverDropped` | runtime/canon-event-subscribe/src/server.rs:909-915 | In every run the receiving end of a queue is gone exactly when its thread has finished |
| `Reasons.RegistryWithinCap` | runtime/canon-event-subscribe/src/subscription.rs:415-432 | In every run the registry stays within a non-zero cap |
| `ShutdownSafety.ShutdownMissesNobody` | runtime/canon-event-subscribe/src/server.rs:330-347 | Once the final shutdown broadcast has completed, every thread in or later entering live dispatch has its shutdown or disconnect flag set, in every interleaving of registration, stop check, lag eviction and extractor halt |
| `ShutdownSafety.FlaggedStopsPromptly` | runtime/canon-event-subscribe/src/server.rs:1015-1116 | A dispatching thread whose flag is set writes at most one more event in the rest of the run |
| `Stopping.StopIsPrompt` | runtime/canon-event-subscribe/src/server.rs:1184-1188 | After the stop flag is set, at most one more log frame is read and at most one more connection accepted |
| `Stopping.HaltTellsEverybody` | runtime/canon-event-subscribe/src/server.rs:1363-1366 | When a halting extractor stops the server, everybody registered at its snapshot has the shutdown or the disconnect flag set |
| `Stopping.ExtractorStops` | runtime/canon-event-subscribe/src/server.rs:1184-1366 | The extractor is stopped only with the stop flag set, and only because it saw the flag between two polls or because it halted and announced that to everybody registered when it began to |
| `Stopping.HaltsForCause` | runtime/canon-event-subscribe/src/server.rs:1190-1357 | The extractor begins to halt only from a poll of bytes that are corrupt or a file that shrank, or from an extraction; a passing I/O error never halts it |
| `LogRefinement.PipelineRefinesLog` | runtime/canon-event-subscribe/src/server.rs:1184-1357 | For any bytes in the file, and with arbitrary tail errors, corruption, extractor failures and interleavings, the published history is the in-order concatenation of the extractor's answers to the frames the file starts with, none skipped or repeated; with the lock free it is the whole history, and in the lock section the history is a prefix of the answers with the next frame's added, all of it while broadcasting |
| `LogRefinement.ValidLogIsFollowed` | runtime/canon-event-subscribe/src/tail.rs:362-457 | In every run whose file is a byte prefix of a valid log, the frames read are the first ones of that log and no poll fails |
| `LogRefinement.CorruptFrameHalts` | runtime/canon-event-subscribe/src/server.rs:1330-1348 | A poll of a frame that is completely on disk halts the extractor iff the trailer does not match, and otherwise hands its payload on |
| `LogRefinement.CorruptHeaderHalts` | runtime/canon-event-subscribe/src/server.rs:1333-1350 | A poll of a file that shrank, or of twelve bytes with another magic or a length past the bound, halts the extractor and changes nothing else |
| `LogRefinement.ChangedByteHalts` | runtime/canon-event-subscribe/src/server.rs:1333-1341 | A complete log frame with one byte of its payload changed halts the extractor |
| `LogRefinement.PendingWaits` | runtime/canon-event-subscribe/src/server.rs:1330-1332 | A frame cut at any byte is waited for |
| `LogRefinement.HaltIsFinal` | runtime/canon-event-subscribe/src/server.rs:1363-1366 | A halted extractor reads and publishes nothing for the rest of the run |
| `CorruptLogWitness.BadTrailerStopsServer` | runtime/canon-event-subscribe/src/tail.rs:362-457 | A run in which a frame with a wrong trailer is polled, the extractor halts and the server stops |
| `LogRefinement.FramesStartFile` | runtime/canon-event-subscribe/src/tail.rs:362-457 | Whatever bytes are appended, the frames read so far encode to exactly the part of the file before the cursor |
| `PipelineSteps.RunPushesAccepted` | runtime/canon-event-subscribe/src/server.rs:1224-1267 | In every state of every run the cache is the window on all events pushed so far, and a push by the extractor loop is never refused as out of order |
| `PipelineSteps.StepKeepsInv` | runtime/canon-event-subscribe/src/server.rs:1184-1357 | Each step of any thread keeps the whole invariant: numbering and placement of the batch in progress, cache contents, registry and snapshots, offers and shutdown requests in progress, and every connection's queue, wire, backfill and position |
| `PipelineSteps.RunInv` | runtime/canon-event-subscribe/src/server.rs:745-915 | The invariant holds in every state of every run |
| `ConnectionInvariant.ActKeepsInv` | runtime/canon-event-subscribe/src/server.rs:959-1117 | Every action of a connection thread keeps its local invariant: what is on the wire and in hand is what was taken from cache and queue, less the duplicates |
| `ConnectionInvariant.OfferedKeepsInv` | runtime/canon-event-subscribe/src/subscription.rs:222-263 | Each access of an offer by the extractor, at any point of the thread, keeps that invariant |
| `PipelineRuns.RunAdvances` | runtime/canon-event-subscribe/src/server.rs:745-915 | Along a run a connection never takes back a frame or a queued event, and its joining point, backfill, first missed event, disconnect flag and end are final |
| `Resume.ResumeContinues` | runtime/canon-event-subscribe/src/server.rs:1022-1049 | If an unbroken connection ended with a LagExceeded or ServerShutdown notice carrying s > 0 and a later one resumes from s, is admitted and unbroken, the two event streams join without gap or duplicate if the first ended a batch and, once the second has received anything, only if it did |
| `Resume.EvictedMayResumeIff` | runtime/canon-event-subscribe/src/server.rs:1036-1049 | A lag-evicted connection meets the condition of that theorem if and only if no more events were written on it than lie between its start and the first event it was refused that no backfill made up for; it always does if everything it was queued comes before that event, or with a tolerated lag of 0 |
| `Resume.NoticeBelowFrontier` | runtime/canon-event-subscribe/src/server.rs:1022-1049 | The number in a LagExceeded or ServerShutdown frame is that of the last event on the wire and never beyond the broadcast frontier |
| `SilentGapWitness.SilentGap` | runtime/canon-event-subscribe/src/subscription.rs:226-254 | A run in which a connection is alive, caught up and has been sent only event frames, and yet an event is missing between two it received |
| `MidBatchWitness.MidBatchCutLosesEvent` | runtime/canon-event-subscribe/src/server.rs:1022-1049 | A run in which a connection that never overflowed is cut inside a batch and the connection resuming from its notice misses an event |
| `FutureResumeWitness.FutureResumeGetsOldEvent` | runtime/canon-event-subscribe/src/server.rs:815-863 | A run in which a connection that resumes from 5 before the server has read that far is sent the event numbered 1 |
| `Oversize.RunPayloadsFit` | runtime/canon-event-subscribe/src/frame.rs:274-322 | In every run every event on every wire is within the configured and the hard frame bound |
| `Oversize.OversizeEndsSilently` | runtime/canon-event-subscribe/src/server.rs:1090-1104 | A thread about to write an event too large for a frame, backfilled or live, writes nothing more in the rest of the run, no control frame either, and gives up on its peer when it moves on |
| `Oversize.OversizeBlocks` | runtime/canon-event-subscribe/src/server.rs:840-859 | An unbroken connection whose start is not past such an event never receives it or anything after it |
| `Oversize.ResumeMeetsOversizeAgain` | runtime/canon-event-subscribe/src/frame.rs:254-257 | Nor does one that resumes from any past point before it |
| `RegistryLeak.LeakedIffNoticeFailed` | runtime/canon-event-subscribe/src/server.rs:815-863 | In every state of every run, a finished thread is still registered if and only if the write of its truncation notice failed |
| `LeakWitness.DeadRegistrationFillsCap` | runtime/canon-event-subscribe/src/server.rs:797-837 | A run in which the registration of a finished thread fills the cap and a client is refused although nobody is being served |
| `EndToEnd.NumbersFit` | runtime/canon-event-subscribe/src/frame.rs:274-322 | In every run every number on every wire fits its 64-bit field |
| `EndToEnd.ClientDecodesFrames` | runtime/canon-event-subscribe/src/frame.rs:353-422 | For any connection, unbroken or not, and every byte at which the client's copy is cut, the client decodes a prefix of the frames written, control frames and their numbers included, and all of them if nothing is cut |
| `EndToEnd.ClientDecodesHistory` | runtime/canon-event-subscribe/src/frame.rs:353-422 | In every run, for an unbroken connection and every byte at which the client's copy is cut, the events the client decodes are a gap-free slice of the push history from the connection's start |
| `EndToEnd.ClientDecodesLog` | runtime/canon-event-subscribe/src/server.rs:1184-1357 | In every state of every run, what such a client decodes, wherever its copy is cut, is a gap-free slice of the extractor's answers to the frames the file starts with |
| `EventCaches.CacheIsWindow` | runtime/canon-event-subscribe/src/event_cache.rs:217-234 | Any push sequence, refused pushes included, leaves the cache with the last accepted events: all of them, or `capacity` if there are more |
| `EventCaches.PushSlidesWindow` | runtime/canon-event-subscribe/src/event_cache.rs:217-234 | A push is refused exactly for number 0 or a decrease, and otherwise slides the window by one |
| `EventCaches.RangeAgreesWithHistory` | runtime/canon-event-subscribe/src/event_cache.rs:281-336 | InWindow is exactly all events ever pushed past the resume point; AtLiveTail for a real resume point means there are none; OutOfWindow means there are some |
| `EventCaches.ResumeThreshold` | runtime/canon-event-subscribe/src/event_cache.rs:304-323 | In every reachable non-empty cache a resume point is accepted iff it is 0, or at least oldest - 1 with a whole front batch, or at least oldest with a partial one |
| `EventCaches.AdvertisedPoint` | runtime/canon-event-subscribe/src/event_cache.rs:304-323 | The advertised point is always accepted on retry, and is the smallest accepted one exactly when the front is partial and the request missed by more than one or the number saturated |
| `EventCaches.TruncationFixed` | runtime/canon-event-subscribe/src/event_cache.rs:298-323 | Truncation is reported exactly when the push history does not cover the resume point, and the advertised number is the one the history determines |
| `EventCaches.RetryServesTheRest` | runtime/canon-event-subscribe/src/event_cache.rs:304-336 | A retry at the advertised point is answered with every event of the history past it, or with the live tail if there is none |
| `EventCaches.AdvertisedNotSmallest` | runtime/canon-event-subscribe/src/event_cache.rs:304-323 | A reachable cache in which the point just below the advertised one is accepted |
| `EventCaches.ZeroIsLiveTail` | runtime/canon-event-subscribe/src/event_cache.rs:281-303 | Resume point 0 is answered with the live tail by every cache, never with a backfill |
| `EventCaches.TruncationJustified` | runtime/canon-event-subscribe/src/event_cache.rs:304-323 | Under a truncation notice a requested event was evicted iff the last evicted number is past the resume point, which always holds when every number has an event |
| `EventCaches.UnjustifiedTruncation` | runtime/canon-event-subscribe/src/event_cache.rs:304-323 | A reachable cache that reports truncation although nothing requested was evicted |
| `EventCaches.FilterAfter` | runtime/canon-event-subscribe/src/event_cache.rs:325-336 | The scan collects exactly the buffered events past the resume point, in order |
| `EventCaches.EventCache.constructor` | runtime/canon-event-subscribe/src/event_cache.rs:158-169 | A fresh cache has an empty history and its capacity clamped |
| `EventCaches.EventCache.New` | runtime/canon-event-subscribe/src/event_cache.rs:158-169 | Creation is refused exactly for capacity 0 |
| `EventCaches.EventCache.PushEvent` | runtime/canon-event-subscribe/src/event_cache.rs:217-234 | The in-place push keeps the cache the window on its push history, and changes nothing when it refuses |
| `EventCaches.EventCache.HasPartialFront` | runtime/canon-event-subscribe/src/event_cache.rs:248-253 | True exactly when the last evicted and the first kept event of the history share a number |
| `EventCaches.EventCache.RangeFrom` | runtime/canon-event-subscribe/src/event_cache.rs:281-336 | From the whole push history: the live tail exactly for 0, an empty history or a point at or past its last number; truncation exactly for a point the history does not cover, with the number the history determines; otherwise all later events of the history |
| `Subscription.LagIsConsecutiveOverflows` | runtime/canon-event-subscribe/src/subscription.rs:222-263 | Under any schedule of operations on a fresh subscriber the queue is bounded by the clamped depth, the lag is the number of consecutive overflows, and a connected subscriber has had at most the clamped `max_lag` of them |
| `Subscription.EvictionExactlyPastThreshold` | runtime/canon-event-subscribe/src/subscription.rs:222-263 | An offer to a live peer disconnects it exactly when the queue is full and the lag is already `max_lag` |
| `Subscription.NothingEntersAfterDisconnect` | runtime/canon-event-subscribe/src/subscription.rs:222-263 | After disconnection any schedule of whole operations leaves a suffix of the queue, and the flag stays |
| `Subscription.AccessesCompose` | runtime/canon-event-subscribe/src/subscription.rs:222-319 | The single accesses of an offer or a shutdown request, uninterrupted, make up the whole operation |
| `Subscription.Subscriber.constructor` | runtime/canon-event-subscribe/src/subscription.rs:163-177 | A new subscriber has an empty queue, no flag set, and the requested depth and lag bound, brought into 1..65536 and 0..1000000 |
| `Subscription.Subscriber.Enqueue` | runtime/canon-event-subscribe/src/subscription.rs:222-263 | The in-place offer is the offer of the step system; the event is appended exactly if the subscriber is connected, its receiver open and the queue not full, and otherwise the outcome and the lag say why |
| `Subscription.Subscriber.SignalShutdown` | runtime/canon-event-subscribe/src/subscription.rs:293-319 | The in-place shutdown request is that of the step system: a sentinel is appended exactly if there is room for a live peer, and a flag is set even when there is none |
| `Subscription.Subscriber.TryReceive` | runtime/canon-event-subscribe/src/server.rs:980-1010 | Takes the head of the queue; nothing exactly when it is empty |
| `Subscription.Subscriber.MarkDisconnected` | runtime/canon-event-subscribe/src/subscription.rs:192-194 | Sets the disconnect flag and changes nothing else |
| `Subscription.Subscriber.RecordDelivered` | runtime/canon-event-subscribe/src/subscription.rs:333-335 | Only the delivered number changes |
| `Subscription.SubscriberRegistry.Register` | runtime/canon-event-subscribe/src/subscription.rs:415-432 | A fresh subscriber with an unused id is appended; refused exactly when a non-zero cap is reached, with the active count and the cap |
| `Subscription.SubscriberRegistry.Unregister` | runtime/canon-event-subscribe/src/subscription.rs:437-440 | Exactly the subscriber with that id is removed; idempotent |
| `Subscription.SubscriberRegistry.Snapshot` | runtime/canon-event-subscribe/src/subscription.rs:465-470 | The snapshot is the registered subscribers in order |
| `Subscription.SubscriberRegistry.BroadcastToSnapshot` | runtime/canon-event-subscribe/src/subscription.rs:504-526 | Every subscriber of the snapshot is offered the event exactly once, independently of the others, and the summary counts the outcomes |
| `Subscription.SummaryCounts` | runtime/canon-event-subscribe/src/subscription.rs:504-526 | Each count of a broadcast summary is the number of subscribers whose offer ended that way, and they add up to the snapshot |
| `Subscription.SubscriberRegistry.BroadcastShutdown` | runtime/canon-event-subscribe/src/subscription.rs:537-542 | Every registered subscriber is asked to shut down exactly once and ends flagged or disconnected |
| `Tailing.TailFollowsLog` | runtime/canon-event-subscribe/src/tail.rs:362-457 | While the file grows through byte prefixes of a valid log, polls never fail, return the log's payloads in order, and the cursor is the total length of the frames returned |
| `Tailing.PollOfLogPrefix` | runtime/canon-event-subscribe/src/tail.rs:362-457 | One poll of such a file returns the next frame if it is complete and otherwise is pending with the state unchanged |
| `Tailing.TornFramePends` | runtime/canon-event-subscribe/src/tail.rs:362-457 | A frame cut at any byte is pending, never an error |
| `Tailing.SequenceNumbers` | runtime/canon-event-subscribe/src/tail.rs:362-457 | Whatever the file does, the n-th frame returned carries number n until the counter saturates |
| `Tailing.FrameMeansEncoding` | runtime/canon-event-subscribe/src/tail.rs:362-457 | A returned payload's encoding is exactly the bytes the cursor moved over |
| `Tailing.EncodingMeansFrame` | runtime/canon-event-subscribe/src/tail.rs:569-580 | An encoded frame at the cursor is returned as its payload |
| `Tailing.CompleteFrameDecided` | runtime/canon-event-subscribe/src/tail.rs:362-457 | A frame that is completely on disk is returned iff its trailer matches and otherwise reported corrupt, never pending |
| `Tailing.Fnv1a64` | runtime/canon-event-subscribe/src/tail.rs:555-563 | The loop computes the fold of exclusive or and multiplication modulo 2^64 that the next two rows are about |
| `TailIntegrity.OneByteChangesHash` | runtime/canon-event-subscribe/src/tail.rs:555-563 | Changing any single byte of any payload changes its hash |
| `TailIntegrity.HashOfA` | runtime/canon-event-subscribe/src/tail.rs:555-563 | The hash of the letter a is the published FNV-1a value |
| `TailIntegrity.ChangedByteCaught` | runtime/canon-event-subscribe/src/tail.rs:432-446 | A complete frame with one payload byte changed is reported with both trailers |
| `TailIntegrity.HeaderDecides` | runtime/canon-event-subscribe/src/tail.rs:362-425 | A shrunk file is reported, fewer than twelve bytes are awaited, and a header is refused exactly for another magic or a length past the bound; only a frame moves the cursor |
| `TailIntegrity.FrameLayout` | runtime/canon-event-subscribe/src/tail.rs:569-580 | A log frame byte by byte: magic, little-endian length, payload, little-endian hash |
| `Tailing.TailReader.constructor` | runtime/canon-event-subscribe/src/tail.rs:306-322 | A new reader stands at offset 0, number 1, with the smaller of the requested and the hard payload bound |
| `Tailing.TailReader.PollOnce` | runtime/canon-event-subscribe/src/tail.rs:362-457 | The in-place poll is the poll of the step system, and moves the cursor only for a returned frame |
| `SubscribeFrames.ReadExactOrTruncated` | runtime/canon-event-subscribe/src/frame.rs:228-246 | However the reads are fragmented, the buffer is filled and nothing more is consumed, or the exact number of bytes that came is reported |
| `SubscribeFrames.ReadInbound` | runtime/canon-event-subscribe/src/frame.rs:198-221 | The reader's result and the rest of the stream are the decoder's, for every fragmentation and I/O failure |
| `SubscribeFrames.ReadOutbound` | runtime/canon-event-subscribe/src/frame.rs:353-422 | The same for outbound frames |
| `SubscribeFrames.OutboundRoundTrip` | runtime/canon-event-subscribe/src/frame.rs:274-322 | An encoded frame followed by anything decodes to that frame with what follows untouched if its payload is within the reader's bound and the hard one; otherwise its length is reported and the payload left unread |
| `SubscribeFrames.InboundRoundTrip` | runtime/canon-event-subscribe/src/frame.rs:427-436 | The same for the subscribe handshake |
| `SubscribeFrames.OutboundLayout` | runtime/canon-event-subscribe/src/frame.rs:274-322 | Every outbound frame byte by byte: tag 1 to 5, big-endian number, and for events big-endian length and payload |
| `SubscribeFrames.InboundLayout` | runtime/canon-event-subscribe/src/frame.rs:427-436 | The handshake is tag 0 and the big-endian resume point |
| `SubscribeFrames.OversizeRefused` | runtime/canon-event-subscribe/src/frame.rs:274-293 | Exactly the events past the configured or the hard bound do not encode, and the error carries the length and the lower bound |
| `SubscribeFrames.UnknownKindReported` | runtime/canon-event-subscribe/src/frame.rs:353-422 | Exactly the other first bytes are reported as unknown, with nothing after them read |
| `SubscribeFrames.OutboundCanonical` | runtime/canon-event-subscribe/src/frame.rs:353-422 | A decoded frame re-encodes to the bytes it came from, except that the reserved bytes of InvalidRequest may differ |
| `SubscribeFrames.StreamRoundTrip` | runtime/canon-event-subscribe/src/frame.rs:353-422 | A concatenation of encoded frames is read back frame by frame up to whatever follows |
| `SubscribeFrames.CutFrameReported` | runtime/canon-event-subscribe/src/frame.rs:228-246 | A strict prefix of a frame is reported with its exact length and the length expected at that point, an empty one as a clean end, and a broken stream as an I/O error |
| `SubscribeFrames.CutHandshakeReported` | runtime/canon-event-subscribe/src/frame.rs:198-221 | The same for the handshake |
| `SubscribeFrames.CutStreamYieldsPrefix` | runtime/canon-event-subscribe/src/frame.rs:353-422 | A stream cut at any byte yields exactly the frames that came whole, and the error tells a cut between frames from one inside a frame |
| `HostFrames.ReadFrame` | runtime/canon-host/src/frame.rs:138-199 | For every fragmentation and failure the result and the rest of the stream are the decoder's |
| `HostFrames.FrameRoundTrip` | runtime/canon-host/src/frame.rs:244-251 | A frame followed by anything is read back, the rest untouched, iff its length is at least 1 and within both bounds; otherwise it is reported as empty or too long and only the header is consumed |
| `HostFrames.FrameLayout` | runtime/canon-host/src/frame.rs:244-251 | A frame byte by byte: big-endian length, payload; only lengths past 32 bits do not encode |
| `HostFrames.FrameCanonical` | runtime/canon-host/src/frame.rs:138-199 | Whatever is read re-encodes to the bytes it was read from |
| `HostFrames.CutFrameReported` | runtime/canon-host/src/frame.rs:138-199 | A cut frame is reported by the part that is missing and how much of it came, or as the I/O error it was |
| `FixtureFiles.DecodeInvertsEncode` | runtime/canon-cross-stack/src/lib.rs:239-335 | Bytes load as a fixture iff it has a canonical kind and bounded fields and the bytes are its encoding |
| `FixtureFiles.WriteThenLoad` | runtime/canon-cross-stack/src/lib.rs:304-335 | Writing then loading returns the fixture iff its kind is canonical and all its fields are within the bound |
| `FixtureFiles.TornFileRejected` | runtime/canon-cross-stack/src/lib.rs:239-289 | No strict prefix of an accepted file is accepted |
| `FixtureFiles.TagsRoundTrip` | runtime/canon-cross-stack/src/lib.rs:132-154 | Tags survive a round trip; kinds do iff no custom kind reuses a named tag |
| `FixtureFiles.RecordMeansEncoding` | runtime/canon-cross-stack/src/lib.rs:378-442 | A record that is read is within the bound and is encoded by exactly the bytes the cursor moved over |
| `FixtureFiles.ToBytes` | runtime/canon-cross-stack/src/lib.rs:304-335 | The buffer loop writes the specified encoding, or panics exactly when a count or length exceeds 32 bits |
| `FixtureFiles.FromBytes` | runtime/canon-cross-stack/src/lib.rs:239-289 | The cursor loop returns the decoder's result, every error case included |
| `FixtureErrors.FileLayout` | runtime/canon-cross-stack/src/lib.rs:304-335 | A file byte by byte: magic, version 1, the number of the kind, the count, the records |
| `FixtureErrors.RecordLayout` | runtime/canon-cross-stack/src/lib.rs:304-335 | A record byte by byte: each field after its big-endian length |
| `FixtureErrors.HeaderDecides` | runtime/canon-cross-stack/src/lib.rs:239-266 | Exactly which headers are reported as cut, as another file type and as another version |
| `FixtureErrors.CutFileReported` | runtime/canon-cross-stack/src/lib.rs:378-442 | An accepted file cut at any byte is reported by where the cut is: the header, or which part of which record |
| `FixtureErrors.TrailingBytesReported` | runtime/canon-cross-stack/src/lib.rs:284-288 | Bytes after the last record are reported with their number |
| `FixtureErrors.LongFieldReported` | runtime/canon-cross-stack/src/lib.rs:378-442 | A written fixture with a field past the bound is refused at the first one, with its record, field and length |
| `ConnectionLimiter.SlotsAreCounted` | runtime/canon-host/src/listener.rs:126-171 | With stale loads and spurious exchange failures, the counter always equals the number of live slots, exceeds neither the cap nor the hard cap, and never wraps on release |
| `ConnectionLimiter.RefusalMeansFull` | runtime/canon-event-subscribe/src/server.rs:518-546 | A refusal is preceded by a moment of the run when every slot was taken |
| `ConnectionLimiter.FreshRefusalMeansFullThen` | runtime/canon-host/src/listener.rs:135-152 | A refusal rests on one load, or failed exchange, that saw the limit reached and after which the thread looked no further; if that value was the present one, every slot was taken at that moment |
| `ConnectionLimiter.FreshLoadDecides` | runtime/canon-host/src/listener.rs:126-171 | A thread that sees the present value may take a slot iff one is free and is refused iff none is |
| `BenchAccounting.RunAccounting` | runtime/canon-bench/src/runner.rs:538-590 | Whenever `run` returns Ok, each payload index was submitted exactly once, and measured count and merged histogram size are both total - warmup |
| `BenchAccounting.RunTiming` | runtime/canon-bench/src/runner.rs:613-686 | Whenever `run` returns Ok, elapsed is at least every sample and the samples, whose values `BenchLatency.SamplesAreLatencies` fixes, sum to at most worker count times elapsed |
| `BenchAccounting.StepKeepsInv` | runtime/canon-bench/src/runner.rs:599-687 | Every step keeps the accounting of indices, samples, abort reasons and disjoint measurement intervals |
| `BenchLatency.SamplesAreLatencies` | runtime/canon-bench/src/runner.rs:648-670 | Whenever `run` returns Ok, the merged samples are, one for each index past the warmup and none for any other, the time, saturated at 64 bits, from the state of the run in which some worker read the clock and submitted that index to the state in which it read the clock after that submission had succeeded |
| `BenchLatency.ElapsedIsExact` | runtime/canon-bench/src/runner.rs:569-585 | The elapsed time runs exactly from the clock reading at the first measured index to the completion of the request that completed last |
| `BenchLatency.VerdictFits` | runtime/canon-bench/src/runner.rs:500-590 | `run` returns exactly the verdict that fits the configuration and the workers: no workers, nothing past the warmup, a failed spawn and which, else a panic before a failed submission before Ok |
| `BenchLatency.FirstErrorIsFirst` | runtime/canon-bench/src/runner.rs:672-680 | The reported submission error is the first one that was recorded |
| `BenchLatency.FailureAborts` | runtime/canon-bench/src/runner.rs:672-686 | A failed submission or spawn raises the abort flag |
| `BenchLatency.AbortIsPrompt` | runtime/canon-bench/src/runner.rs:613-627 | Once the abort flag is up, each worker there is claims at most one more index and later ones none |
| `BenchLatency.FlagSparesTheLock` | runtime/canon-bench/src/runner.rs:630-646 | Once the start has been read its flag is up or about to be raised by the worker that read it, and whoever takes the lock after that was already about to |
| `BenchRunner.Join` | runtime/canon-bench/src/runner.rs:538-590 | The join loop returns the panic, the first error, or the merged samples with the span from the start to the latest completion |
| `Histograms.PercentileMeaning` | runtime/canon-bench/src/histogram.rs:191-213 | For samples in any order and 0 < num <= den, v is returned iff v is a sample with den·#{x <= v} >= num·n and den·#{x < v} < num·n |
| `Histograms.PercentilesOrdered` | runtime/canon-bench/src/histogram.rs:191-213 | A larger fraction never gives a smaller percentile, and all lie between the extremes |
| `Histograms.PercentileEnds` | runtime/canon-bench/src/histogram.rs:191-213 | No samples give 0, fraction 0 the least sample, fractions from 1 on the greatest |
| `Histograms.SummaryDependsOnMultiset` | runtime/canon-bench/src/histogram.rs:130-173 | The summary depends only on the multiset of samples, not on insertion or merge order |
| `Histograms.SummaryOrdered` | runtime/canon-bench/src/histogram.rs:130-173 | min <= p50 <= p90 <= p99 <= p999 <= max, and the variance is never negative |
| `Histograms.SummaryDescribes` | runtime/canon-bench/src/histogram.rs:130-173 | Every field of a summary is what it is named for, of the samples in any order: count, least, greatest, the 50/100, 90/100, 99/100 and 999/1000 percentiles, mean times count the sum, variance times count the squared deviations from the mean |
| `Histograms.DescribedOnce` | runtime/canon-bench/src/histogram.rs:130-173 | Only one summary has those properties |
| `Histograms.Welford` | runtime/canon-bench/src/histogram.rs:148-160 | Over exact reals the one-pass loop ends with mean·n the sum and m2 the sum of squared deviations from the final mean |
| `Histograms.Histogram.Record` | runtime/canon-bench/src/histogram.rs:88-91 | Appends the duration saturated at 64 bits |
| `Histograms.Histogram.RecordNs` | runtime/canon-bench/src/histogram.rs:94-96 | Appends the sample |
| `Histograms.Histogram.Merge` | runtime/canon-bench/src/histogram.rs:100-102 | Appends the other histogram's samples |
| `Histograms.Histogram.Summarise` | runtime/canon-bench/src/histogram.rs:130-173 | Leaves the samples sorted and returns the summary that describes them as recorded |

## Left out

Of the modelled parts:

- Threads of server.rs and runner.rs: modelled as steps on values, not as methods updating shared objects; the shared objects themselves are the classes above.
- Steps that group accesses: a send and the lag update after it (the lag has one writer, and nothing another thread does depends on it); a failed write or probe and the disconnect mark after it; the loads of the stop flag, which is never cleared, and of the shutdown flag before dispatch; leaving the registry and dropping the receiver right after.
- Memory ordering: atomics are sequentially consistent in the server and the benchmark; the limiter allows stale reads.
- Sequence numbers: a run reads fewer than 2^64 - 1 log frames, because the counter saturates there.
- Frame writes: a write succeeds or fails as a whole; a partly written frame at the end of a connection is covered by `EndToEnd.ClientDecodesHistory`, which cuts the bytes anywhere.
- I/O errors of a reader: modelled as a stream that fails after its last byte; a retry after an error is not.
- The log file: only grows in the step system; a shrinking file is modelled in `Tailing.Poll` only.
- A panicking extractor: treated like a failed extraction, which halts the server.
- The channel's disconnected branch in the dispatch loop: cannot be taken, since the thread itself holds the sending end.
- 32-bit hosts: `usize` conversions of 32-bit lengths in the fixture loader never fail, so its overflow errors do not occur.
- Histograms.Histogram.Summarise: states the variance and not its square root, the standard deviation, because mean and variance are exact reals here; f64 rounding is not modelled.
- `sort_unstable`: stands for any sorting; `Histograms.Sort` is an insertion sort proved to be the one sorted arrangement.

Of the repository:

- Sockets, timeouts, connection probing, thread spawning and bounded joins: operating-system behaviour.
- `TailReader::open` and `reopen` with their symlink and inode checks: filesystem policy.
- The event extractor subprocess: an arbitrary, possibly failing function of frame number and payload.
- Command-line parsing, logging, exit codes and path handling: would add only easy members.
- `canon-host` admission and its connection handler, and the kernel behind it.
- Benchmark reports, server glue and fixture generation.
- The keccak and signature shims, the Lean and Solidity layers, the L1 ingestor and the fault-proof observer.
