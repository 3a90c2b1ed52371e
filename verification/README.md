# Verification models of reolink_battery

The integration drives a sleeping battery camera. Android alarms enter a
persistent queue; a serialized worker opens short camera sessions for them; a UDP
stream is reassembled into a verified MP4; a Live View hub competes for the same
camera. This project models these components in Dafny and proves what they keep
over every input, every run and every interleaving.

`dafny verify dfyconfig.toml` checks everything.

## Components

| files | component |
|---|---|
| `Basics.dfy` | options, bytes, little- and big-endian fields, byte search |
| `RollingParser.dfy`, `ParserTheorems.dfy`, `Framing.dfy` | the rolling BcMedia parser: its class, chunk invariance, residual bound; a sender it undoes, and the proof that it accepts nothing else |
| `Events.dfy`, `QueueTheorems.dfy`, `QueueOrder.dfy`, `QueueLoad.dfy` | the event queue: its class, its invariant, the dedupe window, save and load; what leaves it and in which order, across restarts too; loads of any stored value |
| `ReadyEvents.dfy` | completion, saving and publishing over restarts |
| `RecordingWorker.dfy` | the pieces of the worker that run between two awaits |
| `WorkerMachine.dfy`, `WorkerSafety.dfy`, `MarkTheorems.dfy`, `SweepTheorems.dfy`, `RecoveryTheorems.dfy` | these pieces interleaved with everything that can happen at an await; what no run violates; the exact marks; what one sweep defers; what a manual recovery can promise |
| `WorkerProgress.dfy`, `RetryTheorems.dfy`, `PreemptionTheorems.dfy` | how much work a run can do at most; what a selected event is given at least; what becomes of one that yields |
| `StartupMachine.dfy`, `StartupTheorems.dfy` | setup and startup recovery, interleaved likewise; what becomes of the backlog and of promises; sessions from their start |
| `LiveHub.dfy`, `HubTheorems.dfy` | the Live View hub and its protocol with recordings, consumers and the producer task; what starts and stops a session, and who is told |
| `Collector.dfy`, `CollectorTheorems.dfy`, `CollectorLimits.dfy`, `CollectorSessions.dfy` | the download collector, its part file and the final acceptance; offset and limits; whole sessions |
| `UdpAck.dfy`, `UdpNetwork.dfy` | selective acknowledgements, and command delivery over an unreliable network |
| `Candidates.dfy` | choosing the SD recording of an event |
| `NotificationBridge.dfy`, `BridgeHandlers.dfy`, `BridgeTheorems.dfy` | stale-repost promotion and wake permission of Android notifications; handlers as interleaving tasks; what exactly wakes the worker |

Objects whose methods change their fields are classes; each method is proved equal
to a function of the old state, and the theorems are about those functions. The
concurrent parts (worker, hub, saves with restarts, network) are state machines: a
label is one piece of code that runs without an await, or one thing the outside
does, and a run is any sequence of enabled labels.

## Findings

- The first-attempt promise does not survive startup. Setup starts the notification
  bridge (`__init__.py:169`) and has awaits before startup recovery
  (`__init__.py:196`), so an event may be notified, and earn its credit, before the
  recovery looks at the queue; the recovery then defers it without looking at the
  credit (`recording_worker.py:227-238`). The promise survives if and only if the
  event is the newest eligible one (`StartupTheorems.PromiseSurvivesIff`), so of two
  promised events one is always lost; `StartupTheorems.StartupLosesACredit` is a run
  that does it. Once the loop runs, no promise is lost
  (`WorkerSafety.FirstAttemptIsNotLost`).
- The worker reads the clock separately for "defer stale" and for "select"
  (`recording_worker_v138.py:403-404`). What was fresh at the first reading and is
  stale at the second is left neither deferred nor selectable; nothing else is
  (`SweepTheorems.SweepDefersTheStale`, `SweepTheorems.LeftOver`).
- A manual recovery does not always get its events attempted. It marks them in its
  last step, after the saves of its rearms, and counts them all as queued
  (`recording_worker_v138.py:99-115`). The mark holds if and only if the event is
  then not deferred, in no session, not having its marks discarded, and free of a
  pending ingest or clear (`RecoveryTheorems.RecoveryPromiseIff`). In
  `RecoveryTheorems.SweepTakesTheMark` a sweep that is saving a deferral takes the
  mark away (`recording_worker_v138.py:170-173`).
- The dedupe list may hold 612 ids after a load (`events.py:321-324`), not 512;
  the invariant says so.
- The dedupe window ends after 512 further acceptances only for ids that are not
  pending then. An id that is pending when the list drops it stays in the dedupe set
  (`events.py:252-254`) and is rejected until the next load, even after its event is
  gone (`QueueTheorems.AcceptedAgainIff`, `QueueTheorems.AnIdGetsStuck`).
- An empty event source or deferral reason would not survive a save and load
  (`events.py:43-112`); everything else does (`QueueTheorems.RoundTripIsExact`). No
  code path builds such an event or deferral, so the exception cannot arise.
- The packet-size test of the video branch can never reject
  (`live_stream.py:273-275`), and the 8 MiB cap of the media buffer drops nothing
  for chunks of up to 8 MiB less 24 bytes, 64 KiB and 4 MiB.
- A pause of Live View can raise if and only if it is entered while another
  recording waits for an unfinished producer (`HubProtocol.PauseRaisesIff`): that
  wait may time out and cancel the shared task, and the other pause then raises a
  cancellation before its release is armed, so its depth is never returned and Live
  View stays off (`live_http.py:178-185`). The worker, the only caller, never
  enters a pause before its last one has ended.
- The file follows the media unless an accepted cmd13 frame raises the limit after
  media has already been cut at it. Then the part file misses the bytes that were
  cut, and may still be saved: `CollectorSessions.LateRaiseSavesWrongFile` is such a
  session, whose first cmd13 frame names no size. The session stops at a reached
  limit, but looks only every 50 ms, and a repeated cmd13 frame is not excluded by
  the code.
- Only the first "ftyp" of a stream counts
  (`recording_download_probe_beta19.py:122-131`): if that one is no box header, no
  later one is considered and the download is never saved
  (`CollectorSessions.StrayMarkerHidesAll`, `CollectorSessions.StrayMarkerIsNeverSaved`).
- The stale-repost debounce measures from the last update, not from the last
  promotion: a source that is updated more often than every 15 seconds is promoted
  at most once (`NotificationBridge.PromotionNeedsQuiet`).
- Each state change is handled by its own task and writes the debounce memory only
  after its awaits (`notification_bridge.py:343-344`). Beginning a handler can lead
  to a promotion less than 15 seconds after an earlier update of its source if and
  only if the memory, as it is then, lets it promote although there is such an update
  (`BridgeHandlers.TooSoonIff`); without earlier overlap that takes a handler that
  has not ended (`BridgeHandlers.TooSoonNeedsOverlap`). Every run outside that
  condition keeps the 15 seconds (`BridgeHandlers.CarefulRunsKeepQuiet`), and two
  overlapping handlers can have promotions accepted a little more than a millisecond
  apart (`BridgeHandlers.OverlapPromotesTwice`).

## Assumptions

- One clock, in microseconds, serves all readings and never goes back.
- Event ids and fingerprints are digests. Where a theorem needs them to have no
  collisions it says so: `named` (the event an id stands for) in the theorems on
  automatic wakes, and `Injective` in the bridge.
- Saves of the queue are written in the order in which they were requested.
- The receive window of the base library holds what it held before and the packet
  that arrived, and nothing else; nothing more is assumed of it.

## Model

| member | source | states |
|---|---|---|
| RollingParser.EarliestIsFirstMagic | custom_components/reolink_battery/live_stream.py:221-223 | Searching for each of the magics in turn and taking the least result is the first position at which any magic starts, for every buffer. |
| RollingParser.Padding8 | custom_components/reolink_battery/live_stream.py:216-218 | The padding is less than 8 and rounds the payload size up to a multiple of 8. |
| RollingParser.RollingParser.Turn | custom_components/reolink_battery/live_stream.py:234-315 | One turn of the parser loop: buffer, counters, sink calls and whether the loop goes on, for every buffer (resynchronisation, all three packet kinds, all rejections). |
| RollingParser.RollingParser.ParseBuffer | custom_components/reolink_battery/live_stream.py:226-316 | The whole loop leaves the buffer, counters and sink calls that the recursive parse of the buffer defines, and returns the number of packets. |
| RollingParser.RollingParser.ObserveChunk | custom_components/reolink_battery/live_stream.py:524-538 | A chunk is appended, the buffer is capped at 8 MiB from the front and then parsed; an empty chunk does nothing. |
| ParserTheorems.DecisionIsStable | custom_components/reolink_battery/live_stream.py:246-315 | A decision other than "wait" about the head of the buffer is the same however many bytes follow. |
| ParserTheorems.NoiseIsDropped | custom_components/reolink_battery/live_stream.py:235-241 | Bytes in which no magic begins, in front of anything, vanish without changing what is parsed after them. |
| ParserTheorems.StopKeepsEnough | custom_components/reolink_battery/live_stream.py:235-241 | The three kept bytes are enough: a buffer on which the loop stops parses, once more bytes arrive, as what was kept followed by those bytes. |
| ParserTheorems.ParseResumes | custom_components/reolink_battery/live_stream.py:226-316 | Parsing a buffer and later its leftover extended by new bytes emits the same packets and leaves the same leftover as parsing both together, for all byte strings. |
| ParserTheorems.ResidualIsBounded | custom_components/reolink_battery/live_stream.py:226-316 | After every parse the leftover is shorter than 24 bytes + 64 KiB + 4 MiB. |
| ParserTheorems.OversizeTestIsDead | custom_components/reolink_battery/live_stream.py:265-275 | Once payload and additional header passed their own limits, the packet-size test cannot reject. |
| ParserTheorems.ChunksDoNotMatter | custom_components/reolink_battery/live_stream.py:524-538 | Chunk invariance: any split of any stream into chunks that fit between the residual bound and the cap gives the same buffer, counters and sink calls as one parse of the whole stream. |
| Framing.EncodedIsAccepted | custom_components/reolink_battery/live_stream.py:246-313 | The parser accepts every in-range info, H264, H265, AAC and ADPCM packet at its exact length and reads its payload. |
| Framing.AcceptedIsEncoded | custom_components/reolink_battery/live_stream.py:246-313 | The converse: whatever the parser accepts is, byte for byte, an in-range packet of exactly that length, and is read as that packet. |
| Framing.DecideIsExact | custom_components/reolink_battery/live_stream.py:246-315 | Behind a magic the parser accepts if and only if a packet begins there, and with the header present gives up if and only if no continuation makes one begin there; a wait behind a whole header can always end in a packet. |
| Framing.NoiseIsSkipped | custom_components/reolink_battery/live_stream.py:234-315 | Resynchronisation: bytes in which no packet begins, false magics included, make no difference in front of anything; the parser goes on one byte at a time. |
| Framing.EverythingIsRead | custom_components/reolink_battery/live_stream.py:226-316 | Nothing is invented: over every byte string, all that is delivered was read from whole in-range packets lying in it one after the other. |
| Framing.RestIsTheEnd | custom_components/reolink_battery/live_stream.py:226-316 | What a parse leaves in the buffer is the end of the stream. |
| Framing.ParseUndoesFraming | custom_components/reolink_battery/live_stream.py:226-316 | Round trip: the parse of any serialized list of in-range packets, separated by any noise in which no packet begins, false magics included, and with payloads that may contain magics, is exactly those packets in order with an empty leftover. |
| Framing.LiveViewDeliversWhatWasSent | custom_components/reolink_battery/live_stream.py:524-538 | End to end: however the serialized packets are chunked, the connected sinks receive exactly the H264 payloads with frame types and the audio payloads with codecs, in order; a missing sink is never called; both counters count every packet. |
| Framing.NewestBytesAreParsed | custom_components/reolink_battery/live_stream.py:524-538 | When the buffer grows past 8 MiB exactly its newest 8 MiB are parsed; the bytes before them make no difference. |
| Events.EventQueue.EnqueueEvent | custom_components/reolink_battery/events.py:245-258 | New state and result of an enqueue: dedupe, eviction of the oldest listed id unless it is pending, eviction of the oldest pending event together with its deferral. |
| Events.EventQueue.RemoveEvent | custom_components/reolink_battery/events.py:260-264 | New state and result: the event and its deferral go, and the result says whether either existed. |
| Events.EventQueue.DeferEvent | custom_components/reolink_battery/events.py:266-273 | New state and result: only a pending event is deferred, an equal deferral is refused, a different one replaces it in place. |
| Events.EventQueue.RearmEvent | custom_components/reolink_battery/events.py:275-276 | New state and result: only the deferral goes. |
| Events.EventQueue.DiscardDeferredEvents | custom_components/reolink_battery/events.py:278-296 | Exactly the requested events that are pending and deferred are removed, with their deferrals; dedupe history stays. |
| Events.EventQueue.RememberCompleted | custom_components/reolink_battery/events.py:237-243 | A known fingerprint is refused; otherwise the recording is appended and the newest 256 are kept. |
| Events.EventQueue.LoadStorage | custom_components/reolink_battery/events.py:298-347 | The state after loading any stored value: absent parts are kept, malformed items skipped, lists truncated, unknown pending ids appended to the dedupe list, deferrals of missing events dropped. |
| QueueTheorems.ApplyKeepsInv | custom_components/reolink_battery/events.py:237-296 | Every operation keeps: pending ids distinct and at most 100, deferred ids among them, listed and pending ids in the dedupe set, at most 612 listed ids, fingerprints distinct and at most 256. |
| QueueTheorems.RunKeepsInv | custom_components/reolink_battery/events.py:195-296 | The same over every sequence of operations. |
| QueueTheorems.DeferredFitsPending | custom_components/reolink_battery/events.py:335-347 | There are never more deferrals than pending events, so the stored deferrals are never truncated. |
| QueueTheorems.DedupeWindow | custom_components/reolink_battery/events.py:245-258 | An accepted id is rejected again while it is pending and until 512 further ids have been accepted, whatever operations come in between. |
| QueueTheorems.DedupeWindowIsTight | custom_components/reolink_battery/events.py:245-258 | The 512th acceptance behind a non-pending id in a full list makes that id acceptable again: the window is exact. |
| QueueTheorems.AcceptedAgainIff | custom_components/reolink_battery/events.py:251-254 | An id that the full list drops can be accepted again before the next load if and only if its event was not pending when it was dropped; otherwise it is rejected whatever operations follow. |
| QueueTheorems.AnIdGetsStuck | custom_components/reolink_battery/events.py:251-254 | It happens: a run from the empty queue after which nothing is pending and an id is known, not listed and rejected for good. |
| QueueTheorems.LoadAfterSave | custom_components/reolink_battery/events.py:298-360 | Loading what was saved restores pending, completed and deferred parts up to the codec defaults, and the dedupe set as the newest 512 listed ids with the pending ids; the invariant holds again. |
| QueueTheorems.RoundTripIsExact | custom_components/reolink_battery/events.py:34-112 | The three parts come back exactly if and only if no event has an empty source and no deferral an empty reason. |
| QueueOrder.LeavesIff | custom_components/reolink_battery/events.py:245-296 | A pending event leaves the queue if and only if it is removed by its id, discarded while deferred, or the oldest of 100 when one more is accepted. |
| QueueOrder.AcceptedStaysPending | custom_components/reolink_battery/events.py:245-258 | An accepted event stays pending through 99 further acceptances, whatever else happens, unless its own removal is asked for. |
| QueueOrder.DeferredIff | custom_components/reolink_battery/events.py:266-296 | An event that stays pending is deferred afterwards if and only if it was and is not rearmed, or is deferred now, and then with the new reason and time. |
| QueueOrder.ReportsAreExact | custom_components/reolink_battery/events.py:237-276 | Enqueue, remove, defer, rearm and remember each return true if and only if they changed the queue. |
| QueueOrder.RestartedList | custom_components/reolink_battery/events.py:298-324 | The dedupe list after a save and load: its newest 512 entries in order, then the pending ids that are not among them, in the order of their acceptance. |
| QueueOrder.WindowAcrossRestart | custom_components/reolink_battery/events.py:298-351 | A restart does not shorten the dedupe window: an accepted id is rejected until 512 further ids have been accepted, those before and after the save and load together. |
| QueueOrder.KnownAfterRestartIff | custom_components/reolink_battery/events.py:298-351 | An id is known after a save and load if and only if it is pending or among the newest 512 listed. |
| QueueLoad.LoadedLists | custom_components/reolink_battery/events.py:309-334 | Loading any stored value: the pending list becomes the well-formed entries among the newest 100 stored, the completed list those among the newest 256. |
| QueueLoad.LoadedDeferred | custom_components/reolink_battery/events.py:335-347 | A deferral survives a load of any stored value if and only if it is the last well-formed one for its event among the newest 100 and that event is pending. |
| QueueLoad.LoadedIsBounded | custom_components/reolink_battery/events.py:298-324 | After a load of any stored lists: at most 100 pending and 612 listed, the dedupe set is the list, and it knows every pending event. |
| QueueLoad.AbsentPartsStay | custom_components/reolink_battery/events.py:298-347 | A part that is not stored as a list keeps its old value, except the deferrals, which are dropped. |
| ReadyEvents.NextKeepsInv | custom_components/reolink_battery/coordinator.py:139-208 | Every step of ingest, completion, deferral, rearm, clear, save and restart keeps the queue invariant in memory, in the file and in every save under way. |
| ReadyEvents.PushKeepsCovered | custom_components/reolink_battery/events.py:237-243 | A fingerprint leaves the completed list only when 256 different ones stand behind it. |
| ReadyEvents.PublishedIsFollowed | custom_components/reolink_battery/recording_worker.py:531-567 | When a ready event is published its recording is already the newest entry of the list in memory, in the file and in every later save. |
| ReadyEvents.ReadyEventsAreSpaced | custom_components/reolink_battery/recording_download_probe.py:528-539 | Between two ready events with one fingerprint, restarts from saved state included, at least 256 recordings with other, pairwise different fingerprints were completed. |
| ReadyEvents.ReachableWorlds | custom_components/reolink_battery/recording_worker.py:463-567 | Every run from an empty queue stays inside the invariant the spacing theorem asks for. |
| ReadyEvents.PublishedIff | custom_components/reolink_battery/recording_worker.py:531-567 | A new recording can be published, whatever comes in between, if and only if the saves up to its own have been written. |
| ReadyEvents.ChangesAreSaved | custom_components/reolink_battery/coordinator.py:139-208 | Over every run, restarts included: the last save under way is the live queue, or, with none under way, the live queue is what is stored. |
| ReadyEvents.CompletionTakesTheEvent | custom_components/reolink_battery/coordinator.py:139-208 | A completion, new or duplicate, takes its event and its deferral out of the queue and no other event. |
| RecordingWorker.NextOfIsNewest | custom_components/reolink_battery/recording_worker_v138.py:137-155 | The chosen event is the first listed among the newest selectable pending events; there is none only if none is selectable. |
| RecordingWorker.Worker.NextAndroidEvent | custom_components/reolink_battery/recording_worker_v138.py:137-155 | The scan over the pending list returns that event. |
| RecordingWorker.Worker.Notify | custom_components/reolink_battery/recording_worker_v138.py:53-77 | The id is activated and the trigger set; first-attempt credit is added exactly when the pending Android event is not deferred and fresh. |
| RecordingWorker.Worker.FinishManualRecovery | custom_components/reolink_battery/recording_worker_v138.py:105-115 | All requested ids become manual and activated and the trigger is set; no credit is given. |
| RecordingWorker.Worker.Forget | custom_components/reolink_battery/recording_worker_v138.py:130-133 | The ids leave all three sets and nothing else changes. |
| RecordingWorker.Worker.DeferIfStale | custom_components/reolink_battery/recording_worker_v138.py:157-167 | An event is deferred exactly when it is activated, neither manual nor credited, and stale at the given clock reading. |
| RecordingWorker.Worker.ConsumeCredit | custom_components/reolink_battery/recording_worker_v138.py:175-191 | Only the credit of this id is taken, and the result says whether there was one. |
| RecordingWorker.Worker.RetireIfStale | custom_components/reolink_battery/recording_worker.py:212-223 | One turn of the first startup loop: exactly a stale Android event that is not yet deferred is deferred. |
| RecordingWorker.Worker.ChooseCandidate | custom_components/reolink_battery/recording_worker.py:225-226 | The scan returns the first listed among the newest eligible events, and none only if none is eligible. |
| RecordingWorker.Worker.BenchIfUnselected | custom_components/reolink_battery/recording_worker.py:227-238 | One turn of the second startup loop: an event that was eligible and not chosen is deferred. |
| RecordingWorker.Worker.PrepareStartup | custom_components/reolink_battery/recording_worker.py:201-243 | Queue, chosen event and worker sets after startup recovery when nothing else happens at its awaits, for every queue and all previous sets. |
| WorkerMachine.NextKeepsInv | custom_components/reolink_battery/recording_worker_v138.py:53-404 | Every interleaved step keeps the queue invariant, manual and credit ids inside the activated ids, and attempt numbers below three. |
| WorkerMachine.RunKeepsInv | custom_components/reolink_battery/recording_worker_v138.py:336-404 | The same over every run. |
| MarkTheorems.MarksAreExact | custom_components/reolink_battery/recording_worker_v138.py:53-191 | Over every run: an id is activated, manual or credited if and only if what sets that mark came after what takes it: notifications and recoveries, discards and the begin of a first attempt; credit just for a pending, fresh, undeferred Android event. |
| MarkTheorems.TriggerIsExact | custom_components/reolink_battery/recording_worker.py:604-616 | Over every run the trigger is up if and only if a notification or a recovery came after the worker last took it down. |
| MarkTheorems.CompletionsAreNew | custom_components/reolink_battery/recording_worker.py:463-567 | Over every run: a recording that is saved was not among the completed ones and becomes their newest, a duplicate adds none; either way the event leaves the queue and no other does. |
| MarkTheorems.ClearedIff | custom_components/reolink_battery/recording_worker_v138.py:117-135 | A deferred clear takes an event out of the queue if and only if it is an Android event and deferred. |
| WorkerSafety.NotifyPromises | custom_components/reolink_battery/recording_worker_v138.py:53-77 | Notifying an event that is pending, fresh, not deferred and not being attempted makes the first-attempt promise. |
| WorkerSafety.FirstAttemptIsNotLost | custom_components/reolink_battery/recording_worker_v138.py:137-191 | While the loop runs, over every interleaving: until an attempt of the event starts or it leaves the queue, a promised event keeps its credit, is not deferred and stays selectable however old it gets. |
| WorkerSafety.NewlySelectable | custom_components/reolink_battery/recording_worker_v138.py:79-135 | Only an accepted, notified, rearmed or recovered id can become selectable by what happens outside the worker, and it either triggers the worker or is owed a wake. |
| WorkerSafety.ParkingLeavesNothing | custom_components/reolink_battery/recording_worker.py:604-616 | Whenever the worker is parked on a clear trigger, no selectable event is left, except ids whose notify or recovery call has not finished yet. |
| WorkerSafety.AutomaticRunsStayVouched | custom_components/reolink_battery/recording_worker_v138.py:137-173 | In every run without manual recovery each credited id and each event at hand was fresh at one of its own notifications. |
| WorkerSafety.AutomaticWakesWereFresh | custom_components/reolink_battery/recording_worker_v138.py:369-375 | In such a run every session attempt is for an event that was fresh when it was notified. |
| WorkerSafety.DeferralLasts | custom_components/reolink_battery/events.py:266-276 | A deferral holds, and the event is not selectable, until the event leaves the queue or a manual recovery rearms exactly it. |
| SweepTheorems.SweepDefersTheStale | custom_components/reolink_battery/recording_worker_v138.py:157-168 | From the start of any sweep, over everything that comes at its awaits: of the automatic work it finds, it defers exactly what was stale at its one clock reading. |
| SweepTheorems.LeftOver | custom_components/reolink_battery/recording_worker_v138.py:403-404 | From the start of any sweep to the selection after it: automatic work ends stale, neither deferred nor selectable, if and only if it was fresh at the reading of the sweep and stale at that of the selection; the selection does not take it. |
| RecoveryTheorems.RecoveredStaysSelectable | custom_components/reolink_battery/recording_worker_v138.py:137-173 | An event marked by a manual recovery, with nothing under way against it, keeps its mark, is not deferred and stays selectable until an attempt of it starts or it leaves the queue. |
| RecoveryTheorems.RecoveryLifts | custom_components/reolink_battery/recording_worker_v138.py:79-115 | Recovering a deferred Android event that nothing else has under way lifts the deferral, marks the event and pulls the trigger; the event is then selectable. |
| RecoveryTheorems.RecoveryPromiseIff | custom_components/reolink_battery/recording_worker_v138.py:99-115 | At the end of a manual recovery: a marked event stays selectable over every run until its attempt or its departure if and only if it is then not deferred, not in a session, not having its marks discarded, and no ingest or clear is still to come to it. |
| RecoveryTheorems.SweepTakesTheMark | custom_components/reolink_battery/recording_worker_v138.py:157-173 | A run that breaks it: a sweep defers an event, the recovery marks it during that save, the sweep discards the mark; it ends deferred, unmarked and unattempted. |
| WorkerProgress.PreemptionNeedsAWake | custom_components/reolink_battery/recording_worker.py:293-347 | An event is preempted only if some id was woken since its selection. |
| WorkerProgress.SelectionAttempts | custom_components/reolink_battery/recording_worker_v138.py:350-382 | The upper half of the retry policy: one selection makes at most three attempts. The lower half is in RetryTheorems. |
| WorkerProgress.SelectionEnds | custom_components/reolink_battery/recording_worker_v138.py:355-401 | A selection ends with the event completed or deferred, and then not selectable, or preempted by a newer selectable event that was woken since. |
| RetryTheorems.SelectionEndsIff | custom_components/reolink_battery/recording_worker_v138.py:350-401 | A step ends a selection if and only if it completes the event, is its third failure or a recording miss of a manual event older than ten minutes, or finds a newer selectable event in the wait before a retry; so a newer event does preempt and no other failure ends it. |
| RetryTheorems.NewerPreempts | custom_components/reolink_battery/recording_worker.py:293-347 | Every selectable event that is newer than the one at hand is enough for that. |
| RetryTheorems.GivenUpAfterThree | custom_components/reolink_battery/recording_worker_v138.py:350-401 | Over every run: an event that is given up has had three sessions in its selection, unless its last failure was a recording miss of an old manual event. |
| RetryTheorems.FailuresAreRetried | custom_components/reolink_battery/recording_worker_v138.py:350-401 | Over every run of the worker alone in which every session fails otherwise and nothing newer is selectable: the event is retried with the queue left alone until, after the third session and not before, it is deferred as exhausted. |
| RetryTheorems.UnansweredIsTriedThrice | custom_components/reolink_battery/recording_worker_v138.py:350-401 | In such a run from the selection on: the event is pending and undeferred as long as it is retried, and deferred exactly when three sessions have failed. |
| RetryTheorems.AllThreeAreTried | custom_components/reolink_battery/recording_worker_v138.py:350-401 | From every point of such a run the worker alone can go on to the third failure. |
| RetryTheorems.FailureIsTriedAgain | custom_components/reolink_battery/recording_worker_v138.py:350-382 | After a first or second such failure the next session for the same event opens by the wait ending, with the queue as it was. |
| PreemptionTheorems.FreshStaysSelectable | custom_components/reolink_battery/recording_worker_v138.py:137-173 | An activated event with nothing under way against it stays selectable as long as it is fresh, over every run, until an attempt of it starts or it leaves the queue. |
| PreemptionTheorems.YieldedComesBack | custom_components/reolink_battery/recording_worker.py:293-347 | An event that yields to a newer one in its wait is not lost: while it is fresh it stays selectable until it is attempted again. |
| WorkerProgress.BudgetStep | custom_components/reolink_battery/recording_worker_v138.py:336-404 | One step spends at least the attempt it makes, and gains at most six attempts for each id it wakes. |
| WorkerProgress.FuelStep | custom_components/reolink_battery/recording_worker_v138.py:336-404 | One step of the worker lowers the step potential; only wake-ups raise it. |
| WorkerProgress.AttemptsAreBounded | custom_components/reolink_battery/recording_worker_v138.py:336-404 | Over every run: attempts made plus attempts still owed grow by at most six for each wake-up. |
| WorkerProgress.AttemptsFromParked | custom_components/reolink_battery/recording_worker_v138.py:336-404 | From a parked worker: at most three attempts for each selectable event and six for each wake-up. |
| WorkerProgress.StepsAreBounded | custom_components/reolink_battery/recording_worker_v138.py:336-404 | Over every run the number of worker steps is bounded by the potential at the start and the wake-ups. |
| WorkerProgress.Move | custom_components/reolink_battery/recording_worker.py:604-616 | Unless it is parked on a clear trigger, the worker has a step it can take. |
| WorkerProgress.DrainingTerminates | custom_components/reolink_battery/recording_worker_v138.py:336-404 | Without wake-ups every run takes at most the potential at its start in worker steps, and where the worker cannot take another step it is parked on a clear trigger with nothing selectable but what is still owed a wake. |
| WorkerProgress.WorkerCanDrain | custom_components/reolink_battery/recording_worker.py:604-616 | From every world the worker alone gets there, within that many steps. |
| StartupMachine.HappensKeepsInv | custom_components/reolink_battery/recording_worker.py:201-243 | Every step of setup, of startup recovery and of what comes at their awaits keeps the queue invariant and the nesting of the id sets. |
| StartupMachine.UndisturbedRecovery | custom_components/reolink_battery/recording_worker.py:201-243 | From every world of setup the recovery can run undisturbed, and then does to queue and sets what PrepareStartup does. |
| StartupTheorems.StartupKeepsOnlyTheNewest | custom_components/reolink_battery/recording_worker.py:201-243 | Whatever comes at the awaits: every Android event pending before the recovery that stays pending and is not rearmed is deferred at its end, unless it is the newest eligible one. |
| StartupTheorems.PromiseSurvivesIff | custom_components/reolink_battery/recording_worker.py:225-238 | An event promised a first attempt before the recovery is promised it after if and only if it is the newest eligible event when the recovery chooses; otherwise it ends deferred and not selectable. |
| StartupTheorems.UndisturbedPromiseIff | custom_components/reolink_battery/recording_worker.py:201-243 | Read off the queue before an undisturbed recovery: the promise survives if and only if that queue makes the event the candidate. |
| StartupTheorems.OnePromiseSurvives | custom_components/reolink_battery/recording_worker.py:225-238 | Of two events promised before the recovery at most one is promised after it. |
| StartupTheorems.StartupLosesACredit | custom_components/reolink_battery/__init__.py:169-196 | Two events that arrive between the start of the bridge and startup recovery and are notified while fresh: there is a run after which the older one is deferred with its credit unused. |
| StartupTheorems.RunsFromStartup | custom_components/reolink_battery/__init__.py:139-201 | Over every session from the creation of the worker, every saved queue and whatever comes at the awaits of setup and recovery: at most three attempts, three for each wake-up before the loop and six for each after; no parking on selectable work; without manual recovery only events fresh at notification are attempted. |
| LiveHub.LiveViewHub.SubscribeConsumer | custom_components/reolink_battery/live_http.py:132-144 | New hub state: the consumer is added, and a producer with a new stop event is made exactly when no recording has priority and none is alive. |
| LiveHub.LiveViewHub.UnsubscribeConsumer | custom_components/reolink_battery/live_http.py:146-151 | New hub state: the consumer goes, and the last one signals the stop event; what that means over runs is HubTheorems.SessionStoppedIff and HubTheorems.NobodyWatchesNobodyStreams. |
| LiveHub.LiveViewHub.PauseForRecording | custom_components/reolink_battery/live_http.py:169-176 | New hub state: depth one deeper, a live producer is told to stop, and the task to await is returned. |
| LiveHub.LiveViewHub.ResumeAfterRecording | custom_components/reolink_battery/live_http.py:187-198 | New hub state: depth one shallower but not below zero, and a producer is made exactly when that reaches zero with consumers and no live producer. |
| LiveHub.LiveViewHub.Finish | custom_components/reolink_battery/live_http.py:262-274 | New hub state: the final None is offered to all consumers only when no recording has priority; task and stop event are cleared. |
| HubProtocol.NextKeepsInv | custom_components/reolink_battery/live_http.py:132-274 | Every guard-atomic step of consumers, recordings and producers keeps the hub invariant, cancellation of a task in any phase included. |
| HubProtocol.HubArbitration | custom_components/reolink_battery/live_http.py:132-274 | At every point of every run: at most one unfinished producer, depth equal to the outstanding pauses, no producer alive once a pause has returned, a producer alive during a pause told to stop, and without pauses no consumer without a producer or an offered None. |
| HubProtocol.PausedHubIsStill | custom_components/reolink_battery/live_http.py:153-198 | No step makes a producer or offers a None, not even a second one to the same consumer, while a pause is outstanding. |
| HubProtocol.RecordingBracket | custom_components/reolink_battery/live_http.py:153-198 | From a pause to its release no producer is made and no None offered, whatever other consumers and recordings do; consumer sets change only by subscribing and unsubscribing. |
| HubProtocol.LastReleaseRestarts | custom_components/reolink_battery/live_http.py:187-198 | The last release with consumers present leaves a live producer whose stop event is not set, and the same consumers. |
| HubTheorems.ViewersAreExact | custom_components/reolink_battery/live_http.py:132-151 | Over every run the consumers of each kind are exactly those that joined as that kind and have not left it; no recording, session or overflow drops one. |
| HubTheorems.SessionStoppedIff | custom_components/reolink_battery/live_http.py:146-213 | Over every run from the idle hub: the stop event of an unfinished session is set if and only if, since the session was made, a recording paused, a queue overflowed or the last consumer left. |
| HubTheorems.NobodyWatchesNobodyStreams | custom_components/reolink_battery/live_http.py:146-151 | At every point of every run from the idle hub, an unfinished session that nobody watches has been told to stop. |
| HubTheorems.StartsIff | custom_components/reolink_battery/live_http.py:132-198 | A step makes a session if and only if it is a joining or a release after which somebody watches, no recording has priority, and no session was unfinished. |
| HubTheorems.BegunSessionStreams | custom_components/reolink_battery/live_http.py:217-251 | A session that is taken up streams on its own stop event, which no other session shares. |
| HubTheorems.OffersAreCounted | custom_components/reolink_battery/live_http.py:262-274 | Over every run each consumer is offered the final None exactly once for every session that ends, with no recording about, while it is subscribed. |
| HubTheorems.OnlyBegunSessionsCleanUp | custom_components/reolink_battery/live_http.py:217-274 | Over every run a session streams or cleans up only if it was taken up; one cancelled before that vanishes without its cleanup. |
| HubTheorems.EndedSessionsLetGo | custom_components/reolink_battery/live_http.py:262-274 | Over every run the hub never names a session that has ended by itself. |
| HubTheorems.TimeOutEnds | custom_components/reolink_battery/live_http.py:178-184 | The cancel after the eight seconds sends a streaming session to its cleanup and ends any other at once; then no session is unfinished. |
| HubTheorems.WaitingPauseCanReturn | custom_components/reolink_battery/live_http.py:178-185 | No pause that keeps the guard can be stuck: the session it waits for can end by at most two steps of its own, and then the pause returns with no session unfinished. |
| HubProtocol.GuardedPausesReturn | custom_components/reolink_battery/live_http.py:153-198 | In every run in which each pause is entered while nobody waits for an unfinished producer, no pause raises; pausing while another recording holds the camera is allowed. |
| HubProtocol.EntryCanBreak | custom_components/reolink_battery/live_http.py:178-185 | A pause entered while somebody waits, before or after that wait has timed out, has a continuation in which it raises and its depth stays. |
| HubProtocol.PauseRaisesIff | custom_components/reolink_battery/live_http.py:153-198 | The two meet: after any run that kept the guard, entering one more pause can make a pause raise if and only if somebody waits for an unfinished producer. |
| HubProtocol.NestedPauseCanBreak | custom_components/reolink_battery/live_http.py:178-185 | A concrete run from the idle hub that does so. |
| Collector.CollectorConnection.CollectChunk | custom_components/reolink_battery/recording_download_probe_beta19.py:202-222 | Aggregate cut at the limit, offset, collected count and the two size flags after one media chunk. |
| Collector.CollectorConnection.ApplyReportedSize | custom_components/reolink_battery/recording_download_beta22.py:238-258 | The three limits only rise, to what the reported size asks for; a missing size changes nothing. |
| Collector.CollectorConnection.PersistNewBytes | custom_components/reolink_battery/recording_download_beta22.py:220-236 | Exactly the bytes of the aggregate that are behind the offset and not yet written are appended to the part file. |
| Collector.CollectorConnection.ObserveFrame | custom_components/reolink_battery/recording_download_beta22.py:260-265 | State after one frame of either command with any response code, in the order of the inherited observers; media is what an accepted cmd8 frame carries that is not XML. |
| Collector.CollectorConnection.FinalizeFile | custom_components/reolink_battery/recording_download_beta22.py:283-330 | With the aggregate already cleared, the verdict and the final file content. |
| CollectorTheorems.OffsetIsStable | custom_components/reolink_battery/recording_download_probe_beta19.py:122-131 | Once an offset is found it is the same for every continuation of the stream. |
| CollectorTheorems.ObserveFollows | custom_components/reolink_battery/recording_download_beta22.py:260-265 | One frame keeps the part file equal to the media so far, cut at the limit, from the MP4 offset on, unless it raises the limit after bytes were cut. |
| CollectorTheorems.FileFollowsMedia | custom_components/reolink_battery/recording_download_beta22.py:220-236 | The same over every frame sequence without such a late raise. |
| CollectorTheorems.LateRaiseBreaks | custom_components/reolink_battery/recording_download_beta22.py:238-258 | The condition is exact: after any late raise there is a next chunk after which the aggregate is no prefix of the media and, with the offset known, the part file is no slice of it; if the raise reports one byte more than the file has, that file is accepted. |
| CollectorTheorems.OrderlyIsNeverLate | custom_components/reolink_battery/recording_download_probe_beta21.py:236-275 | A session in which no accepted cmd13 frame follows the first media chunk never raises late. |
| CollectorTheorems.HeadIsValid | custom_components/reolink_battery/recording_download_beta22.py:138-142 | What begins at a found offset passes the final head check. |
| CollectorTheorems.SavedFileIsTheSlice | custom_components/reolink_battery/recording_download_beta22.py:283-330 | A file is saved if and only if the size was last seen reached exactly and the part file has it; then it is the reported-size slice of the media from the MP4 offset on. |
| CollectorTheorems.BoundariesDoNotMatter | custom_components/reolink_battery/recording_download_probe_beta19.py:186-222 | Equal media under equal limits give equal offset and equal file, wherever the frame boundaries were. |
| CollectorTheorems.AcceptanceIsExact | custom_components/reolink_battery/recording_download_beta22.py:283-330 | With the size known before the media, a download is saved if and only if exactly that many bytes were kept from the offset on. |
| CollectorTheorems.LimitsStayInRange | custom_components/reolink_battery/recording_download_beta22.py:32-49 | The aggregate limit lies between 16 and 128 MiB after every frame sequence and every candidate size. |
| CollectorTheorems.AcceptedPrepareMakesRoom | custom_components/reolink_battery/recording_download_beta22.py:238-258 | After an accepted cmd13 with a size, both byte limits leave room for it and 4 MiB more, up to the hard cap. |
| CollectorTheorems.CollectorNeverStopsShort | custom_components/reolink_battery/recording_download_probe_beta21.py:253-265 | For a size up to 124 MiB and an offset up to 4 MiB the session never stops at the aggregate limit, nor at the byte limit while prefix and framing take at most 4 MiB. |
| CollectorLimits.FoundIff | custom_components/reolink_battery/recording_download_probe_beta19.py:122-131 | The offset is a place if and only if the first "ftyp" of all the data stands four bytes behind it and the big-endian size there is 1 or at least 8. |
| CollectorLimits.CountsAreExact | custom_components/reolink_battery/recording_download_probe_beta17.py:290-300 | After every frame sequence: the frames counted, the sum of their body lengths, and the largest size reported. |
| CollectorLimits.GoingOnIsBounded | custom_components/reolink_battery/recording_download_probe_beta17.py:327-334 | Whatever the camera sends, a session that goes on has seen less than 128 MiB of frame bodies in less than 66560 frames. |
| CollectorLimits.FrameLimitNeedsSmallFrames | custom_components/reolink_battery/recording_download_beta22.py:32-49 | The frame limit is the reason to stop only when the frames, 1023 of them aside, carry less than 2 KiB each. |
| CollectorSessions.StrayMarkerHidesAll | custom_components/reolink_battery/recording_download_probe_beta19.py:122-131 | Given the first marker of a stream, no continuation has an offset if and only if that marker sits below position 4 or behind a size field that is neither 1 nor at least 8. |
| CollectorSessions.StrayMarkerExample | custom_components/reolink_battery/recording_download_probe_beta19.py:122-131 | Four stray bytes in front of a sound box hide it, and all later ones. |
| CollectorSessions.StrayMarkerIsNeverSaved | custom_components/reolink_battery/recording_download_beta22.py:283-330 | No download whose media has such a first marker is saved. |
| CollectorSessions.LateRaiseSavesWrongFile | custom_components/reolink_battery/recording_download_beta22.py:238-258 | A session that can be received, from the prepared collector and an accepted cmd13 frame without a size, whose late raise ends in a saved file of the reported size that is not the slice of the media. |
| CollectorSessions.SessionSavesTheSlice | custom_components/reolink_battery/recording_download_beta22.py:332-346 | From the prepared collector and an accepted cmd13 frame with a size, over any data frames: saved if and only if exactly that many bytes are kept from the offset on, and then the file is that slice of the media. |
| CollectorSessions.SessionNeverStopsShort | custom_components/reolink_battery/recording_download_probe_beta21.py:253-265 | At every moment of such a session, with the offset found or not: for a size up to 124 MiB and an offset up to 4 MiB the aggregate limit is not the reason to stop, nor the byte limit while prefix and framing take at most 4 MiB. |
| UdpAck.SendAckNow | custom_components/reolink_battery/recording_download_probe_beta20.py:339-375 | For every receive state the recording transport sends exactly the datagram that Live View sends, or neither sends. |
| UdpAck.LiveSendAck | custom_components/reolink_battery/live_stream.py:398-424 | A datagram goes out exactly with an open transport, a known host and a received sequence number. |
| UdpAck.AckComesBack | custom_components/reolink_battery/recording_download_probe_beta20.py:294-306 | Parsing gives back base and bitmap whatever bytes follow, and nothing to another client. |
| UdpAck.AckIsExact | custom_components/reolink_battery/recording_download_probe_beta20.py:490-500 | A decoded acknowledgement names a sequence number if and only if it is at or below the cumulative number or in the reorder buffer. |
| UdpAck.SentAckIsExact | custom_components/reolink_battery/live_stream.py:398-424 | The same from encoder to decoder over the wire form. |
| UdpAck.CommandTracker.ObserveUdpAck | custom_components/reolink_battery/recording_download_probe_beta20.py:490-507 | Exactly the tracked numbers that are named become acknowledged and stop waiting; the first acknowledgement time stays. |
| UdpAck.SendReliablePacket | custom_components/reolink_battery/recording_download_probe_beta20.py:509-560 | The packet goes out once and then once more for each wait that did not settle, byte-identical, up to the bound; too long or without transport it does not go out. |
| UdpNetwork.SendingStep | custom_components/reolink_battery/recording_download_probe_beta20.py:509-560 | Numbers stay fresh, no packet goes out more than three times, and nothing acknowledged is still waiting. |
| UdpNetwork.FreshAckIsTruthful | custom_components/reolink_battery/recording_download_probe_beta20.py:339-368 | An acknowledgement names exactly the packets delivered when it is sent. |
| UdpNetwork.RunKeepsInv | custom_components/reolink_battery/recording_download_probe_beta20.py:490-560 | Over every run with loss, repetition and reordering in both directions: all acknowledgements under way speak only of delivered packets, and the acknowledged set only grows. |
| UdpNetwork.AcknowledgedMeansDelivered | custom_components/reolink_battery/recording_download_probe_beta20.py:490-560 | Over every run an acknowledged command was delivered byte for byte as sent, went out at most three times, stays acknowledged and is never sent again. |
| UdpNetwork.CommandsAreFollowed | custom_components/reolink_battery/recording_download_probe_beta20.py:509-560 | Over every run a command that is not given up is acknowledged or waiting, and while it has gone out at most twice it can be sent again. |
| UdpNetwork.GivenUpIsNotSentAgain | custom_components/reolink_battery/recording_download_probe_beta20.py:509-560 | Over every run a command that was given up is never sent again. |
| UdpNetwork.OneAckTellsAll | custom_components/reolink_battery/recording_download_probe_beta20.py:490-507 | One acknowledgement that gets through makes the acknowledged set equal to the tracked commands delivered when it was sent. |
| Candidates.SelectRecordingCandidate | custom_components/reolink_battery/recording_probe.py:175-227 | A recording is returned if and only if one entry, the last of its recording, has a moment within the tolerance of the event, and for every other recording some moment nearer than all of that one; a well-formed recording that is returned begins at most the tolerance after the event and ends at most the tolerance before it. |
| Candidates.IntervalDistance | custom_components/reolink_battery/recording_probe.py:147-152 | The distance is attained at a moment of the recording and is at most that of every moment of it; for an interval that ends before it starts, the moment is the start if the event is before it and the end otherwise. |
| Candidates.OrderDoesNotMatter | custom_components/reolink_battery/recording_probe.py:175-227 | Lists of the same recordings, in any order, with repeated or unreadable entries and with or without time zones, give the same recording or none. |
| Candidates.WinnerIsUnique | custom_components/reolink_battery/recording_probe.py:175-227 | Two entries that both qualify are one entry. |
| NotificationBridge.RoundMs | custom_components/reolink_battery/notification_bridge.py:286-288 | Rounding to milliseconds moves a time by at most half a millisecond. |
| NotificationBridge.Bridge.IngestNotification | custom_components/reolink_battery/__init__.py:141-151 | Queue and notified events after one ingest: an accepted event reaches the worker or is deferred at once. |
| NotificationBridge.Bridge.ProcessAttributes | custom_components/reolink_battery/notification_bridge.py:253-347 | Memory, queue and notified events after one update, for every previous memory and every combination of permissions. |
| NotificationBridge.Bridge.HandleStateChange | custom_components/reolink_battery/notification_bridge.py:212-251 | The same for a sensor state change, with the permissions derived from the old and the new state; what that means for the worker is BridgeTheorems.OneChange. |
| NotificationBridge.NotifiedOrDeferred | custom_components/reolink_battery/__init__.py:141-151 | Every accepted event is passed to the worker or is deferred in the queue. |
| NotificationBridge.OneFreshWake | custom_components/reolink_battery/notification_bridge.py:308-333 | One update lets at most one ingest wake the worker; that event is fresh at that moment, and for a stale repost it is the promoted event, never its source. |
| NotificationBridge.PromotionNeedsQuiet | custom_components/reolink_battery/notification_bridge.py:291-298 | Over every chain of changes, a promotion lies at least 15 seconds after every earlier update of its source, promoted or not. |
| NotificationBridge.PromotionsAreSpaced | custom_components/reolink_battery/notification_bridge.py:328-333 | Two promotions of one source in a chain lie at least 15 seconds apart. |
| NotificationBridge.PromotedIdsDiffer | custom_components/reolink_battery/notification_bridge.py:110-126 | No two promotions of a chain get the same id, given that the digest has no collisions. |
| NotificationBridge.NotifiedWasFresh | custom_components/reolink_battery/notification_bridge.py:308-333 | Over every chain, whatever the bridge notified the worker of was fresh when its change was observed. |
| BridgeTheorems.OneChange | custom_components/reolink_battery/notification_bridge.py:212-347 | Exactly what one change wakes the worker for, over every queue and memory: its notification if new, at most ten minutes old and not a repost of at least five minutes (less half a millisecond); its promotion if it is such a repost, not seen in the last 15 seconds and of an unknown name. A new notification is pending afterwards, and deferred if and only if it may not wake. |
| BridgeTheorems.PromotedIff | custom_components/reolink_battery/notification_bridge.py:291-333 | In a chain a change is promoted if and only if it is such a repost and the change before it lies at least 15 seconds back. |
| BridgeTheorems.MemoryIsTheLastShown | custom_components/reolink_battery/notification_bridge.py:343-344 | After a chain the memory holds the last notification shown and its time, promoted or not. |
| BridgeTheorems.FirstShowingWakes | custom_components/reolink_battery/notification_bridge.py:212-347 | Over every chain: a notification shown for the first time, at most ten minutes old and with an id unknown to the queue, is handed to the worker, pending and undeferred, whatever came before and comes after. |
| BridgeTheorems.WokenFor | custom_components/reolink_battery/notification_bridge.py:308-333 | And nothing else is: over every chain each event the worker is woken for is a notification that could wake when observed or the promotion of a late repost. |
| BridgeHandlers.RunsStayInOrder | custom_components/reolink_battery/notification_bridge.py:291-347 | Over every run of handler tasks that do not overlap, each handler reads the memory the changes before it leave, and each promotion the queue accepted is one they call for. |
| BridgeTheorems.SettleIsExact | custom_components/reolink_battery/__init__.py:141-151 | The end of an ingest in a handler: the worker is notified if and only if the source was accepted and may wake; otherwise an accepted source is deferred. |
| BridgeTheorems.AlarmWakes | custom_components/reolink_battery/notification_bridge.py:243-347 | After any run of handlers and through any other, overlapping or not: a handler that begins with a notification that may wake and is new to the queue has it pending, and has woken the worker for it once it has come past that point. |
| BridgeTheorems.HandlersWakeExactly | custom_components/reolink_battery/notification_bridge.py:243-347 | Over every run of handlers: the worker is woken for nothing but notifications that could wake and promotions of late reposts, and for every accepted promotion whose handler has ended. |
| BridgeHandlers.AcceptedPromotionsNeedQuiet | custom_components/reolink_battery/notification_bridge.py:243-251 | In every such run an accepted promotion lies at least 15 seconds after every earlier update of its source. |
| BridgeHandlers.AcceptedPromotionsAreSpaced | custom_components/reolink_battery/notification_bridge.py:243-251 | In every such run any two accepted promotions of one source lie at least 15 seconds apart. |
| BridgeHandlers.TooSoonIff | custom_components/reolink_battery/notification_bridge.py:291-347 | The exact condition after any run, overlapping or not: beginning the next handler can lead to a promotion less than 15 seconds after an earlier update of its source if and only if the memory as it is lets it promote and there is such an update. |
| BridgeHandlers.TooSoonNeedsOverlap | custom_components/reolink_battery/notification_bridge.py:291-347 | After a run without overlap the condition is that, and that another handler has not ended. |
| BridgeHandlers.CarefulRunsKeepQuiet | custom_components/reolink_battery/notification_bridge.py:291-347 | Over every run whose handlers begin outside the condition, overlapping as they may, each accepted promotion lies at least 15 seconds after every earlier update of its source. |
| BridgeHandlers.HandlerPromotes | custom_components/reolink_battery/notification_bridge.py:318-333 | A handler that finds its source quiet in the memory gets a new promotion accepted, and leaves the memory as it was until its end. |
| BridgeHandlers.OverlapPromotesTwice | custom_components/reolink_battery/notification_bridge.py:243-251 | Two overlapping handlers of one stale source: for any two times more than a millisecond apart there is a run in which the queue accepts both promotions. |

## Left out

- The worker's loop `_process_trigger` as one method: its awaits interleave with
  ingest, notify, recovery and clear, so it is the program counter of
  `WorkerMachine`, and only the pieces between awaits are methods.
- Stopping (`_stopped`, `async_shutdown`, `async_stop`), task cancellation during
  unload, and exceptions that leave the worker's loop.
- Lengths of waits: settle time, retry delays and their fast variant, hub and
  session timeouts. A wait may end at any moment.
- Sockets, asyncio scheduling, HTTP, go2rtc and the session lock: steps in any order.
- AES, XML and login: a download frame arrives with its decoded chunk and the size
  its XML reports, a media chunk arrives decoded.
- The base library's receive window, its sequence counter and its own parsing; the
  largest packet size is a parameter of `UdpAck.SendReliablePacket`.
- A command whose packet is too long uses up a sequence number before it fails.
- The hashes behind ids and fingerprints, and the uniqueness they promise.
- File-system effects beyond the bytes of the part file: directory creation, rename,
  fsync, removal. A frame observer's own exceptions.
- The idle and hard-timeout stops of the session loop, and its stops on response codes.
- Contents of consumer queues: a payload that meets a full queue, the consumers that
  `_fanout` then skips, and a final None that a full queue loses. The hub offers the
  None; it may not arrive.
- How a notification is recognised (package, camera name, channel, text) and its
  post time parsed: the bridge is given the event or nothing.
- Floating-point noise in the rounded processing lag: halves round to even.
- Time zones of stored timestamps: all times are UTC instants except in
  `Candidates`, which compares wall-clock readings as the code does.
- A recording whose size is not a number ends the selection with an exception.
- The paging loop `_list_recordings_file_info` and its telemetry.
- Other ingest paths (cloud poll) beyond the queue operations they perform.
- Telemetry counters, diagnostics, sensors, config flow, older probe builders.
- RecordingWorker.Worker.PrepareStartup: describes startup recovery when nothing else happens at its awaits; StartupMachine has the interleaved form, and StartupMachine.UndisturbedRecovery connects the two.
- WorkerSafety.FirstAttemptIsNotLost: is about the time from the start of the loop; for the time before, see StartupTheorems.PromiseSurvivesIff.
- StartupTheorems.PromiseSurvivesIff: leaves out events that a manual recovery rearms during startup recovery.
- NotificationBridge.PromotionNeedsQuiet: is about changes handled one at a time; BridgeHandlers has the tasks, and BridgeHandlers.TooSoonIff says exactly when overlapping handlers violate it.
