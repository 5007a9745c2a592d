# Vehicle: the decision logic of a licence-plate camera application, in Dafny

The program watches traffic cameras through a GPU pipeline. For every tracked vehicle it reads the licence plate over
several frames, watches for three violations (no helmet, wrong lane, wrong way), and sends events to a message broker
with uploaded pictures. This project models the decision logic under the GPU plumbing and proves what it guarantees.
`dafny verify dfyconfig.toml` checks everything.

## What is modelled

**The emit protocol.** A track carries four independent kinds (PLATE, NO_HELMET, WRONG_LANE, WRONG_WAY), each with a
hit counter, a pushed and a posted flag, and its own retry throttle. The probe thread asks which kinds are ready,
commits them, and puts a job into a queue that drops its oldest job when full; the worker thread publishes the job and
settles what succeeded. `TrackState`, `Recognizer`, `DedupCache` (module `Dedup`) and `Publisher` hold the objects
with their methods, each proved against a function on values. `TrackLifecycle` proves the invariants of a track over
every run, `TrackEvidence` that what a track holds is what was observed, and `EmitGate` what commit, settle and the
readiness question do to each other. `EmitProtocol` is the transition system of probe, queue, worker and wire;
`EmitSafety` and `EmitSteps` carry its invariant through every step and draw the conclusions over whole runs.
`EmitHistory` shows that these steps do to each track nothing but operations of `TrackLifecycle`, so that what was
proved about a track holds in every state of the protocol. `EmitReopen` treats a wrong-way violation that is cleared
while its job is under way. `EmitLimits` shows what the protocol does not promise, with runs from start-up built from
the pieces in `EmitRuns`. `EmitFigures` follows the hit counts of a track from the question to the wire.
`TrackDecisions` and `EmitDecisions` say when a plate becomes final and when a track is deleted, by the events of the
run; `DedupAge` says how long the cache remembers, by the times of the emissions alone.

**Reading plates.** `CharAssembler` turns character boxes into text: greedy overlap removal (`Overlap`), deskew by least
squares, one or two lines, left to right; `SlideInvariance` says exactly when deskewing makes the order independent of a
slant, and `ReadingLayout` states the whole layout in the coordinates of the boxes. `Rules` and `Voting` fuse several
readings position by position and choose among reading lengths; `Selection` says which length wins in terms of the
readings, `PlateTexts` what the rules say about texts.

**Geometry over exact reals.** `Geometry` (segment intersection), `Polygon` (ray casting), `Triangles` (what the ray
test contains), `WrongWay` (regression motion and line crossing), `LeastSquares` (both fits of the program are the best
lines), `LinearSolve`, `PreprocessSolve` and `Homography` (the two Gauss-Jordan solvers of the repository,
the 3x3 inverse, and the inverse warp built on both).

**Sources.** `Pipeline` is the allocator of source ids with its reconcile loop, `Watcher` the level-triggered watcher
that drives it. `PipelineOrder` and `WatcherChanges` say which cameras a list stands for, which get in when there is no
room for all, and when the watcher acts.

**The YOLO plugin.** `YoloSerial` is the byte format of the plugin, `YoloLayout` the place of every field in it,
`YoloOutput` the layout of its output rows and the launch grid that fills it.

`Kinds` and `StableSorting` are shared: the table indexed by event kind, and `std::stable_sort` as a function.

## How to read the model

- Objects whose methods update fields are classes. `View()` is the abstract value, and each method's contract equates
  the new value with a function of the old one. Loops carry invariants that tie them to those functions.
- Every method that the program runs under a lock is one atomic step. A run of the protocol is a list of events, any
  interleaving of probe and worker steps.
- `s.incOf` gives each track that exists an incarnation number, so that "at most once per track" is a statement about
  one vehicle even when the tracker uses an id again.
- `Product` and `Area` name a multiplication, which keeps the proofs linear.

## Assumptions

- Numbers are exact reals; the thresholds are the decimal constants of the program. Nothing is said about rounding.
- The clock is positive and does not go back. `TrackLifecycle`, `TrackEvidence`, `EmitHistory` and the runs of
  `DedupCache` assume it (`Timed`, `TimedRun`); the safety results of `EmitSteps` and `EmitReopen` hold for any times.
  `EmitHistory` in turn needs no assumption on ids.
- `SettlesOwn`: when a job is settled, its track id belongs to the vehicle it was made for, or to none. It is part of
  `Enabled`, hence of `RunsTo`; `CanStep` and `RunsLoosely` do without it. A tracker that gives an id to a new vehicle
  only when no job with that id is open keeps it (`EmitRuns.FreshIdsSuffice`).
- The configuration of a recognizer (reading limit, retry interval, wrong-way timings) does not change on a run, and
  the publisher's thresholds are at least one hit (`Loaded`).

## Findings

Properties that one might expect and that the code does not have, each with an input on which it fails and with the exact
condition under which it holds.

| expected | fails on | condition |
|---|---|---|
| One vehicle event per track | `EmitLimits.VehicleEventTwice` | holds on runs on which every job that comes as far as that send wants PLATE (`EmitSteps.VehicleEventAtMostOnce`); after a first event, a publish adds a second exactly when its job does not, passes, and is sent (`EmitSteps.SecondVehicleEvent`) |
| One WRONG_WAY event per track | `EmitLimits.ClearedWayTwice` | holds on runs on which no question offers the kind while a job for it is open (`EmitReopen.WrongWayAtMostOnce`); a question does exactly when the cache key is gone and the gates are open (`EmitReopen.ReoffersIff`); after a first event, a publish adds a second exactly when its job wants the kind and the event goes out, and only such a question makes that job possible (`EmitReopen.SecondWrongWayEvent`) |
| One violation event per vehicle although ids are used again | `EmitLimits.ReusedIdTwice` | holds when no job is settled on the track of a later vehicle (`EmitSteps.ViolationsPublishedAtMostOnce`); such a settlement breaks the law of one job per kind exactly for the kinds in flight that the old job wanted (`EmitSteps.StaleSettlementBreaks`) |
| Every committed kind is settled in the end | `EmitLimits.OverflowLosesJob`, `EmitLimits.DiscardLosesJob` | a kind is in flight exactly while its job is open or lost (`EmitSteps.InFlightIsOneJob`), and a lost one stays so (`EmitSteps.DroppedKindIsLost`) |
| The cache answers like a log of everything emitted | `Dedup.OneKeyTooMany` | after every call of a run exactly when no live entry was dropped for size (`Dedup.AgreesIff`) |
| A publish that finishes PLATE sends something | `Publisher.ArrivingPermissionIsSilent` | exactly when silent: before the broker answers, `Publisher.SilentPlateBeforeSending`; with its answers, `Publisher.PlateFinishedSilently` |
| A violation and a plate lead to WRONG_WAY | `EmitLimits.SlowSettlingSilences` | exactly inside the window (`EmitHistory.WindowInEveryState`) |
| The reading order of the kept boxes survives vertical slides | `CharAssembler.SteepSlideReorders` | exactly when at most one box, no mean height, x variance above the cutoff, or all centres above one another (`SlideInvariance.SlideInvariantIff`) |
| The overlap pass survives vertical slides | `SlideInvariance.SlideSeparatesBoxes` | holds for plain shifts (`SlideInvariance.ShiftKeepsReading`) and whenever the slide changes no overlap (`SlideInvariance.ReadingSurvives`) |
| Reading a serialized layer gives the layer back | `YoloSerial.LongListIsLost` | exactly when every list size fits (`YoloSerial.RoundTripIff`) |
| After a round of the watcher all wanted cameras are up | `Watcher.WatcherGivesUp` | exactly when all are selected, they fit, and each that is not running under its URI starts (`Watcher.AllWantedUpIff`) |

## Where the code does something else than its documentation

The model follows the code.

- README.md:171 and docs/PIPELINE.md:206 say an event is dropped when its track id or its plate was sent before. The
  code keys the cache by track, plate and kind together (src/business/plate/track.cpp:294-321).
- The comments call the cache first-in first-out with a bounded queue. Forgotten keys stay in the queue and a renewed
  key keeps its old place, so the queue itself has no bound; `Dedup.CacheRefinesLog` states the exact difference.
- A vehicle snapshot is ranked by area first and confidence second (src/business/plate/track.h:45-48).

## Model

| member | source | states |
|---|---|---|
| `EmitSteps.ViolationsPublishedAtMostOnce` | src/business/plate/plate_recognizer.cpp:234-353 | On every run of probe and worker steps from start-up, with queue drops, arbitrary publish failures and deletion of tracks whose jobs are still open, NO_HELMET and WRONG_LANE of a track incarnation reach the wire at most once; so does WRONG_WAY unless it was cleared while in flight |
| `EmitSteps.VehicleEventAtMostOnce` | src/communication/event_publisher.cpp:77-104 | On every run the vehicle event of an incarnation goes out at most once, as long as no job of it that does not want PLATE passes the two questions asked before that send: an image is stored, and no violation is publishable |
| `EmitSteps.SecondVehicleEvent` | src/communication/event_publisher.cpp:77-104 | After a first vehicle event, a publish adds a second one exactly when its job does not want PLATE, passes those two questions, and the send succeeds |
| `EmitSteps.StrayIsNoted` | src/communication/event_publisher.cpp:77-104 | The note kept for that condition is set on a run exactly when some publish of the incarnation broke it |
| `EmitSteps.VehicleEventCondition` | src/communication/event_publisher.cpp:31-122 | A publish adds a vehicle event exactly when an image was stored, the second permission answer finds no publishable violation, and the send succeeds; the wanted kinds do not matter |
| `EmitFigures.JobCarriesFigures` | src/probes/plate_probe.cpp:1230-1359 | From a question that lists a track, over any steps up to its commit: a job is held exactly when the images are there and the entry has a kind to take (WRONG_WAY only with a crop), and it carries the plate, the voted class, and for each wanted violation the hits that the track had at the question, 0 for every other violation |
| `EmitFigures.FiguresReachTheWire` | src/communication/event_publisher.cpp:31-246 | A publish of such a job adds a violation to the wire exactly when the job wants it, its threshold is on and met by those hits, NO_HELMET is for a motorbike, the camera allows the code, a picture is stored, and the broker takes it; the vehicle event exactly when a picture is stored, the later question finds no wanted violation due, and the broker takes it |
| `EmitFigures.QuestionToWire` | src/communication/event_publisher.cpp:124-246 | The two together, for the job of a listed track on a run from start-up: from what the question found to what goes on the wire |
| `EmitFigures.EntryTellsTrack` | src/business/plate/plate_recognizer.cpp:285-314 | An entry of the ready list tells the hits, detail, picture flag and label of each ready kind and nothing of the others |
| `EmitFigures.QueueKeepsOrder` | src/probes/plate_probe.cpp:1421-1463 | Over any run jobs never overtake one another: the queue loses jobs at its front only and gets jobs at its back only, and the worker takes the one at the front |
| `EmitReopen.WrongWayAtMostOnce` | src/business/plate/plate_recognizer.cpp:160-353 | On every run WRONG_WAY of an incarnation is published at most once, also when it is cleared while its job is under way, provided that no question offers it again while a job for it is open |
| `EmitReopen.ReoffersIff` | src/business/plate/plate_recognizer.cpp:252-282 | While a job for it is open, a question offers WRONG_WAY of an emittable track again exactly when the key of the commit is gone from the cache and the gates of the kind are open |
| `EmitReopen.WrongWayAtMostOnceWhileRemembered` | src/business/plate/track.cpp:294-301 | So it is enough that whenever readiness is asked while such a job is open the cache still has its key |
| `EmitReopen.JobsAfterCommit` | src/probes/plate_probe.cpp:1260-1359 | A commit adds an open job for WRONG_WAY exactly when the next entry of the ready list offers it and images and crop are there |
| `EmitReopen.SecondWrongWayEvent` | src/communication/event_publisher.cpp:124-246 | After a first WRONG_WAY event, a publish adds a second one exactly when its job wants the kind and the event goes on the wire; and there is such a job only on a run on which a question offered the kind again while a job for it was open |
| `EmitSteps.SettlementTouches` | src/business/plate/plate_recognizer.cpp:334-353 | A settlement opens exactly the kinds in flight that its job wanted and that are not done, and closes exactly those it wanted that are done, on whatever track has the id now |
| `EmitSteps.StaleSettlementBreaks` | src/business/plate/plate_recognizer.cpp:334-353 | When the job is that of an earlier vehicle, the law of one job per kind in flight breaks for the vehicle that has the id now exactly for the kinds in flight that the old job wanted |
| `EmitRuns.FreshIdsSuffice` | src/business/plate/plate_recognizer.cpp:334-353 | If the tracker gives an id to a new vehicle only when no job with that id is open, every job is settled on its own track or on none |
| `EmitReopen.StepKeepsWay` | src/business/plate/plate_recognizer.cpp:160-353 | Every step keeps the invariant behind that: at most one open job, published at most once, and an entry of the ready list offers the kind only if no job is open and nothing was published |
| `EmitSteps.PublishedIsClosed` | src/business/plate/plate_recognizer.cpp:316-353 | A published kind (PLATE too, without a stray vehicle event) is never ready again while its track lives, at no later time, not even before its job is settled |
| `EmitSteps.PostedNeverReady` | src/business/plate/plate_recognizer.cpp:334-353 | Along every run a posted kind stays posted and never appears in a ready mask again while its track lives |
| `EmitSteps.GoneForGood` | src/business/plate/plate_recognizer.cpp:355-367 | An incarnation of a track that was deleted, or replaced under the same id, never comes back |
| `EmitSteps.InFlightIsOneJob` | src/probes/plate_probe.cpp:1260-1359 | In every reachable state a kind is pushed and not posted exactly when one job, open or lost (dropped by the full queue or taken by a worker without a publisher), holds it; never two |
| `EmitSteps.DroppedKindIsLost` | src/probes/plate_probe.cpp:1421-1438 | A kind whose job was lost is never ready again and, being exclusive, was never published: it stays pushed |
| `EmitSteps.DiscardKeepsInv` | src/probes/plate_probe.cpp:1466-1466 | A worker without a publisher loses the job it has taken; the invariant holds |
| `EmitSteps.DroppedOnlyGrows` | src/probes/plate_probe.cpp:1427-1431 | What was lost stays lost on every continuation of the run |
| `EmitSteps.StepKeepsInv` | src/business/plate/plate_recognizer.cpp:234-367 | Every probe, worker and cleanup step keeps the invariant that ties flags, open jobs, the wire and the probe list together |
| `EmitSteps.RunKeepsInv` | src/probes/plate_probe.cpp:1440-1483 | The invariant holds after every run that starts where it holds |
| `EmitSafety.InitInv` | src/business/plate/plate_recognizer.cpp:31-35 | The invariant holds when the program starts |
| `EmitSafety.ObservedKeepsInv` | src/business/plate/plate_recognizer.cpp:37-125 | Observations and readings, which leave pushed, posted and a chosen plate alone, keep the invariant |
| `EmitProtocol.EmitQueue.Enqueue` | src/probes/plate_probe.cpp:1421-1438 | The queue after an enqueue is the last seven jobs of the old queue plus the new one; the dropped jobs are the oldest, in order |
| `EmitProtocol.EmitQueue.TakeNext` | src/probes/plate_probe.cpp:1457-1463 | Taking a job removes the oldest one, or nothing from an empty queue |
| `EmitLimits.VehicleEventTwice` | src/communication/event_publisher.cpp:77-104 | A run from start-up in which the vehicle event of one track goes on the wire twice: the publisher does not look at what its job wants |
| `EmitLimits.ReusedIdTwice` | src/business/plate/plate_recognizer.cpp:334-353 | A run from start-up in which a job is settled on the track of a later vehicle with its id, and that vehicle has its WRONG_WAY published twice |
| `EmitLimits.ClearedWayTwice` | src/business/plate/plate_recognizer.cpp:160-180 | A run from start-up in which WRONG_WAY of one track is published twice: cleared while its job was under way, hit again after the key of that job had expired |
| `EmitLimits.SlowSettlingSilences` | src/business/plate/plate_recognizer.cpp:252-282 | A run from start-up with a settling time longer than the wait: plate and violation are there in the same frame, and WRONG_WAY is ready in no later frame |
| `EmitLimits.OverflowLosesJob` | src/probes/plate_probe.cpp:1427-1431 | A run from start-up in which the full queue drops the job: its WRONG_WAY stays pushed, unpublished and never ready |
| `EmitLimits.DiscardLosesJob` | src/probes/plate_probe.cpp:1466-1466 | The same when the worker takes the job and has no publisher |
| `EmitGate.CommitMarks` | src/business/plate/plate_recognizer.cpp:316-332 | A commit marks pushed exactly the kinds it takes, all of them wanted, and changes nothing else of the track |
| `EmitGate.CommitRemembers` | src/business/plate/plate_recognizer.cpp:316-332 | A commit adds to the dedup cache keys of committed kinds only |
| `EmitGate.CommitTakes` | src/business/plate/plate_recognizer.cpp:316-332 | A wanted kind is committed unless the cache already had its key when the commit began |
| `EmitGate.SettleFacts` | src/business/plate/plate_recognizer.cpp:334-353 | Settling posts the wanted kinds that are done, unpushes the wanted ones that are not, forgets exactly their keys, and touches nothing else |
| `EmitGate.CommitIsIndependent` | src/business/plate/plate_recognizer.cpp:316-332 | Committing a set of kinds never takes readiness from another kind or another track |
| `EmitGate.SettleIsIndependent` | src/business/plate/plate_recognizer.cpp:334-353 | Settling a set of kinds never takes readiness from another kind or another track |
| `EmitGate.SettleReopens` | src/business/plate/plate_recognizer.cpp:334-353 | After a failed publish is settled, the kind is ready again exactly when its own gates allow: the dedup cache no longer blocks it, in whatever state the settlement finds the recognizer |
| `EmitGate.SettleCloses` | src/business/plate/plate_recognizer.cpp:334-353 | A kind settled as done is never ready again |
| `EmitGate.RetryCycle` | src/business/plate/plate_recognizer.cpp:234-353 | Ask, commit, failed publish, settle: the kind is not ready before the settlement and afterwards ready exactly from the retry interval on, subject to its settling gate |
| `EmitHistory.StepActsOnTracks` | src/business/plate/plate_recognizer.cpp:37-367 | Every step of the protocol does to each track exactly the operations read off its event, at the time of the step; a track that was not there starts from a new one |
| `EmitHistory.RunKeepsLife` | src/probes/plate_probe.cpp:1200-1361 | On every run under a clock that does not go back each live track is the outcome of its creation and of the operations that the events of that run did to it since |
| `EmitHistory.PairedInEveryState` | src/business/plate/track.cpp:89-106 | In every state reachable under a positive clock that does not go back, the pairing time of WRONG_WAY is set exactly when the plate is final and there are hits, and is then the later of the two times |
| `EmitHistory.LifeInEveryState` | src/business/plate/track.cpp:45-156 | After every such run with N > 0 each track has its whole life-cycle invariant for the readings that the events of the run fed to it |
| `EmitHistory.EvidenceInEveryState` | src/business/plate/track.cpp:178-241 | After every such run the evidence of each kind and the class votes of each track are what the events of the run did to it since it was made |
| `EmitHistory.WindowInEveryState` | src/business/plate/plate_recognizer.cpp:160-180 | In every such state with both timings positive, clearing stale hits and then asking yields WRONG_WAY exactly for times from max(final, first hit) plus the settling time until the first hit plus the waiting time, given the other gates |
| `EmitHistory.LatePlateInEveryState` | src/business/plate/plate_recognizer.cpp:160-180 | A plate that becomes final too late for that window means WRONG_WAY is not ready at any later time as things stand |
| `EmitDecisions.DeletedInEveryState` | src/business/plate/track.cpp:167-176 | In every state of a timed run a cleanup deletes a track exactly when its plate is final and nothing that the events of the run observed of it is unsettled, or the vehicle has been out of the zone for more than ten seconds since it last crossed the border, or the track was made more than two minutes ago |
| `EmitDecisions.OfferedWasObserved` | src/business/plate/plate_recognizer.cpp:252-283 | A kind is offered only when the plate is final and, for a violation, the run observed it since it was last cleared and did not settle it since |
| `EmitDecisions.ReadingInEveryState` | src/business/plate/track.cpp:108-156 | In every such state a reading is taken, closes the plate and is reported as closing it exactly as the readings of the run say |
| `EmitDecisions.RefusedPlateIsDropped` | src/business/plate/plate_recognizer.cpp:240-250 | A final plate that the send mode refuses offers nothing, and after the question the next cleanup deletes the track whatever was observed of it |
| `EmitDecisions.RememberedKindIsSettled` | src/business/plate/plate_recognizer.cpp:252-283 | A kind whose key the cache still has is settled by the question instead of being offered |
| `EmitGate.WrongWayWindow` | src/business/plate/plate_recognizer.cpp:252-282 | The window for any recognizer state whose pairing time is right |
| `EmitGate.LatePlateSilencesWrongWay` | src/business/plate/plate_recognizer.cpp:252-282 | and what it excludes, until the violation is cleared and hit again |
| `Recognizer.PlateRecognizer.constructor` | src/business/plate/plate_recognizer.cpp:31-35 | A new recognizer has no tracks, an empty cache and the given configuration |
| `Recognizer.PlateRecognizer.ObserveVehicleAt` | src/business/plate/plate_recognizer.cpp:37-71 | The track map after a sighting is the specified one: track created or updated, zone entry and exit, class votes, finalizing after a missed idle; the answer says whether the plate became final just now |
| `Recognizer.PlateRecognizer.ObserveHelmetAt` | src/business/plate/plate_recognizer.cpp:73-82 | A helmet observation changes only the NO_HELMET state of a known track |
| `Recognizer.PlateRecognizer.ObserveLaneAt` | src/business/plate/plate_recognizer.cpp:84-94 | A lane observation changes only the WRONG_LANE state and label of a known track |
| `Recognizer.PlateRecognizer.ObserveWrongWayAt` | src/business/plate/plate_recognizer.cpp:96-125 | A crossing reported for a known track adds one WRONG_WAY hit with its line, and nothing happens otherwise |
| `Recognizer.PlateRecognizer.AddOcrReadingAt` | src/business/plate/plate_recognizer.cpp:182-199 | A reading is added to the named track only; an unknown track rejects it |
| `Recognizer.PlateRecognizer.MarkSnapshotTaken` | src/business/plate/plate_recognizer.cpp:140-146 | Clears the needs-snapshot flag of one kind of one track |
| `Recognizer.PlateRecognizer.FinalizeMissed` | src/business/plate/plate_recognizer.cpp:201-211 | Every track that is idle out of the zone is finalized, all others are unchanged; the answer is their number |
| `Recognizer.PlateRecognizer.ClearStaleWrongWay` | src/business/plate/plate_recognizer.cpp:160-180 | Exactly the tracks whose WRONG_WAY waited too long have that kind reset; the answer is their number |
| `Recognizer.PlateRecognizer.ReadyMask` | src/business/plate/plate_recognizer.cpp:234-283 | The mask holds exactly the kinds whose gates are open, and the attempt time is written for exactly those |
| `Recognizer.PlateRecognizer.CollectReady` | src/business/plate/plate_recognizer.cpp:285-314 | The list names exactly the tracks with a non-empty mask, once each, with the mask, plate, key, votes and payloads of the track |
| `Recognizer.PlateRecognizer.CommitEmit` | src/business/plate/plate_recognizer.cpp:316-332 | Track flags, dedup cache and answer after a commit equal the specification function |
| `Recognizer.PlateRecognizer.SettleKindsOf` | src/business/plate/plate_recognizer.cpp:334-353 | Track flags and dedup cache after a settlement equal the specification function |
| `Recognizer.PlateRecognizer.CleanupTracks` | src/business/plate/plate_recognizer.cpp:355-367 | Exactly the doomed tracks are erased; the answer is their number |
| `Publisher.EventPublisher.PublishViolationKind` | src/communication/event_publisher.cpp:185-226 | One kind is skipped, sent or left for retry as its threshold, permission and send say; only a sent one is on the wire |
| `Publisher.EventPublisher.PublishViolations` | src/communication/event_publisher.cpp:228-246 | The mask and the events sent over the three violation kinds, in order |
| `Publisher.EventPublisher.PublishPlateEvent` | src/communication/event_publisher.cpp:31-122 | The done mask and the events sent by a whole publish equal the specification, for every oracle answer |
| `Publisher.SentOnce` | src/communication/event_publisher.cpp:31-122 | A publish sends each kind at most once, and exactly when it belongs on the wire |
| `Publisher.SendingOrder` | src/communication/event_publisher.cpp:77-104 | The violations go out first, in a fixed order, and the vehicle event last |
| `Publisher.SilentPlateBeforeSending` | src/communication/event_publisher.cpp:77-104 | Before the broker answers: PLATE can end up done with nothing sent exactly when the later permission answer sees a violation and, in a dry run, the first saw none; it does whatever the broker answers exactly when only the later one sees a violation |
| `Publisher.ArrivingPermissionIsSilent` | src/communication/event_publisher.cpp:77-104 | A concrete publish: the permission arrives between the two questions, so nothing is sent and PLATE is done, whatever the broker answers |
| `Publisher.DoneIffFinished` | src/communication/event_publisher.cpp:31-122 | A kind is in the done mask exactly when it was sent, is not publishable, or (PLATE) is covered by a violation |
| `Publisher.OnlySendFailuresRetry` | src/communication/event_publisher.cpp:124-246 | Once an image is stored, the only violations left for retry are publishable ones whose send failed |
| `Publisher.PlateFinishedSilently` | src/communication/event_publisher.cpp:77-104 | Exactly when PLATE counts as done although nothing at all was sent |
| `TrackLifecycle.TrackRunsAreSound` | src/business/plate/track.cpp:45-156 | On every timed run with a positive reading limit N: the reading count is the number of stored readings, below 2N until the plate is final and never above 2N; each sample score is the (area, confidence) maximum of its key; a paired time exists exactly with a final plate and WRONG_WAY hits and is the later of the two; once final the plate never changes |
| `TrackLifecycle.StepKeepsInv` | src/business/plate/track.cpp:108-156 | Every operation of a track keeps those invariants |
| `TrackLifecycle.FinalIsFrozen` | src/business/plate/track.cpp:89-156 | No operation changes a final plate, its emit form, its snapshot key or the readings behind it |
| `TrackEvidence.EvidenceIsHistory` | src/business/plate/track.cpp:178-241 | After every run of a new track the evidence of each kind is its history: hits count the observations since the last reset, the head count is the largest seen, the label is the first non-empty one, the first-hit time is the time of the first hit, a kind is posted exactly if it was ever posted, and a picture is asked for exactly while a lane or wrong-way violation has none |
| `TrackEvidence.StepKeepsEvidence` | src/business/plate/track.cpp:178-241 | Every operation of a track keeps that correspondence, for every kind |
| `TrackEvidence.VotedClassIsArgmax` | src/business/plate/track.cpp:220-269 | The voted class of a run is the argmax of its class observations by votes, then confidence, then first appearance, and -1 without any |
| `TrackDecisions.ReadingDecides` | src/business/plate/track.cpp:108-156 | A reading is taken exactly while the plate is open, the vehicle in the zone and there are characters. It closes the plate exactly when it is the N-th or a later one and its area does not beat every earlier one by more than a twentieth, or it is the 2N-th; and it is the best snapshot exactly when it is larger (area, then confidence) than every earlier reading of its text |
| `TrackDecisions.AllAfter` | src/business/plate/track.cpp:28-156 | What that lemma needs holds after every timed run of a new track: reading counts, best samples, the log of readings with their largest area, and the zone as the last crossing of its border left it |
| `TrackDecisions.ScoreOfReading` | src/business/plate/track.cpp:127-133 | The score of a reading is its area, not below 0, and the reported confidence, or else the mean over its characters |
| `TrackDecisions.ReadingsAreTaken` | src/business/plate/track.cpp:114-124 | After every run the stored readings are those that were taken, in order and in capitals |
| `TrackDecisions.StampsOfRun` | src/business/plate/track.cpp:125-147 | After every run the log knows the time of the first reading taken and the crop score of the last |
| `TrackDecisions.MissDecides` | src/business/plate/track.cpp:39-49 | On every run a track is closed by its absence exactly when the plate is open, something was read, and the vehicle left the zone more than a second ago |
| `TrackDecisions.DeletionDecides` | src/business/plate/track.cpp:158-176 | The deletion rule in terms of the history of one track |
| `TrackDecisions.PictureOfRun` | src/business/plate/track.cpp:51-87 | On every run the picture is that of the final text if sampled and not blank, else that of the alphabetically first text whose sample is as large as any, among the texts that are not blank if there are any |
| `TrackState.SnapshotKeyIsBest` | src/business/plate/track.cpp:51-87 | The chosen key is the plate when it is sampled and not blank; else a key whose score no eligible key beats, not blank if any non-blank key exists |
| `TrackState.PutSampleLookup` | src/business/plate/track.cpp:130-140 | Storing a sample changes the score of its own key only |
| `TrackState.TrackPlateState.OnEnterPolygon` | src/business/plate/track.cpp:28-32 | Entering sets the zone flags and time and nothing else |
| `TrackState.TrackPlateState.OnLeavePolygon` | src/business/plate/track.cpp:34-37 | Leaving clears the zone flag and sets the time |
| `TrackState.TrackPlateState.TryFinalizeMissed` | src/business/plate/track.cpp:39-43 | A track is finalized by absence exactly when it is outside, idle long enough, not yet final and has readings |
| `TrackState.TrackPlateState.PickBestSnapshotKey` | src/business/plate/track.cpp:51-87 | The stored key equals the specified choice over the samples |
| `TrackState.TrackPlateState.FinalizePlate` | src/business/plate/track.cpp:89-106 | Plate, emit plate, key and time are set from the readings, and WRONG_WAY is paired if it has hits; refused without readings or when final |
| `TrackState.TrackPlateState.AddOcrReading` | src/business/plate/track.cpp:108-156 | Acceptance, stored upper-cased reading, counters, best sample, crop candidate, finalization and status equal the specification |
| `TrackState.TrackPlateState.RecordKindHit` | src/business/plate/track.cpp:178-189 | One hit: counter, detail, first time, snapshot request and label of one kind |
| `TrackState.TrackPlateState.AddHelmetObservation` | src/business/plate/track.cpp:224-231 | A positive head count is one NO_HELMET hit whose detail is the largest count seen |
| `TrackState.TrackPlateState.AddWrongLaneObservation` | src/business/plate/track.cpp:233-235 | One WRONG_LANE hit with its zone |
| `TrackState.TrackPlateState.AddWrongWayObservation` | src/business/plate/track.cpp:237-241 | One WRONG_WAY hit with its line; paired at once if the plate is final |
| `TrackState.TrackPlateState.MarkEveryKindPosted` | src/business/plate/track.cpp:196-201 | All four kinds are pushed and posted |
| `TrackState.TrackPlateState.ResetKind` | src/business/plate/track.cpp:191-194 | One kind and its label are as new, the others unchanged |
| `TrackState.TrackPlateState.CollectActiveKinds` | src/business/plate/track.cpp:203-210 | PLATE is active with a final plate, the others with a hit |
| `TrackState.TrackPlateState.CollectPendingKinds` | src/business/plate/track.cpp:212-218 | The active kinds not yet posted |
| `TrackState.TrackPlateState.CheckForceDelete` | src/business/plate/track.cpp:167-176 | The deletion test by age, idle time and pending kinds |
| `TrackState.TrackPlateState.VoteClass` | src/business/plate/track.cpp:243-269 | The voted class is the argmax of (votes, confidence), -1 without votes |
| `Dedup.CacheRefinesLog` | src/business/plate/track.cpp:279-326 | Over every timed run: the cache answers "already emitted" only if the unbounded log does, and equally so while eviction never fires for size; its size stays within the limit; every remembered key is in the queue; queue length minus size is forgets minus stale pops |
| `Dedup.AgreesIff` | src/business/plate/track.cpp:279-326 | On a timed run cache and log agree after every call exactly when no live entry was ever dropped for size |
| `Dedup.OneKeyTooMany` | src/business/plate/track.cpp:279-292 | The bound is tight: when one key more than the bound is emitted at one time, the first key is gone from the cache although the log still has it |
| `Dedup.ExactWithinCapacity` | src/business/plate/track.cpp:279-326 | If no more different keys are emitted than the cache holds, cache and log always agree |
| `Dedup.FewKeysNeverFire` | src/business/plate/track.cpp:279-292 | With no more different keys than places the size branch of eviction never fires |
| `DedupAge.EmittedIffYoung` | src/business/plate/track.cpp:294-314 | By the times of the accepted emissions alone: on every timed run a key that the cache calls emitted was accepted last at some t, not forgotten since, and now is before t plus the lifetime (with no lifetime: always); as long as no live entry was dropped for size the cache calls exactly these keys emitted |
| `DedupAge.QuietCacheIsIdeal` | src/business/plate/track.cpp:279-326 | As long as no live entry was dropped for size, the cache answers every question like a book of ages that never looks at the cache |
| `Dedup.EvictFacts` | src/business/plate/track.cpp:279-292 | Eviction only removes, restores the bound, and unless its size branch fires removes only expired entries |
| `Dedup.RememberFacts` | src/business/plate/track.cpp:303-314 | Remembering one key leaves every surviving other entry as it was and keeps the bound |
| `Dedup.DedupCache.EvictInPlace` | src/business/plate/track.cpp:279-292 | The in-place loop computes the specified eviction |
| `Dedup.DedupCache.CheckEmitted` | src/business/plate/track.cpp:294-301 | Answers exactly whether an unexpired entry exists |
| `Dedup.DedupCache.RememberInPlace` | src/business/plate/track.cpp:303-314 | Insertion or renewal, then eviction, as specified |
| `Dedup.DedupCache.TryEmit` | src/business/plate/track.cpp:316-321 | Answers and remembers only if the key was not live |
| `Dedup.DedupCache.ForgetInPlace` | src/business/plate/track.cpp:323-326 | Removes the key, leaves its queue entry |
| `Voting.WinnerIsArgmax` | src/business/plate/rules.cpp:96-130 | The winner is the one ballot value that beats every other by votes, then total confidence, then first appearance: an if-and-only-if for every value |
| `Voting.MajorityWins` | src/business/plate/rules.cpp:96-130 | A strict majority wins whatever the confidences |
| `Voting.TallyCorrect` | src/business/plate/rules.cpp:105-120 | The tally lists every value once, in order of first appearance, with its votes and total confidence |
| `Voting.Vote` | src/business/plate/rules.cpp:105-127 | The two scanning loops compute the winner |
| `Rules.FusionIsPositionalArgmax` | src/business/plate/rules.cpp:96-130 | The fused text is, position by position, the argmax over the column, so a strict majority at a position wins there |
| `Rules.Fuse` | src/business/plate/rules.cpp:96-130 | The loop over positions computes the fused text, or the length error |
| `Rules.GroupsPartition` | src/business/plate/rules.cpp:132-145 | The groups are the partition of the non-empty readings by length, each in reading order |
| `Rules.SelectionIsFirstMaximum` | src/business/plate/rules.cpp:132-167 | The selected plate fuses the first group that nothing outranks by (valid, size, mean confidence); a valid plate is selected whenever some group fuses to one |
| `Selection.SelectionIsPreferred` | src/business/plate/rules.cpp:132-167 | The selected plate is the fused text of the one reading length that is preferred to every other length read: valid before invalid, then more readings, then more confidence per character, then the earlier first reading |
| `Selection.GroupsInOrder` | src/business/plate/rules.cpp:134-145 | The groups come in the order in which their lengths were first read |
| `Rules.SelectBest` | src/business/plate/rules.cpp:132-167 | The loops and the stable sort compute the specified plate, empty when there is no reading |
| `Rules.SendModeOneEmitsExactlyValid` | src/business/plate/rules.cpp:169-189 | In mode 1 a normalized plate is sent exactly when the trimmed plate is valid |
| `PlateTexts.SendModes` | src/business/plate/rules.cpp:169-189 | Mode 2 sends everything, mode 1 exactly the valid plates, any other mode nothing |
| `PlateTexts.EmittedFormIsInjective` | src/business/plate/rules.cpp:169-175 | Two plates with the same emitted form have the same trimmed text up to letter case, or neither is a plate; so cache keys of different plates differ |
| `PlateTexts.FusionSpellsWinners` | src/business/plate/rules.cpp:96-130 | Readings with one letter per character fuse to a text of their length whose every letter is the winner of its position |
| `PlateTexts.MatchIffShape` | src/business/plate/rules.cpp:68-76 | A plate matches a style of Ns and Cs exactly when writing N for each digit and C for each letter gives the style |
| `PlateTexts.DigitPrefixIff` | src/business/plate/rules.cpp:17-45 | Two leading digits are refused exactly for the numbers up to 10 and for 44, 45, 46, 87, 91 and 96 |
| `PlateTexts.LetterPrefixIff` | src/business/plate/rules.cpp:17-23 | Two leading letters must be a military prefix in either case; a mixed pair or a shorter text is not refused |
| `PlateTexts.TrimExact` | src/utils/string_utils.cpp:16-21 | Trimming takes the spaces off both ends, all of them |
| `Rules.ReservedWordsInvalid` | src/business/plate/rules.cpp:78-90 | The placeholder texts are never valid plates, under any styles |
| `Rules.ValidIgnoresCase` | src/business/plate/rules.cpp:68-90 | Validity does not depend on letter case |
| `Rules.PrefixOutsideArmy` | src/business/plate/rules.cpp:17-23 | Two letters that start with U or E are never a valid prefix |
| `Geometry.IntersectIffSharedPoint` | src/utils/geometry.cpp:81-108 | The orientation test is true exactly when the two closed segments share a point, for all inputs including touching, collinear and zero-length ones |
| `Polygon.PointInPolygon` | src/utils/geometry.cpp:16-30 | The ray-casting loop computes the parity of straddling edges to the right |
| `Triangles.HitIffPassesRight` | src/utils/geometry.cpp:21-27 | An edge counts exactly when one end is above the point and the other is not, and some point of the edge at the height of the point lies strictly to its right |
| `Triangles.TriangleContains` | src/utils/geometry.cpp:16-30 | A triangle with an area, its corners in either order: every point strictly between the corners is inside and no point outside the closed triangle is |
| `Triangles.QuadrilateralContains` | src/utils/geometry.cpp:16-30 | A quadrilateral contains a point exactly when one of the two triangles of a diagonal does |
| `Polygon.CuttingAlongChord` | src/utils/geometry.cpp:16-30 | Cutting a polygon along any chord between two vertices: a point is inside the whole exactly when it is inside one of the two parts |
| `Polygon.ChordAdditive` | src/utils/geometry.cpp:16-30 | The same for the bare edge parity of closed vertex lists |
| `Polygon.RotationInvariant` | src/utils/geometry.cpp:16-30 | Starting the vertex list elsewhere changes nothing |
| `Polygon.ReversalInvariant` | src/utils/geometry.cpp:16-30 | Reversing the vertex list changes nothing |
| `Polygon.InsideImpliesBoundingBox` | src/utils/geometry.cpp:16-30 | A point inside has vertices on both sides in x and in y, closed below and open above |
| `WrongWay.RegressionVector` | src/utils/geometry.cpp:119-142 | The loops compute the least-squares motion |
| `LeastSquares.MotionIsRegression` | src/utils/geometry.cpp:119-142 | The motion is the step per frame of the one pair of lines over the frame index that leave the least sum of squared errors in x and in y, times the number of steps; every other line leaves more |
| `WrongWay.UniformMotionIsDisplacement` | src/utils/geometry.cpp:119-142 | For uniform motion the regression vector is exactly last minus first |
| `WrongWay.MotionIsTranslationInvariant` | src/utils/geometry.cpp:119-142 | Moving the whole track does not change its motion |
| `WrongWay.MotionHistory.Push` | src/business/violation/wrong_way.cpp:11-16 | The history keeps the last four anchors |
| `WrongWay.MotionHistory.IsStationary` | src/business/violation/wrong_way.cpp:32-57 | Too short, or small net displacement and all anchors near their centroid |
| `WrongWay.MotionHistory.CurrentDirection` | src/business/violation/wrong_way.cpp:24-30 | The motion, or zero when parked, too short or too slow |
| `WrongWay.CentroidWithin` | src/business/violation/wrong_way.cpp:32-57 | A point within a distance of every anchor is within it of their centroid |
| `WrongWay.JitterIsStationary` | src/business/violation/wrong_way.cpp:32-57 | Anchors pairwise within four pixels count as parked and have no direction |
| `WrongWay.StationaryStaysNear` | src/business/violation/wrong_way.cpp:32-57 | Conversely the anchors of a parked vehicle are pairwise within eight pixels, the last within five of the first |
| `WrongWay.SteadyMotionDirection` | src/business/violation/wrong_way.cpp:24-57 | A vehicle in steady motion has the direction last minus first when that is at least six pixels long, and none otherwise |
| `WrongWay.DetectCrossing` | src/business/violation/wrong_way.cpp:91-123 | The reported line is the first one that the move touches with an allowed angle, the rejected one the first touched before it with another angle; with jittering anchors no line is reported for any lines |
| `LinearSolve.SolveIsUniqueSolution` | src/utils/plate_snapshot_warp.cpp:170-190 | When elimination succeeds its result is the one and only solution of the original system |
| `LinearSolve.RefusedIff` | src/utils/plate_snapshot_warp.cpp:175-175 | A system is refused exactly when elimination reaches a column in which every entry from the diagonal down is below the threshold |
| `LinearSolve.ColumnStopsIff` | src/utils/plate_snapshot_warp.cpp:172-175 | One column is refused exactly when all its candidate pivots are below the threshold |
| `LinearSolve.PivotIsUnique` | src/utils/plate_snapshot_warp.cpp:172-174 | There is exactly one first largest entry, and both solvers choose it |
| `LinearSolve.EliminateKeepsSolutions` | src/utils/plate_snapshot_warp.cpp:170-190 | Every column step keeps the set of solutions |
| `LinearSolve.EliminateMakesUnit` | src/utils/plate_snapshot_warp.cpp:170-190 | After n steps the first n columns are unit columns |
| `LinearSolve.EliminateStops` | src/utils/plate_snapshot_warp.cpp:175-175 | A pivot below the threshold at any column means the whole solve fails |
| `LinearSolve.FindPivot` | src/utils/plate_snapshot_warp.cpp:172-174 | No entry at or below the diagonal is larger than the pivot, and every one above the pivot is smaller |
| `LinearSolve.SwapRows` | src/utils/plate_snapshot_warp.cpp:176-179 | Exactly the two rows change places, right-hand side included |
| `LinearSolve.EliminateColumnInPlace` | src/utils/plate_snapshot_warp.cpp:171-190 | One column of the in-place loop is one step of the elimination function; it is refused, with nothing changed, exactly when no candidate pivot reaches the threshold |
| `LinearSolve.SolveInPlace` | src/utils/plate_snapshot_warp.cpp:170-190 | The in-place elimination computes the specified solve |
| `PreprocessSolve.FindPivotIn` | resources/ds/nvdspreprocess_custom_warp_perspective/nvdspreprocess_warp_perspective.cpp:183-187 | Its pivot scan meets the same specification, which has one answer |
| `PreprocessSolve.EliminateColumnIn` | resources/ds/nvdspreprocess_custom_warp_perspective/nvdspreprocess_warp_perspective.cpp:182-203 | One column is the same step, or the same refusal, as in the other solver |
| `PreprocessSolve.Solve8` | resources/ds/nvdspreprocess_custom_warp_perspective/nvdspreprocess_warp_perspective.cpp:174-208 | The second solver, on an augmented array with row swaps from the pivot column only, gives the same answer or the same refusal for every system |
| `Homography.FillSystem` | src/utils/plate_snapshot_warp.cpp:152-168 | The loop over the four pairs fills the 8x8 system |
| `Homography.GetPerspectiveTransform` | src/utils/plate_snapshot_warp.cpp:150-193 | The transform of the snapshot warp |
| `Homography.GetPerspectiveTransformPreprocess` | resources/ds/nvdspreprocess_custom_warp_perspective/nvdspreprocess_warp_perspective.cpp:210-239 | The transform of the preprocessing plugin: equal to the other one for all inputs, refusals included |
| `Homography.TransformIsUnique` | src/utils/plate_snapshot_warp.cpp:150-193 | When the solver accepts, its matrix is the only one with last entry 1 that sends the four source points to the four destination points |
| `Homography.Invert3x3` | src/utils/plate_snapshot_warp.cpp:195-211 | The written matrix is the adjugate over the determinant; nothing is written on refusal |
| `Homography.InverseUndoes` | src/utils/plate_snapshot_warp.cpp:195-211 | The inverse takes the homogeneous image of any point back to the point |
| `Homography.WarpReturnsToKeypoints` | src/utils/plate_snapshot_warp.cpp:361-372 | When both calculations succeed, the inverse warp sends every destination corner exactly to its source keypoint with nonzero W; the corner is sampled exactly unless the keypoint has w of at least the reciprocal threshold |
| `Overlap.IouMeaning` | src/utils/geometry.cpp:52-66 | The ratio is symmetric, in [0, 1], positive exactly when the interiors meet, and 1 exactly for equal boxes of positive size |
| `Overlap.IouIsIntersectionOverUnion` | src/utils/geometry.cpp:52-66 | The common points of two boxes whose interiors meet are a box, and the ratio times the area that the two cover together is the area of that box |
| `Overlap.PoseIouIsIou` | resources/ds/nvdsinfer_custom_impl_Yolo_pose/nvdsparsepose_Yolo.cpp:23-45 | On boxes of non-negative size the pose parser's ratio is the same number |
| `Overlap.KeptIff` | src/probes/char_assembler.cpp:74-80 | A box is kept exactly when no kept box before it hits it |
| `Overlap.GreedyGuarantee` | resources/ds/nvdsinfer_custom_impl_Yolo_pose/nvdsparsepose_Yolo.cpp:57-75 | Survivors do not hit one another; every victim is hit by a survivor of no lower confidence |
| `Overlap.NonMaximumSuppression` | resources/ds/nvdsinfer_custom_impl_Yolo_pose/nvdsparsepose_Yolo.cpp:47-78 | The loops return the survivors of the sorted list and delete the masks of exactly the others |
| `Overlap.SuppressionGuarantee` | resources/ds/nvdsinfer_custom_impl_Yolo_pose/nvdsparsepose_Yolo.cpp:47-78 | Returned instances overlap pairwise by at most the threshold, each deleted one overlaps a returned one of no lower confidence |
| `Overlap.EachMaskOnce` | resources/ds/nvdsinfer_custom_impl_Yolo_pose/nvdsparsepose_Yolo.cpp:47-78 | Every mask is returned or deleted, exactly once |
| `CharAssembler.FitTrend` | src/probes/char_assembler.cpp:24-50 | The two loops compute the least-squares line, flat when the x variance is below the cutoff |
| `LeastSquares.TrendIsBest` | src/probes/char_assembler.cpp:24-50 | Beyond the cutoff the trend is the one line through the centres with the least sum of squared errors |
| `LeastSquares.LevelTrendIsBest` | src/probes/char_assembler.cpp:24-50 | Up to the cutoff it is the one best level line |
| `CharAssembler.DecideLayout` | src/probes/char_assembler.cpp:86-108 | Average height, residual range and the one/two-line decision |
| `CharAssembler.SplitLines` | src/probes/char_assembler.cpp:109-116 | Every kept box goes to the side of the split on which its residual lies |
| `CharAssembler.Dedup` | src/probes/char_assembler.cpp:69-80 | The greedy loop computes the survivors of the list sorted by confidence |
| `CharAssembler.AppendSortedByX` | src/probes/char_assembler.cpp:52-62 | Appends the characters of a line from left to right, texts and confidences in step |
| `CharAssembler.AssemblePlateText` | src/probes/char_assembler.cpp:65-120 | The whole assembly computes the specified reading |
| `CharAssembler.DedupGuarantee` | src/probes/char_assembler.cpp:69-80 | Kept boxes overlap pairwise by at most the threshold; every dropped box overlaps a kept one of no lower confidence; no box is lost or duplicated |
| `CharAssembler.OrderPermutes` | src/probes/char_assembler.cpp:81-120 | Every kept character is read exactly once |
| `CharAssembler.TwoLinePlate` | src/probes/char_assembler.cpp:100-119 | A two-line plate is its top line followed by its bottom line, separated by the split residual, each from left to right, neither empty for a non-negative ratio |
| `ReadingLayout.PlateLayout` | src/probes/char_assembler.cpp:86-119 | In the coordinates of the boxes: two rows are read exactly when some box lies further below the least-squares trend than another by more than the ratio times the mean height; the upper row, read first, holds the boxes above the level half-way between the highest and the lowest; each row runs from left to right |
| `ReadingLayout.ReadTells` | src/probes/char_assembler.cpp:52-62 | The reading tells text and confidence of each box in order and spells the texts one after another |
| `SlideInvariance.SlideInvariantIff` | src/probes/char_assembler.cpp:86-119 | The reading order of the kept boxes survives every vertical slide by c times the centre x plus d exactly when there is at most one box, the mean height is not positive, the x variance is above the cutoff, or all centres have the same x |
| `SlideInvariance.ReadingSurvives` | src/probes/char_assembler.cpp:65-120 | The whole reading survives a slide that changes no overlap and keeps the order of the kept boxes |
| `SlideInvariance.ShiftKeepsReading` | src/probes/char_assembler.cpp:65-120 | A plain vertical shift changes nothing of the whole reading, for any boxes |
| `SlideInvariance.SlideSeparatesBoxes` | src/probes/char_assembler.cpp:69-80 | A concrete pair with enough spread in x that is one character before a steep slide and two after it, because the overlap pass sees other overlaps |
| `CharAssembler.TextIsSlideInvariant` | src/probes/char_assembler.cpp:86-119 | Above the cutoff, or for a level slide, line decision and order of the kept boxes do not change |
| `CharAssembler.SlantedLineIsOneLine` | src/probes/char_assembler.cpp:92-106 | Boxes centred on any slanted line are read as one line from left to right |
| `CharAssembler.SteepSlideReorders` | src/probes/char_assembler.cpp:47-47 | Below the variance cutoff this fails: a concrete pair of boxes is read in another order after sliding |
| `StableSorting.SortPermutes` | src/probes/char_assembler.cpp:70-72 | The stable sort returns a permutation |
| `StableSorting.SortSorts` | src/probes/char_assembler.cpp:70-72 | and it is sorted |
| `StableSorting.SortStable` | src/probes/char_assembler.cpp:70-72 | and elements that tie keep their order |
| `Pipeline.RunsStayConsistent` | src/pipeline/pipeline.cpp:169-327 | On every run of add, remove, update, apply and play/pause, for every outcome of every GStreamer call: free ids and slot ids partition 0..max-1, no two cameras share an id, and the probe is bound to exactly the slots |
| `Pipeline.SlotsAreInjective` | src/pipeline/pipeline.cpp:169-250 | Different cameras have different ids, in range and not free |
| `Pipeline.AllocationSucceeds` | src/pipeline/pipeline.cpp:169-179 | Below capacity an id is always found: the preferred one if free, else the lowest; the "no free id" branch never runs |
| `Pipeline.AddedKeeps` | src/pipeline/pipeline.cpp:181-250 | Adding keeps consistency on all its failure paths |
| `Pipeline.RemovedKeeps` | src/pipeline/pipeline.cpp:252-274 | So does removing |
| `Pipeline.UpdatedKeeps` | src/pipeline/pipeline.cpp:282-300 | So does updating, also when the changed source fails to start |
| `Pipeline.AppliedKeeps` | src/pipeline/pipeline.cpp:302-327 | So does applying a camera list |
| `Pipeline.ReconciledOld` | src/pipeline/pipeline.cpp:282-300 | An updated camera keeps its id with its new URI, and loses its slot exactly when the URI changed and the new source did not start |
| `Pipeline.ReconciledNew` | src/pipeline/pipeline.cpp:181-250 | A new camera gets a slot exactly when there is capacity and its source starts; otherwise nothing changes |
| `Pipeline.ApplyGuarantee` | src/pipeline/pipeline.cpp:302-327 | For every outcome: only wanted cameras remain, each with its new entry; a camera that had a slot keeps its id, and loses the slot exactly when its URI changed and its new source did not start |
| `Pipeline.ApplyFills` | src/pipeline/pipeline.cpp:302-327 | When every source starts, exactly min(max, number of wanted) cameras remain |
| `Pipeline.ApplyExact` | src/pipeline/pipeline.cpp:302-327 | When all wanted cameras fit, a wanted camera has a slot afterwards exactly when it runs already under the same URI or its start succeeds |
| `Pipeline.AllComeIff` | src/pipeline/pipeline.cpp:302-327 | All wanted cameras have a slot afterwards exactly when they fit and each of them runs already under the same URI or starts |
| `Pipeline.ApplyTwice` | src/pipeline/pipeline.cpp:302-327 | After that, applying the same list again changes nothing |
| `PipelineOrder.DesiredIsLast` | src/pipeline/pipeline.cpp:305-309 | A list stands for the last usable entry of each code |
| `PipelineOrder.LowestCodesGetIn` | src/pipeline/pipeline.cpp:302-327 | When every source starts but not all new cameras fit, those that get in have lower codes than those that do not |
| `PipelineOrder.UriIsStable` | src/pipeline/pipeline.cpp:92-96 | A URI stays as it is, a path from the root becomes one, and nothing else does |
| `Pipeline.Sources.Build` | src/pipeline/pipeline.cpp:376-426 | On success the i-th configured source has id i and the pool is consistent |
| `Pipeline.Sources.AllocateSourceId` | src/pipeline/pipeline.cpp:169-179 | The allocated id leaves the free set, nothing else changes |
| `Pipeline.Sources.AddSourceInternal` | src/pipeline/pipeline.cpp:181-250 | Slots, free ids, bindings and answer equal the specification on every path |
| `Pipeline.Sources.RemoveSourceInternal` | src/pipeline/pipeline.cpp:252-274 | Slots, free ids, bindings and answer equal the specification |
| `Pipeline.Sources.UpdateSource` | src/pipeline/pipeline.cpp:282-300 | Same URI: only the entry changes; else remove and add with the old id |
| `Pipeline.Sources.RemoveUnwanted` | src/pipeline/pipeline.cpp:311-315 | Exactly the slots of unwanted cameras go, in any order |
| `Pipeline.Sources.ApplyCameraList` | src/pipeline/pipeline.cpp:302-327 | The whole reconcile loop equals the specification |
| `Watcher.OneRoundSettles` | src/pipeline/watchers.cpp:177-257 | With distinct codes and fixed stream answers one wake-up and one idle call settle the watcher: the next wake-up schedules nothing |
| `Watcher.TwoRoundsSettle` | src/pipeline/watchers.cpp:177-257 | With repeated codes two rounds do |
| `Watcher.PipelineFollows` | src/pipeline/watchers.cpp:226-257 | After a round that found a change, if every source starts, the pipeline holds the selected cameras, as many as fit |
| `Watcher.AllWantedUpIff` | src/pipeline/watchers.cpp:177-257 | After a wake-up that found a change and its idle call every wanted camera is in the pipeline exactly when all are selected, they fit, and each runs already under the same URI or starts |
| `WatcherChanges.WakesIffDifferent` | src/pipeline/watchers.cpp:177-257 | A wake-up schedules the wanted cameras that can run, in the order of their codes, exactly when nothing is pending and they differ as a set of code, URL and id from those applied last |
| `WatcherChanges.AppliedByCode` | src/pipeline/watchers.cpp:215-257 | What is applied last stays in the order of its codes |
| `Watcher.WatcherGivesUp` | src/pipeline/watchers.cpp:226-237 | A concrete watcher and pool: one camera whose source does not start, and after one round the pool is empty and nothing is scheduled any more |
| `Watcher.FailedSourceIsNotRetried` | src/pipeline/watchers.cpp:226-237 | A new camera whose source did not start is recorded as applied: the watcher settles without it and does not try again |
| `Watcher.CameraWatcher.SetDesired` | src/pipeline/watchers.cpp:152-170 | The wanted list becomes the sorted usable cameras unless it is the same set |
| `Watcher.CameraWatcher.FilterReady` | src/pipeline/watchers.cpp:177-213 | Selects the cameras already applied or ready; with distinct codes the warned set is afterwards exactly the ones left out |
| `Watcher.CameraWatcher.ScheduleApply` | src/pipeline/watchers.cpp:215-224 | At most one apply is pending; a second one is refused |
| `Watcher.CameraWatcher.OnWake` | src/pipeline/watchers.cpp:240-257 | A new list is scheduled exactly when it differs and none is pending |
| `Watcher.CameraWatcher.OnApplyIdle` | src/pipeline/watchers.cpp:226-238 | The pipeline gets the pending list, which becomes the last applied one |
| `YoloSerial.RoundTripIff` | resources/ds/nvdsinfer_custom_impl_Yolo/yoloPlugins.cpp:56-170 | Reading what was written gives back every field but the block names exactly when every list size fits its 32-bit counter |
| `YoloSerial.LongListIsLost` | resources/ds/nvdsinfer_custom_impl_Yolo/yoloPlugins.cpp:141-170 | A concrete layer with one anchor too many for the counter: the list comes back empty |
| `YoloSerial.DecodeOfEncode` | resources/ds/nvdsinfer_custom_impl_Yolo/yoloPlugins.cpp:56-170 | For every layer, whatever bytes follow: what comes back is the layer with lists cut to their sizes modulo 2^32 |
| `YoloSerial.SizeIsExact` | resources/ds/nvdsinfer_custom_impl_Yolo/yoloPlugins.cpp:111-139 | The announced size is always enough, and exact when the sizes fit |
| `YoloLayout.LayerLayout` | resources/ds/nvdsinfer_custom_impl_Yolo/yoloPlugins.cpp:141-170 | Where each field of a serialized layer lies, for lists that fit their counters: five words and the two halves of the output size, the number of tensors at byte 24, then the tensors, each with its grid, its anchors after their number and its mask after its number; low byte first throughout |
| `YoloSerial.GetSerializationSize` | resources/ds/nvdsinfer_custom_impl_Yolo/yoloPlugins.cpp:111-139 | The loop computes the announced size |
| `YoloSerial.Serialize` | resources/ds/nvdsinfer_custom_impl_Yolo/yoloPlugins.cpp:141-170 | Writes the encoding from the start of the buffer and no byte beyond it |
| `YoloSerial.Deserialize` | resources/ds/nvdsinfer_custom_impl_Yolo/yoloPlugins.cpp:56-92 | The moving read pointer computes the decoding, given enough bytes |
| `YoloOutput.CellOfRow` | resources/ds/nvdsinfer_custom_impl_Yolo/yoloForward.cu:24-58 | The row of a valid cell lies below the output size and the cell can be recovered from it |
| `YoloOutput.CellOf` | resources/ds/nvdsinfer_custom_impl_Yolo/yoloForward.cu:48-58 | Every row below the output size belongs to a valid cell |
| `YoloOutput.RowsAreInjective` | resources/ds/nvdsinfer_custom_impl_Yolo/yoloForward.cu:48-58 | Different cells write different rows |
| `YoloOutput.RowsAreInOrder` | resources/ds/nvdsinfer_custom_impl_Yolo/yoloForward.cu:48-58 | Rows follow the order of tensors, boxes, grid rows and cells; with the bijection this fixes every row |
| `YoloOutput.OneThreadPerCell` | resources/ds/nvdsinfer_custom_impl_Yolo/yoloForward.cu:71-73 | The launch grid holds exactly one thread for each valid cell |
| `YoloOutput.OutputIsComplete` | resources/ds/nvdsinfer_custom_impl_Yolo/yoloForward.cu:14-58 | In whatever order the threads run, every row ends with the value of its own cell |
| `YoloOutput.BestClass` | resources/ds/nvdsinfer_custom_impl_Yolo/yoloForward.cu:39-46 | The first class of largest positive probability, or none |
| `YoloOutput.TensorOffsets` | resources/ds/nvdsinfer_custom_impl_Yolo/yoloPlugins.cpp:210-267 | The offset of each tensor and the output size, accumulated over the tensors |

## Left out

- Floating point: rounding, NaN and overflow of the program's doubles and floats; all results are over exact reals.
- GStreamer, CUDA and TensorRT calls: whether an element, a pad or a state change succeeds is an arbitrary answer; bytes on the GPU are not modelled.
- MQTT, HTTP and the violation permission store: uploads, sends and the two permission answers of one publish are arbitrary answers, fixed for the duration of the call that uses them.
- Pictures: JPEG coding, bilinear sampling and the snapshot banks of the probe; whether a picture or a plate crop is at hand is an arbitrary answer per step.
- Configuration loading: `Loaded` states only the clamp to at least one hit that loading guarantees (src/common/config.cpp:139-149).
- Angles: `angleBetweenDeg` is a parameter of `WrongWay.DetectCrossing`; the acos behind it is not modelled.
- Recognizer.PlateRecognizer.ObserveWrongWayAt: takes the result of the crossing test as a parameter; the motion history and the test are proved on their own in `WrongWay`.
- Field layout: the fields of a track are grouped into records (zone, OCR log, final plate), and the map of samples is a list in key order.
- Prefix tables: the set of army prefixes is written as a function from first letter to allowed second letters.
- Several cameras: the transition system follows one recognizer; jobs of other cameras appear in its queue as foreign jobs. Unbinding a camera while its jobs are in flight is excluded.
- EmitSteps.ViolationsPublishedAtMostOnce: assumes `SettlesOwn` and, for WRONG_WAY, that it was not cleared while in flight; `EmitLimits.ReusedIdTwice` and `EmitLimits.ClearedWayTwice` show that neither can go.
- EmitReopen.WrongWayAtMostOnceWhileRemembered: its condition is sufficient only; `EmitReopen.SecondWrongWayEvent` has the exact one for each publish.
- Start and stop: `stop()` of probe and pipeline, and rebuilding a pipeline.
- PolygonWatcher: its two lock sections can lose an update; only the camera watcher is modelled.
- CharAssembler.TextIsSlideInvariant: speaks of the kept boxes and one direction; `SlideInvariance` has the rest.
- Sorting: the in-place merge of `std::stable_sort` is not modelled, only its result; `std::sort` of cameras by code is taken as stable, which matters only for repeated codes.
- YoloOutput.OutputIsComplete: the value of a row is an arbitrary function of its cell; sigmoid, exponential and anchor arithmetic, and the 32-bit wrap of the row index beyond 2^31, are not modelled. The other kernels have the same index arithmetic.
- YoloLayout.LayerLayout: speaks of layers whose list sizes fit their 32-bit counters; what the others decode to is `YoloSerial.DecodeOfEncode`.
- LeastSquares.MotionIsRegression: for tracks of at least two anchors, as the program asks for.
- YoloSerial.Deserialize: reads past the end of a short buffer, which the program does not check, are excluded by the precondition.
- Crop selection: `cropScoreBetter` is not transitive and nothing is claimed about it.
- Class-name maps, event payloads, logging and latency statistics: one branch or one expression each.
