# SlowMeet, modelled and proved

SlowMeet is a one-room video conference server: a selective forwarding unit with a WebSocket signaling hub and a small
browser client. This project models the parts of it where many goroutines or callbacks interleave, and the arithmetic
and queues beneath them, and proves what those parts keep.

Each component is written twice. A class carries the program's fields and updates them in place, one method per lock
region, loop for loop; its methods are proved equal to a function on an immutable state. A system then runs those
functions as steps, in every order the locks allow and with every outcome the outside world may give, and the lemmas
state what holds after every run.

## Components

**Media router** (`RouterState.dfy`, `MediaRouter.dfy`, `RouterProtocol.dfy`, `UnwantedSubscriptions.dfy`,
`RouterBoard.dfy`). Register, Unregister, Publish, Unpublish and SetVideoSubscriptionsWithLayer decide under the
router's lock what to subscribe and what to detach; the operations are applied later, by any goroutine, after the lock
is released, and each one is checked again before it is installed. A run is any list of lock regions and of single
AddTrack, install and RemoveTrack steps, with any number of operations in flight and any subset of the ReplaceTrack
calls of a publication swap failing. Three invariants hold in every reachable state. Coverage: a registered receiver
that should get a registered publication has it, or an operation naming that publication and the receiver's current peer
is on its way. Soundness: every installed track is wanted, has its sender, and its feedback holder carries the SSRC of
the publication it sits in. Placement: every sender AddTrack ever returned is in exactly one place. Together they give
the result a user notices: once nothing is in flight, the installed tracks are exactly the wanted ones. Operations that
should not be installed are queued too; their senders are proved to go down again. All of it is also stated against a
board of what the calls say: which track each key carries, who is there, and who wants what.

**Video data plane** (`VideoFrames.dfy`, `FrameReassembly.dfy`, `FrameRecovery.dfy`, `FrameRate.dfy`, `FrameGate.dfy`,
`BitrateLimiter.dfy`, `BitrateBound.dfy`, `BitrateExact.dfy`, `BitratePasses.dfy`, `CameraLayers.dfy`,
`CameraRuns.dfy`). RTP timestamps and sequence numbers wrap at 32 and 16 bits (section 5.1 of RFC 3550) and are compared
serially (section 3.2 of RFC 1982). On arbitrary input every frame the buffer emits is whole, bounded and ordered pair
by pair, and nothing is emitted twice; on a stream whose frames arrive shuffled, with their marker last, among
duplicates and late packets, the buffer emits exactly the frames that were sent. The frame-rate gate is compared, run by
run, with a plain limit on an unwrapped clock. The byte limiter is bounded over every window, debt for oversized packets
included, lets through exactly what fits, and no wait in it is endless or longer than needed. A receiver for which some
simulcast layer is subscribed and active is served by exactly one layer, the nearest.

**Signaling hub** (`HubSlots.dfy`, `HubMedia.dfy`, `HubGrace.dfy`, `SignalingHub.dfy`, `Meeting.dfy`,
`ChatAdmission.dfy`, `Negotiation.dfy`, `NegotiationRuns.dfy`, `NegotiationExact.dfy`, `NegotiationFlow.dfy`). Joins,
resumes, takeovers, drops, grace timers, expiries and Close interleave freely; every participant in the meeting has
exactly one holder responsible for its slot, so nobody live or resumable is evicted and no slot leaks, and a dropped
session gets its grace window exactly when it is owed one. A session keeps its media whatever the sessions before it on
the same token still have to tear down. Chat reaches each admitted client exactly once across admission. The per-client
offer/answer machine conserves ICE candidates; it loses a renegotiation, and falls out of step with the peer
connection's signaling state (section 3.2 of RFC 8829), exactly when certain failures happen, which are named.

**Renegotiation queue** (`RenegotiationQueue.dfy`, `RenegotiationFlow.dfy`). Requests, answers, rollbacks, failures, the
watchdog, close and the stages of one promise chain, each callback a step. Requests settle once, in arrival order, and
whatever is unsettled has an armed watchdog or a running chain; what gathers behind an offer goes out with the first
callback that finds the connection stable.

**Limiters and layout** (`TokenClock.dfy`, `RateLimiter.dfy`, `RateBound.dfy`, `RateExact.dfy`, `Layout.dfy`). The
password limiter sweeps idle buckets; it is proved to answer as a limiter that never forgets, and a refunded attempt to
cost nothing; the most it can be made to allow is known exactly. The participant grid is proved to fit and to be the
best one.

## What turned out not to hold

Seven properties one would expect of the code fail, each for a named input, and each comes with the exact condition under
which it does hold.

- Not only wanted subscriptions are queued: a participant's own tracks are queued for itself, and a sender is made for
  them (`UnwantedSubscriptions.OwnTrackIsQueued`). A step queues an unwanted one if and only if a receiver registers
  while a publication it refuses is there, or a publication is made that a registered receiver refuses
  (`UnwantedSubscriptions.StepQueuesUnwanted`); the sender is removed again
  (`UnwantedSubscriptions.UnwantedSenderGoesDown`).
- The byte bound of a window is exceeded, by at most a nanosecond's worth of tokens, when an oversized packet waits,
  because the wait is truncated to whole nanoseconds (`BitrateExact.TruncationExceedsPlainBound`). At a rate of whole
  bytes a second, every window of every run keeps the plain bound if and only if no packet exceeds the burst or the rate
  divides the nanoseconds of a second (`BitrateExact.PlainBoundExactly`).
- The frame-rate gate compares wrapped timestamps, so after unfinished frames a whole frame that is due can be refused
  (`FrameGate.LongGapIsRefused`). A run admits what the plain gate would if and only if none of its whole frames is a
  whole number of wraps and less than an interval after the last one admitted, save one that looks like that very frame
  (`FrameGate.GateIsGreedyExactly`).
- The password limiter reads its clock before it takes its lock. A reading that reaches the lock late moves a bucket
  back, and the time after it is earned twice: three seconds late, the join limiter allows twenty-two attempts where
  twenty-one are due (`RateExact.LateReadingExceedsWindow`). For one limiter, the burst plus the rate times the window
  bounds the attempts of every key at given readings if and only if what is taken by using up every whole token at every
  reading stays within it (`RateExact.BoundIffPeakFits`); for every limiter, if and only if the readings do not move
  forward by more than the window in all (`RateExact.BoundIffShortForwards`).
- A call to sendOffer that finds an offer in flight is merged into the next offer. If that offer cannot be created or
  enqueued, the error goes to nobody, and the merged call is dropped (`NegotiationExact.MergedCallCanBeDropped`). With
  nothing in flight, every call is served if and only if no attempt to make an offer failed
  (`NegotiationExact.NoLostRenegotiation`).
- Remote candidates can be held back with no offer in flight, when the peer refuses the answer to an ICE restart
  (`NegotiationFlow.RefusedRestartHoldsBack`). Throughout a run they go to the peer exactly while it has a remote
  description and no restart offer is open, if and only if that does not happen and no queued candidate of a browser's
  first offer is refused (`NegotiationFlow.CandidatesFlowExactly`).
- A freed slot can leave its media behind: when Close comes between the two holds of a disconnect that kept its media
  for a grace window, the router keeps the peer of a participant who is gone (`HubMedia.CloseLeavesMediaBehind`). Once
  nothing is left to do, all media is taken down if and only if no slot with kept media was freed by a hub that had
  closed (`HubMedia.QuiescentMediaIsFreed`).

## Model

| member | source | states |
|---|---|---|
| `MediaRouter.Router.Register` | internal/media/router.go:291-305 | The receiver gets its new peer, the queued operations are one subscribe for each registered publication it has no track of, wanted or not, and no more; soundness is kept |
| `MediaRouter.Router.Unregister` | internal/media/router.go:307-334 | Every publication of the participant and every link to it goes at once; removals are queued exactly for senders whose receiver is still registered; soundness is kept |
| `MediaRouter.Router.Publish` | internal/media/router.go:336-451 | A re-fired track changes nothing; otherwise the new publication replaces the old one, the receivers whose ReplaceTrack succeeds keep their sender, the rest are detached with one removal each, and a subscribe is queued for every registered receiver that has no track of it, wanted or not |
| `MediaRouter.Router.MigrateTargets` | internal/media/router.go:773-811 | The loop moves exactly the receivers whose ReplaceTrack succeeds, with their senders, and points their feedback holders at the replacement's SSRC |
| `MediaRouter.Router.SetVideoSubscriptions` | internal/media/router.go:453-502 | The receiver's sources and preferred layer are stored (an invalid layer as medium), links it no longer wants are cut with one removal each, publications it now wants are queued, all others are left alone; soundness is kept |
| `MediaRouter.Router.Unpublish` | internal/media/router.go:550-568 | All publications of one source and role, across layers, are dropped with their links and removals |
| `MediaRouter.Router.StopPublication` | internal/media/router.go:1475-1491 | A publication whose read loop stopped is removed only while it is still the registered one |
| `MediaRouter.Router.RemovePublication` | internal/media/router.go:1493-1511 | Detaches every receiver of one publication, with one removal per sender whose receiver is registered |
| `MediaRouter.Router.RemoveTarget` | internal/media/router.go:165-179 | Track, sender and feedback holder of one receiver go together |
| `MediaRouter.Router.QueueSubscription` | internal/media/router.go:813-830 | A subscribe naming the receiver's current peer is queued exactly when the receiver is registered and has no track yet; whether it is wanted is left to the installation |
| `MediaRouter.Router.Install` | internal/media/router.go:846-868 | The sender is installed exactly when the publication is still registered, the peer still current, the receiver not yet linked and still wanted |
| `RouterState.CutKeepsSound` | internal/media/router.go:165-176 | Detaching any set of links keeps soundness, provided what stays is registered and wanted |
| `RouterState.UnregisterKeepsSound` | internal/media/router.go:307-334 | Soundness survives Unregister |
| `RouterState.ChooseKeepsSound` | internal/media/router.go:453-502 | Soundness survives a change of explicit subscriptions |
| `RouterState.PublishKeepsSound` | internal/media/router.go:336-451 | Soundness survives a publication swap in which any subset of ReplaceTrack calls fails |
| `RouterState.InstallKeepsSound` | internal/media/router.go:846-868 | Soundness survives installing a fresh sender, or refusing to |
| `RouterState.MigrationKeepsDistinct` | internal/media/router.go:773-811 | No sender ends up in two places during a swap |
| `RouterProtocol.NextKeepsSound` | internal/media/router.go:165-176 | Every step keeps tracks and senders equal, every link wanted, registered and labelled with its publication's SSRC |
| `RouterProtocol.NextKeepsCovered` | internal/media/router.go:434-445 | Every step keeps each wanted subscription installed or on its way to the receiver's current peer |
| `RouterProtocol.NextKeepsPlaced` | internal/media/router.go:832-868 | Every step keeps each issued sender in exactly one of: held by an apply step, installed, queued for removal (once), removed, dropped with its receiver |
| `RouterProtocol.EveryRunIsSafe` | internal/media/router.go:291-502 | Coverage, soundness and placement hold after every interleaving |
| `RouterProtocol.QuiescentRunIsExact` | internal/media/router.go:813-868 | With nothing in flight, a receiver has a publication if and only if it should |
| `RouterProtocol.NextKeepsRetired` | internal/media/router.go:1493-1507 | No step brings a replaced or removed publication back |
| `RouterProtocol.RetiredStaysEmpty` | internal/media/router.go:846-866 | A removed publication has no targets and never regains one, although AddTrack runs outside the lock |
| `RouterBoard.PublishTakesOver` | internal/media/router.go:403-433 | A new object for an absent key, or with another track than the registered one, takes the key over and carries that track; the receivers that keep their sender are exactly the linked ones whose ReplaceTrack succeeds, if the codec stays, else none; the old object is unregistered and empty |
| `RouterBoard.StepMatches` | internal/media/router.go:291-568 | Every step does to the registry, the peers, the chosen cameras and the preferred layers what the call says, on a board that knows nothing of links |
| `RouterBoard.RegistryIsBoard` | internal/media/router.go:291-568 | In every run the registry is the board, and whoever does not refuse a publication is to get it |
| `RouterBoard.RegisteredIsLatest` | internal/media/router.go:403-433 | In every run a registered publication carries the track of the latest call to Publish with its key |
| `RouterBoard.QuiescentRunIsBoard` | internal/media/router.go:813-868 | With nothing in flight, a registered receiver has a publication's current track if and only if it wants it, by what the calls said alone |
| `RouterBoard.InstalledExactly` | internal/media/router.go:846-869 | A sender is installed if and only if its publication still carries its key, the receiver still has the peer it was added to, has no track yet and wants one; otherwise it goes off that peer |
| `UnwantedSubscriptions.StepQueuesUnwanted` | internal/media/router.go:813-830 | A step queues a subscription its own outcome does not want if and only if a receiver registers while a publication it refuses is there, or a publication is made that a registered receiver refuses |
| `UnwantedSubscriptions.UnwantedSenderGoesDown` | internal/media/router.go:850-869 | In every run, a sender whose subscription is unwanted when it comes to be installed is never installed, then or later, and is removed once nothing is queued |
| `UnwantedSubscriptions.OwnTrackIsQueued` | internal/media/router.go:434-445 | A run in which a participant's own audio is queued for itself and a sender is made for it |
| `VideoFrames.VideoFrameBuffer.AddPacket` | internal/media/router.go:1210-1255 | Frame boundaries, stale packets, duplicates, both caps and the reset after the marker, as the buffer's specification has them |
| `VideoFrames.VideoFrameBuffer.IsDuplicate` | internal/media/router.go:1257-1266 | Finds a sequence number if and only if some collected packet has it |
| `VideoFrames.InsertAt` | internal/media/router.go:1269-1277 | One pass of the in-place insertion sort puts a packet before every packet at its left end that serially follows it |
| `VideoFrames.SortFramePackets` | internal/media/router.go:1268-1278 | The in-place loop sorts the slice as the sorting function does |
| `VideoFrames.SortPermutes` | internal/media/router.go:1268-1278 | Sorting keeps every packet as often as it occurs |
| `VideoFrames.SortKeepsBytes` | internal/media/router.go:1240-1246 | Sorting keeps the byte count |
| `VideoFrames.SortIsStepwise` | internal/media/router.go:1268-1278 | Adjacent packets come out in serial order although the comparison is not transitive |
| `VideoFrames.EveryFeedIsSafe` | internal/media/router.go:1210-1255 | On any packets in any order: each emitted frame is non-empty, of one timestamp, with distinct sequence numbers, at most 128 packets, an exact byte count within the cap, a marker, and pairwise order; unwrapped timestamps strictly increase |
| `VideoFrames.NothingEmittedTwice` | internal/media/router.go:1210-1255 | No packet is emitted more often than it arrived, counted over all frames and the buffer |
| `FrameReassembly.SortRestores` | internal/media/router.go:1268-1278 | Sorting any arrival order of a frame that fits half the sequence range gives the frame back |
| `FrameReassembly.DeliveryEmits` | internal/media/router.go:1210-1255 | One frame delivered in any order, marker last, among duplicates and late packets, is emitted once and whole |
| `FrameReassembly.Reassembles` | internal/media/router.go:1208-1292 | A stream of such frames comes out as exactly the frames sent, each in sequence order |
| `FrameRecovery.AnyBufferRecovers` | internal/media/router.go:1208-1255 | Whatever came before, a frame unfinished or over the caps included, the next newer frame that arrives whole is emitted whole |
| `FrameRate.AdmittedFramesAreSpaced` | internal/media/router.go:1429-1454 | Frames admitted under a fixed limit are at least one interval apart on the unwrapped clock, whatever arrives and however often it wraps |
| `FrameRate.AdmittedFramesSpan` | internal/media/router.go:1429-1454 | n admitted frames span at least n - 1 intervals |
| `FrameGate.OfferedExactly` | internal/media/router.go:1429-1454 | Frame by frame, the gate admits what is due on the unwrapped clock and does not look, after whole wraps, as if it came right behind the last one admitted |
| `FrameGate.AdmitsTheDueNotLost` | internal/media/router.go:1429-1454 | On any packets, the frames admitted are exactly those |
| `FrameGate.GateIsGreedyExactly` | internal/media/router.go:1429-1454 | In every run the frames admitted are those of the plain rule on an unwrapped clock if and only if no whole frame is lost that way |
| `FrameGate.GateIsGreedy` | internal/media/router.go:1429-1454 | While whole frames are at most half the 32-bit range apart, the gate is the plain one |
| `FrameGate.LongGapIsRefused` | internal/media/router.go:1429-1454 | Four packets, two of them of unfinished frames, after which a frame that is due is refused |
| `BitrateLimiter.Limiter.RefillTokens` | internal/media/router.go:1456-1473 | Refill with its cap, and what a backward clock does |
| `BitrateLimiter.Limiter.ChangeRate` | internal/media/router.go:1322-1342 | A rate change refills at the old rate, then caps or fills |
| `BitrateLimiter.Limiter.AllowBytes` | internal/media/router.go:1344-1364 | Whether the bytes fit now, and what is spent |
| `BitrateLimiter.Limiter.Wait` | internal/media/router.go:1366-1420 | The waiting loop over every list of clock readings, how long it sleeps after each of them, credit for an oversized packet and the stop signal |
| `BitrateLimiter.Limiter.AdmitFrame` | internal/media/router.go:1429-1454 | The gate's answer and memory per frame timestamp |
| `BitratePasses.UnlimitedAllows` | internal/media/router.go:1351-1358 | Without a rate every packet passes and the tokens stay |
| `BitratePasses.AllowExactly` | internal/media/router.go:1351-1364 | At a rate a packet passes if and only if it is at most what was there and what the time has earned, up to the burst; it then costs its size |
| `BitratePasses.WithinTokensAllPass` | internal/media/router.go:1344-1364 | Packets that together stay within the opening tokens all pass |
| `BitratePasses.NewLimiterIsFull` | internal/media/router.go:1309-1342 | A limiter that starts at a rate has its whole burst, at least 1200 bytes and a tenth of a second |
| `BitratePasses.RateChangeKeepsTokens` | internal/media/router.go:1324-1342 | A change of rate keeps what was earned at the old one, up to the new burst; an empty bucket starts full |
| `BitratePasses.PassesAtOnceExactly` | internal/media/router.go:1371-1383 | A wait is over at its first reading if and only if the packet is empty, no rate is set, or the tokens are there |
| `BitratePasses.PauseIsNoLonger` | internal/media/router.go:1384-1398 | A pause is a millisecond or no longer than it takes to earn what is missing |
| `BitratePasses.UnlimitedAdmitsFrames` | internal/media/router.go:1429-1454 | Without a frame limit, and first after a change of it, every frame passes |
| `BitratePasses.FrameIsDecidedOnce` | internal/media/router.go:1433-1440 | All packets of one frame share its fate |
| `BitrateBound.RunIsAccounted` | internal/media/router.go:1344-1420 | Over any steps, bytes admitted plus tokens left never exceed the tokens at the start plus what the time earned, and the debt is bounded |
| `BitrateBound.WindowBound` | internal/media/router.go:1344-1420 | Bytes admitted in any window between rate changes are within the rate times the window plus the burst, or plus the largest packet and a nanosecond's worth if that is larger |
| `BitrateBound.NoDebtWithoutOversize` | internal/media/router.go:1344-1420 | Packets that fit the burst never take the bucket below zero; tokens never exceed the burst |
| `BitrateBound.AllowNeverOverdraws` | internal/media/router.go:1344-1364 | allow never makes tokens negative |
| `BitrateBound.RateChangeIsFit` | internal/media/router.go:1322-1342 | After any change to a positive rate the bound applies |
| `BitrateBound.WaitIsARun` | internal/media/router.go:1366-1420 | A whole waitForBytes call in which no timer fires before its pause is over is a run to which the bound applies |
| `BitrateBound.WaitEndsByThirdReading` | internal/media/router.go:1366-1420 | No wait is endless: a packet of any size, behind any debt, goes by the third clock reading |
| `BitrateExact.PlainBoundExactly` | internal/media/router.go:1366-1420 | At a rate of whole bytes a second, every window of every run after a rate change keeps the bound without that nanosecond if and only if no packet exceeds the burst or the rate divides the nanoseconds of a second |
| `BitrateExact.ExactRatesKeep` | internal/media/router.go:1366-1420 | At such a rate truncation never lets a window exceed the plain bound, wherever the bucket starts |
| `BitrateExact.UnevenRateExceeds` | internal/media/router.go:1366-1420 | At any other rate, a packet and an oversized one behind it exceed it |
| `BitrateExact.TruncationExceedsPlainBound` | internal/media/router.go:1366-1420 | 1200 and then 1300 bytes at 12001 bytes a second, from a new limiter |
| `CameraLayers.CameraSource.SelectedCameraLayer` | internal/media/router.go:1151-1178 | The layer chosen is subscribed, recently active and minimises distance to the preference, then rank; none is chosen only if none is active |
| `CameraLayers.CameraSource.ResolveFrameTargets` | internal/media/router.go:1104-1139 | Exactly the receivers that selected this layer get the frame, and exactly those new to it need a keyframe |
| `CameraLayers.AtMostOneLayer` | internal/media/router.go:1104-1178 | At any instant at most one layered publication of a source serves a receiver |
| `CameraLayers.ServedUnlessNearestPaused` | internal/media/router.go:1104-1178 | A receiver with an active layer is served if and only if the nearest active layer is not paused |
| `CameraRuns.Publications.SetPublicationActive` | internal/media/router.go:566-577 | The loop pauses or resumes every publication of one role and no other |
| `CameraRuns.RunKeepsCamerasRunning` | internal/signaling/hub.go:224-226 | Over every run in which only screen shares are paused and resumed, as the hub does, no camera publication is ever paused |
| `CameraRuns.ServedByExactlyOne` | internal/media/router.go:1104-1178 | In every such state, a receiver for which some layer is subscribed and recently active is served by exactly one layer, the nearest; any other receiver by none |
| `CameraRuns.RecentCameraServes` | internal/media/router.go:1104-1192 | A receiver subscribed to any layer of a camera that sent a packet in the last three seconds is served by exactly one layer |
| `CameraRuns.PausedAsCalled` | internal/media/router.go:565-579 | In every run a publication is paused exactly when the last call for its role said so and it was not published since |
| `CameraLayers.SortTracksSorts` | web/js/remote-camera-video.js:61-69 | The browser's ranking orders by distance, then quality, and loses no track |
| `CameraLayers.BrowserAgreesWithRouter` | web/js/remote-camera-video.js:58-71 | When the live unmuted tracks are the active layers, browser and router pick the same layer for what the browser asked for, which the router stores as a valid layer, if and only if it asked for a layer or low and medium are not both there |
| `CameraLayers.BrowserPrefersUnmuted` | web/js/remote-camera-video.js:58-71 | A muted track is picked only if no live track is unmuted, and then the nearest; none is picked only if none is live |
| `HubSlots.NextKeepsSlots` | internal/signaling/hub.go:372-461 | Every step keeps one responsible holder for each participant in the meeting, and every holder's participant in the meeting |
| `HubSlots.NextKeepsRecords` | internal/signaling/hub.go:562-618 | Every step keeps tokens one to one with participants, active and pending tokens disjoint, and active tokens with their live session |
| `HubSlots.NextKeepsReserved` | internal/signaling/hub.go:426-458 | Every step keeps each reservation pending, with its timer armed or about to be, or consumed exactly once by resume, expiry or Close |
| `HubSlots.NextKeepsEligible` | internal/signaling/hub.go:412-431 | Every step keeps: only a participant that was admitted or resumed, and did not ask to leave, has ever been given a grace window |
| `HubSlots.CloseKeepsSlots` | internal/signaling/hub.go:172-193 | Close takes over the slot of every pending reservation; every other holder keeps its slot, and each slot has one holder |
| `HubSlots.ReclaimKeepsSlots` | internal/signaling/hub.go:562-597 | A resume gives the reservation's slot to its token, a takeover leaves it with the token; either makes the new connection the token's active session, and every other holder keeps its slot |
| `HubSlots.EveryRunKeepsSlots` | internal/signaling/hub.go:172-639 | All of this after every interleaving of joins, resumes, drops, timers and Close |
| `HubSlots.LiveAndResumableStay` | internal/signaling/hub.go:562-597 | A token that is active or pending belongs to a participant in the meeting, can be reclaimed, and leads back to that participant |
| `HubSlots.OnlyTheGoneAreEvicted` | internal/signaling/hub.go:620-639 | A participant leaves the meeting only when no active or pending token is its own |
| `HubSlots.QuiescentHubIsEmpty` | internal/signaling/hub.go:372-461 | No slot leaks: with every connection ended and no timer or Close under way, the meeting is empty and every reservation was consumed exactly once |
| `HubMedia.NextKeepsMediaInv` | internal/signaling/hub.go:372-471 | Every step keeps: sessions of a token wait in line, one at a time; whoever holds a slot is last in line; a served session is the one the router knows its participant by; what each disconnect and each timer took down is down |
| `HubMedia.OneIsOver` | internal/signaling/hub.go:599-616 | Of two sessions of a token that no longer wait for the one before, one has finished |
| `HubMedia.ServedKeepTheirMedia` | internal/signaling/hub.go:383-400 | In every run, a joined session keeps its media for as long as it lasts, and a dropped one until its grace window ends, whatever any other session tears down |
| `HubMedia.StepFrees` | internal/signaling/hub.go:398-424 | A step first leaves media behind exactly when a slot whose media was kept is freed by a closed hub |
| `HubMedia.SparesOnlyWhenClosed` | internal/signaling/hub.go:388-415 | Only a hub that has closed frees such a slot |
| `HubMedia.QuiescentMediaIsFreed` | internal/signaling/hub.go:172-194 | With nothing left to do, all media is taken down if and only if no slot was freed that way |
| `HubMedia.OpenHubFreesMedia` | internal/signaling/hub.go:441-453 | A hub that has not closed has media of participants in the meeting only |
| `HubMedia.CloseLeavesMediaBehind` | internal/signaling/hub.go:407-416 | A run in which Close comes between the two holds, and media stays behind |
| `HubMedia.HubRunsUnderneath` | internal/signaling/hub.go:372-461 | The hub's part of a run with media is a run of the hub, so what is proved of those holds here |
| `HubGrace.GraceExactly` | internal/signaling/hub.go:372-432 | Whatever happens between its two holds, a live session that drops gets a grace window if and only if it had joined or resumed, did not ask to leave, a timeout is set and the hub is still open; its token can then be resumed and its participant is in the meeting, and otherwise the participant is on its way out |
| `HubGrace.FlagsFollowEvents` | internal/signaling/hub.go:562-597 | A session has joined once it was admitted, resumed once it reclaimed a token, and asked to leave once it did, and at no other step |
| `HubGrace.NewcomerGetsIn` | internal/signaling/hub.go:927-940 | An open hub lets a connection join the meeting and gives it a token of its own |
| `HubGrace.ClosedTakesNobodyIn` | internal/signaling/hub.go:749-757 | A closed hub accepts no connection, admits nobody and stays closed |
| `SignalingHubs.SignalingHub.JoinMeeting` | internal/signaling/hub.go:927-934 | A join takes a slot if and only if the name is valid and the meeting has room |
| `SignalingHubs.SignalingHub.ClaimToken` | internal/signaling/hub.go:935-940 | The fresh token becomes active for this connection |
| `SignalingHubs.SignalingHub.ReclaimSession` | internal/signaling/hub.go:562-597 | A pending token is resumed, failing that an active one is taken over, failing that nothing changes |
| `SignalingHubs.SignalingHub.Begin` | internal/signaling/hub.go:377-396 | Whether the session was superseded, what happens to its token, and that media is kept exactly when the second hold would park the participant |
| `SignalingHubs.SignalingHub.Settle` | internal/signaling/hub.go:407-432 | Whether the participant is ignored, removed or parked, and the reservation made for it |
| `SignalingHubs.SignalingHub.ExpireReservation` | internal/signaling/hub.go:441-447 | The timer consumes the reservation only while it is still the one its token waits on |
| `SignalingHubs.SignalingHub.Close` | internal/signaling/hub.go:172-187 | The loop takes every pending reservation, empties the map and closes the hub |
| `Meetings.Meeting.Join` | internal/meeting/meeting.go:39-52 | Name rule, capacity and the empty hand of a new participant |
| `Meetings.Meeting.Leave` | internal/meeting/meeting.go:70-85 | The participant and its hand go; every other hand shows its new place in the queue |
| `Meetings.Meeting.SetRaisedHand` | internal/meeting/meeting.go:87-126 | The queue after raising or lowering; every hand shows its place; every participant whose hand changed is reported, with its new state |
| `Meetings.Meeting.Reindex` | internal/meeting/meeting.go:128-134 | The loop gives each queued participant its place and touches nobody else |
| `Meetings.QueueMovesUp` | internal/meeting/meeting.go:70-134 | First come, first served: those behind a lowered hand move up one place, nobody else moves |
| `Meetings.AllReported` | internal/meeting/meeting.go:118-125 | Every participant whose visible hand changed is in the list returned, with its new state |
| `ChatAdmission.ChatHub.RecordAndBroadcastChat` | internal/signaling/hub.go:331-347 | The message joins the history, capped at 100, and reaches every member but its author whose queue has room |
| `ChatAdmission.ChatHub.AdmitClient` | internal/signaling/admission.go:25-41 | Membership and the replay of the retained history in one step, refused after Close or the deadline |
| `ChatAdmission.ChatHub.ExpireAdmission` | internal/signaling/admission.go:9-18 | The deadline marks only a client that is not in the room |
| `ChatAdmission.NextKeepsInv` | internal/signaling/hub.go:315-347 | Every step keeps the history equal to the last 100 messages retained since it was cleared, and each client's queue equal to its replay and what others said since |
| `ChatAdmission.ChatExactlyOnce` | internal/signaling/admission.go:25-41 | An admitted client that never overflowed got the retained history at its admission, then every later message of the others until it left, in global order, with no gap and no repeat |
| `ChatAdmission.NewcomerMissesNothing` | internal/signaling/admission.go:32-38 | In a room that retains everything, a client admitted within the first 100 messages has every message but its own |
| `ChatAdmission.DeadlineExcludesAdmission` | internal/signaling/admission.go:9-31 | A client whose deadline passed first is never in the room |
| `ChatAdmission.AdmittedExactly` | internal/signaling/admission.go:25-41 | A client that calls to be admitted is in the room if and only if the hub has not closed and its deadline has not passed, and nobody else comes or goes |
| `ChatAdmission.CallInTimeGetsIn` | internal/signaling/admission.go:9-41 | In every run without a close, a client that calls before its deadline is in the room |
| `ChatAdmission.DeadlineCounts` | internal/signaling/admission.go:9-18 | The deadline counts against a client exactly when it finds it outside the room |
| `Negotiation.Client.Send` | internal/signaling/hub.go:1196-1234 | A call is merged or makes an offer; a restart holds back remote candidates; a failure restores what was there |
| `Negotiation.Client.ReceiveOffer` | internal/signaling/hub.go:1065-1094 | A colliding offer is ignored; otherwise queued candidates are applied and the machine stops offering until the answer is out |
| `Negotiation.Client.CompleteAnswer` | internal/signaling/hub.go:1101-1113 | Waiting local candidates go out, and the merged calls are taken up |
| `Negotiation.Client.ReceiveAnswer` | internal/signaling/hub.go:1114-1144 | An unexpected answer is refused; an expected one ends the offer, accepted by the peer or not |
| `Negotiation.Client.ApplyPendingCandidates` | internal/signaling/hub.go:1178-1190 | The loop stops at the first refused candidate and keeps those behind it |
| `Negotiation.Client.FlushPendingLocalCandidates` | internal/signaling/hub.go:1336-1346 | The loop sends in order and keeps what did not fit |
| `Negotiation.Client.AddOrQueueCandidate` | internal/signaling/hub.go:1167-1176 | A candidate is given to the peer, queued, or refused at 512 |
| `Negotiation.Client.SendOrQueueLocalCandidate` | internal/signaling/hub.go:1325-1334 | A local candidate goes out only when no answer is outstanding |
| `NegotiationRuns.NextKeepsInv` | internal/signaling/hub.go:1063-1234 | Every step keeps: an offer in flight only when ready; a pending offer only behind one in flight or an unfinished answer; every call waiting, carried, refused or covered; an offer restarts ICE if and only if a call it covers asked |
| `NegotiationRuns.EveryRunNegotiates` | internal/signaling/hub.go:1063-1346 | All invariants after every interleaving, with any peer call refused and any write failing |
| `NegotiationRuns.StepIsRegion` | internal/signaling/hub.go:1063-1346 | Every step of a run does to the negotiation state what the method of its lock region does |
| `NegotiationRuns.PeerIsNeverMisused` | internal/signaling/hub.go:1063-1157 | With no failure, no description reaches the peer in a state that does not take it, and it has a local offer exactly while one is in flight |
| `NegotiationRuns.AnswerGoesFirst` | internal/signaling/hub.go:1085-1105 | No offer or candidate is enqueued between making an answer and enqueueing an answer |
| `NegotiationRuns.LocalCandidatesGoOutOnce` | internal/signaling/hub.go:1325-1346 | With no failed write, local candidates go out once each in gathering order, and all of them once ready |
| `NegotiationRuns.RemoteCandidatesAreConserved` | internal/signaling/hub.go:1159-1190 | Each accepted remote candidate is given to the peer once or still queued (at most 512), in arrival order if none is refused, and none goes in while a restart offer is open |
| `NegotiationExact.StepDrops` | internal/signaling/hub.go:1218-1233 | A step drops a call if and only if it asks the peer for an offer that cannot be made or enqueued |
| `NegotiationExact.NoLostRenegotiation` | internal/signaling/hub.go:1196-1234 | With nothing in flight, every sendOffer call is served by an offer sent at or after it, restarting ICE if it asked, if and only if no attempt to make an offer failed; any other call was dropped by such a failure |
| `NegotiationExact.MergedCallCanBeDropped` | internal/signaling/hub.go:1142-1144 | A run in which a merged call is dropped because the offer made for it fails |
| `NegotiationExact.PeerFollowsExactly` | internal/signaling/hub.go:1063-1157 | Throughout a run the peer has a local offer exactly while one is in flight and is stable otherwise, if and only if no offer is made but not enqueued, no offer taken but left unanswered, and no expected answer refused; then no description reaches it in a state that does not take it |
| `NegotiationFlow.CandidatesFlowExactly` | internal/signaling/hub.go:1063-1190 | Throughout a run candidates go to the peer exactly while it has a remote description and no restart offer is open, if and only if no queued candidate of a first offer and no answer to a restart is refused |
| `NegotiationFlow.RemoteDescriptionFollows` | internal/signaling/hub.go:1159-1165 | With no peer call refused, remoteDescription says exactly that |
| `NegotiationFlow.CandidateGoes` | internal/signaling/hub.go:1167-1176 | In such a run a candidate is given to the peer, or queued while there is no remote description or a restart is open, or refused behind 512 queued ones |
| `NegotiationFlow.RefusedRestartHoldsBack` | internal/signaling/hub.go:1120-1128 | A run in which the answer to a restart is refused, and the next candidate is queued with no offer in flight |
| `NegotiationFlow.OfferIsAnswered` | internal/signaling/hub.go:1065-1113 | A browser's offer that meets none of the server and that the peer takes gives the peer the queued candidates and is answered before anything else goes out, whatever others ask for meanwhile; the merged calls are then taken up |
| `NegotiationFlow.CollisionIsIgnored` | internal/signaling/hub.go:1065-1073 | A browser's offer that meets one of the server changes nothing |
| `NegotiationFlow.AnswerEndsOffer` | internal/signaling/hub.go:1114-1144 | Any answer to an offer in flight ends it and the merged calls are taken up, with a restart if one asked; an accepted one opens the way for candidates |
| `NegotiationFlow.OfferGoesOut` | internal/signaling/hub.go:1196-1234 | A ready client with nothing in flight sends its offer at once; a restart holds candidates back |
| `RenegotiationQueues.RenegotiationQueue.Start` | web/js/renegotiation-queue.js:47-63 | When a batch goes out, when the queue waits for stability, and when it closes as stale |
| `RenegotiationQueues.RenegotiationQueue.Ask` | web/js/renegotiation-queue.js:85-97 | A request is queued and pumped, or refused on the spot |
| `RenegotiationQueues.RenegotiationQueue.OnAnswer` | web/js/renegotiation-queue.js:99-111 | The batch in flight resolves and the next one may go |
| `RenegotiationQueues.RenegotiationQueue.OnRollback` | web/js/renegotiation-queue.js:113-119 | The batch in flight returns to the front, under a new watchdog |
| `RenegotiationQueues.RenegotiationQueue.OnFail` | web/js/renegotiation-queue.js:121-127 | The batch in flight is rejected and the next one may go |
| `RenegotiationQueues.RenegotiationQueue.OnSent` | web/js/renegotiation-queue.js:66-72 | An offer that was not sent returns its own batch to the front; a superseded chain changes nothing |
| `RenegotiationQueues.RenegotiationQueue.OnCaught` | web/js/renegotiation-queue.js:73-78 | A failed send rejects its own batch only |
| `RenegotiationQueues.RenegotiationQueue.OnFinally` | web/js/renegotiation-queue.js:79-82 | The chain ends and what gathered meanwhile is pumped |
| `RenegotiationQueues.RenegotiationQueue.OnWatchdog` | web/js/renegotiation-queue.js:24-30 | A watchdog that finds work closes the queue |
| `RenegotiationQueues.RenegotiationQueue.Shut` | web/js/renegotiation-queue.js:37-45 | Closing rejects the batch in flight and then everything pending |
| `RenegotiationQueues.NextKeepsInv` | web/js/renegotiation-queue.js:16-131 | Every callback keeps order, guard, one chain and batch identity |
| `RenegotiationQueues.SettlesInArrivalOrder` | web/js/renegotiation-queue.js:33-135 | Settled requests are the first to arrive, each once and in order; those in flight, then those pending, are all the rest in order |
| `RenegotiationQueues.AnswerSettlesItsBatch` | web/js/renegotiation-queue.js:99-111 | An answer resolves exactly the batch in flight |
| `RenegotiationQueues.OnlyAnswersResolve` | web/js/renegotiation-queue.js:33-127 | Nothing settled is taken back, and every step but an answer only rejects |
| `RenegotiationQueues.NeverStallsUnguarded` | web/js/renegotiation-queue.js:16-83 | At most one chain; a batch in flight has an armed watchdog; anything unsettled has a watchdog or a chain; a closed queue has settled everything |
| `RenegotiationQueues.FiringLeavesNothing` | web/js/renegotiation-queue.js:22-45 | A firing watchdog, and close, leave nothing unsettled |
| `RenegotiationQueues.StaleOutcomeIsIgnored` | web/js/renegotiation-queue.js:66-78 | The outcome of a superseded offer settles and moves nothing |
| `RenegotiationFlow.GatheredGoOut` | web/js/renegotiation-queue.js:47-127 | In every run, a callback that finds the connection current and stable and nothing in its way leaves all that is unsettled in flight, in arrival order, with one scheduled chain; an answer resolves and a failure rejects exactly the batch that was in flight |
| `RenegotiationFlow.OnlyInstabilityIdles` | web/js/renegotiation-queue.js:47-57 | Requests wait in an open queue with nothing under way only since a callback that found signaling unstable or a rollback |
| `RenegotiationFlow.ReturnsToFront` | web/js/renegotiation-queue.js:66-72 | A rollback and an unsent offer settle nothing and put their requests before those that gathered meanwhile |
| `RenegotiationFlow.FailedSendRejectsItsBatch` | web/js/renegotiation-queue.js:73-78 | A failed send rejects its own batch and leaves what is pending |
| `RenegotiationFlow.StaleCloses` | web/js/renegotiation-queue.js:37-52 | A stale connection, a close and a watchdog that finds work close the queue and reject exactly all that is unsettled |
| `RenegotiationFlow.ClosedIsOver` | web/js/renegotiation-queue.js:37-45 | A closed queue takes, settles and sends nothing |
| `RateLimiter.Limiter.Allow` | internal/ratelimit/ratelimit.go:62-89 | One attempt on a key, after the sweep, with the cap of 4096 buckets |
| `RateLimiter.Limiter.GiveBack` | internal/ratelimit/ratelimit.go:91-108 | A refund, capped at the burst; unknown keys are left alone |
| `RateLimiter.Limiter.Sweep` | internal/ratelimit/ratelimit.go:117-130 | The loop drops exactly the buckets idle beyond twice the refill time, at most once a minute |
| `RateLimiter.SweepKeepsLevels` | internal/ratelimit/ratelimit.go:117-130 | Reading an absent bucket as full, a sweep changes no key's tokens, even for a reading that lags half the idle limit |
| `RateLimiter.StepIsSane` | internal/ratelimit/ratelimit.go:62-108 | Tokens stay between zero and the burst, and buckets within 4096 |
| `RateLimiter.LimiterRefinesPlain` | internal/ratelimit/ratelimit.go:62-130 | On a clock that does not go back, every call is answered as by a limiter that never forgets, except an unseen key when 4096 buckets exist |
| `RateLimiter.SuccessCostsNothing` | internal/ratelimit/ratelimit.go:91-108 | An allowed attempt that is refunded leaves every key, at every later reading, with what it would have had without either call |
| `RateBound.AnyOrderBound` | internal/ratelimit/ratelimit.go:62-130 | Whatever the order of the readings, the keys they are for and what a sweep drops in between: attempts of a key allowed and not refunded stay within what it had and what all the forward movement earns |
| `RateBound.ForwardAdvance` | internal/ratelimit/ratelimit.go:68-82 | Readings that do not go back move forward by the length of their window |
| `RateBound.WindowBound` | internal/ratelimit/ratelimit.go:62-130 | Then the attempts stay within the burst plus the rate times the window |
| `RateExact.NoMoreThanPeak` | internal/ratelimit/ratelimit.go:62-130 | At given readings no calls, for whatever keys, sweeps included, spend more of a key than taking every whole token at every reading from a full bucket |
| `RateExact.PeakIsReached` | internal/ratelimit/ratelimit.go:62-130 | Some calls at these readings spend exactly as many |
| `RateExact.BoundIffPeakFits` | internal/ratelimit/ratelimit.go:62-130 | One limiter, whatever it remembers, keeps every key within the burst and the rate times the window of given readings if and only if that number does |
| `RateExact.PeakOfSmallMoves` | internal/ratelimit/ratelimit.go:75-80 | While no move forward earns more than the burst less one, that number is the whole part of the burst and what all forward movement earns |
| `RateExact.BoundIffShortForwards` | internal/ratelimit/ratelimit.go:62-130 | Every configured limiter keeps that bound at given readings if and only if the readings do not move forward by more than their window in all |
| `RateExact.LateReadingExceedsWindow` | internal/signaling/hub.go:51-52 | The join limiter, twenty a minute with a burst of twenty, allows twenty-two attempts within three seconds when a reading is three seconds late |
| `RateExact.AllowedExactly` | internal/ratelimit/ratelimit.go:62-89 | An attempt is allowed if and only if it names a key, the key has a token, and there is a bucket for it or room below 4096 once those idle too long are gone; it takes one token and touches no other bucket that stays |
| `Layout.Candidates` | web/js/adaptation-policy.js:258-284 | The loop lists exactly the grids that leave room for tiles, within the column limit |
| `Layout.ChooseParticipantLayout` | web/js/adaptation-policy.js:239-296 | Nothing, the fallback, the usable two-column grid for three people, or the grid no usable grid (else no grid) beats, ties to fewer columns |
| `Layout.TilesFit` | web/js/adaptation-policy.js:263-268 | A grid fits the stage in both directions, gaps included, and keeps its aspect ratio and largest tile |
| `Layout.RowsFit` | web/js/adaptation-policy.js:263-273 | The rows are as few as the columns allow, none is empty, and together they seat everybody |
| `Layout.TilesAreLargest` | web/js/adaptation-policy.js:263-268 | No larger tile of the same shape fits the stage |
| `Layout.PossibleExactly` | web/js/adaptation-policy.js:258-268 | A grid is possible if and only if its gaps alone do not fill the stage |
| `Layout.LimitExactly` | web/js/adaptation-policy.js:258-262 | The columns tried are those the participants fill and the limit allows |
| `Layout.MoreCoverWins` | web/js/adaptation-policy.js:275-284 | Of two usable grids without the preferred columns, the one that covers more of the stage wins |

## Left out

- BitrateExact.PlainBoundExactly: rates are whole bytes a second, as the limiter is given them.
- CameraRuns.ServedByExactlyOne: pausing a camera through the router's own interface, which nothing in the program does, is outside it; CameraLayers.ServedUnlessNearestPaused covers every state.
- Codecs, SDP text, ICE and RTP transport, sockets and JSON: only whether a call succeeds, and a fresh sender from AddTrack, appear in the model. AddTrack is taken to succeed.
- RouterState: publications, clients and reservations are records in tables keyed by identity rather than heap objects; aliasing between them is the sharing of a key.
- RouterProtocol.Next: the operations one goroutine applies may run in any order; the program applies each list in order, so it has fewer runs than the model.
- Calling the offerers after operations were applied, keyframe requests and their retries, RTCP relaying, per-receiver packet queues and the writer goroutines of the router.
- An installed sender need not belong to the receiver's current peer: a resume inside the grace window registers an identifier again without unregistering it, and existing targets are not queued again. The model follows the code and claims nothing about it.
- Publications that only the tests create, which are added without queueing operations.
- BitrateBound.WindowBound: does not cover two calls sleeping at once; each publication has one forwarding goroutine that waits, and steps with a clock that goes back are excluded.
- Floating point: rates, tokens, tile sizes and scores are real numbers.
- HubMedia.Media: the router's peer of each participant stands for its media; peer connections, and the late closing of the one a reclaim replaced, are not in it.
- HubSlots.System: a timer stopped too late may still fire, although the program would have stopped it; every run of the program is among the runs of the model. The order in which Close visits its map is fixed.
- Screen sharing, reactions, media states, the roster part of the admission replay, the connection limit before joining and password checks in the hub.
- ChatAdmission.World: whether a message is retained is decided before the lock and is an input; the switch of the retention setting itself is one more clearing of the history.
- Negotiation.Client: the errors written back to the browser and messages of other parts of the hub in the same outbound queue are not in the log of what was sent; ICE failure timers are not modelled.
- RenegotiationQueues.Next: the error values passed to reject and the timeout callback of the application are not modelled; isCurrent and isStable are inputs of each step.
- Meetings.Meeting: the text of names is not modelled beyond being valid or not, and clients' own copies of the hand order, which Leave does not update, are not part of the model.
- RateLimiter.LimiterRefinesPlain: needs readings that do not go back; a sweep at a late reading may drop a bucket that an earlier reading would not find full.
- Layout.ChooseParticipantLayout: the fallback is only named, because its rows deliberately do not match its row counts; picking the head of the sorted ranking is a scan, and inputs that are not numbers are left out.
- Client address resolution behind proxies, configuration, the HTTP pages, the admin surface and the rest of the browser code.
