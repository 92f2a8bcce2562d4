# Verified model of the Android appliance

This project models the parts of the appliance that hold its hard guarantees and proves them in Dafny:

- the lifecycle supervisor, as a transition system whose steps are the code between two awaits
  (`Machine`, with its run theorems in `Lifecycle`, `Schedules`, `Retries` and `Callers`) and as the class that performs each
  step on its fields (`Supervisor`);
- the first boot of an AVD: a record in memory, its copy on disk, and a marker file, with a kill between any
  two writes (`FirstBoot`);
- the WebRTC streams and the control lane of the sessions that own them (`Bridge`, `Streams`);
- the answer that gets rid of a stream nobody watches (`Sdp`, `SdpLines`);
- the dashboard's link, an event-to-effects machine, and the page that runs its effects
  (`Protocol`, `LinkObject`, `Dashboard`, `PageObject`), and what it asks of the server (`Requests`);
- input: fingers from the browser's table to the emulator's screen (`Touches`, `Pointers`, `Fingers`), keys,
  contacts and wheel drags of a session (`Pressed`, `Inputs`, `SessionObject`), gesture arithmetic (`Gestures`), text
  pieces (`Chunks`);
- the limiters: the token bucket (`Bucket`) and the failure window (`Failures`).

`dafny verify dfyconfig.toml` checks everything.

## How the model is built

Code that changes things step by step is a class with the source's fields. Each method is proved equal to one
step of a specification on values (`Model() == ...`, `View(...) == ...`), and the properties are lemmas about
that specification: an invariant that every step keeps, and theorems over whole runs. A run is a list of steps
in any order the code allows, so every interleaving of tasks, requests, failures and cancellations is covered.

A cancelled task does nothing at once: the cancellation is a flag, and the task unwinds in a later step. Things
that come from outside (exit codes, failures of calls, time, random numbers, what a user does to files) are
arguments of the steps, so the theorems hold for all of them. Numbers that the source computes in floating
point are reals here, with Python's rounding of halves to the even neighbour where it rounds.

Assumptions:

- `_teardown` runs to its end, and SIGKILL ends qemu; a cancelled boot only unwinds; a spawned process dies
  with the launch that was cancelled while spawning it.
- A cancelled or failed send of a key or touch arrives before the next send, or never.
- `_let_go` of a closing session, its last sends, succeed. Android keeps running while a session is used.
- Messages of the browser arrive at the daemon in order, and other sessions leave this one's contacts alone.
- Markers are distinct: nobody guesses the next one.

## What the code does not promise

These properties hold only under a condition. Each is stated as an if-and-only-if.

- A stream that is left to `_let_go_late` is never forgotten exactly when its request ends with an error outside
  `GRPC_ERRORS` or is itself cancelled, as by a channel that closes; it then counts against the limit for ever
  (`Bridge.OrphanIffUncaught`, `Bridge.OrphansStay`).
- A completed first boot can be deleted. From the report of the guest to the end of the daemon, whatever else
  happens: the next start deletes the AVD exactly when the record of the first boot was on disk with its marker in
  the AVD, and until the daemon ended no save succeeded, the state file was not lost and the marker was not removed
  (`FirstBoot.LostIffNothingReachedTheDisk`). `_booted` whose two writes fail, and a kill before the next save, is
  such a run (`FirstBoot.BothWritesFail`); one later save is enough to be safe.
- `TouchTable.down` of a pointer that is in the table already forgets the old id without a lift
  (`Fingers.DownMatchesIffNew`, `Fingers.PressedTwiceStaysDown`).
- `Session._close` cancels sends that are under way. A release that was taken out of `_held` or `_contacts`
  and is cut off before it arrives is lost: the key or finger stays down in Android
  (`Pressed.LosesIffCutOff`, `Pressed.CutOffKeyStaysDown`).
- A lease keeps the idle stop away, not any other stop: one that waited for a start can enter its body when Android
  is stopping already. It does exactly when the emulator can still be reached (`Callers.LeaseEntersIffReachable`,
  `Callers.LeaseEntersWhileStopping`).
- `chunkText` with a size of 1 never gets past a high surrogate that is not the last unit; with a size of 0 it
  never moves at all (`Chunks.StuckIffNot`).
- `throwaway_answer` raises for an offer without an m= line, or with one that names too little: such a stream
  is let go without an answer (`Sdp.ThrowawayAnswer`). And the formats of an answered section are among those
  offered exactly when any was offered: an application section may name none, and its answer then has an empty
  one (`Sdp.FormatsWereOfferedIff`).

One thing worth knowing: `_start(wait=False)` during a stop starts itself again at every turn of the event loop
until the stop ends (the phase `Again` of a caller).

## Model

| member | source | states |
|---|---|---|
| `Machine.ApplyInv` | appliance/supervisor.py:242-534 | every step of every task and request keeps the invariant: one live boot, one held and watched emulator, one open future, exact lease and launch counts, one task per job while running |
| `Machine.RunTaskCore` | appliance/supervisor.py:363-507 | the same for each segment of a boot, a stop, a watcher, and an exit of qemu |
| `Machine.RetryCore` | appliance/supervisor.py:417-430 | a retry leaves exactly one responsible boot, which waits for the old one and clears its leftovers |
| `Machine.OpenLeasesUpdate` | appliance/supervisor.py:268-286 | the lease counter follows a caller into and out of its body on every path |
| `Lifecycle.NobodyIsLost` | appliance/supervisor.py:303-454 | in any run, a caller that still waits waits for the one open future, and a boot, a pending watcher or the stop task is bound to answer it |
| `Lifecycle.StateTellsTheAnswer` | appliance/supervisor.py:324-454 | STARTING means an open future in good hands, RUNNING a success, STOPPED none open, STOPPING that the stop task holds it |
| `Lifecycle.StepLawful` | appliance/supervisor.py:332-454 | a future is settled at most once, with success only on becoming RUNNING and failure only on becoming STOPPED; a launch happens only with no emulator held or alive |
| `Lifecycle.AnswersNeverChange` | appliance/supervisor.py:377-453 | over any run a settled future keeps its answer |
| `Lifecycle.DecisionsNeverChange` | appliance/supervisor.py:477-507 | over any run the decision about an exit is taken once |
| `Lifecycle.NoExitIsOverlooked` | appliance/supervisor.py:372-377 | while Android starts or runs, an exited emulator is still to be decided by its watcher, or the retry is clearing it away |
| `Lifecycle.RetryKeepsWaiters` | appliance/supervisor.py:417-430 | a retry during a start keeps the future that the callers wait for |
| `Retries.OneRetryPerStart` | appliance/supervisor.py:489-507 | between any two states of any run there is at most one retry for each start that began in between, and one more if the start at hand had its own left |
| `Lifecycle.StopWins` | appliance/supervisor.py:346-356 | a run that leaves STOPPING has been STOPPED, whatever boot, retry or crash was in flight |
| `Lifecycle.ShutdownIsForever` | appliance/supervisor.py:294-308 | once stopped after a shutdown, Android never starts again |
| `Lifecycle.OneAtATime` | appliance/supervisor.py:332-430 | in any run at most one qemu lives, at most one boot can act, and launches are at most twice the starts |
| `Lifecycle.LeasesAndJobsAreCounted` | appliance/supervisor.py:268-292 | after any run the lease count is the number of open leases, and jobs have their tasks exactly while Android runs |
| `Lifecycle.IdleStop` | appliance/supervisor.py:528-534 | the idle stop fires iff Android runs, is idle, and no lease is open |
| `Lifecycle.EveryWaiterCanBeAnswered` | appliance/supervisor.py:363-475 | from every state some 20 task steps at most answer every waiter |
| `Schedules.EveryScheduleAnswers` | appliance/supervisor.py:363-507 | whatever the tasks find and in whatever order they run: while somebody waits some task can run, and no schedule of tasks is longer than 26 steps and one for each older boot that still unwinds |
| `Schedules.EveryTaskStepTakes` | appliance/supervisor.py:363-507 | no segment of a boot, stop or watcher, and no exit, leaves the tasks with as much to do as before |
| `Callers.EverybodyIsToldTheTruth` | appliance/supervisor.py:242-330 | after any step, whoever it moved was told the truth: success only of a running Android, a start that succeeded, a lease that ended, or for somebody who does not wait a start that goes on; failure only when the start failed, the daemon shuts down, Android does not run for one who only waits or looks, the emulator cannot be reached, or the caller gave up |
| `Callers.WaitersLearnTheOutcome` | appliance/supervisor.py:324-330 | over any run, somebody who waits for a start and does not give up leaves with exactly its outcome; nobody, start or lease, goes on with a start that failed |
| `Callers.LeaseEntersIffReachable` | appliance/supervisor.py:268-286 | a lease that waited for a start which succeeded enters its body iff the emulator can be reached when it goes on |
| `Callers.LeaseEntersWhileStopping` | appliance/supervisor.py:268-286 | a run in which a lease enters its body although Android is stopping already |
| `Callers.RunKeepsReachable` | appliance/supervisor.py:456-475 | over any run the emulator can be reached while Android runs and cannot once it has stopped |
| `Callers.WhatBegins` | appliance/supervisor.py:303-338 | a step begins at most one boot, only from rest, never after a shutdown, for a wait or for a lease with `wake` false; the boot has its retry before it |
| `Callers.StartsBegin` | appliance/supervisor.py:303-338 | from rest a start, a restart and a waking lease do begin one |
| `Callers.LookingDoesNotWake` | appliance/supervisor.py:268-286 | a lease with `wake` false changes nothing of Android and enters its body iff Android runs |
| `Callers.WaitingChangesNothing` | appliance/supervisor.py:261-266 | a wait succeeds at once iff Android runs, waits iff it starts, and fails otherwise |
| `Callers.StopsStop` | appliance/supervisor.py:246-259 | a stop, restart or shutdown of an active Android stops it |
| `Callers.WhoDecidesAFailure` | appliance/supervisor.py:372-381 | a boot that fails under a dead qemu changes nothing and leaves the decision to the watcher, who can still take it; any other failure stops Android |
| `Callers.WhenTheWatcherRetries` | appliance/supervisor.py:477-507 | an exit is retried iff it is a crash of the emulator in use without a fatal line, the first of its start, while starting or settling; any other exit of it stops Android |
| `Callers.JobsAreKept` | appliance/supervisor.py:288-292 | a registered job stays registered through everything |
| `Supervisor.Supervisor.Perform` | appliance/supervisor.py:242-534 | one step of the class is one step of the transition system, and keeps its invariant |
| `Supervisor.Supervisor.StartTurn` | appliance/supervisor.py:303-322 | one turn of the start loop: refuse, return, wait for the stop, boot and join, or join |
| `Supervisor.Supervisor.StartBoot` | appliance/supervisor.py:332-338 | a fresh future and boot; the retry flag is reset |
| `Supervisor.Supervisor.StopAndroid` | appliance/supervisor.py:346-361 | jobs and any other boot are cancelled, and the stop task takes the boot and the future |
| `Supervisor.Supervisor.BootOnceMore` | appliance/supervisor.py:417-430 | the retry: a new boot behind the old one, and a new future only when none is open |
| `Supervisor.Supervisor.ContinueBoot` | appliance/supervisor.py:363-389 | the segments of a boot in order, up to the success |
| `Supervisor.Supervisor.FailBoot` | appliance/supervisor.py:372-381 | a failed boot stops Android, unless qemu is gone and its watcher decides |
| `Supervisor.Supervisor.TearDown` | appliance/supervisor.py:456-475 | each part of a teardown drops its field; the watcher is cancelled first |
| `Supervisor.Supervisor.EndStop` | appliance/supervisor.py:446-453 | the end of a stop settles the future only if it is open |
| `Supervisor.Supervisor.SeeExit` | appliance/supervisor.py:477-507 | the watcher ignores an exit that a stop owns, and decides any other |
| `Supervisor.Supervisor.ShutDown` | appliance/supervisor.py:294-297 | closing for good, and a stop |
| `Supervisor.Supervisor.RegisterJob` | appliance/supervisor.py:288-292 | a job gets its task at once while Android runs |
| `FirstBoot.StepInv` | appliance/supervisor.py:571-603 | every write, failed save, failed preparation, kill and replacement keeps what a live marker promises |
| `FirstBoot.DeletesOnlyItsOwn` | appliance/supervisor.py:571-603 | over every run from an untouched installation, a deleted directory was made by `create`, never adopted, and never recorded as booted |
| `FirstBoot.PreparedIsARun` | appliance/supervisor.py:579-599 | a `_prepare` that nobody kills, whatever fails in it, is a run of the write-by-write protocol |
| `FirstBoot.InterruptedBootIsRecreated` | appliance/supervisor.py:582-594 | a killed first boot is deleted and created anew with its own marker; nothing else changes |
| `FirstBoot.ExistingAvdIsAdopted` | appliance/supervisor.py:582-599 | an AVD without a record, or whose unbooted record does not match its marker, starts with every file untouched and is recorded as one that booted |
| `FirstBoot.RecordedAvdStarts` | appliance/supervisor.py:582-599 | an AVD with any other record starts with record and files untouched |
| `FirstBoot.FilesAreKept` | appliance/avd.py:72-109 | files that are no AVD stay, and the AVD written around them gets no marker |
| `FirstBoot.NewAvdIsCreated` | appliance/avd.py:72-109 | where no file is, a new AVD starts with a marker never used before, recorded with it |
| `FirstBoot.CompletedBootIsRecorded` | appliance/supervisor.py:634-646 | a boot not recorded yet is recorded in memory and on disk and leaves no marker, when both writes succeed; a later boot changes neither |
| `FirstBoot.LostIffNothingReachedTheDisk` | appliance/supervisor.py:634-646 | over every run of the daemon that follows a completed first boot: the next start deletes the AVD iff record and marker of the first boot were in place and no later step of that run reached the state file or the marker |
| `FirstBoot.BothWritesFail` | appliance/supervisor.py:634-646 | such a run: both writes of `_booted` fail, and the daemon is killed |
| `FirstBoot.KeptRun` | appliance/supervisor.py:571-603 | while a daemon lives, an AVD that it knows as booted stays, through failing saves, a lost state file and further starts |
| `FirstBoot.Appliance.Create` | appliance/avd.py:72-109 | a marker iff no file was in the directory, also after a removal that was cut off; a write that fails leaves what the protocol says |
| `FirstBoot.Appliance.Delete` | appliance/avd.py:123-127 | refused iff the directory does not carry the marker; otherwise it goes, or the removal fails and leaves a part |
| `FirstBoot.Appliance.ChooseRecord` | appliance/supervisor.py:579-598 | delete, create, adopt or keep, exactly as decided by record and marker, or a failure in between |
| `FirstBoot.Appliance.PrepareAvd` | appliance/supervisor.py:571-600 | the whole `_prepare`, with removals, writes, saves and a configuration that can fail |
| `FirstBoot.Appliance.Booted` | appliance/supervisor.py:634-646 | record first, then the marker; each can fail by itself |
| `FirstBoot.Appliance.FirstBootDone` | appliance/avd.py:119-120 | the marker goes, or its removal fails |
| `Bridge.StepInv` | appliance/webrtc.py:127-254 | every step of a request, pump, release, lane or close keeps the invariant of all streams and sessions |
| `Bridge.StreamsAreAccountedFor` | appliance/webrtc.py:299-310 | in any run at most 4 streams live and 11 are held; a held stream that is not live has a task that will forget it, or it was left to a request that ended uncaught; one live stream per session |
| `Bridge.NothingIsForgottenTooEarly` | appliance/webrtc.py:169-206 | in any run, a stream that was asked for is held until its request is refused or its pump or its release has ended: what the emulator may hold the bridge holds |
| `Bridge.EmulatorLoadIsBounded` | appliance/webrtc.py:299-310 | in any run the emulator has or makes at most 11 streams for the bridge |
| `Bridge.WhatAStartDoes` | appliance/session.py:569-590 | a start ends the session's old stream and begins a new one iff Android and TURN run and neither limit is reached |
| `Bridge.WhatAStopDoes` | appliance/session.py:554-563 | a stop ends the session's stream and no other |
| `Bridge.ViewersHearEverything` | appliance/webrtc.py:208-254 | the viewer of a live stream hears of its opening, each message and its end |
| `Bridge.MessagesTakeTheLane` | appliance/session.py:549-552 | a message of the viewer holds up the other jobs of its session until it is sent, and changes nothing else |
| `Bridge.OrphanIffUncaught` | appliance/webrtc.py:146-155 | the late release leaves an orphan iff the request failed outside GRPC_ERRORS or was itself cancelled |
| `Bridge.OrphansStay` | appliance/webrtc.py:146-155 | such an orphan is held in every later state |
| `Bridge.LeftStreamIsForgotten` | appliance/webrtc.py:146-206 | two steps of its own are enough to forget such a stream, unless its request has ended uncaught |
| `Bridge.EveryScheduleForgets` | appliance/webrtc.py:146-254 | whatever else happens and in whatever order, a stream whose viewer left is forgotten or an orphan after at most three steps of its own tasks |
| `Bridge.OwnStepCanHappen` | appliance/webrtc.py:146-254 | until then one of those steps can happen |
| `Bridge.SilenceAfterTheEnd` | appliance/webrtc.py:169-254 | over any run nothing reaches a viewer after `close` or after the end |
| `Bridge.ViewersHearInOrder` | appliance/session.py:569-611 | a viewer hears "starting", "configured", messages, and one end at most |
| `Streams.Stream.Close` | appliance/webrtc.py:169-179 | what close does in each phase of request and pump |
| `Streams.Stream.Opened` | appliance/webrtc.py:140-144 | the end of a request: pump, and a release if the viewer left |
| `Streams.Stream.OpenCancelled` | appliance/webrtc.py:133-139 | a cancelled request leaves a late release |
| `Streams.Stream.LetGoLate` | appliance/webrtc.py:146-155 | the three outcomes of a late request |
| `Streams.Stream.LetGoEnds` | appliance/webrtc.py:204-206 | the release cancels the pump and forgets the stream |
| `Streams.Stream.Ended` | appliance/webrtc.py:249-254 | `on_end` is called iff the stream was live |
| `Streams.Bridge.Create` | appliance/webrtc.py:299-310 | refused iff 4 streams live or 8 are being released; both limits hold after it |
| `Streams.Viewer.DropStream` | appliance/session.py:554-558 | the session's stream is closed, no other stream changes |
| `Streams.Viewer.StartStream` | appliance/session.py:569-590 | the old stream is closed; a new one is created iff Android and TURN run and neither limit is reached |
| `Streams.Bridge.CountLive` | appliance/webrtc.py:303 | the number of live streams |
| `Sdp.AnswerFollowsOffer` | appliance/webrtc.py:72-104 | section 6 of RFC 3264: read again, the answer has one section for each of the offer's, in order, with its media, protocol and mid and its first format, or for an application section all of its formats |
| `Sdp.FormatsWereOfferedIff` | appliance/webrtc.py:95-97 | the formats of an accepted section are among the offered ones iff any was offered |
| `Sdp.AnswerNamesTheMids` | appliance/webrtc.py:92-94 | the BUNDLE line is exactly the offer's mids in order, and the candidate names the first |
| `Sdp.BundleNamesTheMids` | appliance/webrtc.py:93-94 | the words of that line are the mids, when no mid has a space |
| `SdpLines.AnswerDescribes` | appliance/webrtc.py:95-103 | read again, every section of the answer has port 9, the made-up ICE and DTLS values and the active side; an application section has exactly the offer's sctp-port and max-message-size lines in order, any other receives only, multiplexes RTCP, and maps its format as the offer does |
| `SdpLines.HeaderReads` | appliance/webrtc.py:92-94 | version, origin, name and time come first, and the sections start after the session's lines |
| `Sdp.SplitUndoesLines` | appliance/webrtc.py:104 | splitting the joined lines gives them back |
| `Sdp.SectionsOf` | appliance/webrtc.py:86-91 | the loop collects each m= line with the lines after it |
| `Sdp.ThrowawayAnswer` | appliance/webrtc.py:72-104 | the loops compute the answer, and there is one iff the offer has an m= line and each names a protocol and, unless application, a format; an IndexError otherwise |
| `Protocol.HandleInv` | web/js/protocol.js:60-287 | after every event the stream is idle iff none is wanted, and the armed timers follow the state |
| `Dashboard.DispatchInv` | web/js/main.js:47-81 | run in order, the effects of an event never open a second socket or peer, signal without a peer, send without a socket or cancel an unset timer |
| `Dashboard.PageFollowsLink` | web/js/main.js:55-81 | over any run the page's timers are the armed ones, a peer is open iff the stream negotiates or is live, and the session is up iff the socket is open |
| `Requests.ServerKnowsWhatIsWanted` | web/js/protocol.js:274-287 | over any run, folding the requests that were sent: while the socket is open the server was last asked to start iff a stream is under way, and that is iff Android runs and the tab was not hidden for too long |
| `Requests.SaysWhatIsDue` | web/js/protocol.js:60-287 | for each event and state, everything that is sent to server, socket and peer: nothing is left out, added or sent twice |
| `Requests.StreamsMove` | web/js/protocol.js:129-226 | how a stream moves: requested when it begins, forward with the server's messages and the peer, to a retry on a failure, to idle when it is not wanted |
| `Requests.FailedStreamWaits` | web/js/protocol.js:262-271 | a failed stream waits for its next try, longer for each failure in a row |
| `Requests.FailuresAreCounted` | web/js/protocol.js:171-226 | the count starts anew only when the stream was stable, has ended, or is tried again by hand |
| `Requests.LossesAreCounted` | web/js/protocol.js:228-252 | the same for the socket |
| `Requests.LostSocketWaits` | web/js/protocol.js:228-239 | a lost socket is dialled again after a wait that follows that count |
| `Requests.LinkKnowsTheLatest` | web/js/protocol.js:84-147 | over any run the link knows what was said last: status on this socket, size, version, visibility, pause |
| `Requests.ReasonIsShown` | web/js/protocol.js:149-271 | why a stream failed, in the server's words if it has any, until video flows again |
| `Protocol.BackoffDoubles` | web/js/backoff.js:4-13 | the wait doubles with each failure up to ten seconds, give or take a quarter |
| `PageObject.Page.Dispatch` | web/js/main.js:75-81 | the page's variables after an event are the specification's, in step with the link; no effect runs where it makes no sense |
| `PageObject.Page.RunAll` | web/js/main.js:77 | the effects run one after another, each fitting the page it finds |
| `PageObject.Page.RunEffect` | web/js/main.js:47-73 | what each effect does to timers, session and peer |
| `LinkObject.Link.Handle` | web/js/protocol.js:66-71 | the object's state and effects after an event are the specification's |
| `LinkObject.Link.On` | web/js/protocol.js:84-127 | the handlers, event by event |
| `LinkObject.Link.Message` | web/js/protocol.js:129-169 | the handlers of messages |
| `LinkObject.Link.PeerChanged` | web/js/protocol.js:210-226 | the handler of peer states |
| `LinkObject.Link.SocketLost` | web/js/protocol.js:228-239 | a lost socket ends the stream, drops the status and arms its retry |
| `LinkObject.Link.Reconcile` | web/js/protocol.js:274-287 | a stream that is not wanted ends; one that is wanted and idle is requested |
| `Touches.FreeIffRoom` | web/js/touches.js:27-31 | at most ten fingers, and an id is free iff there are fewer |
| `Touches.MessagesAreShort` | web/js/touches.js:33-72 | every message has at most ten points with distinct ids from 1 to 10 |
| `Touches.TouchTable.FreshId` | web/js/touches.js:27-31 | the lowest id that no finger uses |
| `Touches.TouchTable.Press` | web/js/touches.js:40-45 | the table with the finger, and a message of all fingers, or nothing when ten are down |
| `Touches.TouchTable.MoveTo` | web/js/touches.js:48-53 | the finger moves; the result says whether anything changed |
| `Touches.TouchTable.Lift` | web/js/touches.js:59-64 | the finger goes, and is listed once more with pressure 0 |
| `Touches.TouchTable.ReleaseAll` | web/js/touches.js:67-72 | an empty table and one message that lifts everything |
| `Pointers.TakeAllKeepsLinked` | appliance/input.py:262-280 | any message keeps contacts and screen one to one and leaves other sessions' contacts alone |
| `Pointers.ListingShows` | appliance/input.py:262-280 | a message that lists a table puts each finger on the screen where and as hard as the browser says |
| `Pointers.OneEventForAMessage` | appliance/input.py:277-280 | one event for a message does to the screen what its points do one after another |
| `Pointers.ReleaseLeavesNothing` | appliance/input.py:291-300 | after a release the screen shows nothing of the session and everything of the others |
| `Pointers.MouseIsAFinger` | appliance/input.py:282-289 | the left button is one touch at the mouse, fully pressed, if there is room; without it the mouse lifts what it had pressed and is nothing otherwise |
| `Pointers.LiftIsWhereItWas` | appliance/input.py:291-296 | the lift of a contact names it, where it was last seen |
| `Pointers.Pointers.TakePoint` | appliance/input.py:262-275 | press, move, lift, unknown lift and the limit of ten, with the order of the dictionary |
| `Pointers.Pointers.TakeMessage` | appliance/input.py:277-280 | the points of a message in order |
| `Pointers.Pointers.TakeMouse` | appliance/input.py:282-289 | the left button is a finger; Back once for each press of the right one |
| `Pointers.Pointers.Release` | appliance/input.py:291-300 | one lift for each contact, where it was last seen, in the order of the dictionary |
| `Fingers.FingersAreOnTheScreen` | web/js/touches.js:15-73 | after any run of presses, moves, frames, lifts and other sessions' doings, the session's contacts on the screen and the fingers of the table are in bijection; unless a move waits for its frame, each contact is on the pixel nearest to its finger and pressed as hard |
| `Fingers.TableFollowsThePointers` | web/js/input.js:74-132 | over any run the table lists exactly the pointers that the browser reported down, up to ten, where and as hard as it reported them last |
| `Fingers.LiftIsLast` | web/js/touches.js:59-64 | the message of a lift lists the fingers that stay, and last the lifted one at its place with pressure 0 |
| `Fingers.FrameShowsTheMove` | web/js/input.js:155-164 | after the next frame every finger is on the screen where the table has it |
| `Fingers.StepInv` | web/js/input.js:74-132 | every step keeps the three layers together |
| `Fingers.DownMatchesIffNew` | web/js/touches.js:40-45 | a press keeps them together iff the pointer was up or ten are down |
| `Fingers.PressedTwiceStaysDown` | web/js/touches.js:40-45 | a pointer pressed twice and lifted leaves a contact down |
| `Pressed.StepInv` | appliance/session.py:342-537 | every step of lane, reader, wheel and close keeps what is down covered |
| `Pressed.EverythingDownIsCovered` | appliance/session.py:362-537 | in any run each key or contact that is down is held, being released, or had a release that did not arrive |
| `Pressed.CloseLeavesWhatWasLost` | appliance/session.py:342-375 | a closed session leaves down exactly what it lost: nothing, if no release was cut off |
| `Pressed.LosesIffCutOff` | appliance/session.py:342-510 | a step loses something iff it cuts off the release of something that is down and not otherwise covered |
| `Pressed.CutOffKeyStaysDown` | appliance/session.py:342-375 | a run whose close cuts off a key-up and leaves the key down |
| `Pressed.UpInv` | appliance/session.py:484-499 | an up message sends the release of what its name holds, through aliased and dropped names |
| `Pressed.NoModifierDuringAPaste` | appliance/session.py:519-537 | during a paste the only modifiers down are those whose release did not arrive |
| `Pressed.PasteRestoresModifiers` | appliance/session.py:519-537 | a paste whose sends arrive happens with every held modifier up and leaves exactly the held ones down again |
| `Pressed.TouchesFollow` | appliance/input.py:262-280 | what a message presses is a contact after it; what stops being a contact is lifted |
| `Pressed.EffectIsOnTheScreen` | appliance/input.py:277-280 | the effect of an event is what it does to the screen |
| `Inputs.TypedTextIsSent` | appliance/input.py:187-207 | a typed text of printable ASCII is sent as one key press for each character, in order, and holds nothing |
| `Inputs.WhatIsSent` | appliance/input.py:187-215 | a key or button that is not held is sent iff it is not one of the four dropped keys, the up of a character, or a character outside ASCII |
| `Inputs.HoldAndRelease` | appliance/session.py:484-499 | a key that goes down, repeats and goes up is sent down once and up once, is down in between, and leaves everything as it was; a thirty-third key is refused |
| `Inputs.OtherCharactersArePasted` | appliance/input.py:198-203 | a character outside ASCII is pasted if it has a shape, with the modifiers let go first |
| `Inputs.ButtonsAreApart` | appliance/input.py:31-54 | the seven buttons are seven keys, each the one that Android reads as it |
| `Inputs.KeysMeanButtons` | appliance/input.py:175-177 | ContextMenu and Menu are the menu button, BrowserHome the home button, and every other key itself |
| `Inputs.ModifiersAreUpDuringAPaste` | appliance/session.py:519-537 | none of Control, Shift, Alt, AltGraph and Meta is down during a paste unless its release did not arrive |
| `Inputs.CancelledPasteRestores` | appliance/session.py:519-537 | a paste that is cancelled still presses the held modifiers again |
| `Inputs.NotchesAddUp` | appliance/session.py:431-453 | over any run, what the wheel was turned by is what drags were started for and what still waits |
| `Inputs.DragIsForWhatWaits` | appliance/session.py:440-453 | a drag starts with all that waits, from the last place, iff that is enough for one; otherwise it goes on waiting |
| `SessionObject.Session.PressKey` | appliance/session.py:484-499 | `_press` up to its first await |
| `SessionObject.Session.StartToPaste` | appliance/session.py:519-528 | a paste begins with the held modifiers, in their order |
| `SessionObject.Session.WheelMessage` | appliance/session.py:431-438 | notches add up; a task starts when none runs |
| `SessionObject.Session.ScrollOnce` | appliance/session.py:440-453 | the head of the wheel's loop |
| `SessionObject.Session.LetGoOfAll` | appliance/session.py:362-375 | a lift for every contact and a key-up for every held entry |
| `SessionObject.LetGoLeavesNothing` | appliance/session.py:362-375 | those key-ups release exactly the held keys |
| `Gestures.SwipeIsWellFormed` | appliance/input.py:105-114 | for all inputs one finger: pressed at the start, lifted at the end, each to the nearest pixel, in the frame, one way along the path in exactly its duration, at about 60 points a second |
| `Gestures.TapAndPressAreWellFormed` | appliance/input.py:97-102 | a press and a lift at the one given point, a tap after 0.05 s and a long press after its duration |
| `Gestures.WheelKeepsItsLength` | appliance/input.py:224-245 | wherever a wheel drag starts, the finger goes 1.4 pixels for each unit of the notch the other way, at most 1000, up to the rounding of its ends |
| `Gestures.WheelPointsAreInside` | appliance/input.py:224-245 | every unrounded point of a wheel drag lies in the frame, so that none is clipped |
| `Gestures.RoundIsNearest` | appliance/input.py:79-80 | rounding goes to the nearest integer, and from the middle to the even one |
| `Gestures.BrowserContactIsThere` | appliance/input.py:218-221 | a finger is shown on the pixel nearest to it, at the edge if it is outside, under its own identifier, and as hard as it presses to within one unit of 1024; up iff without pressure |
| `Gestures.TouchIsThere` | appliance/input.py:79-86 | the same for the contacts of gestures, fully down or up |
| `Gestures.WheelIffFarEnough` | appliance/input.py:229-239 | a notch is no drag iff the finger would go less than 30 pixels |
| `Gestures.WheelIsTimed` | appliance/input.py:242-247 | a wheel drag takes 0.12 s and rests 0.08 s before its lift |
| `Gestures.WheelStartsAtThePointer` | appliance/input.py:224-242 | a drag starts where the pointer is when it fits from there |
| `Gestures.PlanDrag` | appliance/input.py:105-114 | the loops of swipe and wheel build the drag |
| `Bucket.EveryWindowIsBounded` | appliance/session.py:81-96 | in every interval of length t at most burst + rate * t calls are granted |
| `Bucket.GrantedIffAllowed` | appliance/session.py:81-96 | a call is granted iff no window of the history would then exceed its share: the bucket refuses nothing it could grant |
| `Bucket.TokensStayInRange` | appliance/session.py:81-96 | the tokens stay between 0 and the burst |
| `Bucket.Bucket.Take` | appliance/session.py:89-96 | the class does this over its whole history |
| `Failures.FullIffFiveRecent` | appliance/auth.py:104-110 | a deque of five without an old front is full iff five failures of the full history are recent |
| `Failures.AppendKeeps` | appliance/auth.py:112-115 | what the sixth append drops never counts again |
| `Failures.Failures.Blocked` | appliance/auth.py:104-110 | blocked iff at least five failures since the last clear lie in the last 60 seconds, with a clock read at every turn of the loop |
| `Failures.Failures.Failed` | appliance/auth.py:112-115 | the failure joins the history; more than 10000 clients start it anew |
| `Chunks.ChunkText` | web/js/keys.js:37-47 | the pieces joined are the text, none is empty or too long, only the last or one before a pair is not full, and no pair is parted |
| `Chunks.StuckIffNot` | web/js/keys.js:37-47 | the loop gets stuck iff the text is not empty and the size is 0, or 1 with a high surrogate before the last unit |

## Left out

- Subprocesses, signals, gRPC, adb, Xvnc, file locks, log files and coturn: only their outcomes appear, as steps.
- HTTP routes, cookies, HMAC, tokens, login links and TURN credentials.
- The MCP tools, the client, the installer, the container and the SDK scripts; view, poster, freeze detection, statistics and the DOM.
- Status texts, phases, `last_error`, the crash history, activity times and timeouts of callers beyond giving up.
- Calls of `Bridge.aclose`, and `receive_jsep` raising at once.
- The attribution of stream messages to one of several starts in flight: messages carry no stream id, so link and session are proved each on its own side.
- `_answer_nobody`, `_fail_ice` and the address of the emulator: the release is one wait that ends in every way; a second answer of a viewer is not told from a first.
- A state file that cannot be read once and can be read later; a user who replaces a directory while `_prepare` runs, or by one with a recorded marker.
- The wheel and touch messages of a session whose send has not returned: the reader handles one message at a time, as in the source.
- Fingers.FingersAreOnTheScreen: is about runs without the mouse; a held left button takes one of the ten contacts.
- Key names that `_key` refuses, `isprintable` (an argument), and the queue of the keys lane: any message can be next.
- Pastes that overlap a restart of Android, and what `status_changed` forgets when Android stops.
- The JSON of the candidate that cannot work: only its mid is modelled.
