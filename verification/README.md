# LAN room: upload protocol, message hub and limiters, modelled and proved in Dafny

The program is a small hub for a local network: browsers and an Android app chat and exchange files through one
Go server. This project models the parts of it that are hard to get right and proves what they promise, for all
inputs, all runs and all interleavings.

`dafny verify dfyconfig.toml` verifies everything.

## What is modelled

**Resumable uploads.** `UploadModel` is the server as a state machine. For each upload id a cell holds the session
object, the uploads and files entries, the `.part` and final file, and how far the holder of the session mutex has
come. A handler is several operations, cut wherever another goroutine can interfere: taking the mutex, each piece
of the body, the end of the copy, rename, removal from the uploads map, registration. The map lookup is an earlier
step of its own, so a request may reach the mutex with a session that is long finished. A list of events is a run;
an event that cannot happen changes nothing, so a statement about every list covers loss, delay, duplication,
reordering and truncation. `UploadInvariants` and `UploadTheorems` hold the proofs. `UploadServer` has the handlers
as methods that change maps, session objects and a disk in place; each is proved to do what a sequence of
operations of the model does. `UploadCompletion` says over whole runs which requests are told about a finished file.

`WebUploader` and `DartUploader` are the two clients, loop for loop, run against that server through `Exchange`,
where each request meets an arbitrary fate, an answer from somebody else included, and anything the others do may
come first. `WebLoop` is the web client's loop as a machine that makes one turn at a time; `WebTheorems` says what it
may be trusted with and when it stops, `WebProgress` how many PUTs it takes and when it succeeds, and `WebResume`
which failures it gets over and what the next attempt makes of the record. `DartJob` is the life of the
persisted upload job of the Dart client at the granularity of its await points, with asynchronous storage and
crashes; the methods of `DartUploader.Room` move it, and `DartTheorems` says what becomes of it over every run.

**Message hub.** `HubModel` has one event for each critical section of `hub.go`, so Register is several and
SendMessage is three. Clients are kept with everything ever sent on their channel, the frames that deliver loops
have yet to bring to them, and their pending retries; a round of a retry is a look at the clock and, later, the section
under the lock. Presence is two sections, the list of devices and its delivery.
`HubInvariants`, `HubRuns`, `HubTheorems` and `HubCascade` hold the proofs of what the hub guarantees, and `HubSections`
says what each critical section does to channels, retries and registrations. `HubOrder`,
`HubWelcome`, `HubPresence` and `HubStale` say exactly how far the order of frames can be relied on, and `HubScenes`
has the runs that show where it cannot. `HubScreen` is the chat list that the browser makes of the frames. `HubServer` and `HubHistory` have the hub's objects as classes: the clients map, the queues, the
history slice compacted in the array it lives in. A valid hub carries a run of the model, so what holds for every
run holds for it (`Hub.QueuesAreSafe` is the example).

**Limiters.** `FixedWindow` is the counting argument shared by the wrong-PIN limiter (`AuthModel`, `AuthTheorems`,
and the class in `AuthServer`) and by the cap of the discovery responder (`Discovery`). `ClientAddress` is the key
the PIN limiter counts under.

## Assumptions

- Upload ids and session tokens are fresh; `os.Rename` is atomic (it may fail: the answer is 500 and the session
  stays); `os.Truncate` and `os.Remove` succeed (the code ignores or only logs their errors).
- The clock never goes back. A reading taken before the wait for a lock may be old when it is used: that holds for
  `prune`, `sendHistory`, `deliverSlow` and both cleanup loops. `recordFail` and the discovery loop read it twice.
- Creating a session is one step: its id reaches nobody before the answer.
- All PUTs of one session carry slices of one file (`UploadTheorems.Honest`). The clients are proved to send
  nothing else; two files with equal name, size and modification time share a record in the browser.
- "Later" is the order of the critical sections. A GET writes its answer after it has released the mutex, so on the
  wire a smaller offset can still follow a larger one.
- The pumps of a client may run as soon as it is registered; in the program they start when Register returns.
- Nobody but the server answers with an upload state: a 200, 201 or 409 from somebody else has a body that is null, or
  one without `uploadId`, `offset` and `file`. Any other status may come from anybody.
- One retention for sessions and files, as in the cleanup loop.
- Secure storage takes writes in the order in which they were issued; picking a file makes a new job.

## Where the code differs from what one might expect

- `docs/api.md` says a GET after completion returns the file and a PUT with the wrong offset gets 409. A request
  that looked its session up before completion gets 404 instead, and one that comes between the removal of the
  session and the registration of the file does too. `UploadCompletion.WhoGetsTheFile` says exactly which requests
  are told about the file; `LookupInTheWindow` and `LateGetMissesTheFile` are runs that end in 404.
- `docs/api.md` lists welcome, history and presence in that order. The welcome frame comes first if and only if, when
  the client registers, nobody else is registered or registering and no list or message is on its way:
  `HubWelcome.WelcomeComesFirst`. `HubWelcome.WelcomeComesSecond` is a
  run in which it does not.
- The upload loop of the web client does not stop on every network. A 200 or 409 that is not the server's costs no
  retry and no pause, so a proxy that answers every PUT in that way keeps it going (`WebTheorems.PagesForEver`). It
  stops if and only if there are finitely many such answers: `WebTheorems.StopsIffCalm`.
- A history frame replaces the chat list, so a message that a client gets between its snapshot and the history frame
  vanishes from the list. `HubScreen.WhatTheListLacks` says exactly which ones; `HubScreen.DeliveredButNotListed` is a run.
- Frames do not arrive in the order in which they were sent. `HubOrder.EitherOrder` has the exact condition;
  in `HubScenes.RetryIsOvertaken` a message waits in deliverSlow while a newer one arrives.
- The limiter is not "five wrong PINs in any minute": nine are possible one after the other, and more with
  concurrent requests. `AuthTheorems.WrongPinsPerMinute` has the bound; `AuthTheorems.BoundsAreMet` shows that it is
  met, whatever the number of concurrent requests.
- A job cancelled in the Dart client can still be posted: if the process dies before the empty value reaches the
  storage, the next start finds the job. `DartTheorems.PostedAgainIffStillStored` is the exact condition,
  `DartTheorems.CancelledJobPosted` an instance. The same window can post a message twice.
- The last presence frame a client gets need not show who is online, since making and delivering a list are two
  sections: `HubPresence.StaleListComesLast` is a run. `HubStale.OldListCanFollow` says exactly when an old list can
  follow the latest, and `HubStale.StaleListCanStay` when a client can be left with one. What does hold is
  that the list made last is right and reaches everybody: `HubPresence.EverybodyGetsTheLatest`.

## Model

| member | source | states |
|---|---|---|
| UploadInvariants.Lifecycle | internal/server/upload.go:193-310 | in every run, whenever a session's mutex is free its upload is open (listed, `.part` within the size, no final file), complete (registered, final file of exactly the size, no `.part`) or gone, and only one of them |
| UploadInvariants.StepKeepsCellInv | internal/server/upload.go:201-310 | every section of every handler, cleanup included, keeps the invariant of the upload, whoever is inside the mutex |
| UploadInvariants.StaleRequestsAreInert | internal/server/upload.go:201-231 | after completion, cancellation or purge no request that looked the session up earlier can write, recreate or delete the upload's data, in any continuation; only expiry takes the file |
| UploadInvariants.ReportedOffset | internal/server/upload.go:213-284 | the offset in any answer lies between what was reached before and after the answering step |
| UploadInvariants.ExecAdvances | internal/server/upload.go:237-310 | along any run the upload never falls back and its name, type and size stay |
| UploadTheorems.AcknowledgedOffsetsAreMonotone | internal/server/upload.go:203-284 | of two offsets reported for an id in one run by any 200, 409 or GET, the later is not the smaller |
| UploadTheorems.EndToEndIntegrity | internal/server/upload.go:237-297 | under any loss, delay, duplication, reordering or cut of requests the `.part` is a prefix of the source file, also in mid-chunk, and a registered file equals it |
| UploadTheorems.ChunkEffect | internal/server/upload.go:252-275 | whatever interleaves with the copy, after any number of bytes: 413 if and only if that is more than 8388608 or than the size has room for, and then the bytes are as they were; 400 if and only if the copy broke off within the limit; in all cases but the first exactly the prefix that arrived is added |
| UploadTheorems.PutStarts | internal/server/upload.go:241-256 | a PUT that has the mutex is answered 404 without a `.part`, 409 at any other offset, 500 if the file cannot be opened, and copies its body otherwise |
| UploadTheorems.BytesArrive | internal/server/upload.go:259-260 | bytes of the body are appended in order, up to the first one that is too much |
| UploadTheorems.PutAnswers | internal/server/upload.go:251-285 | the answer to a whole PUT at the right offset and the upload it leaves, by how much arrived, whether the copy ended well and whether the rename worked |
| UploadTheorems.PurgedSessionsWereIdle | internal/server/upload.go:299-310 | a cleanup visit drops a session only if it was not created or touched and no chunk was being written at or after the cutoff: all that is longer ago than the retention |
| UploadTheorems.ExpiredFilesWereOld | internal/server/server.go:135-148 | cleanup unregisters a file only longer than the retention after it was registered, in every interleaving |
| UploadTheorems.CleanupTakesTheOld | internal/server/upload.go:299-310 | conversely: a visit takes away a session with its `.part`, or a file with its bytes, exactly when it is older than the cutoff, and nothing else |
| UploadTheorems.DeleteTakesThePart | internal/server/upload.go:225-230 | a DELETE that finds a session delists it and takes the `.part` away, unless the upload is complete, which it leaves alone; 204 |
| UploadTheorems.WhoFindsNoSession | internal/server/upload.go:201-210 | in every state that keeps the invariant: a request that finds no session changes nothing and is told about the file if there is one, but a DELETE of a registered file gets 404 |
| UploadTheorems.PutAsSteps | internal/server/upload.go:237-297 | a PUT that runs through the mutex does what its single operations do and gives exactly one answer |
| UploadTheorems.RunOpsIsExec | internal/server/upload.go:193-310 | operations on one upload are events of the whole server that leave every other upload alone |
| UploadTheorems.FailuresKeepTheUpload | internal/server/upload.go:253-281 | when a PUT is answered 400 or 500, in terms of what arrived; and then the upload is open with exactly the bytes that had arrived added (none if the `.part` could not be opened) |
| UploadTheorems.CompletionIsRecoverable | internal/server/upload.go:274-297 | a `.part` of full size is finished by an empty PUT if and only if the rename succeeds; otherwise nothing is lost |
| UploadTheorems.CompletionIsIdempotent | internal/server/upload.go:201-207 | until the file expires, every request but DELETE that looks the id up after completion is told about the same file |
| UploadTheorems.StaleSessionsMissTheFile | internal/server/upload.go:211-245 | once the file is registered a request is answered 404 if and only if it still holds the session from before; it changes nothing |
| UploadCompletion.WhoGetsTheFile | internal/server/upload.go:201-231 | over the whole run of an upload that completes, for every GET or PUT that found no session, or found it and has the mutex after the session has left the map: the file if and only if the lookup came after the registration, 404 if and only if it came before |
| UploadCompletion.LookupInTheWindow | internal/server/upload.go:294-295 | a run from the start in which a lookup between delisting and registration is answered 404 |
| UploadCompletion.LateGetMissesTheFile | internal/server/upload.go:214-221 | a run from the start in which a GET that found the session is answered 404 after completion |
| UploadServer.Server.HandleUploadCreate | internal/server/upload.go:135-191 | 400, 413, 500 or a new session; what is in the maps and on the disk afterwards; nothing else touched |
| UploadServer.Server.FinishUpload | internal/server/upload.go:288-297 | rename, delist and register move the `.part` to the final name; a failed rename changes nothing |
| UploadServer.Server.WriteChunk | internal/server/upload.go:253-272 | append and touch the session; oversize is rolled back and answered 413, an interrupted copy keeps its prefix and is answered 400 |
| UploadServer.Server.PutChunk | internal/server/upload.go:237-285 | with a session pointer that may be stale: each of its nine outcomes, told by the bytes on the disk before and what arrived: the answer, the disk, both maps and the time of the session; no other id changes |
| UploadServer.Server.LoadSession | internal/server/upload.go:201-211 | the session if listed, else the file's state, or 404 for DELETE and for unknown ids |
| UploadServer.Server.HandleGet | internal/server/upload.go:214-222 | the length of the `.part`, or 404 for a session that has none any more |
| UploadServer.Server.HandleDelete | internal/server/upload.go:225-230 | the session is off the map and its `.part` off the disk, nothing else is touched, 204; which is the two modelled operations |
| UploadServer.Server.VisitSessions | internal/server/upload.go:299-310 | exactly the sessions touched at or after the cutoff stay listed; the others lose their `.part`; every other entry and file stays as it is |
| UploadServer.Server.VisitFiles | internal/server/server.go:135-146 | exactly the files registered at or after the cutoff stay registered; the others lose their bytes; everything else stays as it is |
| UploadServer.Server.PurgeExpiredFiles | internal/server/server.go:135-148 | afterwards a session is listed, or a file registered, if and only if it was before and is not older than the retention; exactly those taken out have lost their bytes; everything else is as before |
| UploadServer.CleanupAsSteps | internal/server/server.go:135-148 | what a pass does to an upload is the run of the four modelled cleanup operations |
| Exchange.PutAnswer | internal/server/upload.go:237-285 | what an answer to a PUT may be taken to mean: 200 moved the offset by the chunk, 409 corrects it, a file means that the server has it registered and holds exactly its bytes |
| Exchange.GetAnswer | internal/server/upload.go:201-222 | the same for a GET |
| Exchange.OthersLosesNothing | web/static/app.js:982-1041 | the behaviours allowed to the others during an exchange are all honest ones |
| Exchange.PutTurnIs | web/static/app.js:993-1005 | one PUT over an arbitrary network, answers of others included: the upload stays sound; a 200 of the server that completes nothing moved it by the whole body from the offset sent, a 409 means that the offset was wrong |
| Exchange.SmoothPut | internal/server/upload.go:237-285 | if nothing goes wrong a PUT at the right offset adds its body, and completes the upload when that was the rest; at any other offset it is corrected and changes nothing |
| Exchange.PutChunk | mobile/lib/room.dart:590-596 | one PUT of the Dart client over an arbitrary network: the upload stays sound and an offset answered by the server, also with 409, is beyond the one sent |
| WebLoop.StepIsSound | web/static/app.js:989-1026 | every turn of the loop keeps: the session is one for this file, the offset is one the server has reached, a file the client was told about is registered and held in full |
| WebLoop.StepIsCounted | web/static/app.js:1000-1012 | the failure counter is the number of failed PUTs since the last one answered 200, and the resume record is this session's while the loop runs |
| WebTheorems.WhatIsReturned | web/static/app.js:982-1041 | on every network, whenever the attempt has ended: a file is returned only if the server has it registered and holds exactly its bytes; only slices of the file were sent; once a PUT was sent, giving up, a null body and errors that are 5xx, 400, 401 or without a status leave the record of this session, and success, a cancel and all other errors leave none; it gives up exactly after more than 10 failures in a row |
| WebTheorems.StopsIffCalm | web/static/app.js:989-1026 | the loop ends if and only if finitely many of its PUTs are answered 200 or 409 by somebody who is not the server |
| WebTheorems.PagesForEver | web/static/app.js:1000-1005 | if every exchange is answered so, it has sent n PUTs after n turns, for every n |
| WebProgress.PutsPerChunk | web/static/app.js:989-1026 | when nobody else acts, at most 21 PUTs for each chunk and 22 more for each such answer, at any moment |
| WebProgress.TallyBound | web/static/app.js:989-1012 | the counting behind that bound |
| WebProgress.NewUploadSucceeds | web/static/app.js:960-1041 | if nothing goes wrong a new upload succeeds, with one PUT for each chunk, and none for an empty file |
| WebProgress.ResumedUploadSucceeds | web/static/app.js:960-1041 | if nothing goes wrong a recorded upload succeeds, with one PUT for each chunk that is missing, and one at least |
| WebResume.FinalFailure | web/static/app.js:1006-1008 | a PUT answered with an error that is not 5xx and not 400 ends the attempt with that status |
| WebResume.RetriedFailure | web/static/app.js:1006-1026 | any other failed PUT counts; the eleventh in a row gives up; before that the server is asked, and each of its answers leads where the code says |
| WebResume.TenLossesAreSurvived | web/static/app.js:1006-1026 | up to ten turns in a row with no connection cost one PUT each, and then the upload succeeds |
| WebResume.ElevenAreNot | web/static/app.js:1009-1010 | after eleven it gives up, with the record kept and the session at the server as it was |
| WebResume.TheNextAttemptGoesOn | web/static/app.js:1027-1037 | an attempt after giving up goes on where the last one was, with one PUT for each missing chunk |
| WebResume.ForgottenRecord | web/static/app.js:960-975 | a record that the server answers with 404 leads to a new upload, which succeeds like any other if nothing goes wrong |
| WebResume.FinishedRecord | web/static/app.js:960-965 | a record of a complete upload is answered with the file, nothing is sent and the record is dropped |
| WebResume.OpeningFails | web/static/app.js:960-975 | what a lost, cancelled or refused first exchange leads to, and what becomes of the record |
| WebUploader.OpenUploadSession | web/static/app.js:960-975 | continue the recorded session, or create one and record it unless it is already complete, or throw: exactly the start of the machine |
| WebUploader.AfterFailure | web/static/app.js:1007-1026 | throw, give up, be cancelled, or go on with what the server reports: exactly the retry of the machine |
| WebUploader.UploadResumable | web/static/app.js:982-1041 | on a network with finitely many 200 and 409 answers that are not the server's it ends, with the result, the server and the record of the machine; so what is proved of the machine holds of it, the bound on the PUTs and the success of a new upload included |
| DartUploader.Room.SendFile | mobile/lib/room.dart:566-610 | the loop ends because every answered turn raises the offset or completes, also on 409; the stall counter stays at zero; if nothing goes wrong it completes with one PUT for each MiB that is missing |
| DartUploader.Room.FetchState | mobile/lib/room.dart:546-561 | a saved session that is answered with a state is resumed with exactly that offset and file; only a 404 makes it create another; any other answer, or none, ends with the saved id kept; known no further than the server has come |
| DartUploader.Room.HandOff | mobile/lib/room.dart:611-625 | the message is handed to an open socket and only then the job leaves memory, in one step between two awaits |
| DartUploader.Room.CancelUpload | mobile/lib/room.dart:666-673 | a cancel moves the generation on, drops the job and issues the write that empties the storage; without a job it does nothing |
| DartUploader.Room.ResumeUpload | mobile/lib/room.dart:527-643 | never stalled; Posted only for a file that the server has registered and holds exactly; a pause keeps the job; at most one message; if nothing goes wrong and the socket is open, a saved session that can go on is posted after one PUT for each missing MiB under its old id, and a job whose session is new or gone after one PUT for each MiB; everything that happens to the job is a run of its model |
| DartJob.NextKeepsInv | mobile/lib/room.dart:494-692 | every step between awaits, every storage write and every crash keeps: whatever storage holds or will hold before the present job is settled |
| DartTheorems.SavedJobsSurvive | mobile/lib/room.dart:523-526 | a saved job stays in memory and storage through every interleaving and crash until posted or cancelled |
| DartTheorems.StoredJobsOutliveCrashes | mobile/lib/room.dart:523-526 | once the writes under way have taken effect, a crash changes nothing: the next start finds the job there was |
| DartTheorems.DroppedOnlyWhenSettled | mobile/lib/room.dart:541-643 | memory lets go of a job only when it is posted or cancelled, or by a crash before it was ever saved |
| DartTheorems.PostsThePendingJob | mobile/lib/room.dart:611-624 | a hand-off posts the job in memory and no other |
| DartTheorems.NotPostedInThisLife | mobile/lib/room.dart:666-692 | without a crash, a job that has left memory is not posted any more |
| DartTheorems.CancelledIsNotPostedInThisLife | mobile/lib/room.dart:611-673 | a job cancelled at any moment is not posted by what follows in this life of the process |
| DartTheorems.PostedAgainIffStillStored | mobile/lib/room.dart:54-58 | a job that has left memory can still be posted if and only if storage holds it or a write under way will make it |
| DartTheorems.CancelledJobPosted | mobile/lib/room.dart:666-673 | an instance: saved, cancelled, the process dies, resumed, posted |
| HubTheorems.ChannelSafety | internal/hub/hub.go:176-190 | a channel is closed exactly when its client has been registered and removed; nobody sends on a closed channel or closes it twice; it never exceeds its buffer |
| HubTheorems.FrameConservation | internal/hub/hub.go:260-304 | a frame handed to deliver is for each accepted client in exactly one place: once on the channel, ahead of the loop, with one retry, or dropped, and dropped only for a removed client |
| HubTheorems.NoStrayFrames | internal/hub/hub.go:260-304 | every frame on a channel is there once, and a chat or presence frame only if it was offered |
| HubTheorems.DeliverReachesAll | internal/hub/hub.go:260-269 | deliver offers a message to exactly the registered clients whose device sent it or is named in it, or to all if it is for everybody |
| HubTheorems.SnapshotIsTheWholeLog | internal/hub/hub.go:141-174 | lazy compaction in place is unobservable: a snapshot is the whole log filtered by cutoff and visibility, in order; after a wait for the lock this holds from the later of its cutoff and the last compaction's on |
| HubTheorems.RetentionIsKept | internal/hub/hub.go:142-146 | despite whole seconds a message is shown up to the retention and less than one second longer, plus what the snapshot has waited for the lock |
| HubTheorems.JoinCompleteness | internal/hub/hub.go:122-160 | for a client whose channel had room when its history frame came up, whenever it is still registered: every visible message had expired by its snapshot, is in its history frame, was offered as its own frame, or is just being delivered |
| HubTheorems.FreshIsAFilter | internal/hub/hub.go:166-172 | the filter by age looks at each message by itself and keeps the order |
| HubTheorems.VisibleIsAFilter | internal/hub/hub.go:81-91 | the filter by visibility likewise: for everybody, from this device, or naming it |
| HubSections.WelcomeIsSent | internal/hub/hub.go:127-128 | in every reachable state: the welcome frame is put on the channel if and only if the client is registered and fewer than 256 frames wait there |
| HubSections.HistoryIsSent | internal/hub/hub.go:151-160 | in every reachable state: the history frame likewise, if and only if the snapshot is not empty |
| HubSections.MessageIsOffered | internal/hub/hub.go:81-91 | in every reachable state: deliver comes to exactly the registered tabs that may see a message, all those of the sender's own device among them |
| HubSections.ListIsOffered | internal/hub/hub.go:214-223 | in every reachable state: and with a presence list to exactly the registered ones |
| HubSections.VisitSends | internal/hub/hub.go:264-273 | it sends at once if fewer than 256 frames wait, and starts a deliverSlow otherwise |
| HubSections.RetryLooks | internal/hub/hub.go:279-302 | a deliverSlow sleeps 150 ms after each round; it has another one exactly if its deadline, 3 s after it began, is ahead |
| HubSections.RetryRound | internal/hub/hub.go:282-295 | in every reachable state: a round, of which there are at most 20, sends if there is room, ends if the client is gone, and else counts |
| HubSections.ThreeSecondsOfPatience | internal/hub/hub.go:279-302 | in every run: a client is given up on only when a frame has waited three seconds for room |
| HubSections.LeaveRemoves | internal/hub/hub.go:176-190 | in every reachable state: the first Unregister removes the client, closes its channel and has presence broadcast, a later one does nothing |
| HubSections.DisconnectRemoves | internal/hub/hub.go:176-190 | the same for a deliverSlow that has given up, which drops its frame |
| HubSections.EveryMessageIsLogged | internal/hub/hub.go:162-174 | in every run: a composed message is on its way to the history or has been added to it |
| HubSections.MessageIsMade | internal/hub/hub.go:226-233 | a message is made unless it is directed at nobody valid; its serial, sender, whole-second stamp and whether it is directed |
| HubWelcome.WelcomeComesFirst | internal/hub/hub.go:122-139 | without further messages and connections the welcome frame is the first one a client gets in every continuation, if and only if at that moment no list of devices is due or under way, nobody else is registered or registering, and no message it may see is on its way |
| HubWelcome.WelcomeComesSecond | internal/hub/hub.go:122-139 | a run from the start in which a presence frame comes before the welcome frame |
| HubOrder.EitherOrder | internal/hub/hub.go:260-304 | of two frames sent, g can come before f if and only if it is before it on the channel already, or f is not there, can still arrive, and g is there or can still arrive; a retry counts only while it has found its deadline ahead or can still do so |
| HubOrder.LostForever | internal/hub/hub.go:279-304 | a frame that no deliver, loop or retry is going to bring never arrives |
| HubOrder.Secure | internal/hub/hub.go:279-296 | every retry to a client that can have another round can look at the clock in time for it, all of them in one run in which nothing else happens |
| HubOrder.Arrive | internal/hub/hub.go:260-304 | a frame that can then arrive can be the next one to arrive, without time passing and without spoiling that for any other |
| HubScenes.RetryIsOvertaken | internal/hub/hub.go:279-304 | a run from the start in which a message in deliverSlow is overtaken by one sent later |
| HubPresence.LatestListIsCurrent | internal/hub/hub.go:198-223 | whenever no broadcastPresence is due and nobody is registering, the list made last is who is online |
| HubPresence.EverybodyGetsTheLatest | internal/hub/hub.go:214-223 | once all lists are delivered, every registered client has or still waits for one frame with that list |
| HubPresence.StaleListComesLast | internal/hub/hub.go:214-223 | a run from the start after which nothing is on its way and the last presence frame of a client is out of date |
| HubStale.OldListCanFollow | internal/hub/hub.go:198-223 | in every reachable state, a client can get a list that differs from the latest one after it, if and only if some such list can come after it in the sense of EitherOrder |
| HubStale.StaleListCanStay | internal/hub/hub.go:198-304 | without anybody coming or going, a client can be left with an outdated list last and none on its way, if and only if all lists on their way to it can still arrive and one of them is outdated, or none is on its way and the last one it has is outdated |
| HubScreen.WhatTheListLacks | web/static/app.js:826-839 | in every run, a delivered message is missing on the client's list if and only if it came before the history frame and the snapshot does not hold it |
| HubScreen.WhatTheListHas | web/static/app.js:826-834 | whatever the snapshot holds is on the list once the history frame is there |
| HubScreen.ListInOrder | web/static/app.js:826-839 | after a history frame the list is its snapshot and then the messages that have come since, in order |
| HubScreen.DeliveredButNotListed | web/static/app.js:826-839 | a run from the start in which a client gets a visible message and does not show it |
| HubTheorems.RecipientsAreSanitized | internal/hub/hub.go:432-457 | distinct, valid, not the sender, at most 16, and all such ids if fewer |
| HubTheorems.FirstComeFirstServed | internal/hub/hub.go:437-455 | the recipients of a prefix are a prefix of the recipients: the first ids are kept, in order |
| HubTheorems.DirectedOrDropped | internal/hub/hub.go:387-391 | a directed message has recipients if and only if some id is valid and not the sender's |
| HubTheorems.DirectMessagesAreConfined | internal/hub/hub.go:81-91 | over whole runs a directed message only reaches channels, retries and history frames of the sender's device and of at most 16 devices it named |
| HubRuns.NextKeepsInv | internal/hub/hub.go:122-304 | every critical section keeps the invariant the theorems rest on |
| HubInvariants.VisitKeeps | internal/hub/hub.go:264-273 | the body of the deliver loop neither loses nor duplicates a frame |
| HubInvariants.AttemptKeeps | internal/hub/hub.go:282-295 | nor does a round of deliverSlow, which ends after at most 20 of them |
| HubCascade.ActivityDescends | internal/hub/hub.go:176-304 | every step but time and work from outside lowers the measure (registered clients, pending starts, visits, attempts, queued frames) |
| HubCascade.CascadeEnds | internal/hub/hub.go:176-223 | without new connections and messages the disconnect cascade ends, from any state of any run and under any schedule |
| HubCascade.RestMeansDelivered | internal/hub/hub.go:176-304 | in every reachable state, only connections, joins, messages and departures can change anything, however much time passes, if and only if no call is under way and every client is quiet; and then every frame offered to a registered client has been received by its pump |
| HubHistory.SanitizeRecipients | internal/hub/hub.go:432-457 | the loop with its early break yields the specified recipients, and refuses exactly a non-empty list without any |
| HubHistory.MessageLog.Compact | internal/hub/hub.go:166-172 | compaction within the array leaves exactly the young enough messages, in order |
| HubHistory.MessageLog.Add | internal/hub/hub.go:162-174 | compact, then append, growing the array when it is full |
| HubHistory.MessageLog.Collect | internal/hub/hub.go:145-149 | the snapshot loop collects exactly the fresh and visible messages, in order |
| HubServer.Hub.QueuesAreSafe | internal/hub/hub.go:176-183 | in any valid hub a channel is closed exactly when its client was registered and removed, and is within its buffer |
| HubServer.Hub.Join | internal/hub/hub.go:122-126 | the first section of Register |
| HubServer.Hub.SendHistory | internal/hub/hub.go:141-160 | the snapshot, and the history frame on the queue exactly if it is not empty, the client is registered and fewer than 256 frames wait |
| HubServer.Hub.Register | internal/hub/hub.go:122-132 | when nothing interleaves: the queue of the newcomer is welcome, history if there is any to see, presence; everybody else with room gets one presence frame |
| HubServer.Hub.Remove | internal/hub/hub.go:176-186 | deleted and closed at most once, whether ReadPump or deliverSlow calls |
| HubServer.Hub.Unregister | internal/hub/hub.go:176-190 | a presence broadcast follows exactly when the client was still registered |
| HubServer.Hub.Compose | internal/hub/hub.go:226-233 | the stamped message, or nothing if it was directed to nobody valid |
| HubServer.Hub.HandleMessage | internal/hub/hub.go:387-391 | one incoming message: dropped, or compacted history plus itself, and a frame on the queue of exactly the clients that may see it and have room; a deliverSlow for those without room |
| HubServer.Hub.Devices | internal/hub/hub.go:198-211 | the loop lists every device online exactly once |
| HubServer.Hub.BroadcastPresence | internal/hub/hub.go:214-223 | when nothing comes in between: the list of who is online is made, and a frame with it goes to everybody with room; a deliverSlow for the others |
| HubServer.Hub.VisitAll | internal/hub/hub.go:264-273 | the deliver loop puts the frame on the queue of every accepted client that has room and starts a deliverSlow for exactly the others |
| HubServer.Hub.BeforeDeadline | internal/hub/hub.go:280-281 | the head of deliverSlow's loop: another round only if the deadline is ahead of the clock read now |
| HubServer.Hub.TrySlow | internal/hub/hub.go:282-295 | one round of deliverSlow: the frame is on the queue if the client is registered and has room; done if so or if the client is gone |
| HubServer.Hub.StillThere | internal/hub/hub.go:297-302 | after the deadline it disconnects only a client that is still registered |
| FixedWindow.AtMostTwoWindows | internal/server/auth.go:141-150 | fixed windows of at most n hits admit at most 2n - 1 in any closed interval as long as a window |
| FixedWindow.AtMostTwoWindowsAndTheFirst | internal/discovery/discovery.go:131-145 | one more only if the interval holds the first hit of a window stamped before it |
| AuthTheorems.WrongPinsPerMinute | internal/server/auth.go:86-150 | with at most k requests of a peer between check and record, in every run: a window counts at most 4 + k wrong PINs, any closed minute since the last right one at most 2 (4 + k) - 1 (9 for one at a time) |
| AuthTheorems.NineIsReached | internal/server/auth.go:127-150 | nine in a closed minute are possible one at a time |
| AuthTheorems.BoundsAreMet | internal/server/auth.go:86-150 | for every k, 4 + k in one window and 2 (4 + k) - 1 in a closed minute are possible |
| AuthTheorems.PruningIsUnobservable | internal/server/auth.go:153-167 | every run gives the answers it gives without its prunes, late clock readings included |
| AuthTheorems.PruneTakesTheExpired | internal/server/auth.go:153-167 | a prune takes exactly the sessions and windows that have run out at its clock reading |
| AuthTheorems.AcceptedForThirtyDays | internal/server/auth.go:48-60 | over every run a token is accepted exactly for 30 days after it was last issued |
| AuthServer.AuthState.Authorized | internal/server/auth.go:48-60 | everybody without a PIN, else holders of a session that has not run out |
| AuthServer.AuthState.TooManyFails | internal/server/auth.go:127-139 | the limit check, which forgets a window that has run out |
| AuthServer.AuthState.RecordFail | internal/server/auth.go:141-150 | count in the present window or open a new one |
| AuthServer.AuthState.Prune | internal/server/auth.go:153-167 | exactly the entries that have run out are removed from both maps |
| AuthServer.AuthState.HandleAuth | internal/server/auth.go:74-125 | the order of the steps: method, PIN off, limit, JSON, PIN, token; the answer and the new state of each |
| Discovery.Receive | internal/discovery/discovery.go:131-145 | which packets the loop looks at further |
| Discovery.AnsweredPerSecond | internal/discovery/discovery.go:131-145 | at most 79 packets get past the cap in any closed second; 80 only if the very first packet is among them and came in the initial window |
| Discovery.DroppedOnlyWhenFull | internal/discovery/discovery.go:142-145 | a packet is dropped only when its window has had its 40 |
| Discovery.EightyIsReached | internal/discovery/discovery.go:131-145 | 80 do get past the cap when the initial window runs out between two bursts |
| ClientAddress.RightmostUntrustedDecides | internal/server/netinfo.go:86-97 | the rightmost hop that is not a trusted proxy decides, whatever is to its left |
| ClientAddress.ForgedHopsAreIgnored | internal/server/netinfo.go:81-103 | what a client puts in front of the header cannot change the answer if and only if the peer is no trusted proxy or some hop is not one |
| ClientAddress.WhoDecides | internal/server/netinfo.go:81-103 | in every case: the peer if it is no trusted proxy, whatever the headers say; the rightmost hop that is none, or the leftmost if all are; X-Real-IP only when the hops say nothing |
| ClientAddress.RealIPMatters | internal/server/netinfo.go:98-103 | X-Real-IP can change the answer if and only if the peer is a trusted proxy and there are no hops or the rightmost untrusted one is no address |

## Left out

- HTTP, JSON, multipart and WebSocket framing, deadlines, ping and pong, QR codes, static files: handlers start from decoded requests. The multipart upload at `/api/upload` only registers a file that never had a session.
- The 405 and malformed-id answers of the upload handlers, and the type and kind filter of ReadPump: one condition each.
- WebUploader.UploadResumable: the DELETE that follows an abort is left to the behaviour of the others; the progress display and the length of the pauses are not modelled; the upload limit of the server (413 on creation) is in UploadServer only.
- DartUploader.Room.ResumeUpload: the check that the job belongs to the selected server, the guards against an offset or local length that no longer fits (excluded for this server and an unchanged file), a 401 marking the room disconnected, and the wait for the file to close in the finally block are not modelled.
- DartUploader.Room.CancelUpload: the DELETE it sends and the removal of the local file come after its first await and are left to the behaviour of the others.
- The connection machine of the room (attach, search, reconnect, login) and the deletion of leftover files at start.
- UploadServer: each handler runs without interruption there; the interleavings are in UploadModel, whose operations the handlers are shown to be made of.
- HubServer: likewise; deliverSlow appears as its sections, since what happens during its sleeps belongs to HubModel.
- Names, platforms and addresses in presence frames, the list of known devices and the recipient names: display data.
- Real-time liveness: cleanup, retries and pumps are steps that may happen at any time.
- The parsing of addresses, UUIDs and device keys: a parsed value or its absence is given.
- UDP sockets, interface enumeration, configuration, file-name cleanup, all user interface code.
