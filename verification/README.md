# Verification of the music streaming platform

Dafny models of the platform's backend and proofs about them. Users upload audio, a pool of workers converts it to HLS,
a playback service hands out playlists and tracks listening sessions, and a statistics service counts plays and
listeners. The services share a PostgreSQL table, an S3 bucket, two Kafka topics and a Redis instance, and each of them
can be interrupted between any two of its calls. The transition systems take one call at a time, and what is proved of
their runs holds for every interleaving of these calls. The theorems of `Presence` and `Statistics` are about histories;
those of `Statistics` take each event and each look as a whole, and `Listeners` says what becomes of them between the
commands.

`dafny verify dfyconfig.toml` checks the whole project.

## How the model is built

**Uploads and conversion.** `Platform` is one labelled transition system for the track rows, the stored objects, the
partitioned job topic with its committed offsets, any number of workers and any number of upload requests. Every step is
one remote call, one local decision, a crash, or an action of the Kafka coordinator. A remote call ends `Ok` or
`Lost(applied)`: an error the caller sees although the service may have carried the request out. Workers die, lose and
gain partitions while still at work, and receive jobs again; the broker may write a job several times and also after its
publish call failed. `PlatformInvariant` is what every reachable state satisfies, `PlatformWorkerSteps` and
`PlatformUploadSteps` prove it step by step, and `PlatformTheorems`, `PlatformStatus`, `PlatformJobs`, `PlatformSaga`,
`PlatformPlaylists`, `PlatformKeys`, `PlatformProgress` and `PlatformScenarios` draw the conclusions.

`Converter` and `UploadHandler` are the code of the worker and of the upload handler in its own imperative form, run on
the services of `Services.Cluster`. Before each of its steps other processes may do anything (`OthersAroundWorker`,
`OthersAroundUpload`); every step the code takes is entered in a trace, and `Valid` says the whole trace is a run of the
transition system. So the theorems about runs are theorems about this code. The code's own actions in that trace are
exactly those its outcomes call for (`Converter.PassWork`, `UploadHandler.SagaActs`).

**Object keys.** `GoPaths` defines the parts of Go's `strings`, `path` and `path/filepath` that keys are built with,
`TrackKeys` the key functions, `TrackStorage` the storage use case as a class over a bucket. `ObjectKeys` proves that
distinct keys have distinct names, and `PlatformKeys` that a bucket addressed by names and the store of `Platform`
addressed by key parts go through the same states.

**Sessions.** `Sessions` is the transition system of the sorted set `active_sessions`, the event topic, pings and stops
between their awaits, commands on their way to Redis, events the broker writes late, and the poller. `Stranding` is
about listeners that no terminal event will follow. `PlaybackApi` is the code of `/ping`, `/stop` and the poller, tied to
that system by a trace.

**Statistics.** `Presence` relates a sorted set that is pruned lazily to the whole history of its commands, `Statistics`
applies it to current listeners and listeners of the day. `Listeners` is the transition system of the Redis commands of
one consumer and of any number of `/stats` requests, each command with its outcome, and `ListenerCounts` compares the
two counts an answer shows. `StatisticsService` is the code of both, tied to that system by a trace. `PlayCounts` is the
transition system of the write-behind play counter, `PlayFlush` the counting and flushing code tied to it.

## What the proofs found

- An exception inside the worker's `try` block never costs a pending job: the block starts only after a successful
  claim, so the row has left `pending`. A pending track is lost if and only if every copy of its job is committed and
  every claim on it raised a database error without effect (`PlatformJobs.JobLostIff`); such runs exist
  (`PlatformScenarios.ClaimErrorLosesJob`), and the track then stays pending (`PlatformJobs.LostForGood`). As long as a
  copy is not committed, a worker that meets no failure can still make the track ready
  (`PlatformProgress.OutstandingCanBecomeReady`). This sharpens the At-Least-Once claim of the repository's
  `README.md:12` and of `audio-converter/main.py:4`.
- Nobody checks that FFmpeg left a playlist. An exit code of zero without one makes the track ready all the same. Its
  key then names nothing (`PlatformScenarios.ReadyWithoutPlaylist`), or the playlist an earlier, failed attempt left
  behind, whose segments need not be stored (`PlatformScenarios.StalePlaylistIsServed`). `PlatformPlaylists.ServedFileIff`
  is exact: the key shows the playlist of the attempt that made the track ready if and only if that attempt's output
  contains one, and otherwise exactly what stood there when that attempt claimed the track. If every conversion with exit
  code zero leaves a playlist, every key is good (`PlatformPlaylists.PlaylistsServeClosingAttempt`).
- An upload answered 500 can leave its object or its row behind (`PlatformScenarios.FailedStoreLeavesObject`,
  `PlatformScenarios.TornInsertLeavesUnbackedRow`). `UploadHandler.ServeHTTP` says in terms of the outcomes of its calls
  exactly when each of the two stays (`ObjectStays`, `RowStays`), and `PlatformSaga.LeftBehindIff` says it of all runs.
- The comment at `audio-converter/main.py:132` says Kafka reassigns the message after such an exception. The loop goes on
  in the same process, a later commit passes the message, and even if it is delivered again its claim is refused: the row
  stays in `processing` until it is deleted (`PlatformStatus.OrphanForever`, `PlatformScenarios.ExceptionOrphansTrack`).
- The `failed` write has no condition on the status. It is safe only because claims are exclusive
  (`PlatformTheorems.ExclusiveClaim`, `PlatformStatus.StepAllowed`).
- The repository's `README.md:13` says playback detects timeouts by Redis keyspace notifications. The code polls a
  sorted set; the model follows the code.
- A listener whose heartbeat meets a removal already on its way is forgotten: the heartbeat is accepted, the removal
  lands, no terminal event follows. `Stranding.PingCanBeForgottenIff` says exactly when.
- A ZREM that raises while the poller purges a member that is not JSON escapes to the outer handler and ends the poller
  (`playback-api/main.py:121-126` and `139-140`). Every other failure stays with its own session
  (`PlaybackApi.Api.PollPass`).
- `/stats` can report more current listeners than listeners of the day: a heartbeat reaches the two sets by two awaited
  commands, and a look can fall between them (`ListenerCounts.CallInBetweenExceeds`) or the second can fail
  (`ListenerCounts.FailedCommandExceeds`). `ListenerCounts.AnswerExact` gives the difference exactly, and
  `ListenerCounts.AnswerWithoutErrors` shows that without errors it is at most one and says exactly when it occurs.
- `/stats` reads whole seconds while events are stamped in fractions, so an event that prunes in the same second can be
  ahead of it. `Presence.LookPromiseExact` gives the exact condition under which the documented answer is shown and
  `Presence.WholeSecondsLeaveGap` a history that violates it. `Statistics.OnlineExact` gives the answer in terms of the
  latest pruning, which lies within the second the look cuts (`Statistics.LimitsWithinClock`).
- Plays counted between the two reads of a flush can be lost, as the code says, and a flush can write its plays twice.
  It does so if and only if its transaction took effect and then the answer of the commit was lost, the second read
  failed, or the deletion had no effect (`PlayFlush.CreditedOnceIff`, and for runs `PlayCounts.OverIff`).
  `PlayCounts.Conservation` accounts for both exactly.

## Model

| member | source | states |
|---|---|---|
| PlatformTheorems.ReachableInv | audio-converter/main.py:64-137 | In every state any run reaches, rows, jobs, claims, uploads, conversion results and committed offsets satisfy the joint invariant, for any number of workers and uploads |
| PlatformTheorems.ExclusiveClaim | audio-converter/database.py:58-73 | At most one worker is between a successful claim on a track and its closing write, and meanwhile the row is `processing` or deleted, through deaths, redelivery and database errors |
| PlatformTheorems.PlayAnswers | playback-api/main.py:156-188 | In every reachable state `/play` finds no track exactly if there is no row, hands out hls/{id}/master.m3u8 exactly if the row is ready, and otherwise tells its status |
| PlatformTheorems.PlayServesWholeAttempt | playback-api/main.py:156-179 | Every key `/play` hands out is `hls/{id}/master.m3u8`, and every file of the attempt that made the track ready, the playlist if it left one, is stored beside it with that attempt's bytes, made from the uploaded bytes |
| PlatformTheorems.RunStoresFile | audio-converter/storage.py:68-92 | Over any run a file stands under a track's prefix if and only if it did before or some worker on that track put it |
| PlatformTheorems.PlayedPlaylistExistsIff | audio-converter/converter.py:41-47 | Whether the key `/play` hands out names anything at all: it does if and only if some worker, in whatever attempt, stored a playlist of the track |
| PlatformPlaylists.ServedFileIff | audio-converter/main.py:94-125 | Over any run a file of a ready track was last stored by the attempt that made the track ready if and only if that attempt's output contains it, and then shows its bytes; otherwise it shows exactly what stood under its key when that attempt claimed the track |
| PlatformPlaylists.PlaylistsServeClosingAttempt | audio-converter/converter.py:9-47 | If every conversion of a run with exit code zero left a playlist, every key `/play` hands out names the playlist of the attempt that made the track ready, with all files of that attempt beside it |
| PlatformTheorems.MadeByClosingWrite | audio-converter/database.py:101-104 | The recorded attempt of a track changes only in the closing write of a worker that finished it, and that write is the one that turns the row from `processing` to `ready` |
| PlatformTheorems.StepLeavesReady | audio-converter/main.py:94-128 | No step changes a ready row or any object under its HLS prefix, except the row delete of the upload that made it |
| PlatformTheorems.ReadyForever | audio-converter/database.py:101-104 | Over any run a ready row and its stored files stay as they are for as long as the row exists |
| PlatformTheorems.PublishedForever | core-api/server/handlers/upload.go:135-147 | A ready track whose upload was answered 201 keeps its row, its playlist and its bytes in every continuation |
| PlatformTheorems.GoneForever | core-api/repositories/query_tracks.sql.go:67-75 | Once the row of a track was deleted no run makes it reappear |
| PlatformTheorems.LateJobChangesNoRow | audio-converter/main.py:86-92 | A worker whose job names a deleted row changes no row, and its claim leads straight to the commit |
| PlatformTheorems.AnsweredHasRow | core-api/server/handlers/upload.go:127-147 | An upload answered 201 has its row, and the broker holds a job for it |
| PlatformTheorems.AnsweredForever | core-api/server/handlers/upload.go:135-147 | An upload answered 201 for a track stays so in every continuation |
| PlatformStatus.StepAllowed | audio-converter/database.py:58-68 | Every change of a status is pending to processing, failed to processing, processing to ready or failed, an insert as pending, or a delete, although the `failed` write is unconditional |
| PlatformStatus.StatusWord | audio-converter/database.py:46-125 | Over any run the statuses of a track form a prefix of a word in pending (processing failed)* processing ready |
| PlatformStatus.ClaimsAndFailures | audio-converter/main.py:86-125 | A track is inserted at most once and ready at most once, and successful claims exceed failed writes by at most one |
| PlatformStatus.OrphanForever | audio-converter/main.py:74-92 | A row in `processing` that no worker holds stays so in every continuation until it is deleted |
| PlatformStatus.OrphanOrigin | audio-converter/main.py:131-137 | A step leaves a row orphaned if and only if the row exists and its holder dies or raises, a claim changes it but reports an error, or its holder's closing write has no effect |
| PlatformJobs.PendingIffNoClaimTook | audio-converter/database.py:58-63 | After any run a row is still pending if and only if no claim on it took effect |
| PlatformJobs.JobLostIff | audio-converter/main.py:86-92 | A track answered 201 is pending with no job left if and only if every copy of its job is committed and every claim on it raised an error without effect; at least one such error then occurred |
| PlatformJobs.LostForGood | audio-converter/main.py:86-92 | A track answered 201 that is pending, with every copy of its job committed and behind all workers, stays pending through every continuation in which the broker does not write its job again, whoever joins, takes over partitions or commits late |
| PlatformJobs.CommittedUnclaimedIff | audio-converter/database.py:85-89 | A worker about to claim a pending track can commit its job at once with the row still pending if and only if the claim raises an error without effect, and the commit covers all it has taken |
| PlatformJobs.NoJobLost | audio-converter/main.py:64-128 | The sufficient half without committed offsets: after any run in which no claim on the track raised an error without effect, a row that is still pending and was answered 201 has its job, with its id and key, at or above the committed offset |
| PlatformJobs.RunAbandons | audio-converter/database.py:85-89 | The history field of abandoned tracks records exactly the claim errors of the run |
| PlatformJobs.OutcomeAtRest | audio-converter/main.py:74-137 | When all jobs are committed and nobody holds a claim, a track answered 201 that is in `processing` is left there for good, and it is pending if and only if it was tried and every claim on it raised an error without effect |
| PlatformProgress.OutstandingCanBecomeReady | audio-converter/main.py:64-128 | From every reachable state in which a track answered 201 is pending and its job is not all committed, a worker that joins, is assigned the partition and meets no failure makes the track ready |
| PlatformSaga.BackedUnlessErased | core-api/server/handlers/upload.go:106-133 | A row's key names a stored object with the uploaded bytes and the row's length if and only if its own upload's object delete has not taken effect; otherwise the key names nothing and the upload is torn |
| PlatformSaga.DefiniteSagaBacksEveryRow | core-api/server/handlers/upload.go:113-133 | With definite inserts and effective row deletes every row of every reachable state is backed by its object, however uploads interleave, fail and compensate |
| PlatformSaga.DistinctRowsDistinctKeys | core-api/server/handlers/upload.go:98-120 | Distinct rows have distinct object keys |
| PlatformSaga.JobsCarryTheirRow | core-api/events/transcode_jobs.go:71-94 | Every job in the topic carries the id and the key of the row of one and the same upload |
| PlatformSaga.UploadTouchesOwnOnly | core-api/server/handlers/upload.go:121-133 | No step of an upload, compensations included, changes the row or object of another upload or any conversion result |
| PlatformSaga.RolledBackForever | core-api/server/handlers/upload.go:128-133 | Once the compensating row delete took effect the id never reappears, whatever workers do with a job the broker kept |
| PlatformSaga.LeftBehindIff | core-api/server/handlers/upload.go:105-133 | After any run the object of an upload is stored if and only if its put took effect and its object delete did not, and its row exists if and only if its insert took effect and its row delete did not |
| PlatformSaga.RefusedLeavesRowIffTorn | core-api/server/handlers/upload.go:121-133 | In every reachable state a refused upload has its row if and only if it is torn |
| PlatformScenarios.FailedStoreLeavesObject | core-api/usecases/track_storage.go:54-61 | A reachable state in which PutOriginal failed after its put: no row, a refused upload and a leftover object |
| PlatformScenarios.TornInsertLeavesUnbackedRow | core-api/server/handlers/upload.go:121-125 | A reachable state in which an insert that took effect while reporting an error leaves a pending row without its object |
| PlatformScenarios.ClaimErrorLosesJob | audio-converter/database.py:85-89 | A reachable state at rest in which a track answered 201 is pending, its job is committed, and it meets the conditions of LostForGood |
| PlatformScenarios.ExceptionOrphansTrack | audio-converter/main.py:131-137 | A reachable state in which an exception left a row in `processing`, and in every continuation it stays there or is deleted |
| PlatformScenarios.ReadyWithoutPlaylist | audio-converter/main.py:110-125 | A reachable state in which a conversion without output made a track ready whose key names nothing |
| PlatformScenarios.StalePlaylistIsServed | audio-converter/main.py:110-125 | A reachable state in which a job written twice made a track ready with the playlist of its first, failed attempt, whose segment is not stored |
| PlatformKeys.ReachableKeys | core-api/server/handlers/upload.go:98-106 | Every key any process holds or stores under is made of slash-free parts |
| PlatformKeys.BucketFollowsStore | core-api/storage/s3.go:74-87 | In every step of every run a bucket addressed by key strings follows the store addressed by key parts: no put overwrites and no delete removes an object of another key |
| Services.WorkerUndisturbed | audio-converter/main.py:64-137 | Whatever other processes do, a worker stays at its place in the loop and its own actions in the trace are the same |
| Services.UploadUndisturbed | core-api/server/handlers/upload.go:98-147 | Whatever other processes do, an upload stays at its place in the saga and its own actions in the trace are the same |
| Converter.GetTrackStatus | audio-converter/database.py:23-43 | The status of the row, and none when the row is missing or the query raises |
| Converter.UpdateTrackStatus | audio-converter/database.py:46-89 | `processing` is written only over pending or failed, any other status whenever the row exists; true exactly if a row changed and nothing was raised |
| Converter.UpdateTrackReady | audio-converter/database.py:92-125 | `ready` and the playlist key are written only over `processing`; true exactly if that happened and nothing was raised |
| Converter.Receive | audio-converter/main.py:64-69 | The next message of the partition is taken and only the position advances |
| Converter.CheckReady | audio-converter/main.py:74-81 | A ready track leads to the commit, anything else, errors included, to the claim |
| Converter.Acquire | audio-converter/main.py:86-92 | The worker holds the job after the claim only if the row was claimable and nothing was raised |
| Converter.Download | audio-converter/storage.py:45-60 | True exactly if the store answers and holds the object, and then the worker goes on with its bytes; otherwise it goes on towards `failed` |
| Converter.Transcode | audio-converter/converter.py:9-47 | Exit code zero goes on with whatever files were left behind, any other towards `failed` |
| Converter.UploadHlsFolder | audio-converter/storage.py:62-98 | The files are put one after the other, each at most once, up to the first that is not stored; true exactly if every put succeeds, and then the whole output stands under the track's prefix |
| Converter.MarkFailed | audio-converter/main.py:102-107 | The failed write is entered in the trace by a worker that holds the row |
| Converter.MarkReady | audio-converter/main.py:123-125 | If the ready write took effect the row is ready or was deleted |
| Converter.CommitOffsets | audio-converter/main.py:127-128 | The commit is the last step of the pass and the worker is idle again |
| Converter.SwallowException | audio-converter/main.py:131-137 | From any place inside the `try` block an exception leaves the worker idle without a commit |
| Converter.Crash | audio-converter/main.py:80-92 | An exception outside the `try` block ends the process without a commit |
| Converter.StaysReadyOrGone | audio-converter/main.py:123-128 | A row that is ready or deleted is still so after whatever happened since |
| Converter.JobEnds | audio-converter/main.py:94-137 | A job succeeds exactly if its object is there and download, conversion, every put, cleanup and commit succeed; it is marked failed exactly if the object is missing or refused, FFmpeg fails or a file is refused, and the commit succeeds |
| Converter.ProcessJob | audio-converter/main.py:94-137 | A claimed job takes exactly the actions of its outcomes, in order, and ends accordingly; the object of an upload answered 201 is found |
| Converter.HandleMessage | audio-converter/main.py:64-137 | One pass takes exactly the actions its outcomes allow, from the delivery to the commit, the swallowed exception or the death of the process; an acquired job of an upload answered 201 succeeds exactly if nothing fails, a failed one names the outcome that failed, and after a success whose closing write took effect the track is ready or was deleted, ready if its upload was answered 201 |
| Converter.Serve | audio-converter/main.py:56-137 | A whole worker life, with other processes at work throughout: every partition assigned is taken over and every message that is there is handled with all its actions, in order, until the worker crashes; the services end in a reachable state |
| UploadHandler.StoreOriginal | core-api/server/handlers/upload.go:105-110 | The object is stored and the upload goes on, or the request is refused with the object left behind exactly if the put took effect |
| UploadHandler.CreateTrack | core-api/server/handlers/upload.go:112-125 | A fresh row id; the upload goes on with the row, or to its compensation with or without one |
| UploadHandler.PublishCreated | core-api/events/transcode_jobs.go:71-94 | Success exactly if the partition exists and the broker acknowledges; whenever it exists, the job with the row's id and key stands in it afterwards, a reported failure included |
| UploadHandler.DeleteTrack | core-api/repositories/query_tracks.sql.go:67-75 | If the delete took effect the row is gone; the saga goes on either way |
| UploadHandler.RollBack | core-api/server/handlers/upload.go:128-133 | Row first, then object, both errors ignored; the upload is refused, torn exactly if it was or the row delete had no effect, and its object stays exactly if the object delete had none |
| UploadHandler.StoreAndPublish | core-api/server/handlers/upload.go:105-148 | The saga takes exactly the steps its outcomes allow; 201 exactly if put, URL, insert and publish succeed; after a 500 the object stays if and only if the put took effect without a usable answer or the object delete had no effect, and the upload is torn if and only if the insert took effect while reporting an error or the row delete had no effect |
| UploadHandler.RefusalIff | core-api/server/handlers/upload.go:63-95 | 413 exactly if the form cannot be read, 415 exactly if both fields are good and the file does not end in .mp3, .flac or .wav, no refusal exactly if everything is good, 400 otherwise |
| UploadHandler.Utf8LengthExact | core-api/server/handlers/upload.go:74-77 | The length limit counts bytes: one a character, and one more from U+0080, U+0800 and U+10000 on |
| UploadHandler.ServeHTTP | core-api/server/handlers/upload.go:59-148 | A refused request does nothing and gets the status of the first failing check; an accepted one stores under raw/{object id}/original{ext} and takes exactly the steps its outcomes allow; it is answered 201 if and only if an id was drawn and put, URL, insert and publish succeed, and then row, object with the uploaded bytes and job are there; a 500 leaves the object and the row exactly in the cases above, whatever others did meanwhile |
| GoPaths.CleanRooted | core-api/usecases/track_storage.go:194-194 | Cleaning a path below the root and dropping the leading slash is resolving its elements |
| GoPaths.CleanRules | core-api/usecases/track_storage.go:194-194 | Below the root empty and "." elements vanish, ".." removes the element before it, and vanishes at the root |
| GoPaths.TrimSpaceExact | core-api/usecases/track_storage.go:193-193 | Trimming takes all space off both ends and nothing else |
| GoPaths.LowerCharExact | core-api/usecases/track_storage.go:170-170 | Lower-casing maps one alphabet to the other letter by letter and changes no other character |
| GoPaths.ExtOfEnding | core-api/usecases/track_storage.go:170-170 | The extension is the last dot of a name with the characters after it |
| GoPaths.PathJoinPlain | core-api/usecases/track_storage.go:178-178 | Joining plain elements puts slashes between them and changes nothing else |
| TrackKeys.NormalizedIsValid | core-api/usecases/track_storage.go:192-205 | A normalised segment is never empty, "." or "..", contains no slash and only allowed characters |
| TrackKeys.NormalizeExact | core-api/usecases/track_storage.go:192-205 | A value normalises exactly if, trimmed and cleaned below the root, it is a single valid segment, and then to that segment; a disallowed character is told from every other fault |
| TrackKeys.FixedIffValid | core-api/usecases/track_storage.go:192-205 | The segments normalisation leaves as they are are exactly the valid ones |
| TrackKeys.NormalizeIdempotent | core-api/usecases/track_storage.go:192-205 | Normalising a normalised segment succeeds and changes nothing |
| TrackKeys.OriginalKeyExact | core-api/usecases/track_storage.go:158-179 | A key exists if and only if the id normalises and the extension is one of the six, and it is exactly raw/{id}/original{ext} |
| TrackKeys.AudioIff | core-api/usecases/track_storage.go:158-190 | The extension of a name is acceptable exactly if the trimmed name ends in one of the six, in upper or lower case |
| TrackKeys.SupportedIff | core-api/server/handlers/upload.go:158-173 | The handler accepts exactly the names that end, but for space, in .mp3, .flac or .wav in upper or lower case |
| TrackKeys.ValidKeyIff | core-api/usecases/track_storage.go:208-215 | A key is refused exactly if only space or a dot is left of it below the root; a slash in front changes nothing |
| TrackKeys.OriginalKeyError | core-api/usecases/track_storage.go:159-176 | A bad id is reported before a blank name, a blank name before an unsupported extension, and a name without one counts as .bin |
| TrackKeys.OriginalKeyInjective | core-api/usecases/track_storage.go:158-179 | Two keys are equal if and only if normalised id and lower-case extension are |
| TrackKeys.OriginalKeyIsValid | core-api/usecases/track_storage.go:208-215 | Every key that is built passes the check that guards reads and deletes |
| TrackKeys.AcceptedUploadHasKey | core-api/server/handlers/upload.go:158-182 | Every file name the handler accepts has a key under every object id it can draw |
| TrackKeys.ListingExact | core-api/usecases/track_storage.go:89-97 | A key starts with the listing prefix of a track if and only if both ids normalise to the same segment |
| ObjectKeys.RenderInjective | audio-converter/storage.py:75-75 | Two keys, raw or HLS, have the same name only if they are the same key |
| ObjectKeys.OriginalKeyRenders | core-api/usecases/track_storage.go:178-178 | The key of an accepted upload is the name of the raw object of its object id |
| ObjectKeys.LookupAgrees | core-api/storage/s3.go:103-119 | Reading the bucket by name reads the object of that key and no other |
| TrackStorage.TrackStorage.PutOriginal | core-api/usecases/track_storage.go:44-68 | Returns key and length exactly if the key exists, the put succeeds and the URL can be built; the object is stored whenever the put took effect |
| TrackStorage.TrackStorage.Delete | core-api/usecases/track_storage.go:80-86 | For a valid key an effective call removes exactly the object of that name, with one leading slash dropped, and nothing else in any other case |
| TrackStorage.KeyNamesItself | core-api/storage/s3.go:151-154 | A key that PutOriginal returns is valid and has no leading slash, so Delete given that key removes that very object |
| TrackStorage.PutThenDelete | core-api/server/handlers/upload.go:106-122 | Putting under a key and deleting that key leaves the bucket without that name and otherwise as it was, and exactly as it was if the name was free |
| TrackStorage.TrackStorage.ListObjects | core-api/storage/s3.go:122-148 | The first matching objects in the order of their keys with their sizes: as many as asked for, 100 by default, 1000 at most, and all if there are fewer |
| TrackStorage.BeforeIff | core-api/storage/s3.go:122-148 | One key is before another exactly if it is a proper prefix or has the smaller character where they first differ |
| TrackStorage.TrackStorage.PageExact | core-api/storage/s3.go:122-148 | A page lists a key if and only if it matches and fewer matching keys than fit on the page come before it |
| TrackStorage.TrackStorage.ListRaw | core-api/usecases/track_storage.go:89-119 | The first page of objects under the track's prefix, in order, returned if and only if the id normalises, the store answers and every object of that page has a URL |
| TrackStorage.ListedIffOwn | core-api/usecases/track_storage.go:96-97 | A stored original is eligible for the listing of a track if and only if its id normalises to the same segment |
| Sessions.TerminalEventsNeverShort | playback-api/main.py:104-130 | In every interleaving a session was inserted at most as often as it has stopped or stopped_by_timeout events, plus once if it is present |
| Sessions.TopicExact | playback-api/main.py:195-243 | Over any run the topic gains an event exactly as often as a ping sends it as `playing`, a stop as `stopped`, the poller as `stopped_by_timeout`, or the broker writes it late; nothing is ever removed |
| Sessions.PollerEndsIff | playback-api/main.py:106-140 | A running poller ends exactly if its process dies, its read raises, or the removal of a member that is not JSON raises |
| Sessions.HeartbeatsKeepSession | playback-api/main.py:102-104 | In no interleaving does a poll list a session as expired while its heartbeats land within 19 seconds of the last one's clock read |
| Sessions.NineteenIsExact | playback-api/main.py:209-222 | A promise of d seconds holds in every run if and only if d is at most 19 |
| Sessions.LateHeartbeat | playback-api/main.py:102-104 | For every longer allowance there is a run in which a punctual session is listed as expired |
| Stranding.NeverStranded | playback-api/main.py:195-252 | If no ping of a session is sent while a removal of it is under way and none is lost on its way to Redis, then once its pings have landed the session is in the set or its last event is terminal, unless an event that failed to send is written after all |
| Stranding.PingCanBeForgottenIff | playback-api/main.py:116-119 | A ping sent now can be forgotten by late arrivals alone if and only if a removal of its session is under way |
| Stranding.PollerForgetsReturningListener | playback-api/main.py:106-119 | A run without any failure in which the poller removes a session after its new heartbeat landed |
| Stranding.LostHeartbeatIsForgotten | playback-api/main.py:207-222 | A run in which a ping's event was accepted and its ZADD lost |
| PlaybackApi.Api.PingEvent | playback-api/main.py:195-226 | Takes its steps in the order event, clock, ZADD, stopping at the first error; a send that took effect puts `playing` for the session next into the topic; on success the session is in the set with 20 seconds from the second last read |
| PlaybackApi.Api.StopEvent | playback-api/main.py:229-252 | Takes its steps in the order event, ZREM, stopping at the first error; a send that took effect puts `stopped` for the session next into the topic; on success the session is not in the set |
| PlaybackApi.Api.ZRange | playback-api/main.py:104-104 | Lists each member with a score from 0 to now once, and no other |
| PlaybackApi.Api.PollPass | playback-api/main.py:101-133 | Whatever goes on meanwhile, a round takes the steps its outcomes allow for every listed member, and ends the poller only if the read or the purge of a corrupt member raises; a calm round leaves exactly what was there but for the members sent and removed, and adds one event for each session sent |
| PlaybackApi.LeftExact | playback-api/main.py:104-130 | What a calm round leaves are the members not expired and the expired ones not sent or not removed, with unchanged scores |
| PlaybackApi.TimeoutsExact | playback-api/main.py:110-116 | A round adds one stopped_by_timeout event for each listed session whose send took effect, and no other event |
| PlaybackApi.Api.PollExpiredSessions | playback-api/main.py:95-140 | As many rounds as asked for, each with all its steps, unless one ends the poller, which then was the last; among other requests terminal events are never short for any session |
| Presence.FoldExact | statistics-api/main.py:49-62 | For any history of commands in any order the pruned set holds exactly the sessions whose last command is a heartbeat nothing after it pruned, with that stamp |
| Presence.LookExact | statistics-api/main.py:289-293 | When heartbeats come in order a look shows exactly the sessions whose last command is a heartbeat within the window before the latest pruning |
| Presence.LookPromiseExact | statistics-api/main.py:289-293 | A look on a coarser clock shows exactly the promised sessions if and only if no session's last heartbeat falls between the two limits |
| Presence.WholeSecondsLeaveGap | statistics-api/main.py:289-291 | A history in which a promised session is not shown |
| Presence.PruningDoesNotMatter | statistics-api/main.py:290-292 | On one clock earlier pruning, by events or by looks, never changes a later answer |
| Presence.LookCountsDistinct | statistics-api/main.py:55-56 | When nobody leaves, a look shows exactly the sessions with at least one heartbeat within the window before the latest pruning, although only the last stamp is kept |
| Statistics.OnlineWithinDay | statistics-api/main.py:49-62 | For any order, duplication and stamping of whole events the current listeners are among those of the day, with equal stamps |
| Statistics.OnlineAtMostDay | statistics-api/main.py:49-62 | After every whole event or look there are at most as many current listeners as listeners of the day |
| Statistics.OnlineExact | statistics-api/main.py:289-293 | With stamps in order a look shows exactly the sessions whose last playing-or-stopped event is `playing` with a stamp within 20 seconds before the latest pruning of the track |
| Statistics.LimitsWithinClock | statistics-api/main.py:289-292 | The latest pruning lies between the second of the look and the latest time of the history |
| Statistics.OnlineExactOnTime | statistics-api/main.py:289-293 | When nothing is stamped later than the look, these are the sessions whose last playing-or-stopped event is `playing` after n - 20 |
| Statistics.CountedHasPlayed | statistics-api/main.py:49-62 | On any history a counted session has a `playing` event after n - 20 that was processed after its last stop |
| Statistics.EarlierStatsDoNotMatter | statistics-api/main.py:289-293 | Whether and when `/stats` was called before does not change what it shows, for stamps anywhere within the second the look cuts |
| Statistics.DayExact | statistics-api/main.py:55-62 | With stamps in order a look shows exactly the sessions with a `playing` event stamped within a day before the latest pruning, whatever stops occurred |
| Statistics.DayExactOnTime | statistics-api/main.py:55-62 | When nothing is stamped later than the look, these are the sessions with a `playing` event stamped in (n - 86400, n] |
| Listeners.CountedExact | statistics-api/main.py:293-293 | In any interleaving and with any errors the ZCARD of the online set counts the sessions whose last command is a ZADD that no prune since has reached |
| Listeners.OnlineWithinDayOrTorn | statistics-api/main.py:49-62 | In every interleaving of commands with any errors and crashes, when heartbeats reach Redis within half a day every current listener is a listener of the day with the same stamp, or its last heartbeat had its first ZADD and not its second |
| ListenerCounts.AnswerAccounted | statistics-api/main.py:289-302 | In every run at all, whoever an answer counts as a current listener is a listener of the day, or its last heartbeat lacks its second ZADD, or its entry of the day was pruned |
| ListenerCounts.AnswerExact | statistics-api/main.py:289-302 | In prompt runs online_now less last_24h is exactly the number of counted sessions whose last heartbeat has not reached the day set less the number of listeners of the day that were not counted |
| ListenerCounts.AnswerWithoutErrors | statistics-api/main.py:289-302 | Without errors online_now is at most last_24h + 1, and exceeds last_24h if and only if the consumer is between the two ZADDs of a heartbeat for a counted session that is not yet a listener of the day while every listener of the day was counted |
| ListenerCounts.CallInBetweenExceeds | statistics-api/main.py:52-55 | A run without errors in which an answer shows one current listener and none of the day |
| ListenerCounts.FailedCommandExceeds | statistics-api/main.py:111-112 | A run in which a failed command leaves that state behind with no event in progress |
| StatisticsService.Service.ProcessEvent | statistics-api/main.py:43-66 | The commands of an event go out in order up to the first that raises, whatever requests are served in between; undisturbed and without errors the sets of every track become what the history with this event makes of them; a `started` event adds one to counter and delta of its track only |
| StatisticsService.Service.LookAt | statistics-api/main.py:286-303 | One look takes its two prunes and two counts in order up to the first that raises and shows what it counted; undisturbed the sets and the item are those of the history with this look |
| StatisticsService.Service.Stats | statistics-api/main.py:284-306 | One answered look for each track of the chart, in order, or no answer if any command raised; undisturbed the items show what the history with these looks gives |
| PlayCounts.Conservation | statistics-api/main.py:133-164 | In every reachable state and for every track, plays counted plus plays written twice equal plays on the row, plays that found no row, pending deltas, plays lost and increments dropped, with what a flush has written and not yet deleted accounted for |
| PlayCounts.StandingRowOwnsPlays | statistics-api/main.py:147-155 | As long as a track's row is not dropped, no play of it is flushed without a row, so the law above is about its row alone |
| PlayCounts.OverIff | statistics-api/main.py:133-164 | Over any run plays of a track are written twice if and only if a flush that wrote plays of it lost the answer of its commit, failed its second read, failed to delete, or was cut off before deleting |
| PlayCounts.NeverOvercounts | statistics-api/main.py:141-155 | In a run without such a step the row never shows more plays than were counted |
| PlayCounts.OvercountsIff | statistics-api/main.py:133-164 | When every play of a standing row has been flushed and none was lost or dropped, the row shows more plays than were counted if and only if the run has such a step, and the right number otherwise |
| PlayCounts.ClearLosesLatePlays | statistics-api/main.py:161-164 | The delete of a flush loses exactly the plays that arrived after its first read on the tracks its second read listed |
| PlayCounts.UndisturbedFlush | statistics-api/main.py:133-165 | A flush without errors or concurrent plays credits every delta to its row, empties the deltas, and neither loses nor doubles a play |
| PlayCounts.LatePlayIsLost | statistics-api/main.py:167-169 | A run in which a play counted between the two reads never reaches its row |
| PlayCounts.FailedListingCountsTwice | statistics-api/main.py:157-164 | A run in which a flush fails after its commit and the next one credits the same play again |
| PlayFlush.Counters.CountStarted | statistics-api/main.py:64-66 | The two increments in order, the second only if the first raised nothing, with any flush steps in between |
| PlayFlush.Counters.UpdateRows | statistics-api/main.py:143-155 | All rows are credited by their entry, or a statement raised |
| PlayFlush.Counters.FlushPlaysOnce | statistics-api/main.py:133-165 | Whatever plays are counted and rows change meanwhile, a flush takes exactly the steps its outcomes allow and ends at rest; unless rows were added or dropped, every row gains what the first read returned if the transaction took effect and is unchanged otherwise; what it read is doubled exactly if it committed without clearing, and plays are lost only by a deletion that took effect |
| PlayFlush.CreditedOnceIff | statistics-api/main.py:133-165 | A flush with any outcomes followed by one without errors credits the pending plays of a track with a row once if and only if a transaction that took effect was answered, listed and deleted after, and twice otherwise |
| PlayFlush.Counters.FlushPlaysLoop | statistics-api/main.py:172-183 | One flush for each round, each with exactly the steps its outcomes allow on what its first read returned; unless rows were added or dropped every row gains exactly what the committing flushes read of it; after a flush that clears nothing it read is pending; every track is accounted for |

## Left out

- Converter.Download: a local write error is not told apart from any other exception.
- Converter.CommitOffsets: assumes the commit covers the positions of the partitions the worker owns, as the client library documents.
- UploadHandler.ServeHTTP: assumes that the 128 random bits of an object id were not drawn before; the row id the database generates is fresh for the same reason.
- UploadHandler.StoreOriginal: stores under the key parts; that they name the same object is OriginalKeyRenders.
- TrackKeys.OriginalKeyExact: lower-cases the letters A to Z only; no other letter lowers to a letter of an accepted extension, so acceptance is the same.
- PlaybackApi.Api.PollPass: the poller starts a round at most once at a time; several instances of the playback service would need one poller each in the model.
- PlatformTheorems.AnsweredHasRow: the job log only grows. The producer waits for the leader alone (`core-api/events/transcode_jobs.go:54`), so a change of leader can drop a job that was acknowledged; JobLostIff and OutstandingCanBecomeReady assume the same.
- PlatformStatus.OrphanForever: a database call that reports an error has taken effect by then or never does. A closing write committed after its error was reported would end an orphan, and a late claim would start one.
- Listeners.OnlineWithinDayOrTorn: a Redis command that reports an error has taken effect by then or never does; the promptness of half a day is far above any delay the services tolerate, and AnswerAccounted does without it.
- The `started` events of `/play` and the delivery of playback events from the topic to the statistics service, including duplicates, are inputs.
- Request parsing, multipart and JSON encoding, CORS, configuration, dependency injection, health checks, logging and start-up retries.
- Malformed job messages, which end the worker before anything is read.
- The choice of the ten most played tracks, which is one Redis command, and the join with titles and artists.
- `core-api/server/handlers/tracks.go` and `core-api/server/handlers/download.go`: single look-ups.
- `MarkTrackProcessing`, `MarkTrackReady` and `MarkTrackFailed` in `core-api/repositories/query_tracks.sql.go`: no handler calls them, and as steps they would break the claim invariants.
- `Get`, presigned URLs and content types in the storage use case.
- The frontend.
