/** Concrete runs that show which stronger promises the services do not keep. */
module PlatformScenarios {
  import opened Basics
  import opened GoPaths
  import opened ObjectKeys
  import opened Platform
  import opened PlatformInvariant
  import opened PlatformTheorems
  import opened PlatformStatus
  import opened PlatformJobs
  import opened PlatformSaga

  // ---------------------------------------------------------------- one step further

  lemma ReachStart(s: State, w: WorkerId)
    requires Reachable(s) && !Runs(s, w)
    ensures Reachable(DoStart(s, w))
  {
    hide Reachable, DoStart;
    ReachMore(s, ByWorker(w, Start));
  }

  lemma ReachAssign(s: State, w: WorkerId, p: Partition)
    requires Reachable(s) && Runs(s, w) && PcOf(s, w).Idle? && p in s.committed
    ensures Reachable(DoAssign(s, w, p))
  {
    hide Reachable, DoAssign;
    ReachMore(s, ByWorker(w, Assign(p)));
  }

  lemma ReachDeliver(s: State, w: WorkerId, p: Partition)
    requires Reachable(s) && CanDeliver(s, w, p)
    ensures Reachable(DoDeliver(s, w, p))
  {
    hide Reachable, DoDeliver;
    ReachMore(s, ByWorker(w, Deliver(p)));
  }

  lemma ReachReadStatus(s: State, w: WorkerId)
    requires Reachable(s) && Runs(s, w) && PcOf(s, w).Taken?
    ensures Reachable(DoReadStatus(s, w, Ok))
  {
    hide Reachable, DoReadStatus;
    ReachMore(s, ByWorker(w, ReadStatus(Ok)));
  }

  lemma ReachClaim(s: State, w: WorkerId, call: Call)
    requires Reachable(s) && Runs(s, w) && PcOf(s, w).Checked?
    ensures Reachable(DoClaim(s, w, call))
  {
    hide Reachable, DoClaim;
    ReachMore(s, ByWorker(w, Claim(call)));
  }

  lemma ReachAct(s: State, w: WorkerId, act: WorkerAct)
    requires Reachable(s) && CanAct(s, w, act)
    ensures Reachable(DoAct(s, w, act))
  {
    hide Reachable, DoAct, CanAct;
    ReachMore(s, ByWorker(w, act));
  }

  lemma ReachCommit(s: State, w: WorkerId)
    requires Reachable(s) && Runs(s, w) && PcOf(s, w).Acking?
    ensures Reachable(DoCommit(s, w))
  {
    hide Reachable, DoCommit;
    ReachMore(s, ByWorker(w, Commit));
  }

  lemma ReachRaise(s: State, w: WorkerId)
    requires Reachable(s) && Runs(s, w) && PcOf(s, w).Guarded()
    ensures Reachable(DoRaise(s, w))
  {
    hide Reachable, DoRaise;
    ReachMore(s, ByWorker(w, Raise));
  }

  lemma ReachStore(s: State, u: UploadId, call: Call)
    requires Reachable(s) && Active(s, u) && s.uploads[u].pc.Storing?
    ensures Reachable(DoStore(s, u, call))
  {
    hide Reachable, DoStore;
    ReachMore(s, ByUpload(u, Store(call)));
  }

  lemma ReachInsert(s: State, u: UploadId, t: TrackId, call: Call)
    requires Reachable(s) && CanInsert(s, u, t)
    ensures Reachable(DoInsert(s, u, t, call))
  {
    hide Reachable, DoInsert;
    ReachMore(s, ByUpload(u, Insert(t, call)));
  }

  lemma ReachAppend(s: State, u: UploadId, p: Partition)
    requires Reachable(s) && CanAppend(s, u, p)
    ensures Reachable(DoAppend(s, u, p))
  {
    hide Reachable, DoAppend;
    ReachMore(s, ByUpload(u, Append(p)));
  }

  lemma ReachPublishOk(s: State, u: UploadId)
    requires Reachable(s) && CanPublishOk(s, u)
    ensures Reachable(DoPublishOk(s, u))
  {
    hide Reachable, DoPublishOk;
    ReachMore(s, ByUpload(u, PublishOk));
  }

  lemma ReachUndoObject(s: State, u: UploadId, call: Call)
    requires Reachable(s) && Active(s, u) && s.uploads[u].pc.UndoingObject?
    ensures Reachable(DoUndoObject(s, u, call))
  {
    hide Reachable, DoUndoObject;
    ReachMore(s, ByUpload(u, UndoObject(call)));
  }

  // ---------------------------------------------------------------- the runs

  const KEY: ObjectKey := Raw("a", ".mp3")
  const TRACK: TrackId := "t"
  const JOB: Job := Job(TRACK, KEY)

  const EMPTY: State := State(map[], map[], map[0 := []], map[0 := 0], map[], map[], map[], map[], {})

  function Begun(): State {
    EMPTY.(uploads := map[0 := Upload(KEY, [], None, false, false, true, Storing)])
  }

  lemma BegunIsReachable()
    ensures Reachable(Begun())
  {
    var run: seq<Step> := [];
    assert Init(EMPTY) && Legal(EMPTY, run) && Exec(EMPTY, run) == EMPTY;
    var step := ByUpload(0, Begin("a", ".mp3", []));
    ReachMore(EMPTY, step);
    assert Apply(EMPTY, step) == Begun();
  }

  /** PutOriginal can fail after its put, for instance while building the public URL: the request is answered 500
      and the object stays in the store with no row naming it. */
  lemma FailedStoreLeavesObject() returns (s: State)
    ensures Reachable(s) && s.rows == map[] && KEY in s.objects
    ensures 0 in s.uploads && s.uploads[0].key == KEY && s.uploads[0].pc == Refused(false)
  {
    hide Reachable;
    BegunIsReachable();
    ReachStore(Begun(), 0, Lost(true));
    s := DoStore(Begun(), 0, Lost(true));
  }

  function Kept(): State {
    DoStore(Begun(), 0, Ok)
  }

  lemma KeptIsReachable()
    ensures Reachable(Kept())
  {
    hide Reachable;
    BegunIsReachable();
    ReachStore(Begun(), 0, Ok);
  }

  /** An insert that takes effect while reporting an error leaves a pending row whose object the compensation
      deletes. */
  lemma TornInsertLeavesUnbackedRow() returns (s: State)
    ensures Reachable(s) && TRACK in s.rows && s.rows[TRACK].status == Pending && !Backed(s, TRACK)
  {
    hide Reachable;
    KeptIsReachable();
    ReachInsert(Kept(), 0, TRACK, Lost(true));
    var s1 := DoInsert(Kept(), 0, TRACK, Lost(true));
    ReachUndoObject(s1, 0, Ok);
    s := DoUndoObject(s1, 0, Ok);
  }

  /** One upload answered 201, its job in partition 0. */
  predicate Published(s: State) {
    && s.rows == map[TRACK := Row(Pending, KEY, 0, None)] && s.abandoned == {}
    && s.log == map[0 := [JOB]] && s.committed == map[0 := 0] && s.objects == map[KEY := []]
    && Answered(s, 0, TRACK) && s.uploads[0].sent && s.uploads[0].key == KEY
  }

  lemma PublishedIsReachable() returns (s: State)
    ensures Reachable(s) && Published(s) && s.workers == map[]
  {
    hide Reachable;
    KeptIsReachable();
    ReachInsert(Kept(), 0, TRACK, Ok);
    var s1 := DoInsert(Kept(), 0, TRACK, Ok);
    ReachAppend(s1, 0, 0);
    var s2 := DoAppend(s1, 0, 0);
    assert s2.log[0] == [JOB] && s2.log[0][0].track == TRACK;
    assert s2.log == map[0 := [JOB]];
    ReachPublishOk(s2, 0);
    s := DoPublishOk(s2, 0);
    assert s.rows == map[TRACK := Row(Pending, KEY, 0, None)];
  }

  /** A worker took the only job and read its pending status. */
  lemma AboutToClaim() returns (s: State)
    ensures Reachable(s) && Published(s) && s.workers == map[0 := Worker(Checked(JOB), map[0 := 1])]
  {
    hide Reachable;
    var s0 := PublishedIsReachable();
    ReachStart(s0, 0);
    var s1 := DoStart(s0, 0);
    ReachAssign(s1, 0, 0);
    var s2 := DoAssign(s1, 0, 0);
    assert s2.workers == map[0 := Worker(Idle, map[0 := 0])];
    ReachDeliver(s2, 0, 0);
    var s3 := DoDeliver(s2, 0, 0);
    assert s3.workers == map[0 := Worker(Taken(JOB), map[0 := 1])] by {
      assert s3.workers[0].pos == map[0 := 1];
    }
    ReachReadStatus(s3, 0);
    s := DoReadStatus(s3, 0, Ok);
  }

  /** At-least-once processing is not unconditional: after a database error on the claim the job is committed, and
      a track whose upload was answered 201 is pending with no job left and nobody to hand it out again. */
  lemma ClaimErrorLosesJob() returns (s: State)
    ensures Reachable(s) && AtRest(s) && Answered(s, 0, TRACK)
    ensures TRACK in s.rows && s.rows[TRACK].status == Pending && !Outstanding(s, TRACK) && Passed(s, TRACK)
  {
    hide Reachable, Passed, Outstanding;
    var s0 := AboutToClaim();
    ReachClaim(s0, 0, Lost(false));
    var s1 := DoClaim(s0, 0, Lost(false));
    ReachCommit(s1, 0);
    s := DoCommit(s1, 0);
    assert s.committed[0] == 1;
    NobodyLeft(s);
  }

  lemma NobodyLeft(s: State)
    requires AtRest(s) && s.workers == map[0 := Worker(Idle, map[0 := 1])] && s.log == map[0 := [JOB]]
    requires TRACK in s.rows
    ensures Passed(s, TRACK) && !Outstanding(s, TRACK)
  {
  }

  /** An exception after the claim leaves the row in `processing` for good, although its job was not committed. */
  lemma ExceptionOrphansTrack() returns (s: State)
    ensures Reachable(s) && Answered(s, 0, TRACK) && Orphan(s, TRACK) && Outstanding(s, TRACK)
    ensures forall run | Legal(s, run) :: Orphan(Exec(s, run), TRACK) || Gone(Exec(s, run), TRACK)
  {
    hide Reachable, Legal, Exec;
    var s0 := AboutToClaim();
    ReachClaim(s0, 0, Ok);
    var s1 := DoClaim(s0, 0, Ok);
    ReachRaise(s1, 0);
    s := DoRaise(s1, 0);
    assert s.log[0][0] == Job(TRACK, s.rows[TRACK].objectKey);
    OrphanedForGood(s, TRACK);
  }

  /** The only track is claimed and its worker stands at `pc`. */
  predicate ClaimedAt(s: State, pc: Pc) {
    && TRACK in s.rows && s.rows[TRACK].status == Processing && s.objects.Keys == {KEY}
    && Answered(s, 0, TRACK) && Runs(s, 0) && PcOf(s, 0) == pc
  }

  lemma ClaimedIsReachable() returns (s: State)
    ensures Reachable(s) && ClaimedAt(s, Downloading(JOB))
  {
    hide Reachable;
    var s0 := AboutToClaim();
    ReachClaim(s0, 0, Ok);
    s := DoClaim(s0, 0, Ok);
  }

  lemma EmptyConversionIsReachable() returns (s: State, raw: Bytes)
    ensures Reachable(s) && ClaimedAt(s, Uploading(JOB, raw, map[], {}))
  {
    hide Reachable, DoAct;
    var s1 := ClaimedIsReachable();
    ReachAct(s1, 0, Download(true));
    raw := s1.objects[KEY];
    var s2 := DoDownload(s1, 0, true);
    assert s2 == DoAct(s1, 0, Download(true)) by { DownloadAct(s1); }
    var nothing: Output := map[];
    ReachAct(s2, 0, Convert(Some(nothing)));
    s := DoConvert(s2, 0, Some(nothing));
    assert s == DoAct(s2, 0, Convert(Some(nothing))) by { ConvertAct(s2); }
  }

  lemma DownloadAct(s: State)
    requires CanAct(s, 0, Download(true))
    ensures DoAct(s, 0, Download(true)) == DoDownload(s, 0, true)
  {
  }

  lemma ConvertAct(s: State)
    requires CanAct(s, 0, Convert(Some(map[])))
    ensures DoAct(s, 0, Convert(Some(map[]))) == DoConvert(s, 0, Some(map[]))
  {
  }

  /** FFmpeg exits with code zero and leaves no file: the track is ready, and the key `/play` hands out names
      nothing. */
  lemma ReadyWithoutPlaylist() returns (s: State)
    ensures Reachable(s) && Answered(s, 0, TRACK) && PlayTrack(s.rows, TRACK) == Playlist(Some(Hls(TRACK, MASTER)))
    ensures Hls(TRACK, MASTER) !in s.objects
  {
    hide Reachable;
    var s3, raw := EmptyConversionIsReachable();
    ReachAct(s3, 0, PutsDone);
    var s4 := DoPutsDone(s3, 0);
    ReachAct(s4, 0, CloseReady(Ok));
    s := DoCloseReady(s4, 0, Ok);
    assert s.objects.Keys == {KEY};
  }

  // ---------------------------------------------------------------- a stale playlist

  const SEGMENT: string := "segment_0000.ts"
  const OUTPUT: Output := map[MASTER := [1], SEGMENT := [2]]

  /** The only job stands in its partition twice, and worker 0 has taken `pos` of the copies. */
  predicate Doubled(s: State, pc: Pc, pos: nat, status: Status, objects: Objects) {
    && TRACK in s.rows && s.rows[TRACK].status == status && s.log == map[0 := [JOB, JOB]] && 0 in s.committed
    && s.objects == objects && s.workers == map[0 := Worker(pc, map[0 := pos])]
  }

  /** What stands in the bucket at first, and after the first attempt. */
  const SOURCE: Objects := map[KEY := []]
  const STALE: Objects := map[KEY := [], Hls(TRACK, MASTER) := [1]]

  lemma DoubledIsReachable() returns (s: State)
    ensures Reachable(s) && Doubled(s, Taken(JOB), 1, Pending, SOURCE)
  {
    hide Reachable;
    var s0 := PublishedIsReachable();
    ReachAppend(s0, 0, 0);
    var s1 := DoAppend(s0, 0, 0);
    assert s1.log[0] == [JOB, JOB];
    ReachStart(s1, 0);
    var s2 := DoStart(s1, 0);
    ReachAssign(s2, 0, 0);
    var s3 := DoAssign(s2, 0, 0);
    assert s3.workers == map[0 := Worker(Idle, map[0 := 0])];
    ReachDeliver(s3, 0, 0);
    s := DoDeliver(s3, 0, 0);
    assert s.workers[0].pos == map[0 := 1];
  }

  /** From a delivered copy to the files of its conversion. */
  lemma Converted(s: State, pos: nat, status: Status, objects: Objects, out: Output) returns (s': State)
    requires Reachable(s) && Doubled(s, Taken(JOB), pos, status, objects) && (status == Pending || status == Failed)
    requires KEY in objects && objects[KEY] == [] && forall f <- out :: SlashFree(f)
    ensures Reachable(s') && Doubled(s', Uploading(JOB, [], out, {}), pos, Processing, objects)
  {
    hide Reachable;
    ReachReadStatus(s, 0);
    var s1 := DoReadStatus(s, 0, Ok);
    ReachClaim(s1, 0, Ok);
    var s2 := DoClaim(s1, 0, Ok);
    assert Doubled(s2, Downloading(JOB), pos, Processing, objects);
    ReachDownloaded(s2);
    var s3 := DoDownload(s2, 0, true);
    ReachConverted(s3, out);
    s' := DoConvert(s3, 0, Some(out));
  }

  lemma ReachDownloaded(s: State)
    requires Reachable(s) && CanDownload(s, 0)
    ensures Reachable(DoDownload(s, 0, true))
  {
    hide Reachable, DoDownload;
    ReachMore(s, ByWorker(0, Download(true)));
  }

  lemma ReachConverted(s: State, out: Output)
    requires Reachable(s) && CanConvert(s, 0, Some(out))
    ensures Reachable(DoConvert(s, 0, Some(out)))
  {
    hide Reachable, DoConvert;
    ReachMore(s, ByWorker(0, Convert(Some(out))));
  }

  lemma ReachPut(s: State, file: string, call: Call)
    requires Reachable(s) && CanPut(s, 0, file)
    ensures Reachable(DoPut(s, 0, file, call))
  {
    hide Reachable, DoPut;
    ReachMore(s, ByWorker(0, Put(file, call)));
  }

  lemma ReachFailed(s: State)
    requires Reachable(s) && Runs(s, 0) && PcOf(s, 0).Failing?
    ensures Reachable(DoCloseFailed(s, 0, Ok))
  {
    hide Reachable, DoCloseFailed;
    ReachMore(s, ByWorker(0, CloseFailed(Ok)));
  }

  lemma ReachReady(s: State)
    requires Reachable(s) && CanPutsDone(s, 0)
    ensures Reachable(DoCloseReady(DoPutsDone(s, 0), 0, Ok))
  {
    hide Reachable, DoCloseReady;
    ReachMore(s, ByWorker(0, PutsDone));
    ReachMore(DoPutsDone(s, 0), ByWorker(0, CloseReady(Ok)));
  }

  /** The first attempt stores its playlist, and the put of its segment is refused. */
  lemma FirstAttemptFails(s: State) returns (mid: State, s': State)
    requires Reachable(s) && Doubled(s, Uploading(JOB, [], OUTPUT, {}), 1, Processing, SOURCE)
    ensures Reachable(mid) && Doubled(mid, Uploading(JOB, [], OUTPUT, {MASTER}), 1, Processing, STALE)
    ensures Reachable(s') && Doubled(s', Taken(JOB), 2, Failed, STALE)
  {
    hide Reachable;
    ReachPut(s, MASTER, Ok);
    mid := DoPut(s, 0, MASTER, Ok);
    assert {} + {MASTER} == {MASTER} && mid.objects == STALE;
    assert mid.workers == map[0 := Worker(Uploading(JOB, [], OUTPUT, {MASTER}), map[0 := 1])];
    ReachPut(mid, SEGMENT, Lost(false));
    var s1 := DoPut(mid, 0, SEGMENT, Lost(false));
    assert Doubled(s1, Failing(JOB), 1, Processing, STALE);
    s' := RetryIsDelivered(s1);
  }

  lemma RetryIsDelivered(s: State) returns (s': State)
    requires Reachable(s) && Doubled(s, Failing(JOB), 1, Processing, STALE)
    ensures Reachable(s') && Doubled(s', Taken(JOB), 2, Failed, STALE)
  {
    hide Reachable;
    ReachFailed(s);
    var s1 := DoCloseFailed(s, 0, Ok);
    ReachCommit(s1, 0);
    var s2 := DoCommit(s1, 0);
    ReachDeliver(s2, 0, 0);
    s' := DoDeliver(s2, 0, 0);
    assert s'.workers[0].pos == map[0 := 2];
  }

  /** The second copy of a job whose first attempt failed half-way is converted to nothing with exit code zero: the
      track is ready, and `/play` hands out the first attempt's playlist, whose segment is not stored. */
  lemma StalePlaylistIsServed() returns (mid: State, s: State)
    ensures Reachable(mid) && Runs(mid, 0) && PcOf(mid, 0) == Uploading(JOB, [], OUTPUT, {MASTER})
    ensures Reachable(s) && PlayTrack(s.rows, TRACK) == Playlist(Some(Hls(TRACK, MASTER)))
    ensures TRACK in s.made && s.made[TRACK].out == map[]
    ensures Hls(TRACK, MASTER) in s.objects && s.objects[Hls(TRACK, MASTER)] == OUTPUT[MASTER]
    ensures Hls(TRACK, SEGMENT) !in s.objects
  {
    hide Reachable;
    var s0 := DoubledIsReachable();
    var s1 := Converted(s0, 1, Pending, SOURCE, OUTPUT);
    var s2;
    mid, s2 := FirstAttemptFails(s1);
    var s3 := Converted(s2, 2, Failed, STALE, map[]);
    ReachReady(s3);
    s := DoCloseReady(DoPutsDone(s3, 0), 0, Ok);
  }

  lemma OrphanedForGood(s: State, t: TrackId)
    requires Reachable(s) && Orphan(s, t)
    ensures forall run | Legal(s, run) :: Orphan(Exec(s, run), t) || Gone(Exec(s, run), t)
  {
    hide Inv, Can, Apply, Orphan;
    ReachableInv(s);
    forall run | Legal(s, run) ensures Orphan(Exec(s, run), t) || Gone(Exec(s, run), t) {
      OrphanForever(s, run, t);
    }
  }
}
