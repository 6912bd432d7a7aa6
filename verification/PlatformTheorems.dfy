/** What the platform guarantees over whole runs. */
module PlatformTheorems {
  import opened Basics
  import opened ObjectKeys
  import opened Platform
  import opened PlatformInvariant
  import opened PlatformEffects
  import opened PlatformWorkerSteps
  import opened PlatformUploadSteps

  // ---------------------------------------------------------------- the invariant holds in every reachable state

  lemma StepKeepsInv(s: State, step: Step)
    requires Inv(s) && Can(s, step)
    ensures Inv(Apply(s, step))
  {
    hide Inv, DoAct, DoSaga, CanAct, CanSaga;
    match step
    case ByWorker(w, act) => WorkerStepKeepsInv(s, w, act);
    case ByUpload(u, act) => UploadStepKeepsInv(s, u, act);
  }

  lemma {:induction false} RunKeepsInv(s: State, run: seq<Step>)
    requires Inv(s) && Legal(s, run)
    ensures Inv(Exec(s, run))
    decreases |run|
  {
    hide Inv, Can, Apply;
    if run != [] {
      StepKeepsInv(s, run[0]);
      RunKeepsInv(Apply(s, run[0]), run[1..]);
    }
  }

  lemma ReachableInv(s: State)
    requires Reachable(s)
    ensures Inv(s)
  {
    hide Inv;
    var s0, run :| Init(s0) && Legal(s0, run) && Exec(s0, run) == s;
    InitInv(s0);
    RunKeepsInv(s0, run);
  }

  // ---------------------------------------------------------------- exclusive claims

  /** At most one worker is between a successful claim on a track and its closing write, and meanwhile the row is
      `processing` or deleted: the unconditional `failed` write can only hit a row its own worker claimed. */
  lemma ExclusiveClaim(s: State, w: WorkerId, v: WorkerId, t: TrackId)
    requires Reachable(s) && Holds(s, w, t)
    ensures Holds(s, v, t) ==> v == w
    ensures t in s.rows ==> s.rows[t].status == Processing
  {
    hide RowsOk, JobsOk, Saga, Results, Offsets;
    ReachableInv(s);
  }

  // ---------------------------------------------------------------- ready tracks

  datatype PlayResult = Playlist(key: Option<ObjectKey>) | NotReady(status: Status) | NotFound

  /** What `/play` answers. A ready row whose key were NULL would be served as a link to nothing. */
  function PlayTrack(rows: Rows, t: TrackId): PlayResult {
    if t !in rows then NotFound
    else if rows[t].status == Ready then Playlist(rows[t].playlist)
    else NotReady(rows[t].status)
  }

  /** Every key `/play` hands out is the playlist key of the track, and every file of the attempt that made the track
      ready, its playlist if FFmpeg left one, is stored with that attempt's bytes, converted from the bytes the user
      uploaded. */
  lemma PlayServesWholeAttempt(s: State, t: TrackId)
    requires Reachable(s) && PlayTrack(s.rows, t).Playlist?
    ensures PlayTrack(s.rows, t).key == Some(Hls(t, MASTER))
    ensures t in s.made && MadeBy(s, t) && s.made[t].raw == UploadOf(s, t).body
    ensures forall f <- s.made[t].out :: Hls(t, f) in s.objects && s.objects[Hls(t, f)] == s.made[t].out[f]
  {
    hide RowsOk, JobsOk, Exclusive, Saga, Offsets;
    ReachableInv(s);
    assert ReadyOk(s.objects, s.made, UploadOf(s, t).body, t, s.rows[t]);
  }

  /** `/play` finds no track exactly if there is no row, hands out the playlist under hls/{id}/ exactly if the row is
      ready, and otherwise tells the status. */
  lemma PlayAnswers(s: State, t: TrackId)
    requires Reachable(s)
    ensures PlayTrack(s.rows, t).NotFound? <==> t !in s.rows
    ensures forall st :: PlayTrack(s.rows, t) == NotReady(st) <==> t in s.rows && s.rows[t].status == st && st != Ready
    ensures PlayTrack(s.rows, t) == Playlist(Some(Hls(t, "master.m3u8")))
            <==> t in s.rows && s.rows[t].status == Ready
    ensures Render(Hls(t, "master.m3u8")) == "hls/" + t + "/" + "master.m3u8"
  {
    hide RowsOk, JobsOk, Exclusive, Saga, Offsets;
    ReachableInv(s);
    if t in s.rows {
      assert MadeBy(s, t) && ReadyOk(s.objects, s.made, UploadOf(s, t).body, t, s.rows[t]);
    }
  }

  /** The step stores file `f` of track `t`. */
  predicate StoresFile(s: State, step: Step, t: TrackId, f: string) {
    && step.ByWorker? && step.act.Put? && step.act.file == f && step.act.call.Took()
    && Runs(s, step.w) && !PcOf(s, step.w).Idle? && PcOf(s, step.w).job.track == t
  }

  ghost predicate FileStoredIn(s: State, run: seq<Step>, t: TrackId, f: string)
    requires Legal(s, run)
    decreases |run|
  {
    run != [] && (StoresFile(s, run[0], t, f) || FileStoredIn(Apply(s, run[0]), run[1..], t, f))
  }

  lemma StepStoresFile(s: State, step: Step, t: TrackId, f: string)
    requires Provenance(s) && Can(s, step)
    ensures Hls(t, f) in Apply(s, step).objects <==> Hls(t, f) in s.objects || StoresFile(s, step, t, f)
  {
    hide DoAct, CanAct, DoSaga, CanSaga;
    match step
    case ByWorker(w, act) => WorkerEffect(s, w, act);
    case ByUpload(u, act) =>
      UploadObjectEffect(s, u, act);
      assert u in s.uploads ==> s.uploads[u].key.Raw?;
  }

  lemma {:induction false} RunStoresFile(s: State, run: seq<Step>, t: TrackId, f: string)
    requires Inv(s) && Legal(s, run)
    ensures Hls(t, f) in Exec(s, run).objects <==> Hls(t, f) in s.objects || FileStoredIn(s, run, t, f)
    decreases |run|
  {
    hide Can, Apply, StoresFile, RowsOk, JobsOk, Exclusive, Saga, Results, Offsets;
    if run != [] {
      StepStoresFile(s, run[0], t, f);
      StepKeepsInv(s, run[0]);
      RunStoresFile(Apply(s, run[0]), run[1..], t, f);
    }
  }

  /** The key `/play` hands out names a stored object if and only if some worker stored a playlist of the track. An
      exit code of zero without a playlist makes the track ready all the same. */
  lemma PlayedPlaylistExistsIff(s0: State, run: seq<Step>, t: TrackId)
    requires Init(s0) && Legal(s0, run) && PlayTrack(Exec(s0, run).rows, t).Playlist?
    ensures var s := Exec(s0, run);
            && PlayTrack(s.rows, t).key.Some?
            && (PlayTrack(s.rows, t).key.value in s.objects <==> FileStoredIn(s0, run, t, MASTER))
  {
    hide Can, Apply, RowsOk, JobsOk, Exclusive, Saga, Offsets;
    InitInv(s0);
    RunKeepsInv(s0, run);
    RunStoresFile(s0, run, t, MASTER);
    var s := Exec(s0, run);
    assert ReadyOk(s.objects, s.made, UploadOf(s, t).body, t, s.rows[t]);
  }

  /** `made` is written only by the closing write of a worker, with what that worker read and produced. */
  lemma MadeByClosingWrite(s: State, step: Step, t: TrackId)
    requires Can(s, step)
    requires t in Apply(s, step).made && (t in s.made ==> Apply(s, step).made[t] != s.made[t])
    ensures step.ByWorker? && step.act.CloseReady? && Runs(s, step.w) && PcOf(s, step.w).Finishing?
    ensures var pc := PcOf(s, step.w);
            && pc.job.track == t && Apply(s, step).made[t] == Attempt(pc.raw, pc.out)
            && t in s.rows && s.rows[t].status == Processing && Apply(s, step).rows[t].status == Ready
  {
    hide DoAct, CanAct, DoSaga, CanSaga;
    match step
    case ByWorker(w, act) => WorkerEffect(s, w, act);
    case ByUpload(u, act) => UploadEffect(s, u, act);
  }

  /** The row of `t` and every object under its HLS prefix. */
  ghost predicate SameTrack(s: State, s': State, t: TrackId) {
    && t in s.rows && t in s'.rows && s'.rows[t] == s.rows[t]
    && (forall f :: Hls(t, f) in s'.objects <==> Hls(t, f) in s.objects)
    && (forall f | Hls(t, f) in s.objects && Hls(t, f) in s'.objects :: s'.objects[Hls(t, f)] == s.objects[Hls(t, f)])
  }

  lemma WorkerLeavesReady(s: State, w: WorkerId, act: WorkerAct, t: TrackId)
    requires Exclusive(s) && CanAct(s, w, act)
    requires t in s.rows && s.rows[t].status == Ready
    ensures SameTrack(s, DoAct(s, w, act), t)
  {
    hide DoAct, CanAct;
    WorkerEffect(s, w, act);
  }

  lemma UploadLeavesTrack(s: State, u: UploadId, act: UploadAct, t: TrackId)
    requires Provenance(s) && RowsOk(s) && CanSaga(s, u, act)
    requires t in s.rows
    ensures SameTrack(s, DoSaga(s, u, act), t) || (act.UndoRow? && act.call.Took() && s.creator[t] == u)
  {
    hide DoSaga, CanSaga;
    UploadRowEffect(s, u, act);
    UploadObjectEffect(s, u, act);
    assert RowOk(s, t, s.rows[t]);
    assert u in s.uploads ==> s.uploads[u].key.Raw?;
  }

  /** The compensating row delete of the upload that made the track. */
  predicate Deletes(s: State, step: Step, t: TrackId) {
    step.ByUpload? && step.saga.UndoRow? && step.saga.call.Took() && t in s.creator && s.creator[t] == step.u
  }

  lemma StepLeavesReady(s: State, step: Step, t: TrackId)
    requires Inv(s) && Can(s, step)
    requires t in s.rows && s.rows[t].status == Ready
    ensures SameTrack(s, Apply(s, step), t) || Deletes(s, step, t)
  {
    hide DoAct, CanAct, DoSaga, CanSaga, SameTrack, JobsOk, Saga, Results, Offsets;
    match step
    case ByWorker(w, act) => WorkerLeavesReady(s, w, act, t);
    case ByUpload(u, act) => UploadLeavesTrack(s, u, act, t);
  }

  // ---------------------------------------------------------------- partitions

  lemma StepKeepsPartitions(s: State, step: Step)
    requires Can(s, step)
    ensures Apply(s, step).log.Keys == s.log.Keys && Apply(s, step).committed.Keys == s.committed.Keys
  {
    hide DoAct, CanAct, DoSaga, CanSaga;
    match step
    case ByWorker(w, act) => WorkerEffect(s, w, act); WorkerKeepsPartitions(s, w, act);
    case ByUpload(u, act) => UploadEffect(s, u, act); UploadKeepsPartitions(s, u, act);
  }

  lemma WorkerKeepsPartitions(s: State, w: WorkerId, act: WorkerAct)
    requires CanAct(s, w, act)
    ensures DoAct(s, w, act).committed.Keys == s.committed.Keys
  {
  }

  lemma UploadKeepsPartitions(s: State, u: UploadId, act: UploadAct)
    requires CanSaga(s, u, act)
    ensures DoSaga(s, u, act).log.Keys == s.log.Keys
  {
  }

  lemma {:induction false} RunKeepsPartitions(s: State, run: seq<Step>)
    requires Legal(s, run)
    ensures Exec(s, run).log.Keys == s.log.Keys && Exec(s, run).committed.Keys == s.committed.Keys
    decreases |run|
  {
    hide Can, Apply;
    if run != [] {
      StepKeepsPartitions(s, run[0]);
      RunKeepsPartitions(Apply(s, run[0]), run[1..]);
    }
  }

  // ---------------------------------------------------------------- deleted rows stay deleted

  predicate Gone(s: State, t: TrackId) {
    t in s.creator && t !in s.rows
  }

  lemma StepKeepsGone(s: State, step: Step, t: TrackId)
    requires Can(s, step) && Gone(s, t)
    ensures Gone(Apply(s, step), t)
  {
    hide DoAct, CanAct, DoSaga, CanSaga;
    match step
    case ByWorker(w, act) => WorkerEffect(s, w, act);
    case ByUpload(u, act) => UploadRowEffect(s, u, act);
  }

  /** Once the row of a track was deleted, no run makes it reappear, whatever late jobs are delivered. */
  lemma {:induction false} GoneForever(s: State, run: seq<Step>, t: TrackId)
    requires Legal(s, run) && Gone(s, t)
    ensures Gone(Exec(s, run), t)
    decreases |run|
  {
    hide Can, Apply;
    if run != [] {
      StepKeepsGone(s, run[0], t);
      GoneForever(Apply(s, run[0]), run[1..], t);
    }
  }

  /** A worker changes no row but that of its own job, and none at all once that row is gone: a late or already
      claimed job of a rolled-back upload leaves every row as it is, and its claim fails. */
  lemma LateJobChangesNoRow(s: State, w: WorkerId, act: WorkerAct, t: TrackId)
    requires CanAct(s, w, act)
    requires Runs(s, w) && !PcOf(s, w).Idle? && PcOf(s, w).job.track == t && t !in s.rows
    ensures DoAct(s, w, act).rows == s.rows
    ensures act.Claim? ==> DoAct(s, w, act).workers[w].pc == Acking(PcOf(s, w).job, false)
  {
  }

  /** A ready row and its stored playlist and segments never change again while the row exists. */
  lemma {:induction false} ReadyForever(s: State, run: seq<Step>, t: TrackId)
    requires Inv(s) && Legal(s, run)
    requires t in s.rows && s.rows[t].status == Ready
    requires t in Exec(s, run).rows
    ensures SameTrack(s, Exec(s, run), t)
    decreases |run|
  {
    hide Can, Apply, JobsOk, Exclusive, Saga, Results, Offsets;
    assert RowOk(s, t, s.rows[t]);
    if run != [] {
      var s1 := Apply(s, run[0]);
      StepKeepsInv(s, run[0]);
      if t in s1.rows {
        StepLeavesReady(s, run[0], t);
        assert SameTrack(s, s1, t) by { DeletedIsGone(s, run[0], t); }
        ReadyForever(s1, run[1..], t);
      } else {
        assert Gone(s1, t) by { StepKeepsCreator(s, run[0], t); }
        GoneForever(s1, run[1..], t);
      }
    }
  }

  lemma StepKeepsCreator(s: State, step: Step, t: TrackId)
    requires Can(s, step) && t in s.creator
    ensures t in Apply(s, step).creator && Apply(s, step).creator[t] == s.creator[t]
  {
    hide DoAct, CanAct, DoSaga, CanSaga;
    match step
    case ByWorker(w, act) => WorkerEffect(s, w, act);
    case ByUpload(u, act) => UploadRowEffect(s, u, act);
  }

  lemma DeletedIsGone(s: State, step: Step, t: TrackId)
    requires Provenance(s) && Can(s, step)
    ensures Deletes(s, step, t) ==> t !in Apply(s, step).rows
  {
  }

  // ---------------------------------------------------------------- answered uploads

  /** The upload of `u` was answered 201 and made track `t`. */
  predicate Answered(s: State, u: UploadId, t: TrackId) {
    u in s.uploads && s.uploads[u].pc.Created? && s.uploads[u].row == Some(t)
  }

  lemma StepKeepsAnswered(s: State, step: Step, u: UploadId, t: TrackId)
    requires Can(s, step) && Answered(s, u, t)
    ensures Answered(Apply(s, step), u, t)
  {
    hide DoAct, CanAct;
    match step
    case ByWorker(w, act) => WorkerEffect(s, w, act);
    case ByUpload(v, act) => if v != u { UploadEffect(s, v, act); }
  }

  lemma {:induction false} AnsweredForever(s: State, run: seq<Step>, u: UploadId, t: TrackId)
    requires Legal(s, run) && Answered(s, u, t)
    ensures Answered(Exec(s, run), u, t)
    decreases |run|
  {
    hide Can, Apply;
    if run != [] {
      StepKeepsAnswered(s, run[0], u, t);
      AnsweredForever(Apply(s, run[0]), run[1..], u, t);
    }
  }

  lemma AnsweredHasRow(s: State, u: UploadId, t: TrackId)
    requires Inv(s) && Answered(s, u, t)
    ensures t in s.rows && t in s.creator && s.creator[t] == u && Queued(s.log, t)
  {
  }

  /** A track whose upload was answered 201 and that is ready stays so, with the same playlist and the same stored
      bytes, in every continuation. */
  lemma PublishedForever(s: State, run: seq<Step>, u: UploadId, t: TrackId)
    requires Reachable(s) && Legal(s, run) && Answered(s, u, t)
    requires t in s.rows && s.rows[t].status == Ready
    ensures SameTrack(s, Exec(s, run), t)
  {
    hide Inv, Can, Apply;
    ReachableInv(s);
    AnsweredForever(s, run, u, t);
    RunKeepsInv(s, run);
    AnsweredHasRow(Exec(s, run), u, t);
    ReadyForever(s, run, t);
  }
}
