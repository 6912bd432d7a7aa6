/** Where the files under a track's prefix come from: which attempt wrote each of them last, and what a listener gets
    when the attempt that made the track ready left no playlist. */
module PlatformPlaylists {
  import opened Basics
  import opened ObjectKeys
  import opened Platform
  import opened PlatformInvariant
  import opened PlatformEffects
  import opened PlatformTheorems

  function Lookup(objects: Objects, k: ObjectKey): Option<Bytes> {
    if k in objects then Some(objects[k]) else None
  }

  /** A claim changes the row of the track: a new attempt begins. */
  predicate BeginsAttempt(s: State, step: Step, t: TrackId) {
    && step.ByWorker? && step.act.Claim? && step.act.call.Took()
    && Runs(s, step.w) && PcOf(s, step.w).Checked? && PcOf(s, step.w).job.track == t && Claimable(s.rows, t)
  }

  /** What a run tells of one file of a track: how many attempts began, the attempt in which the file was last stored,
      and what stood under its key when the last attempt began. */
  datatype FileStory = FileStory(attempts: nat, lastPut: Option<nat>, atClaim: Option<Bytes>)

  function Follow(h: FileStory, s: State, step: Step, t: TrackId, f: string): FileStory {
    if BeginsAttempt(s, step, t) then h.(attempts := h.attempts + 1, atClaim := Lookup(s.objects, Hls(t, f)))
    else if StoresFile(s, step, t, f) then h.(lastPut := Some(h.attempts))
    else h
  }

  ghost function FollowAll(h: FileStory, s: State, run: seq<Step>, t: TrackId, f: string): FileStory
    requires Legal(s, run)
    decreases |run|
  {
    if run == [] then h else FollowAll(Follow(h, s, run[0], t, f), Apply(s, run[0]), run[1..], t, f)
  }

  /** The story of a file over a run from an empty platform. */
  ghost function StoryOf(s0: State, run: seq<Step>, t: TrackId, f: string): FileStory
    requires Legal(s0, run)
  {
    FollowAll(FileStory(0, None, None), s0, run, t, f)
  }

  /** The file was last stored in the current attempt exactly if `wrote`, and otherwise shows what the attempt found. */
  predicate Told(objects: Objects, h: FileStory, t: TrackId, f: string, wrote: bool) {
    && (h.lastPut == Some(h.attempts) <==> wrote)
    && (!wrote ==> Lookup(objects, Hls(t, f)) == h.atClaim)
  }

  predicate HolderTold(objects: Objects, h: FileStory, t: TrackId, f: string, pc: Pc) {
    match pc
    case Downloading(_) => Told(objects, h, t, f, false)
    case Converting(_, _) => Told(objects, h, t, f, false)
    case Uploading(_, _, _, done) => Told(objects, h, t, f, f in done)
    case Finishing(_, _, out) => Told(objects, h, t, f, f in out)
    case _ => true
  }

  predicate ReadyTold(s: State, h: FileStory, t: TrackId, f: string) {
    t in s.rows && s.rows[t].status == Ready ==> t in s.made && Told(s.objects, h, t, f, f in s.made[t].out)
  }

  ghost predicate Consistent(s: State, h: FileStory, t: TrackId, f: string) {
    && (h.lastPut.Some? ==> h.lastPut.value <= h.attempts)
    && (forall w <- s.workers | Holds(s, w, t) :: HolderTold(s.objects, h, t, f, s.workers[w].pc))
    && ReadyTold(s, h, t, f)
  }

  /** The claim that begins an attempt finds no other holder. */
  lemma BeginningIsAlone(s: State, w: WorkerId, call: Call, t: TrackId)
    requires Exclusive(s) && CanAct(s, w, Claim(call)) && BeginsAttempt(s, ByWorker(w, Claim(call)), t)
    ensures forall v <- s.workers :: !Holds(s, v, t)
    ensures var s' := DoAct(s, w, Claim(call));
            && s'.objects == s.objects && s'.rows[t].status == Processing
            && forall v <- s'.workers | Holds(s', v, t) :: s'.workers[v].pc.Downloading?
  {
  }

  lemma ClaimTells(s: State, w: WorkerId, call: Call, t: TrackId, f: string, h: FileStory)
    requires Exclusive(s) && Consistent(s, h, t, f) && CanAct(s, w, Claim(call))
    ensures var step := ByWorker(w, Claim(call)); Consistent(DoAct(s, w, step.act), Follow(h, s, step, t, f), t, f)
  {
    if BeginsAttempt(s, ByWorker(w, Claim(call)), t) {
      BeginningIsAlone(s, w, call, t);
    } else {
      OtherClaim(s, w, call, t, f, h);
    }
  }

  lemma OtherClaim(s: State, w: WorkerId, call: Call, t: TrackId, f: string, h: FileStory)
    requires Consistent(s, h, t, f) && CanAct(s, w, Claim(call)) && !BeginsAttempt(s, ByWorker(w, Claim(call)), t)
    ensures Consistent(DoAct(s, w, Claim(call)), h, t, f)
  {
  }

  /** A put under the track's prefix is its holder's. */
  lemma PutTells(s: State, w: WorkerId, file: string, call: Call, t: TrackId, f: string, h: FileStory)
    requires Exclusive(s) && Consistent(s, h, t, f) && CanAct(s, w, Put(file, call))
    ensures var step := ByWorker(w, Put(file, call)); Consistent(DoAct(s, w, step.act), Follow(h, s, step, t, f), t, f)
  {
  }

  lemma CloseReadyTells(s: State, w: WorkerId, call: Call, t: TrackId, f: string, h: FileStory)
    requires Exclusive(s) && Consistent(s, h, t, f) && CanAct(s, w, CloseReady(call))
    ensures Consistent(DoAct(s, w, CloseReady(call)), h, t, f)
  {
  }

  lemma CloseFailedTells(s: State, w: WorkerId, call: Call, t: TrackId, f: string, h: FileStory)
    requires Exclusive(s) && Consistent(s, h, t, f) && CanAct(s, w, CloseFailed(call))
    ensures Consistent(DoAct(s, w, CloseFailed(call)), h, t, f)
  {
  }

  lemma MoveTells(s: State, w: WorkerId, act: WorkerAct, t: TrackId, f: string, h: FileStory)
    requires Consistent(s, h, t, f) && CanAct(s, w, act) && !Writes(act)
    ensures Consistent(DoAct(s, w, act), h, t, f)
  {
    hide Told, DoAct, CanAct;
    assert Consistent(DoAct(s, w, act), h, t, f) by {
      WorkerEffect(s, w, act);
      OthersKeepPlace(s, w, act);
      MoverStaysTold(s, w, act, t, f, h);
    }
  }

  lemma MoverStaysTold(s: State, w: WorkerId, act: WorkerAct, t: TrackId, f: string, h: FileStory)
    requires CanAct(s, w, act) && !Writes(act)
    requires Holds(s, w, t) ==> HolderTold(s.objects, h, t, f, s.workers[w].pc)
    ensures var s' := DoAct(s, w, act);
            Holds(s', w, t) ==> HolderTold(s.objects, h, t, f, s'.workers[w].pc)
  {
    hide Told;
  }

  /** An upload leaves the converted files alone, and adds no row that is ready. */
  lemma UploadLeavesFile(s: State, u: UploadId, act: UploadAct, t: TrackId, f: string)
    requires Inv(s) && CanSaga(s, u, act)
    ensures var s' := DoSaga(s, u, act);
            && Lookup(s'.objects, Hls(t, f)) == Lookup(s.objects, Hls(t, f))
            && (t in s'.rows && s'.rows[t].status == Ready ==> t in s.rows && s.rows[t] == s'.rows[t])
  {
    hide DoSaga, CanSaga, RowsOk, JobsOk, Exclusive, Saga, Results, Offsets;
    UploadRowEffect(s, u, act);
    UploadObjectEffect(s, u, act);
    assert u in s.uploads ==> s.uploads[u].key.Raw?;
  }

  lemma UploadTells(s: State, u: UploadId, act: UploadAct, t: TrackId, f: string, h: FileStory)
    requires Inv(s) && Consistent(s, h, t, f) && CanSaga(s, u, act)
    ensures Consistent(DoSaga(s, u, act), h, t, f)
  {
    hide DoSaga, CanSaga, Inv, Consistent, Lookup;
    UploadEffect(s, u, act);
    UploadLeavesFile(s, u, act, t, f);
    SameFileSameStory(s, DoSaga(s, u, act), t, f, h);
  }

  lemma SameFileSameStory(s: State, s': State, t: TrackId, f: string, h: FileStory)
    requires Consistent(s, h, t, f) && s'.workers == s.workers && s'.made == s.made
    requires Lookup(s'.objects, Hls(t, f)) == Lookup(s.objects, Hls(t, f))
    requires t in s'.rows && s'.rows[t].status == Ready ==> t in s.rows && s.rows[t] == s'.rows[t]
    ensures Consistent(s', h, t, f)
  {
    hide Lookup;
  }

  lemma StepTells(s: State, step: Step, t: TrackId, f: string, h: FileStory)
    requires Inv(s) && Consistent(s, h, t, f) && Can(s, step)
    ensures Consistent(Apply(s, step), Follow(h, s, step, t, f), t, f)
  {
    hide DoAct, CanAct, DoSaga, CanSaga, Consistent, RowsOk, JobsOk, Exclusive, Saga, Results, Offsets;
    match step
    case ByUpload(u, act) => UploadTells(s, u, act, t, f, h);
    case ByWorker(w, act) =>
      match act {
        case Claim(call) => ClaimTells(s, w, call, t, f, h);
        case Put(file, call) => PutTells(s, w, file, call, t, f, h);
        case CloseReady(call) => CloseReadyTells(s, w, call, t, f, h);
        case CloseFailed(call) => CloseFailedTells(s, w, call, t, f, h);
        case _ => MoveTells(s, w, act, t, f, h);
      }
  }

  lemma {:induction false} RunTells(s: State, run: seq<Step>, t: TrackId, f: string, h: FileStory)
    requires Inv(s) && Consistent(s, h, t, f) && Legal(s, run)
    ensures Consistent(Exec(s, run), FollowAll(h, s, run, t, f), t, f)
    decreases |run|
  {
    hide Inv, Can, Apply, Consistent, Follow;
    if run != [] {
      StepTells(s, run[0], t, f, h);
      StepKeepsInv(s, run[0]);
      RunTells(Apply(s, run[0]), run[1..], t, f, Follow(h, s, run[0], t, f));
    }
  }

  /** A file of a ready track was last stored by the attempt that made the track ready if and only if that attempt
      produced it, and then it shows that attempt's bytes. Otherwise it shows exactly what stood under its key when
      that attempt claimed the track. */
  lemma ServedFileIff(s0: State, run: seq<Step>, t: TrackId, f: string)
    requires Init(s0) && Legal(s0, run) && PlayTrack(Exec(s0, run).rows, t).Playlist?
    ensures var s, h := Exec(s0, run), StoryOf(s0, run, t, f);
            && t in s.made
            && (h.lastPut == Some(h.attempts) <==> f in s.made[t].out)
            && Lookup(s.objects, Hls(t, f)) == if f in s.made[t].out then Some(s.made[t].out[f]) else h.atClaim
  {
    hide Can, Apply, Legal, Exec, FollowAll, RowsOk, JobsOk, Exclusive, Saga, Offsets;
    var start := FileStory(0, None, None);
    InitInv(s0);
    RunKeepsInv(s0, run);
    RunTells(s0, run, t, f, start);
    var s := Exec(s0, run);
    assert ReadyOk(s.objects, s.made, UploadOf(s, t).body, t, s.rows[t]);
  }

  // ---------------------------------------------------------------- when FFmpeg always leaves a playlist

  /** The conversion, if the step is one that ended with code zero, left a playlist. */
  predicate LeavesPlaylist(step: Step) {
    step.ByWorker? && step.act.Convert? && step.act.result.Some? ==> MASTER in step.act.result.value
  }

  /** Whatever was converted has a playlist. */
  predicate PlaylistsAlong(s: State) {
    && (forall w <- s.workers | s.workers[w].pc.Uploading? || s.workers[w].pc.Finishing? ::
          MASTER in s.workers[w].pc.out)
    && (forall t <- s.made :: MASTER in s.made[t].out)
  }

  lemma StepKeepsPlaylists(s: State, step: Step)
    requires PlaylistsAlong(s) && Can(s, step) && LeavesPlaylist(step)
    ensures PlaylistsAlong(Apply(s, step))
  {
    hide DoSaga, CanSaga;
    match step
    case ByWorker(w, act) => WorkerKeepsPlaylists(s, w, act);
    case ByUpload(u, act) => UploadEffect(s, u, act);
  }

  lemma WorkerKeepsPlaylists(s: State, w: WorkerId, act: WorkerAct)
    requires PlaylistsAlong(s) && CanAct(s, w, act) && LeavesPlaylist(ByWorker(w, act))
    ensures PlaylistsAlong(DoAct(s, w, act))
  {
  }

  lemma {:induction false} RunKeepsPlaylists(s: State, run: seq<Step>)
    requires PlaylistsAlong(s) && Legal(s, run) && forall i | 0 <= i < |run| :: LeavesPlaylist(run[i])
    ensures PlaylistsAlong(Exec(s, run))
    decreases |run|
  {
    hide Can, Apply, LeavesPlaylist, PlaylistsAlong;
    if run != [] {
      StepKeepsPlaylists(s, run[0]);
      RunKeepsPlaylists(Apply(s, run[0]), run[1..]);
    }
  }

  /** If every conversion with exit code zero left a playlist, then every key `/play` hands out names the playlist of
      the attempt that made the track ready, with every file of that attempt stored beside it. */
  lemma PlaylistsServeClosingAttempt(s0: State, run: seq<Step>, t: TrackId)
    requires Init(s0) && Legal(s0, run) && PlayTrack(Exec(s0, run).rows, t).Playlist?
    requires forall i | 0 <= i < |run| :: LeavesPlaylist(run[i])
    ensures var s := Exec(s0, run);
            && PlayTrack(s.rows, t).key == Some(Hls(t, MASTER))
            && t in s.made && MASTER in s.made[t].out
            && Lookup(s.objects, Hls(t, MASTER)) == Some(s.made[t].out[MASTER])
            && StoryOf(s0, run, t, MASTER).lastPut == Some(StoryOf(s0, run, t, MASTER).attempts)
            && forall f <- s.made[t].out :: Lookup(s.objects, Hls(t, f)) == Some(s.made[t].out[f])
  {
    hide Can, Apply, Legal, Exec, FollowAll;
    RunKeepsPlaylists(s0, run);
    PlayServesWholeAttempt(Exec(s0, run), t);
    ServedFileIff(s0, run, t, MASTER);
  }
}
