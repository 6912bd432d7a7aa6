/** The platform's objects by the names they have in the bucket: a bucket addressed by strings goes through the same
    states as the store addressed by key parts, because no two keys ever used share a name. */
module PlatformKeys {
  import opened Basics
  import opened GoPaths
  import opened ObjectKeys
  import opened Platform
  import opened PlatformInvariant
  import opened PlatformEffects
  import opened PlatformTheorems

  predicate PlainFiles(pc: Pc) {
    pc.Uploading? || pc.Finishing? ==> forall f <- pc.out :: SlashFree(f)
  }

  /** Every key the processes hold or use is made of slash-free parts. */
  predicate KeysOk(s: State) {
    && (forall u <- s.uploads :: WellFormed(s.uploads[u].key))
    && (forall t <- s.creator :: SlashFree(t))
    && (forall w <- s.workers :: PlainFiles(s.workers[w].pc))
    && (forall k <- s.objects :: WellFormed(k))
  }

  lemma WorkerKeepsPlainFiles(s: State, w: WorkerId, act: WorkerAct)
    requires CanAct(s, w, act) && (Runs(s, w) ==> PlainFiles(PcOf(s, w)))
    ensures w in DoAct(s, w, act).workers ==> PlainFiles(DoAct(s, w, act).workers[w].pc)
  {
  }

  lemma WorkerKeepsKeys(s: State, w: WorkerId, act: WorkerAct)
    requires JobsOk(s) && KeysOk(s) && CanAct(s, w, act)
    ensures KeysOk(DoAct(s, w, act))
  {
    hide DoAct, CanAct, SlashFree;
    WorkerEffect(s, w, act);
    WorkerKeepsPlainFiles(s, w, act);
    OthersKeepPlace(s, w, act);
    if act.Put? {
      assert JobOk(s, PcOf(s, w).job);
    }
  }

  lemma UploadKeepsKeys(s: State, u: UploadId, act: UploadAct)
    requires KeysOk(s) && CanSaga(s, u, act)
    ensures KeysOk(DoSaga(s, u, act))
  {
    hide DoSaga, CanSaga, SlashFree;
    UploadEffect(s, u, act);
    UploadRowEffect(s, u, act);
    UploadObjectEffect(s, u, act);
    OwnKeyWellFormed(s, u, act);
  }

  lemma OwnKeyWellFormed(s: State, u: UploadId, act: UploadAct)
    requires KeysOk(s) && CanSaga(s, u, act)
    ensures u in DoSaga(s, u, act).uploads && WellFormed(DoSaga(s, u, act).uploads[u].key)
    ensures act.Insert? ==> SlashFree(act.t)
  {
  }

  lemma {:induction false} RunKeepsKeys(s: State, run: seq<Step>)
    requires Inv(s) && KeysOk(s) && Legal(s, run)
    ensures KeysOk(Exec(s, run))
    decreases |run|
  {
    hide Can, Apply, KeysOk, RowsOk, Exclusive, Saga, Results, Offsets;
    if run != [] {
      assert KeysOk(Apply(s, run[0])) by { StepKeepsKeys(s, run[0]); }
      StepKeepsInv(s, run[0]);
      RunKeepsKeys(Apply(s, run[0]), run[1..]);
    }
  }

  lemma StepKeepsKeys(s: State, step: Step)
    requires JobsOk(s) && KeysOk(s) && Can(s, step)
    ensures KeysOk(Apply(s, step))
  {
    hide KeysOk, DoAct, CanAct, DoSaga, CanSaga;
    match step
    case ByWorker(w, act) => WorkerKeepsKeys(s, w, act);
    case ByUpload(u, act) => UploadKeepsKeys(s, u, act);
  }

  lemma ReachableKeys(s: State)
    requires Reachable(s)
    ensures KeysOk(s)
  {
    hide Inv, KeysOk;
    var s0, run :| Init(s0) && Legal(s0, run) && Exec(s0, run) == s;
    InitInv(s0);
    assert KeysOk(s0) by { EmptyKeys(s0); }
    RunKeepsKeys(s0, run);
  }

  lemma EmptyKeys(s: State)
    requires Init(s)
    ensures KeysOk(s)
  {
  }

  /** The bucket after a step: one put or one delete under a name, or no change. */
  ghost function BucketAfter(s: State, step: Step, bucket: map<string, Bytes>): map<string, Bytes>
    requires Can(s, step)
  {
    match step
    case ByWorker(w, act) =>
      if act.Put? && act.call.Took()
      then bucket[HlsName(PcOf(s, w).job.track, act.file) := PcOf(s, w).out[act.file]]
      else bucket
    case ByUpload(u, act) =>
      if act.Store? && act.call.Took() then bucket[Render(s.uploads[u].key) := s.uploads[u].body]
      else if act.UndoObject? && act.call.Took() then bucket - {Render(s.uploads[u].key)}
      else bucket
  }

  /** Addressing the bucket by names or the store by key parts comes to the same in every step of every run: no put
      overwrites and no delete removes an object of another key. */
  lemma BucketFollowsStore(s: State, step: Step, bucket: map<string, Bytes>)
    requires Reachable(s) && Can(s, step) && Represents(bucket, s.objects)
    ensures Represents(BucketAfter(s, step, bucket), Apply(s, step).objects)
  {
    hide DoAct, DoSaga, Represents, WellFormed, SlashFree, HlsName;
    ReachableKeys(s);
    match step
    case ByWorker(w, act) =>
      WorkerEffect(s, w, act);
      if act.Put? && act.call.Took() {
        PutKeyWellFormed(s, w, act.file);
        PutAgrees(bucket, s.objects, Hls(PcOf(s, w).job.track, act.file), PcOf(s, w).out[act.file]);
      }
    case ByUpload(u, act) =>
      UploadObjectEffect(s, u, act);
      if act.Store? && act.call.Took() {
        PutAgrees(bucket, s.objects, s.uploads[u].key, s.uploads[u].body);
      } else if act.UndoObject? && act.call.Took() {
        DeleteAgrees(bucket, s.objects, s.uploads[u].key);
      }
  }

  lemma PutKeyWellFormed(s: State, w: WorkerId, file: string)
    requires Reachable(s) && KeysOk(s) && CanPut(s, w, file)
    ensures WellFormed(Hls(PcOf(s, w).job.track, file))
  {
    hide SlashFree, RowsOk, Exclusive, Saga, Results, Offsets;
    ReachableInv(s);
    assert JobOk(s, PcOf(s, w).job);
  }
}
