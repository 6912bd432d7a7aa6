/** A job that is not lost can still be done: a worker that joins and meets no failure makes the track ready. */
module PlatformProgress {
  import opened Basics
  import opened Platform
  import opened PlatformInvariant
  import opened PlatformTheorems
  import opened PlatformJobs

  /** What FFmpeg leaves in the continuation: a playlist. */
  const SAMPLE: Output := map[MASTER := []]

  /** The next action of a worker on partition `p` when every call succeeds. */
  function NextAct(s: State, w: WorkerId, p: Partition): WorkerAct
    requires Runs(s, w)
  {
    match PcOf(s, w)
    case Idle => Deliver(p)
    case Taken(_) => ReadStatus(Ok)
    case Checked(_) => Claim(Ok)
    case Downloading(_) => Download(true)
    case Converting(_, _) => Convert(Some(SAMPLE))
    case Uploading(_, _, _, done) => if done == {} then Put(MASTER, Ok) else PutsDone
    case Finishing(_, _, _) => CloseReady(Ok)
    case Failing(_) => CloseFailed(Ok)
    case Acking(_, _) => Commit
  }

  /** The run consists of the actions of worker `w`, none of which fails. */
  ghost predicate Unfailing(s: State, run: seq<Step>, w: WorkerId, p: Partition)
    requires Legal(s, run)
    decreases |run|
  {
    run == [] || (Runs(s, w) && run[0] == ByWorker(w, NextAct(s, w, p)) && Unfailing(Apply(s, run[0]), run[1..], w, p))
  }

  predicate IsReady(s: State, t: TrackId) {
    t in s.rows && s.rows[t].status == Ready
  }

  predicate IsPending(s: State, t: TrackId) {
    t in s.rows && s.rows[t].status == Pending
  }

  /** What the worker has in hand on its way to the job of `t` at offset `o`: a job of another track, or a job of `t`
      in some stage on the way to `ready`. */
  predicate OnCourse(s: State, pc: Pc, t: TrackId) {
    if pc.Idle? then IsPending(s, t)
    else if pc.job.track != t then
      IsPending(s, t) && (pc.Uploading? ==> pc.out == SAMPLE && pc.done <= {MASTER})
    else match pc
      case Taken(_) => IsPending(s, t)
      case Checked(_) => IsPending(s, t)
      case Downloading(_) => true
      case Converting(_, _) => true
      case Uploading(_, _, out, done) => out == SAMPLE && done <= {MASTER}
      case Finishing(_, _, _) => true
      case _ => false
  }

  /** The job of `t` at offset `o` of partition `p` is in hand or still ahead. */
  predicate Underway(s: State, w: WorkerId, t: TrackId, p: Partition, o: nat) {
    && Runs(s, w) && p in s.log && o < |s.log[p]| && s.log[p][o].track == t
    && p in s.workers[w].pos && s.workers[w].pos[p] <= o + 1
    && (s.workers[w].pos[p] == o + 1 ==> !PcOf(s, w).Idle? && PcOf(s, w).job.track == t)
    && OnCourse(s, PcOf(s, w), t)
  }

  function Stage(pc: Pc): nat {
    match pc
    case Idle => 0
    case Acking(_, _) => 1
    case Failing(_) => 2
    case Finishing(_, _, _) => 2
    case Uploading(_, _, _, done) => if done == {} then 4 else 3
    case Converting(_, _) => 5
    case Downloading(_) => 6
    case Checked(_) => 7
    case Taken(_) => 8
  }

  /** How far the worker is from `o`. */
  function Distance(s: State, w: WorkerId, p: Partition, o: nat): int
    requires Runs(s, w) && p in s.workers[w].pos
  {
    10 * (o + 1 - s.workers[w].pos[p]) + Stage(PcOf(s, w))
  }

  /** A job of `t` in hand names a stored object, and a holder finds its row in `processing`. */
  predicate Sound(s: State, w: WorkerId, t: TrackId)
    requires Runs(s, w)
  {
    && t in s.rows
    && (!PcOf(s, w).Idle? && PcOf(s, w).job.track == t ==>
          PcOf(s, w).job.path in s.objects && (PcOf(s, w).Holding() ==> s.rows[t].status == Processing))
  }

  lemma AnsweredIsSound(s: State, w: WorkerId, u: UploadId, t: TrackId)
    requires Inv(s) && Answered(s, u, t) && Runs(s, w)
    ensures Sound(s, w, t)
  {
    hide RowsOk, Results, Offsets;
    AnsweredHasRow(s, u, t);
    if !PcOf(s, w).Idle? && PcOf(s, w).job.track == t {
      assert JobOk(s, PcOf(s, w).job) && UploadOk(s.rows, s.objects, s.log, s.uploads[u]);
    }
  }

  /** The track is ready, or its job is nearer than before. */
  predicate Nearer(s: State, s': State, w: WorkerId, t: TrackId, p: Partition, o: nat)
    requires Underway(s, w, t, p, o)
  {
    IsReady(s', t) || (Underway(s', w, t, p, o) && Distance(s', w, p, o) < Distance(s, w, p, o))
  }

  lemma DeliveryAdvances(s: State, w: WorkerId, t: TrackId, p: Partition, o: nat)
    requires Underway(s, w, t, p, o) && Sound(s, w, t) && PcOf(s, w).Idle?
    ensures CanAct(s, w, NextAct(s, w, p)) && Nearer(s, DoAct(s, w, NextAct(s, w, p)), w, t, p, o)
  {
  }

  lemma ReadingAdvances(s: State, w: WorkerId, t: TrackId, p: Partition, o: nat)
    requires Underway(s, w, t, p, o) && Sound(s, w, t) && PcOf(s, w).Taken?
    ensures CanAct(s, w, NextAct(s, w, p)) && Nearer(s, DoAct(s, w, NextAct(s, w, p)), w, t, p, o)
  {
  }

  lemma ClaimAdvances(s: State, w: WorkerId, t: TrackId, p: Partition, o: nat)
    requires Underway(s, w, t, p, o) && Sound(s, w, t) && PcOf(s, w).Checked?
    ensures CanAct(s, w, NextAct(s, w, p)) && Nearer(s, DoAct(s, w, NextAct(s, w, p)), w, t, p, o)
  {
  }

  lemma ConversionAdvances(s: State, w: WorkerId, t: TrackId, p: Partition, o: nat)
    requires Underway(s, w, t, p, o) && Sound(s, w, t) && (PcOf(s, w).Downloading? || PcOf(s, w).Converting?)
    ensures CanAct(s, w, NextAct(s, w, p)) && Nearer(s, DoAct(s, w, NextAct(s, w, p)), w, t, p, o)
  {
  }

  lemma PutAdvances(s: State, w: WorkerId, t: TrackId, p: Partition, o: nat)
    requires Underway(s, w, t, p, o) && Sound(s, w, t) && PcOf(s, w).Uploading? && PcOf(s, w).done == {}
    ensures CanAct(s, w, NextAct(s, w, p)) && Nearer(s, DoAct(s, w, NextAct(s, w, p)), w, t, p, o)
  {
  }

  lemma UploadEndAdvances(s: State, w: WorkerId, t: TrackId, p: Partition, o: nat)
    requires Underway(s, w, t, p, o) && Sound(s, w, t) && PcOf(s, w).Uploading? && PcOf(s, w).done != {}
    ensures CanAct(s, w, NextAct(s, w, p)) && Nearer(s, DoAct(s, w, NextAct(s, w, p)), w, t, p, o)
  {
    assert PcOf(s, w).done == SAMPLE.Keys;
  }

  lemma ClosingAdvances(s: State, w: WorkerId, t: TrackId, p: Partition, o: nat)
    requires Underway(s, w, t, p, o) && Sound(s, w, t)
    requires PcOf(s, w).Finishing? || PcOf(s, w).Failing? || PcOf(s, w).Acking?
    ensures CanAct(s, w, NextAct(s, w, p)) && Nearer(s, DoAct(s, w, NextAct(s, w, p)), w, t, p, o)
  {
  }

  lemma StepAdvances(s: State, w: WorkerId, t: TrackId, p: Partition, o: nat)
    requires Underway(s, w, t, p, o) && Sound(s, w, t)
    ensures CanAct(s, w, NextAct(s, w, p)) && Nearer(s, DoAct(s, w, NextAct(s, w, p)), w, t, p, o)
  {
    hide Underway, Sound, NextAct, Nearer, CanAct, DoAct;
    assert Runs(s, w) by { UnderwayRuns(s, w, t, p, o); }
    match PcOf(s, w)
    case Idle => DeliveryAdvances(s, w, t, p, o);
    case Taken(_) => ReadingAdvances(s, w, t, p, o);
    case Checked(_) => ClaimAdvances(s, w, t, p, o);
    case Downloading(_) => ConversionAdvances(s, w, t, p, o);
    case Converting(_, _) => ConversionAdvances(s, w, t, p, o);
    case Uploading(_, _, _, done) =>
      if done == {} { PutAdvances(s, w, t, p, o); } else { UploadEndAdvances(s, w, t, p, o); }
    case Finishing(_, _, _) => ClosingAdvances(s, w, t, p, o);
    case Failing(_) => ClosingAdvances(s, w, t, p, o);
    case Acking(_, _) => ClosingAdvances(s, w, t, p, o);
  }

  lemma UnderwayRuns(s: State, w: WorkerId, t: TrackId, p: Partition, o: nat)
    requires Underway(s, w, t, p, o)
    ensures Runs(s, w)
  {
  }

  lemma {:induction false} Arrives(s: State, w: WorkerId, u: UploadId, t: TrackId, p: Partition, o: nat)
    returns (run: seq<Step>)
    requires Inv(s) && Answered(s, u, t) && Underway(s, w, t, p, o)
    ensures Legal(s, run) && Unfailing(s, run, w, p) && IsReady(Exec(s, run), t)
    decreases Distance(s, w, p, o)
  {
    hide Inv, Answered, OnCourse, Sound, IsReady, CanAct, DoAct, NextAct, Stage;
    AnsweredIsSound(s, w, u, t);
    StepAdvances(s, w, t, p, o);
    var step := ByWorker(w, NextAct(s, w, p));
    StepKeepsInv(s, step);
    StepKeepsAnswered(s, step, u, t);
    var s' := Apply(s, step);
    var rest: seq<Step> := [];
    if !IsReady(s', t) {
      rest := Arrives(s', w, u, t, p, o);
    }
    run := [step] + rest;
    assert run[1..] == rest;
  }

  lemma JoiningIsUnderway(s: State, w: WorkerId, t: TrackId, p: Partition, o: nat)
    requires !Runs(s, w) && IsPending(s, t) && p in s.log && p in s.committed
    requires s.committed[p] <= o < |s.log[p]| && s.log[p][o].track == t
    ensures Underway(DoAssign(DoStart(s, w), w, p), w, t, p, o)
  {
  }

  /** From every reachable state in which a track answered 201 is pending and its job is not all committed, a worker
      that joins, is assigned the job's partition and meets no failure makes the track ready. */
  lemma OutstandingCanBecomeReady(s: State, w: WorkerId, u: UploadId, t: TrackId)
    returns (p: Partition, run: seq<Step>)
    requires Reachable(s) && !Runs(s, w) && Answered(s, u, t)
    requires t in s.rows && s.rows[t].status == Pending && Outstanding(s, t)
    ensures p in s.committed
    ensures var s1 := DoAssign(DoStart(s, w), w, p);
            && Legal(s1, run) && Legal(s, [ByWorker(w, Start), ByWorker(w, Assign(p))] + run)
            && Exec(s, [ByWorker(w, Start), ByWorker(w, Assign(p))] + run) == Exec(s1, run)
            && Unfailing(s1, run, w, p) && IsReady(Exec(s1, run), t)
  {
    hide Inv, Answered, DoSaga, CanSaga;
    ReachableInv(s);
    var q, o :| q in s.log && q in s.committed && s.committed[q] <= o < |s.log[q]|
                && s.log[q][o] == Job(t, s.rows[t].objectKey);
    p := q;
    var s0 := Apply(s, ByWorker(w, Start));
    var s1 := Apply(s0, ByWorker(w, Assign(p)));
    StepKeepsInv(s, ByWorker(w, Start));
    StepKeepsInv(s0, ByWorker(w, Assign(p)));
    StepKeepsAnswered(s, ByWorker(w, Start), u, t);
    StepKeepsAnswered(s0, ByWorker(w, Assign(p)), u, t);
    JoiningIsUnderway(s, w, t, p, o);
    hide Underway, Unfailing, IsReady, DoStart, DoAssign;
    run := Arrives(s1, w, u, t, p, o);
    var all := [ByWorker(w, Start), ByWorker(w, Assign(p))] + run;
    assert all[1..] == [ByWorker(w, Assign(p))] + run && all[1..][1..] == run;
    assert Legal(s0, all[1..]) && Exec(s0, all[1..]) == Exec(s1, run);
  }
}
