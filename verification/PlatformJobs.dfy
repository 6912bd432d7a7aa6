/** Delivery of transcode jobs: which tracks can lose theirs, and what is left once all jobs are committed. */
module PlatformJobs {
  import opened Basics
  import opened Platform
  import opened PlatformInvariant
  import opened PlatformEffects
  import opened PlatformTheorems
  import opened PlatformStatus

  /** A job with the id and key of the row stands at or above the committed offset of its partition. */
  ghost predicate Outstanding(s: State, t: TrackId)
    requires t in s.rows
  {
    exists p, o :: p in s.log && p in s.committed && s.committed[p] <= o < |s.log[p]|
                   && s.log[p][o] == Job(t, s.rows[t].objectKey)
  }

  lemma PendingIsOutstanding(s: State, u: UploadId, t: TrackId)
    requires Inv(s) && Answered(s, u, t)
    ensures t in s.rows
    ensures s.rows[t].status == Pending && t !in s.abandoned ==> Outstanding(s, t)
  {
    hide Exclusive, Saga, Results;
    AnsweredHasRow(s, u, t);
    if s.rows[t].status == Pending && t !in s.abandoned {
      var p, o :| p in s.log && 0 <= o < |s.log[p]| && s.log[p][o].track == t;
      assert JobOk(s, s.log[p][o]) && RowOk(s, t, s.rows[t]);
      assert PrefixPassed(s.rows, s.abandoned, Idle, s.log[p], s.committed[p]);
      assert !JobPassed(s.rows, s.abandoned, Idle, s.log[p][o]);
    }
  }

  /** The claim on a job of `t` raises a database error and leaves the row as it was. */
  predicate ClaimError(s: State, step: Step, t: TrackId) {
    && step.ByWorker? && step.act == Claim(Lost(false))
    && Runs(s, step.w) && !PcOf(s, step.w).Idle? && PcOf(s, step.w).job.track == t
  }

  ghost predicate ClaimErrorIn(s: State, run: seq<Step>, t: TrackId)
    requires Legal(s, run)
    decreases |run|
  {
    run != [] && (ClaimError(s, run[0], t) || ClaimErrorIn(Apply(s, run[0]), run[1..], t))
  }

  lemma StepAbandons(s: State, step: Step, t: TrackId)
    requires Can(s, step)
    ensures t in Apply(s, step).abandoned <==> t in s.abandoned || ClaimError(s, step, t)
  {
    hide DoAct, CanAct, DoSaga, CanSaga;
    match step
    case ByWorker(w, act) => WorkerEffect(s, w, act);
    case ByUpload(u, act) => UploadEffect(s, u, act);
  }

  lemma {:induction false} RunAbandons(s: State, run: seq<Step>, t: TrackId)
    requires Legal(s, run)
    ensures t in Exec(s, run).abandoned <==> t in s.abandoned || ClaimErrorIn(s, run, t)
    decreases |run|
  {
    hide Can, Apply;
    if run != [] {
      StepAbandons(s, run[0], t);
      RunAbandons(Apply(s, run[0]), run[1..], t);
    }
  }

  /** No job is lost: after any run in which no claim on `t` raised an error without effect, a row that is still
      pending and whose upload was answered 201 has its job at or above the committed offset. Worker deaths,
      rebalances, duplicates, exceptions in the `try` block and all other database errors are allowed. */
  lemma NoJobLost(s0: State, run: seq<Step>, u: UploadId, t: TrackId)
    requires Init(s0) && Legal(s0, run) && !ClaimErrorIn(s0, run, t)
    requires var s := Exec(s0, run); Answered(s, u, t) && t in s.rows && s.rows[t].status == Pending
    ensures Outstanding(Exec(s0, run), t)
  {
    hide Inv, Can, Apply;
    InitInv(s0);
    RunKeepsInv(s0, run);
    RunAbandons(s0, run, t);
    PendingIsOutstanding(Exec(s0, run), u, t);
  }

  // ---------------------------------------------------------------- exactly which jobs are lost

  /** A claim on a job of `t` takes effect, whether or not its worker hears of it. */
  predicate ClaimTook(s: State, step: Step, t: TrackId) {
    && step.ByWorker? && step.act.Claim? && step.act.call.Took()
    && Runs(s, step.w) && !PcOf(s, step.w).Idle? && PcOf(s, step.w).job.track == t
  }

  ghost predicate ClaimTookIn(s: State, run: seq<Step>, t: TrackId)
    requires Legal(s, run)
    decreases |run|
  {
    run != [] && (ClaimTook(s, run[0], t) || ClaimTookIn(Apply(s, run[0]), run[1..], t))
  }

  /** The row may still be inserted, or it is pending. */
  predicate Untried(s: State, t: TrackId) {
    if t in s.rows then s.rows[t].status == Pending else t !in s.creator
  }

  /** A pending row that stays stays pending exactly if no claim on it takes effect. */
  lemma StepTries(s: State, step: Step, t: TrackId)
    requires Inv(s) && Can(s, step) && Untried(s, t) && !Gone(Apply(s, step), t)
    ensures Untried(Apply(s, step), t) <==> !ClaimTook(s, step, t)
  {
    hide DoAct, CanAct, DoSaga, CanSaga, Exclusive, Saga, Results, Offsets;
    StepAllowed(s, step, t);
    CreatorFollows(s, step, t);
    match step
    case ByWorker(w, act) =>
      WorkerEffect(s, w, act);
      assert Runs(s, w) && !PcOf(s, w).Idle? ==> JobOk(s, PcOf(s, w).job);
    case ByUpload(u, act) => UploadRowEffect(s, u, act);
  }

  lemma {:induction false} NeverPendingAgain(s: State, run: seq<Step>, t: TrackId)
    requires Inv(s) && Legal(s, run) && t in s.creator && !Untried(s, t)
    ensures t in Exec(s, run).creator && !Untried(Exec(s, run), t)
    decreases |run|
  {
    hide Inv, Can, Apply;
    if run != [] {
      StepKeepsInv(s, run[0]);
      StepAllowed(s, run[0], t);
      CreatorFollows(s, run[0], t);
      NeverPendingAgain(Apply(s, run[0]), run[1..], t);
    }
  }

  lemma {:induction false} RunTries(s: State, run: seq<Step>, t: TrackId)
    requires Inv(s) && Legal(s, run) && Untried(s, t) && t in Exec(s, run).rows
    ensures Exec(s, run).rows[t].status == Pending <==> !ClaimTookIn(s, run, t)
    decreases |run|
  {
    hide Inv, Can, Apply, ClaimTook;
    if run != [] {
      var s1 := Apply(s, run[0]);
      StepKeepsInv(s, run[0]);
      if Gone(s1, t) {
        GoneForever(s1, run[1..], t);
      } else {
        StepTries(s, run[0], t);
        CreatorFollows(s, run[0], t);
        if Untried(s1, t) {
          RunTries(s1, run[1..], t);
        } else {
          NeverPendingAgain(s1, run[1..], t);
        }
      }
    }
  }

  /** After any run a row is still pending if and only if no claim on it took effect. */
  lemma PendingIffNoClaimTook(s0: State, run: seq<Step>, t: TrackId)
    requires Init(s0) && Legal(s0, run) && t in Exec(s0, run).rows
    ensures Exec(s0, run).rows[t].status == Pending <==> !ClaimTookIn(s0, run, t)
  {
    hide Inv, Can, Apply, Legal, Exec;
    InitInv(s0);
    RunTries(s0, run, t);
  }

  /** Every copy of the track's job is below the committed offset. */
  ghost predicate AllCommitted(s: State, t: TrackId) {
    forall p, o | p in s.log && 0 <= o < |s.log[p]| && s.log[p][o].track == t ::
      p in s.committed && o < s.committed[p]
  }

  lemma OutstandingIffNotAllCommitted(s: State, t: TrackId)
    requires Inv(s) && t in s.rows
    ensures Outstanding(s, t) <==> !AllCommitted(s, t)
  {
    hide Exclusive, Saga, Results;
    assert RowOk(s, t, s.rows[t]);
    if !AllCommitted(s, t) {
      var p, o :| p in s.log && 0 <= o < |s.log[p]| && s.log[p][o].track == t
                  && !(p in s.committed && o < s.committed[p]);
      assert JobOk(s, s.log[p][o]);
    }
  }

  /** A track answered 201 is lost, pending without a job left, if and only if every copy of its job is committed and
      every claim on it raised an error without effect; at least one such error then occurred. */
  lemma JobLostIff(s0: State, run: seq<Step>, u: UploadId, t: TrackId)
    requires Init(s0) && Legal(s0, run) && Answered(Exec(s0, run), u, t)
    ensures var s := Exec(s0, run);
            && t in s.rows
            && (s.rows[t].status == Pending && !Outstanding(s, t)
                <==> AllCommitted(s, t) && !ClaimTookIn(s0, run, t))
            && (s.rows[t].status == Pending && !Outstanding(s, t) ==> ClaimErrorIn(s0, run, t))
  {
    hide Inv, Can, Apply, Legal, Exec, Answered, Outstanding, AllCommitted, ClaimErrorIn, ClaimTookIn;
    var s := Exec(s0, run);
    InitInv(s0);
    RunKeepsInv(s0, run);
    PendingIsOutstanding(s, u, t);
    RunAbandons(s0, run, t);
    PendingIffNoClaimTook(s0, run, t);
    OutstandingIffNotAllCommitted(s, t);
    assert s0.abandoned == {};
  }

  // ---------------------------------------------------------------- lost jobs stay lost

  /** The job at offset `o` is behind the committed offset and behind every worker. */
  predicate Behind(committed: map<Partition, nat>, workers: map<WorkerId, Worker>, p: Partition, o: nat) {
    && p in committed && o < committed[p]
    && forall w <- workers | p in workers[w].pos :: o < workers[w].pos[p]
  }

  /** No worker has a job of the track in hand that it has not decided on, and every copy is behind. */
  ghost predicate Passed(s: State, t: TrackId) {
    && (forall p, o | p in s.log && 0 <= o < |s.log[p]| && s.log[p][o].track == t ::
          Behind(s.committed, s.workers, p, o))
    && (forall w <- s.workers | s.workers[w].pc.Undecided() :: s.workers[w].pc.job.track != t)
  }

  /** The broker writes a job of the track. */
  predicate WritesJob(s: State, step: Step, t: TrackId) {
    step.ByUpload? && step.saga.Append? && step.u in s.uploads && s.uploads[step.u].row == Some(t)
  }

  ghost predicate WritesJobIn(s: State, run: seq<Step>, t: TrackId)
    requires Legal(s, run)
    decreases |run|
  {
    run != [] && (WritesJob(s, run[0], t) || WritesJobIn(Apply(s, run[0]), run[1..], t))
  }

  /** Wherever a worker starts and whatever it commits, it is handed no job that is behind. */
  lemma WorkerStaysPast(s: State, w: WorkerId, act: WorkerAct, p: Partition, o: nat)
    requires CanAct(s, w, act) && Behind(s.committed, s.workers, p, o)
    ensures var s' := DoAct(s, w, act); Behind(s'.committed, s'.workers, p, o)
  {
  }

  lemma DeliveredIsNotBehind(s: State, w: WorkerId, act: WorkerAct, t: TrackId)
    requires CanAct(s, w, act) && Passed(s, t)
    ensures var s' := DoAct(s, w, act);
            s'.log == s.log && forall v <- s'.workers | s'.workers[v].pc.Undecided() :: s'.workers[v].pc.job.track != t
  {
  }

  lemma WorkerKeepsPassed(s: State, w: WorkerId, act: WorkerAct, t: TrackId)
    requires CanAct(s, w, act) && Passed(s, t)
    ensures Passed(DoAct(s, w, act), t)
  {
    DeliveredIsNotBehind(s, w, act, t);
    var s' := DoAct(s, w, act);
    forall p, o | p in s'.log && 0 <= o < |s'.log[p]| && s'.log[p][o].track == t
      ensures Behind(s'.committed, s'.workers, p, o)
    {
      WorkerStaysPast(s, w, act, p, o);
    }
  }

  lemma UploadKeepsPassed(s: State, u: UploadId, act: UploadAct, t: TrackId)
    requires CanSaga(s, u, act) && Passed(s, t) && !WritesJob(s, ByUpload(u, act), t)
    ensures Passed(DoSaga(s, u, act), t)
  {
    UploadEffect(s, u, act);
  }

  lemma PassedIsNotClaimed(s: State, step: Step, t: TrackId)
    requires Can(s, step) && Passed(s, t)
    ensures !ClaimTook(s, step, t)
  {
  }

  /** A pending track whose job is committed, and which no worker is still to decide on, stays pending through every
      continuation in which the broker does not write its job once more: workers that join, take over partitions or
      commit late are not handed the job again. */
  lemma {:induction false} LostForGood(s: State, run: seq<Step>, u: UploadId, t: TrackId)
    requires Inv(s) && Legal(s, run) && Answered(s, u, t) && !WritesJobIn(s, run, t)
    requires t in s.rows && s.rows[t].status == Pending && Passed(s, t)
    ensures var s' := Exec(s, run); t in s'.rows && s'.rows[t].status == Pending && Passed(s', t)
    decreases |run|
  {
    hide Inv, Can, Apply, Answered, Passed, WritesJob, ClaimTook;
    if run != [] {
      var step := run[0];
      var s1 := Apply(s, step);
      StepKeepsInv(s, step);
      StepKeepsAnswered(s, step, u, t);
      AnsweredHasRow(s1, u, t);
      StepTries(s, step, t);
      PassedIsNotClaimed(s, step, t);
      StepKeepsPassed(s, step, t);
      LostForGood(s1, run[1..], u, t);
    }
  }

  lemma StepKeepsPassed(s: State, step: Step, t: TrackId)
    requires Can(s, step) && Passed(s, t) && !WritesJob(s, step, t)
    ensures Passed(Apply(s, step), t)
  {
    hide CanAct, DoAct, CanSaga, DoSaga, Passed, WritesJob;
    match step
    case ByWorker(w, act) => WorkerKeepsPassed(s, w, act, t);
    case ByUpload(v, act) => UploadKeepsPassed(s, v, act, t);
  }

  /** The steps of a worker that claims and commits at once. */
  function ClaimThenCommit(w: WorkerId, call: Call): seq<Step> {
    [ByWorker(w, Claim(call)), ByWorker(w, Commit)]
  }

  lemma TwoActs(s: State, w: WorkerId, call: Call)
    requires Runs(s, w) && PcOf(s, w).Checked?
    ensures var run, s1 := ClaimThenCommit(w, call), DoClaim(s, w, call);
            && (Legal(s, run) <==> PcOf(s1, w).Acking?)
            && (Legal(s, run) ==> Exec(s, run) == DoCommit(s1, w))
  {
    var run, s1 := ClaimThenCommit(w, call), DoClaim(s, w, call);
    hide DoClaim, DoCommit, DoSaga, CanSaga;
    assert run[1..] == [ByWorker(w, Commit)] && run[1..][1..] == [];
    assert Legal(s1, run[1..]) <==> PcOf(s1, w).Acking?;
    assert PcOf(s1, w).Acking? ==> Exec(s1, run[1..]) == DoCommit(s1, w);
  }

  /** A worker about to claim a pending track can commit its job at once, with the row still pending, if and only if
      the claim raises an error without effect. The commit covers every position the worker has taken. */
  lemma CommittedUnclaimedIff(s: State, w: WorkerId, call: Call)
    requires Runs(s, w) && PcOf(s, w).Checked?
    requires var t := PcOf(s, w).job.track; t in s.rows && s.rows[t].status == Pending
    ensures var run, t := ClaimThenCommit(w, call), PcOf(s, w).job.track;
            && (Legal(s, run) && t in Exec(s, run).rows && Exec(s, run).rows[t].status == Pending
                <==> call == Lost(false))
            && (Legal(s, run) ==> Exec(s, run).committed == CommitAll(s.committed, s.workers[w].pos))
  {
    hide Legal, Exec;
    TwoActs(s, w, call);
  }

  /** All jobs are committed and no worker holds a claim. */
  ghost predicate AtRest(s: State) {
    && (forall p <- s.log :: p in s.committed && s.committed[p] == |s.log[p]|)
    && (forall w <- s.workers :: !PcOf(s, w).Holding())
  }

  /** At rest, a track whose upload was answered 201 is ready, failed, left in `processing` for good, or pending; and
      it is pending if and only if it was tried and every claim on it raised an error without effect. */
  lemma OutcomeAtRest(s0: State, run: seq<Step>, u: UploadId, t: TrackId)
    requires Init(s0) && Legal(s0, run)
    requires var s := Exec(s0, run); Answered(s, u, t) && AtRest(s)
    ensures var s := Exec(s0, run);
            && t in s.rows
            && (s.rows[t].status == Processing ==> Orphan(s, t))
            && (s.rows[t].status == Pending <==> ClaimErrorIn(s0, run, t) && !ClaimTookIn(s0, run, t))
  {
    hide Inv, Can, Apply, Legal, Exec;
    InitInv(s0);
    RunKeepsInv(s0, run);
    RunAbandons(s0, run, t);
    PendingIsOutstanding(Exec(s0, run), u, t);
    PendingIffNoClaimTook(s0, run, t);
  }
}
