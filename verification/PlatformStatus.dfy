/** The life of a row over a whole run, rows left in `processing`, and jobs that can no longer be claimed. */
module PlatformStatus {
  import opened Basics
  import opened Platform
  import opened PlatformInvariant
  import opened PlatformEffects
  import opened PlatformTheorems

  // ---------------------------------------------------------------- status words

  function StatusOf(s: State, t: TrackId): Option<Status> {
    if t in s.rows then Some(s.rows[t].status) else None
  }

  /** A row appears pending, is claimed from pending or failed, and is closed from processing. Only `processing`
      leads to `failed`, although the statement that writes it has no condition on the status. */
  predicate Allowed(before: Option<Status>, after: Option<Status>) {
    || after == before
    || after == None
    || (before == None && after == Some(Pending))
    || ((before == Some(Pending) || before == Some(Failed)) && after == Some(Processing))
    || (before == Some(Processing) && (after == Some(Ready) || after == Some(Failed)))
  }

  lemma StepAllowed(s: State, step: Step, t: TrackId)
    requires Inv(s) && Can(s, step)
    ensures Allowed(StatusOf(s, t), StatusOf(Apply(s, step), t))
  {
    hide DoAct, CanAct, DoSaga, CanSaga, JobsOk, Saga, Results, Offsets;
    match step
    case ByWorker(w, act) => WorkerEffect(s, w, act);
    case ByUpload(u, act) =>
      UploadRowEffect(s, u, act);
      assert t in s.rows ==> RowOk(s, t, s.rows[t]);
  }

  /** The statuses the row of `t` takes on during a run, in order. */
  ghost function Changes(s: State, run: seq<Step>, t: TrackId): seq<Status>
    requires Legal(s, run)
    decreases |run|
  {
    if run == [] then [] else
      var s1 := Apply(s, run[0]);
      var later := Changes(s1, run[1..], t);
      if t in s1.rows && StatusOf(s1, t) != StatusOf(s, t) then [s1.rows[t].status] + later else later
  }

  /** (processing failed)^n processing ready */
  function Attempts(n: nat): seq<Status> {
    if n == 0 then [Processing, Ready] else [Processing, Failed] + Attempts(n - 1)
  }

  /** What may still come after a row has status `now`, when `n` more attempts fail. */
  function Remaining(now: Option<Status>, gone: bool, n: nat): seq<Status> {
    match now
    case None => if gone then [] else [Pending] + Attempts(n)
    case Some(Pending) => Attempts(n)
    case Some(Failed) => Attempts(n)
    case Some(Processing) => Attempts(n)[1..]
    case Some(Ready) => []
  }

  lemma {:induction false} ChangesFit(s: State, run: seq<Step>, t: TrackId) returns (n: nat)
    requires Inv(s) && Legal(s, run)
    ensures Changes(s, run, t) <= Remaining(StatusOf(s, t), t in s.creator, n)
    decreases |run|
  {
    hide Inv, Can, Apply;
    if run == [] {
      n := 0;
    } else {
      var s1 := Apply(s, run[0]);
      StepKeepsInv(s, run[0]);
      StepAllowed(s, run[0], t);
      CreatorFollows(s, run[0], t);
      n := ChangesFit(s1, run[1..], t);
      n := OneChange(StatusOf(s, t), t in s.creator, StatusOf(s1, t), t in s1.creator, Changes(s1, run[1..], t), n);
    }
  }

  /** A row exists only for a created track, and a track that had a row or was created stays created. */
  lemma CreatorFollows(s: State, step: Step, t: TrackId)
    requires Inv(s) && Can(s, step)
    ensures t in s.rows ==> t in s.creator
    ensures t in s.creator ==> t in Apply(s, step).creator
    ensures t in s.creator && t !in s.rows ==> t !in Apply(s, step).rows
    ensures t in Apply(s, step).rows ==> t in Apply(s, step).creator
  {
    hide Can, Apply, JobsOk, Exclusive, Saga, Results, Offsets;
    var s1 := Apply(s, step);
    StepKeepsInv(s, step);
    assert t in s.rows ==> RowOk(s, t, s.rows[t]);
    assert t in s1.rows ==> RowOk(s1, t, s1.rows[t]);
    if t in s.creator {
      StepKeepsCreator(s, step, t);
      if t !in s.rows {
        StepKeepsGone(s, step, t);
      }
    }
  }

  lemma OneChange(a: Option<Status>, made: bool, b: Option<Status>, made': bool, later: seq<Status>, n: nat)
    returns (m: nat)
    requires Allowed(a, b) && (made ==> made') && (a.Some? ==> made) && (b.Some? ==> made')
    requires made && a.None? ==> b.None?
    requires later <= Remaining(b, made', n)
    ensures (if b.Some? && b != a then [b.value] + later else later) <= Remaining(a, made, m)
  {
    m := if a == Some(Processing) && b == Some(Failed) then n + 1 else if b == Some(Ready) then 0 else n;
  }

  /** In every run from an empty platform the statuses of a track form a prefix of a word in
      pending (processing failed)* processing ready. */
  lemma StatusWord(s0: State, run: seq<Step>, t: TrackId) returns (n: nat)
    requires Init(s0) && Legal(s0, run)
    ensures Changes(s0, run, t) <= [Pending] + Attempts(n)
  {
    hide Inv;
    InitInv(s0);
    n := ChangesFit(s0, run, t);
  }

  function Times(h: seq<Status>, x: Status): nat {
    if h == [] then 0 else (if h[0] == x then 1 else 0) + Times(h[1..], x)
  }

  lemma {:induction false} AttemptCounts(h: seq<Status>, n: nat)
    requires h <= Attempts(n)
    ensures Times(h, Pending) == 0 && Times(h, Ready) <= 1
    ensures Times(h, Failed) <= Times(h, Processing) <= Times(h, Failed) + 1
  {
    if |h| >= 2 {
      assert h[0] == Processing && h[1] == (if n == 0 then Ready else Failed);
      assert h[1..][1..] == h[2..];
      forall x ensures Times(h, x) == (if h[0] == x then 1 else 0) + (if h[1] == x then 1 else 0) + Times(h[2..], x) {
        assert Times(h[1..], x) == (if h[1] == x then 1 else 0) + Times(h[2..], x);
      }
      if n > 0 {
        AttemptCounts(h[2..], n - 1);
      }
    }
  }

  /** A track is inserted and made ready at most once, and its successful claims exceed its failed writes by at
      most one. */
  lemma ClaimsAndFailures(s0: State, run: seq<Step>, t: TrackId)
    requires Init(s0) && Legal(s0, run)
    ensures var h := Changes(s0, run, t);
            && Times(h, Pending) <= 1 && Times(h, Ready) <= 1
            && Times(h, Failed) <= Times(h, Processing) <= Times(h, Failed) + 1
  {
    hide Init, Can, Apply;
    var n := StatusWord(s0, run, t);
    var h := Changes(s0, run, t);
    if h != [] {
      AttemptCounts(h[1..], n);
    }
  }

  // ---------------------------------------------------------------- rows left in processing

  /** The row is in `processing` and no worker holds it. */
  ghost predicate Orphan(s: State, t: TrackId) {
    t in s.rows && s.rows[t].status == Processing && forall w <- s.workers :: !Holds(s, w, t)
  }

  lemma WorkerKeepsOrphan(s: State, w: WorkerId, act: WorkerAct, t: TrackId)
    requires CanAct(s, w, act) && Orphan(s, t)
    ensures Orphan(DoAct(s, w, act), t)
  {
  }

  lemma UploadKeepsOrphan(s: State, u: UploadId, act: UploadAct, t: TrackId)
    requires Inv(s) && CanSaga(s, u, act) && Orphan(s, t)
    ensures Orphan(DoSaga(s, u, act), t) || t !in DoSaga(s, u, act).rows
  {
    hide DoSaga, CanSaga, JobsOk, Exclusive, Saga, Results, Offsets;
    var s' := DoSaga(s, u, act);
    UploadEffect(s, u, act);
    UploadRowEffect(s, u, act);
    assert RowOk(s, t, s.rows[t]);
    forall v <- s'.workers ensures !Holds(s', v, t) {
      assert !Holds(s, v, t);
    }
  }

  /** A row in `processing` that no worker holds stays so in every continuation until it is deleted: no redelivery
      and no other worker ever takes it up again. */
  lemma {:induction false} OrphanForever(s: State, run: seq<Step>, t: TrackId)
    requires Inv(s) && Legal(s, run) && Orphan(s, t)
    ensures Orphan(Exec(s, run), t) || Gone(Exec(s, run), t)
    decreases |run|
  {
    hide Inv, Can, Apply, Orphan;
    if run != [] {
      var s1 := Apply(s, run[0]);
      StepKeepsInv(s, run[0]);
      CreatorFollows(s, run[0], t);
      assert Orphan(s1, t) || t !in s1.rows by { StepKeepsOrphan(s, run[0], t); }
      if Orphan(s1, t) {
        OrphanForever(s1, run[1..], t);
      } else {
        assert t in s.rows by { OrphanHasRow(s, t); }
        GoneForever(s1, run[1..], t);
      }
    }
  }

  lemma OrphanHasRow(s: State, t: TrackId)
    requires Orphan(s, t)
    ensures t in s.rows
  {
  }

  lemma StepKeepsOrphan(s: State, step: Step, t: TrackId)
    requires Inv(s) && Can(s, step) && Orphan(s, t)
    ensures Orphan(Apply(s, step), t) || t !in Apply(s, step).rows
  {
    hide Inv, DoAct, CanAct, DoSaga, CanSaga, Orphan;
    match step
    case ByWorker(w, act) => WorkerKeepsOrphan(s, w, act, t);
    case ByUpload(u, act) => UploadKeepsOrphan(s, u, act, t);
  }

  /** How a worker leaves the row of a track behind in `processing`: it dies or raises while holding the claim, its
      claim changes the row but reports an error, or its closing write has no effect. */
  predicate LeavesOrphan(s: State, w: WorkerId, act: WorkerAct, t: TrackId) {
    && t in s.rows
    && (|| ((act.Die? || act.Raise?) && Holds(s, w, t))
        || (act.Claim? && act.call == Lost(true) && Runs(s, w) && PcOf(s, w).Checked? && PcOf(s, w).job.track == t
            && Claimable(s.rows, t))
        || ((act.CloseReady? || act.CloseFailed?) && act.call == Lost(false) && Holds(s, w, t)))
  }

  /** A holder stops holding only by its death, an exception or its closing write. */
  lemma LostHold(s: State, w: WorkerId, act: WorkerAct, t: TrackId)
    requires CanAct(s, w, act) && Holds(s, w, t) && !Holds(DoAct(s, w, act), w, t)
    ensures act.Die? || act.Raise? || act.CloseReady? || act.CloseFailed?
  {
  }

  /** Each of these does leave the row behind, and nothing else a worker or an upload does. */
  lemma OrphanOrigin(s: State, step: Step, t: TrackId)
    requires Inv(s) && Can(s, step) && !Orphan(s, t)
    ensures Orphan(Apply(s, step), t) <==> step.ByWorker? && LeavesOrphan(s, step.w, step.act, t)
  {
    hide DoAct, CanAct, DoSaga, CanSaga, JobsOk, Saga, Results, Offsets;
    match step
    case ByWorker(w, act) =>
      if Orphan(Apply(s, step), t) {
        OrphanByWorker(s, w, act, t);
      }
      if LeavesOrphan(s, w, act, t) {
        LeavingOrphans(s, w, act, t);
      }
    case ByUpload(u, act) =>
      UploadEffect(s, u, act);
      UploadRowEffect(s, u, act);
  }

  lemma LeavingOrphans(s: State, w: WorkerId, act: WorkerAct, t: TrackId)
    requires Exclusive(s) && CanAct(s, w, act) && LeavesOrphan(s, w, act, t)
    ensures Orphan(DoAct(s, w, act), t)
  {
  }

  lemma OrphanByWorker(s: State, w: WorkerId, act: WorkerAct, t: TrackId)
    requires Exclusive(s) && CanAct(s, w, act)
    requires !Orphan(s, t) && Orphan(DoAct(s, w, act), t)
    ensures LeavesOrphan(s, w, act, t)
  {
    hide DoAct, CanAct;
    var s' := DoAct(s, w, act);
    WorkerEffect(s, w, act);
    OthersKeepPlace(s, w, act);
    if t in s.rows && s.rows[t].status == Processing {
      var v :| v in s.workers && Holds(s, v, t);
      assert v in s'.workers ==> !Holds(s', v, t);
      assert v == w;
      LostHold(s, w, act, t);
    } else {
      assert act.Claim? && PcOf(s, w).job.track == t && Claimable(s.rows, t) && act.call.Took();
      if act.call.Ok? {
        assert Holds(s', w, t) by { NewlyHolds(s, w, act, t); }
      }
    }
  }

  lemma NewlyHolds(s: State, w: WorkerId, act: WorkerAct, t: TrackId)
    requires CanAct(s, w, act) && act.Claim? && act.call.Ok? && PcOf(s, w).job.track == t && Claimable(s.rows, t)
    ensures Holds(DoAct(s, w, act), w, t)
  {
  }
}
