/** Every action of a worker keeps the invariant. Each is a composition of a few effects: a worker moves to another
    point of its loop, a row changes, an object is stored, positions or offsets change. */
module PlatformWorkerSteps {
  import opened Basics
  import opened ObjectKeys
  import opened Platform
  import opened PlatformInvariant

  // ---------------------------------------------------------------- a worker moves

  /** What a move of `w` to `pc` has to respect. */
  ghost predicate MoveOk(s: State, w: WorkerId, pc: Pc) {
    && Runs(s, w)
    && (!pc.Idle? ==> JobOk(s, pc.job) && AttemptOk(s.objects, UploadOf(s, pc.job.track).body, pc))
    && (pc.Holding() ==>
          Locked(s.rows, pc.job.track) && forall v <- s.workers | v != w :: !Holds(s, v, pc.job.track))
    && (PcOf(s, w).Undecided() && pc != PcOf(s, w) ==>
          Settled(s.rows, s.abandoned, PcOf(s, w).job.track) || (pc.Undecided() && pc.job == PcOf(s, w).job))
  }

  lemma MoveKeepsJobs(s: State, w: WorkerId, pc: Pc)
    requires JobsOk(s) && MoveOk(s, w, pc)
    ensures JobsOk(WithPc(s, w, pc))
  {
  }

  lemma MoveKeepsExclusive(s: State, w: WorkerId, pc: Pc)
    requires Exclusive(s) && MoveOk(s, w, pc)
    ensures Exclusive(WithPc(s, w, pc))
  {
  }

  lemma MoveKeepsResults(s: State, w: WorkerId, pc: Pc)
    requires Results(s) && MoveOk(s, w, pc)
    ensures Results(WithPc(s, w, pc))
  {
  }

  lemma MoveKeepsOffsets(s: State, w: WorkerId, pc: Pc)
    requires Offsets(s) && MoveOk(s, w, pc)
    ensures Offsets(WithPc(s, w, pc))
  {
  }

  lemma MoveKeepsInv(s: State, w: WorkerId, pc: Pc)
    requires Inv(s) && MoveOk(s, w, pc)
    ensures Inv(WithPc(s, w, pc))
  {
    hide MoveOk, JobsOk, Exclusive, Results, Offsets;
    MoveKeepsJobs(s, w, pc);
    MoveKeepsExclusive(s, w, pc);
    MoveKeepsResults(s, w, pc);
    MoveKeepsOffsets(s, w, pc);
  }

  /** Jobs keep their provenance while uploads keep their rows and keys and no worker takes a new job. */
  lemma JobsFollow(s: State, s': State)
    requires JobsOk(s) && s'.log == s.log
    requires forall t | MadeBy(s, t) :: MadeBy(s', t) && UploadOf(s', t).key == UploadOf(s, t).key
    requires forall w <- s'.workers | !s'.workers[w].pc.Idle? :: w in s.workers && s'.workers[w].pc == s.workers[w].pc
    ensures JobsOk(s')
  {
  }

  // ---------------------------------------------------------------- a row changes under its key

  function WithRow(s: State, t: TrackId, row: Row, made: map<TrackId, Attempt>): State {
    s.(rows := s.rows[t := row], made := made)
  }

  /** An update of the row of `t`, which no worker holds, by one of the closing or claiming writes. */
  ghost predicate WriteOk(s: State, t: TrackId, row: Row, made: map<TrackId, Attempt>) {
    && t in s.rows && RowOk(s, t, row) && row.status != Pending
    && (forall w <- s.workers :: !Holds(s, w, t))
    && (forall x <- s.made | x != t :: x in made && made[x] == s.made[x])
    && ReadyOk(s.objects, made, UploadOf(s, t).body, t, row)
  }

  lemma WriteKeepsSaga(s: State, t: TrackId, row: Row, made: map<TrackId, Attempt>)
    requires Saga(s) && t in s.rows
    ensures Saga(WithRow(s, t, row, made))
  {
  }

  lemma WriteKeepsResults(s: State, t: TrackId, row: Row, made: map<TrackId, Attempt>)
    requires Results(s) && WriteOk(s, t, row, made)
    ensures Results(WithRow(s, t, row, made))
  {
  }

  /** Settled tracks stay settled, so committed and taken messages stay passed. */
  lemma OffsetsFollow(s: State, s': State)
    requires Offsets(s) && JobsOk(s)
    requires s'.log == s.log && s'.committed == s.committed && s'.workers == s.workers
    requires forall t <- s.creator | Settled(s.rows, s.abandoned, t) :: Settled(s'.rows, s'.abandoned, t)
    ensures Offsets(s')
  {
  }

  lemma WriteKeepsRowsAndClaims(s: State, t: TrackId, row: Row, made: map<TrackId, Attempt>)
    requires RowsOk(s) && Exclusive(s) && WriteOk(s, t, row, made)
    ensures RowsOk(WithRow(s, t, row, made)) && Exclusive(WithRow(s, t, row, made))
  {
  }

  lemma WriteKeepsInv(s: State, t: TrackId, row: Row, made: map<TrackId, Attempt>)
    requires Inv(s) && WriteOk(s, t, row, made)
    ensures Inv(WithRow(s, t, row, made))
  {
    hide RowsOk, JobsOk, Exclusive, Saga, Results, Offsets;
    var s' := WithRow(s, t, row, made);
    WriteKeepsRowsAndClaims(s, t, row, made);
    WriteKeepsSaga(s, t, row, made);
    WriteKeepsResults(s, t, row, made);
    OffsetsFollow(s, s');
    JobsFollow(s, s');
  }

  // ---------------------------------------------------------------- a conversion result is stored

  function WithFile(s: State, t: TrackId, file: string, bytes: Bytes): State {
    s.(objects := s.objects[Hls(t, file) := bytes])
  }

  /** The track is locked, and whoever is converting it is storing this very file. */
  ghost predicate FileOk(s: State, t: TrackId, file: string, bytes: Bytes) {
    && Locked(s.rows, t)
    && forall w <- s.workers | Holds(s, w, t) ::
         s.workers[w].pc.Uploading? && file in s.workers[w].pc.out && s.workers[w].pc.out[file] == bytes
  }

  lemma FileKeepsResults(s: State, t: TrackId, file: string, bytes: Bytes)
    requires Results(s) && FileOk(s, t, file, bytes)
    ensures Results(WithFile(s, t, file, bytes))
  {
    var s' := WithFile(s, t, file, bytes);
    forall w <- s'.workers | !s'.workers[w].pc.Idle?
      ensures AttemptOk(s'.objects, UploadOf(s', s'.workers[w].pc.job.track).body, s'.workers[w].pc)
    {
      assert AttemptOk(s.objects, UploadOf(s, s.workers[w].pc.job.track).body, s.workers[w].pc);
      assert s.workers[w].pc.Holding() && s.workers[w].pc.job.track == t ==> Holds(s, w, t);
    }
    forall x <- s'.rows ensures MadeBy(s', x) && ReadyOk(s'.objects, s'.made, UploadOf(s', x).body, x, s'.rows[x]) {
      assert ReadyOk(s.objects, s.made, UploadOf(s, x).body, x, s.rows[x]);
    }
  }

  lemma FileKeepsSaga(s: State, t: TrackId, file: string, bytes: Bytes)
    requires Saga(s) && Provenance(s)
    ensures Saga(WithFile(s, t, file, bytes))
  {
    var s' := WithFile(s, t, file, bytes);
    forall u <- s'.uploads ensures UploadOk(s'.rows, s'.objects, s'.log, s'.uploads[u]) {
      assert UploadOk(s.rows, s.objects, s.log, s.uploads[u]);
      assert s.uploads[u].key.Raw?;
    }
  }

  lemma FileKeepsInv(s: State, t: TrackId, file: string, bytes: Bytes)
    requires Inv(s) && FileOk(s, t, file, bytes)
    ensures Inv(WithFile(s, t, file, bytes))
  {
    hide JobsOk, Saga, Results;
    var s' := WithFile(s, t, file, bytes);
    FileKeepsSaga(s, t, file, bytes);
    FileKeepsResults(s, t, file, bytes);
    OffsetsFollow(s, s');
    JobsFollow(s, s');
  }

  // ---------------------------------------------------------------- a claim raises an error without effect

  lemma AbandonKeepsInv(s: State, t: TrackId)
    requires Inv(s)
    ensures Inv(s.(abandoned := s.abandoned + {t}))
  {
    hide JobsOk, Saga, Results, Offsets;
    var s' := s.(abandoned := s.abandoned + {t});
    assert Saga(s') && Results(s') by { SameSagaAndResults(s, s'); }
    OffsetsFollow(s, s');
    JobsFollow(s, s');
  }

  lemma SameSagaAndResults(s: State, s': State)
    requires Saga(s) && Results(s)
    requires s'.rows == s.rows && s'.objects == s.objects && s'.log == s.log
    requires s'.uploads == s.uploads && s'.creator == s.creator && s'.made == s.made
    requires forall w <- s'.workers | !s'.workers[w].pc.Idle? :: w in s.workers && s'.workers[w].pc == s.workers[w].pc
    ensures Saga(s') && Results(s')
  {
  }

  // ---------------------------------------------------------------- the coordinator and the worker's life

  /** Workers come and go and positions move, while every working worker keeps its place in the loop. */
  lemma WorkersKeepInv(s: State, s': State)
    requires Inv(s)
    requires s' == s.(workers := s'.workers)
    requires forall w <- s'.workers | !s'.workers[w].pc.Idle? :: w in s.workers && s'.workers[w].pc == s.workers[w].pc
    requires forall w <- s'.workers :: TakenOk(s', s'.workers[w])
    ensures Inv(s')
  {
    hide JobsOk, Saga, Results;
    SameSagaAndResults(s, s');
    JobsFollow(s, s');
  }

  lemma StartKeepsInv(s: State, w: WorkerId)
    requires Inv(s) && !Runs(s, w)
    ensures Inv(DoStart(s, w))
  {
    hide JobsOk, Saga, Results, Exclusive;
    var s' := DoStart(s, w);
    SameTaken(s, s', w);
    WorkersKeepInv(s, s');
  }

  /** Workers other than `w` are as before, so their positions are still in order. */
  lemma SameTaken(s: State, s': State, w: WorkerId)
    requires Offsets(s)
    requires s' == s.(workers := s'.workers)
    requires forall v <- s'.workers | v != w :: v in s.workers && s'.workers[v] == s.workers[v]
    ensures forall v <- s'.workers | v != w :: TakenOk(s', s'.workers[v])
  {
  }

  lemma DieKeepsInv(s: State, w: WorkerId)
    requires Inv(s)
    ensures Inv(DoDie(s, w))
  {
    hide JobsOk, Saga, Results, Exclusive;
    var s' := DoDie(s, w);
    SameTaken(s, s', w);
    WorkersKeepInv(s, s');
  }

  lemma RevokeKeepsInv(s: State, w: WorkerId, p: Partition)
    requires Inv(s) && Runs(s, w)
    ensures Inv(DoRevoke(s, w, p))
  {
    hide JobsOk, Saga, Results, Exclusive;
    var s' := DoRevoke(s, w, p);
    SameTaken(s, s', w);
    assert TakenOk(s, s.workers[w]);
    WorkersKeepInv(s, s');
  }

  /** The committed prefix was passed by idle workers, so it was passed by anyone. */
  lemma AssignKeepsInv(s: State, w: WorkerId, p: Partition)
    requires Inv(s) && Runs(s, w) && PcOf(s, w).Idle? && p in s.committed
    ensures Inv(DoAssign(s, w, p))
  {
    hide JobsOk, Saga, Results, Exclusive;
    var s' := DoAssign(s, w, p);
    SameTaken(s, s', w);
    assert TakenOk(s, s.workers[w]);
    WorkersKeepInv(s, s');
  }

  lemma TakeOneMore(s: State, w: WorkerId, p: Partition)
    requires Offsets(s) && CanDeliver(s, w, p)
    ensures TakenOk(DoDeliver(s, w, p), DoDeliver(s, w, p).workers[w])
  {
  }

  lemma DeliverKeepsInv(s: State, w: WorkerId, p: Partition)
    requires Inv(s) && CanDeliver(s, w, p)
    ensures Inv(DoDeliver(s, w, p))
  {
    hide Saga, Results, Exclusive, JobsOk, TakenOk;
    var s' := DoDeliver(s, w, p);
    assert JobsOk(s') && Results(s') && Saga(s') && Exclusive(s') by { TakingKeepsTheRest(s, w, p); }
    TakeOneMore(s, w, p);
    forall v <- s'.workers ensures TakenOk(s', s'.workers[v]) {
      if v != w {
        assert TakenOk(s, s.workers[v]);
        SameWorkerTaken(s, s', s.workers[v]);
      }
    }
  }

  lemma SameWorkerTaken(s: State, s': State, worker: Worker)
    requires TakenOk(s, worker) && s'.log == s.log && s'.rows == s.rows && s'.abandoned == s.abandoned
    ensures TakenOk(s', worker)
  {
  }

  lemma TakingKeepsJobs(s: State, w: WorkerId, p: Partition)
    requires JobsOk(s) && CanDeliver(s, w, p)
    ensures JobsOk(DoDeliver(s, w, p))
  {
  }

  lemma TakingKeepsClaims(s: State, w: WorkerId, p: Partition)
    requires Exclusive(s) && CanDeliver(s, w, p)
    ensures Exclusive(DoDeliver(s, w, p))
  {
  }

  lemma TakingKeepsTheRest(s: State, w: WorkerId, p: Partition)
    requires Provenance(s) && JobsOk(s) && Results(s) && Saga(s) && Exclusive(s) && CanDeliver(s, w, p)
    ensures var s' := DoDeliver(s, w, p); JobsOk(s') && Results(s') && Saga(s') && Exclusive(s')
  {
    TakingKeepsJobs(s, w, p);
    TakingKeepsClaims(s, w, p);
    hide Exclusive;
  }

  // ---------------------------------------------------------------- the actions of the message loop

  lemma ReadStatusKeepsInv(s: State, w: WorkerId, call: Call)
    requires Inv(s) && Runs(s, w) && PcOf(s, w).Taken?
    ensures Inv(DoReadStatus(s, w, call))
  {
    hide RowsOk, Saga, Results, Offsets;
    var job := PcOf(s, w).job;
    assert JobOk(s, job);
    MoveKeepsInv(s, w, if call.Ok? && job.track in s.rows && s.rows[job.track].status == Ready
                       then Acking(job, false) else Checked(job));
  }

  /** An update of a row no worker holds to `processing` or `failed`. */
  lemma StatusWriteKeepsInv(s: State, t: TrackId, status: Status)
    requires Inv(s) && t in s.rows && (status == Processing || status == Failed)
    requires forall w <- s.workers :: !Holds(s, w, t)
    ensures Inv(s.(rows := s.rows[t := s.rows[t].(status := status)]))
  {
    hide JobsOk, Exclusive, Saga, Results, Offsets;
    assert RowOk(s, t, s.rows[t]);
    WriteKeepsInv(s, t, s.rows[t].(status := status), s.made);
  }

  /** A claimable row has no holder. */
  lemma ClaimableIsFree(s: State, t: TrackId)
    requires Exclusive(s) && Claimable(s.rows, t)
    ensures forall w <- s.workers :: !Holds(s, w, t)
  {
  }

  lemma ClaimWriteKeepsInv(s: State, t: TrackId)
    requires Inv(s)
    ensures Inv(s.(rows := ClaimRows(s.rows, t)))
    ensures Settled(ClaimRows(s.rows, t), s.abandoned, t)
  {
    hide RowsOk, JobsOk, Exclusive, Saga, Results, Offsets;
    if Claimable(s.rows, t) {
      ClaimableIsFree(s, t);
      StatusWriteKeepsInv(s, t, Processing);
    }
  }

  lemma ClaimKeepsInv(s: State, w: WorkerId, call: Call)
    requires Inv(s) && Runs(s, w) && PcOf(s, w).Checked?
    ensures Inv(DoClaim(s, w, call))
  {
    hide Inv;
    if call.Took() {
      AppliedClaimKeepsInv(s, w, call);
    } else {
      LostClaimKeepsInv(s, w);
    }
  }

  lemma AppliedClaimKeepsInv(s: State, w: WorkerId, call: Call)
    requires Inv(s) && Runs(s, w) && PcOf(s, w).Checked? && call.Took()
    ensures Inv(DoClaim(s, w, call))
  {
    hide RowsOk, Exclusive, Saga, Results, Offsets;
    var job := PcOf(s, w).job;
    var t := job.track;
    assert JobOk(s, job);
    hide JobsOk;
    var won := call.Ok? && Claimable(s.rows, t);
    if won {
      ClaimableIsFree(s, t);
    }
    ClaimWriteKeepsInv(s, t);
    var s1 := s.(rows := ClaimRows(s.rows, t));
    var pc := if won then Downloading(job) else Acking(job, false);
    MoveKeepsInv(s1, w, pc);
    hide Inv;
    assert DoClaim(s, w, call) == WithPc(s1, w, pc);
  }

  lemma LostClaimKeepsInv(s: State, w: WorkerId)
    requires Inv(s) && Runs(s, w) && PcOf(s, w).Checked?
    ensures Inv(DoClaim(s, w, Lost(false)))
  {
    hide RowsOk, Exclusive, Saga, Results, Offsets;
    var job := PcOf(s, w).job;
    assert JobOk(s, job);
    hide JobsOk;
    AbandonKeepsInv(s, job.track);
    var s1 := s.(abandoned := s.abandoned + {job.track});
    MoveKeepsInv(s1, w, Acking(job, false));
    hide Inv;
    assert DoClaim(s, w, Lost(false)) == WithPc(s1, w, Acking(job, false));
  }

  lemma DownloadKeepsInv(s: State, w: WorkerId, answered: bool)
    requires Inv(s) && CanDownload(s, w)
    ensures Inv(DoDownload(s, w, answered))
  {
    hide RowsOk, Results, Offsets;
    var job := PcOf(s, w).job;
    assert JobOk(s, job);
    var up := UploadOf(s, job.track);
    assert UploadOk(s.rows, s.objects, s.log, up);
    MoveKeepsInv(s, w, if answered && job.path in s.objects then Converting(job, s.objects[job.path])
                       else Failing(job));
  }

  lemma StageKeepsInv(s: State, w: WorkerId, pc: Pc)
    requires Inv(s) && Runs(s, w) && PcOf(s, w).Holding()
    requires pc.Holding() && pc.job == PcOf(s, w).job
    requires AttemptOk(s.objects, UploadOf(s, pc.job.track).body, pc)
    ensures Inv(WithPc(s, w, pc))
  {
    hide RowsOk, Saga, Results, Offsets;
    assert JobOk(s, pc.job);
    MoveKeepsInv(s, w, pc);
  }

  lemma ConvertKeepsInv(s: State, w: WorkerId, result: Option<Output>)
    requires Inv(s) && CanConvert(s, w, result)
    ensures Inv(DoConvert(s, w, result))
  {
    hide RowsOk, Exclusive, Saga, Offsets;
    StageKeepsInv(s, w, DoConvert(s, w, result).workers[w].pc);
  }

  lemma PutsDoneKeepsInv(s: State, w: WorkerId)
    requires Inv(s) && CanPutsDone(s, w)
    ensures Inv(DoPutsDone(s, w))
  {
    hide RowsOk, Exclusive, Saga, Offsets;
    StageKeepsInv(s, w, DoPutsDone(s, w).workers[w].pc);
  }

  /** The put of a converting worker touches no other attempt and no ready row. */
  lemma PutIsOwn(s: State, w: WorkerId, file: string)
    requires Exclusive(s) && CanPut(s, w, file)
    ensures FileOk(s, PcOf(s, w).job.track, file, PcOf(s, w).out[file])
  {
  }

  lemma PutKeepsInv(s: State, w: WorkerId, file: string, call: Call)
    requires Inv(s) && CanPut(s, w, file)
    ensures Inv(DoPut(s, w, file, call))
  {
    hide RowsOk, JobsOk, Exclusive, Saga, Offsets;
    var pc := PcOf(s, w);
    var pc' := if call.Ok? then pc.(done := pc.done + {file}) else Failing(pc.job);
    assert MadeBy(s, pc.job.track) && AttemptOk(s.objects, UploadOf(s, pc.job.track).body, pc);
    hide Results;
    if call.Took() {
      AppliedPutKeepsInv(s, w, file, pc');
    } else {
      StageKeepsInv(s, w, pc');
    }
  }

  /** A file that was stored, and whatever stage the worker goes on to with it. */
  lemma AppliedPutKeepsInv(s: State, w: WorkerId, file: string, pc: Pc)
    requires Inv(s) && CanPut(s, w, file) && MadeBy(s, PcOf(s, w).job.track)
    requires var now := PcOf(s, w);
             && AttemptOk(s.objects, UploadOf(s, now.job.track).body, now)
             && (pc == now.(done := now.done + {file}) || pc == Failing(now.job))
    ensures var t := PcOf(s, w).job.track; Inv(WithPc(WithFile(s, t, file, PcOf(s, w).out[file]), w, pc))
  {
    hide RowsOk, JobsOk, Exclusive, Saga, Offsets, Results;
    var t := PcOf(s, w).job.track;
    PutIsOwn(s, w, file);
    FileKeepsInv(s, t, file, PcOf(s, w).out[file]);
    hide Inv;
    StageKeepsInv(WithFile(s, t, file, PcOf(s, w).out[file]), w, pc);
  }

  /** The closing write of a holder meets a row that is `processing` or gone and that nobody else holds. */
  lemma CloseKeepsInv(s: State, w: WorkerId)
    requires Inv(s) && Runs(s, w) && PcOf(s, w).Holding()
    ensures var job := PcOf(s, w).job; var s1 := WithPc(s, w, Acking(job, true));
            Inv(s1) && Locked(s.rows, job.track) && forall v <- s1.workers :: !Holds(s1, v, job.track)
  {
    hide RowsOk, Saga, Results, Offsets;
    var job := PcOf(s, w).job;
    assert JobOk(s, job);
    MoveKeepsInv(s, w, Acking(job, true));
  }

  lemma CloseFailedKeepsInv(s: State, w: WorkerId, call: Call)
    requires Inv(s) && Runs(s, w) && PcOf(s, w).Failing?
    ensures Inv(DoCloseFailed(s, w, call))
  {
    hide RowsOk, JobsOk, Exclusive, Saga, Results, Offsets;
    var job := PcOf(s, w).job;
    CloseKeepsInv(s, w);
    if call.Took() && job.track in s.rows {
      StatusWriteKeepsInv(WithPc(s, w, Acking(job, true)), job.track, Failed);
    }
  }

  lemma CloseReadyKeepsInv(s: State, w: WorkerId, call: Call)
    requires Inv(s) && Runs(s, w) && PcOf(s, w).Finishing?
    ensures Inv(DoCloseReady(s, w, call))
  {
    hide JobsOk, Exclusive, Saga, Offsets;
    var pc := PcOf(s, w);
    var t := pc.job.track;
    assert MadeBy(s, t) && AttemptOk(s.objects, UploadOf(s, t).body, pc);
    hide Results;
    CloseKeepsInv(s, w);
    if call.Took() && Finishable(s.rows, t) {
      var s1 := WithPc(s, w, Acking(pc.job, true));
      assert RowOk(s, t, s.rows[t]);
      var row := s.rows[t].(status := Ready, playlist := Some(Hls(t, MASTER)));
      hide RowsOk;
      var made := s1.made[t := Attempt(pc.raw, pc.out)];
      WriteKeepsInv(s1, t, row, made);
      hide Inv;
      assert DoCloseReady(s, w, call) == WithRow(s1, t, row, made);
    } else {
      hide Inv;
      assert DoCloseReady(s, w, call) == WithPc(s, w, Acking(pc.job, true));
    }
  }

  lemma RaiseKeepsInv(s: State, w: WorkerId)
    requires Inv(s) && Runs(s, w) && PcOf(s, w).Guarded()
    ensures Inv(DoRaise(s, w))
  {
    hide RowsOk, JobsOk, Exclusive, Saga, Results, Offsets;
    MoveKeepsInv(s, w, Idle);
  }

  /** A commit covers only messages the worker is through with. */
  lemma CommitKeepsOffsets(s: State, w: WorkerId)
    requires Offsets(s) && Runs(s, w) && PcOf(s, w).Acking?
    ensures Offsets(s.(committed := CommitAll(s.committed, s.workers[w].pos)))
  {
  }

  lemma CommitKeepsInv(s: State, w: WorkerId)
    requires Inv(s) && Runs(s, w) && PcOf(s, w).Acking?
    ensures Inv(DoCommit(s, w))
  {
    hide RowsOk, JobsOk, Exclusive, Saga, Results, Offsets;
    var s1 := s.(committed := CommitAll(s.committed, s.workers[w].pos));
    CommitKeepsOffsets(s, w);
    CommitKeepsTheRest(s, s1);
    MoveKeepsInv(s1, w, Idle);
  }

  lemma CommitKeepsTheRest(s: State, s': State)
    requires RowsOk(s) && JobsOk(s) && Exclusive(s) && Saga(s) && Results(s)
    requires s' == s.(committed := s'.committed)
    ensures RowsOk(s') && JobsOk(s') && Exclusive(s') && Saga(s') && Results(s')
  {
    hide JobsOk, Saga, Results;
    JobsFollow(s, s');
    SameSagaAndResults(s, s');
    forall x <- s'.rows ensures RowOk(s', x, s'.rows[x]) {
      assert RowOk(s, x, s.rows[x]);
    }
  }

  /** Every action of a worker keeps the invariant. */
  lemma WorkerStepKeepsInv(s: State, w: WorkerId, act: WorkerAct)
    requires Inv(s) && CanAct(s, w, act)
    ensures Inv(DoAct(s, w, act))
  {
    hide Inv;
    match act
    case Start => StartKeepsInv(s, w);
    case Assign(p) => AssignKeepsInv(s, w, p);
    case Revoke(p) => RevokeKeepsInv(s, w, p);
    case Die => DieKeepsInv(s, w);
    case Deliver(p) => DeliverKeepsInv(s, w, p);
    case ReadStatus(call) => ReadStatusKeepsInv(s, w, call);
    case Claim(call) => ClaimKeepsInv(s, w, call);
    case Download(answered) => DownloadKeepsInv(s, w, answered);
    case Convert(result) => ConvertKeepsInv(s, w, result);
    case Put(file, call) => PutKeepsInv(s, w, file, call);
    case PutsDone => PutsDoneKeepsInv(s, w);
    case CloseReady(call) => CloseReadyKeepsInv(s, w, call);
    case CloseFailed(call) => CloseFailedKeepsInv(s, w, call);
    case Commit => CommitKeepsInv(s, w);
    case Raise => RaiseKeepsInv(s, w);
  }
}
