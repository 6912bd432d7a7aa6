/** The upload saga: rows, objects and jobs of concurrent uploads, and what its compensations may touch. */
module PlatformSaga {
  import opened Basics
  import opened ObjectKeys
  import opened Platform
  import opened PlatformInvariant
  import opened PlatformEffects
  import opened PlatformTheorems

  /** The object a row names is stored with the row's length and the uploaded bytes. */
  predicate Backed(s: State, t: TrackId)
    requires t in s.rows
  {
    && MadeBy(s, t)
    && s.rows[t].objectKey in s.objects
    && s.objects[s.rows[t].objectKey] == UploadOf(s, t).body
    && |s.objects[s.rows[t].objectKey]| == s.rows[t].size
  }

  /** A row is backed by its object exactly until the object delete of its own upload takes effect, and then the
      key names nothing at all: no other bytes ever stand under it. */
  lemma BackedUnlessErased(s: State, t: TrackId)
    requires Reachable(s) && t in s.rows
    ensures MadeBy(s, t)
    ensures Backed(s, t) <==> UploadOf(s, t).pc != Refused(true)
    ensures !Backed(s, t) ==> s.rows[t].objectKey !in s.objects && UploadOf(s, t).torn
  {
    hide JobsOk, Exclusive, Results, Offsets;
    ReachableInv(s);
    assert RowOk(s, t, s.rows[t]);
    assert UploadOk(s.rows, s.objects, s.log, UploadOf(s, t));
  }

  /** Inserts that fail leave no row, and the compensating row delete succeeds. */
  predicate Definite(step: Step) {
    step.ByUpload? ==> !(step.saga.Insert? && step.saga.call == Lost(true))
                       && !(step.saga.UndoRow? && step.saga.call == Lost(false))
  }

  predicate NoneTorn(s: State) {
    forall u <- s.uploads :: !s.uploads[u].torn
  }

  lemma DefiniteUploadKeepsWhole(s: State, u: UploadId, act: UploadAct)
    requires CanSaga(s, u, act) && Definite(ByUpload(u, act)) && NoneTorn(s)
    ensures u in DoSaga(s, u, act).uploads && !DoSaga(s, u, act).uploads[u].torn
  {
  }

  lemma DefiniteKeepsWhole(s: State, step: Step)
    requires Can(s, step) && Definite(step) && NoneTorn(s)
    ensures NoneTorn(Apply(s, step))
  {
    hide DoAct, CanAct, DoSaga, CanSaga;
    match step
    case ByWorker(w, act) => WorkerEffect(s, w, act);
    case ByUpload(u, act) =>
      UploadEffect(s, u, act);
      DefiniteUploadKeepsWhole(s, u, act);
  }

  lemma {:induction false} DefiniteRunKeepsWhole(s: State, run: seq<Step>)
    requires Legal(s, run) && NoneTorn(s) && forall i | 0 <= i < |run| :: Definite(run[i])
    ensures NoneTorn(Exec(s, run))
    decreases |run|
  {
    hide Can, Apply;
    if run != [] {
      DefiniteKeepsWhole(s, run[0]);
      DefiniteRunKeepsWhole(Apply(s, run[0]), run[1..]);
    }
  }

  /** With definite database outcomes, every row of every reachable state is backed, however many uploads
      interleave, fail and compensate. */
  lemma DefiniteSagaBacksEveryRow(s0: State, run: seq<Step>, t: TrackId)
    requires Init(s0) && Legal(s0, run) && forall i | 0 <= i < |run| :: Definite(run[i])
    requires t in Exec(s0, run).rows
    ensures Backed(Exec(s0, run), t)
  {
    hide Can, Apply;
    DefiniteRunKeepsWhole(s0, run);
    BackedUnlessErased(Exec(s0, run), t);
  }

  lemma DistinctRowsDistinctKeys(s: State, t: TrackId, t': TrackId)
    requires Reachable(s) && t in s.rows && t' in s.rows && t != t'
    ensures s.rows[t].objectKey != s.rows[t'].objectKey
  {
    hide JobsOk, Exclusive, Saga, Results, Offsets;
    ReachableInv(s);
    assert RowOk(s, t, s.rows[t]) && RowOk(s, t', s.rows[t']);
    assert UploadOf(s, t).row == Some(t) && UploadOf(s, t').row == Some(t');
  }

  /** Every job names the row and the key of one and the same upload. */
  lemma JobsCarryTheirRow(s: State, p: Partition, o: nat)
    requires Reachable(s) && p in s.log && o < |s.log[p]|
    ensures var job := s.log[p][o];
            && MadeBy(s, job.track) && UploadOf(s, job.track).row == Some(job.track)
            && job.path == UploadOf(s, job.track).key
            && (job.track in s.rows ==> s.rows[job.track].objectKey == job.path)
  {
    hide Exclusive, Saga, Results, Offsets;
    ReachableInv(s);
    var job := s.log[p][o];
    assert JobOk(s, job);
    assert job.track in s.rows ==> RowOk(s, job.track, s.rows[job.track]);
  }

  /** No step of an upload, its compensations included, touches the row or the object of another upload or any
      conversion result. */
  lemma UploadTouchesOwnOnly(s: State, u: UploadId, act: UploadAct)
    requires Reachable(s) && CanSaga(s, u, act)
    ensures var s' := DoSaga(s, u, act);
            && (forall t <- s.rows | t in s.creator && s.creator[t] != u :: t in s'.rows && s'.rows[t] == s.rows[t])
            && (forall v <- s.uploads | v != u :: SameObject(s.objects, s'.objects, s.uploads[v].key))
            && (forall t, f :: SameObject(s.objects, s'.objects, Hls(t, f)))
  {
    hide DoSaga, CanSaga, JobsOk, Exclusive, Saga, Results, Offsets;
    ReachableInv(s);
    UploadRowEffect(s, u, act);
    UploadObjectEffect(s, u, act);
    forall t <- s.rows | t in s.creator && s.creator[t] != u ensures t in DoSaga(s, u, act).rows {
      assert RowOk(s, t, s.rows[t]) && UploadOf(s, t).row == Some(t);
    }
  }

  predicate SameObject(objects: Objects, objects': Objects, k: ObjectKey) {
    (k in objects <==> k in objects') && (k in objects && k in objects' ==> objects[k] == objects'[k])
  }

  /** Once its row delete took effect, a failed upload stays rolled back: in no continuation does its id reappear
      or become ready, whatever workers do with a job the broker kept. */
  lemma RolledBackForever(s: State, u: UploadId, call: Call, run: seq<Step>)
    requires Reachable(s) && CanUndoRow(s, u) && call.Took()
    requires Legal(DoUndoRow(s, u, call), run)
    ensures s.uploads[u].row.value !in Exec(DoUndoRow(s, u, call), run).rows
  {
    hide Can, Apply, RowsOk, JobsOk, Exclusive, Saga, Results, Offsets;
    ReachableInv(s);
    GoneForever(DoUndoRow(s, u, call), run, s.uploads[u].row.value);
  }

  // ---------------------------------------------------------------- what an upload leaves behind

  predicate StoresOwn(step: Step, u: UploadId) {
    step.ByUpload? && step.u == u && step.saga.Store? && step.saga.call.Took()
  }

  predicate ErasesOwn(step: Step, u: UploadId) {
    step.ByUpload? && step.u == u && step.saga.UndoObject? && step.saga.call.Took()
  }

  predicate InsertsOwn(step: Step, u: UploadId) {
    step.ByUpload? && step.u == u && step.saga.Insert? && step.saga.call.Took()
  }

  predicate DeletesOwn(step: Step, u: UploadId) {
    step.ByUpload? && step.u == u && step.saga.UndoRow? && step.saga.call.Took()
  }

  predicate StoredIn(run: seq<Step>, u: UploadId) {
    exists i :: 0 <= i < |run| && StoresOwn(run[i], u)
  }

  predicate ErasedIn(run: seq<Step>, u: UploadId) {
    exists i :: 0 <= i < |run| && ErasesOwn(run[i], u)
  }

  predicate InsertedIn(run: seq<Step>, u: UploadId) {
    exists i :: 0 <= i < |run| && InsertsOwn(run[i], u)
  }

  predicate DeletedIn(run: seq<Step>, u: UploadId) {
    exists i :: 0 <= i < |run| && DeletesOwn(run[i], u)
  }

  lemma OneMoreOwn(run: seq<Step>, step: Step, u: UploadId)
    ensures StoredIn(run + [step], u) <==> StoredIn(run, u) || StoresOwn(step, u)
    ensures ErasedIn(run + [step], u) <==> ErasedIn(run, u) || ErasesOwn(step, u)
    ensures InsertedIn(run + [step], u) <==> InsertedIn(run, u) || InsertsOwn(step, u)
    ensures DeletedIn(run + [step], u) <==> DeletedIn(run, u) || DeletesOwn(step, u)
  {
    hide StoresOwn, ErasesOwn, InsertsOwn, DeletesOwn;
    var more := run + [step];
    assert more[|run|] == step && forall i | 0 <= i < |run| :: more[i] == run[i];
    if i :| 0 <= i < |run| && StoresOwn(run[i], u) { assert StoresOwn(more[i], u); }
    if i :| 0 <= i < |run| && ErasesOwn(run[i], u) { assert ErasesOwn(more[i], u); }
    if i :| 0 <= i < |run| && InsertsOwn(run[i], u) { assert InsertsOwn(more[i], u); }
    if i :| 0 <= i < |run| && DeletesOwn(run[i], u) { assert DeletesOwn(more[i], u); }
  }

  /** The object and the row of an upload against what of its own took effect. */
  predicate LeftBy(s: State, u: UploadId, stored: bool, erased: bool, inserted: bool, deleted: bool) {
    if u !in s.uploads then !stored && !erased && !inserted && !deleted else
      var up := s.uploads[u];
      && (up.key in s.objects <==> stored && !erased)
      && (erased ==> up.pc.Refused?) && (stored <== up.pc != Storing && up.pc != Refused(false))
      && (inserted <==> up.row.Some?)
      && (HasRow(s.rows, up) <==> inserted && !deleted)
      && (deleted ==> up.pc.UndoingObject? || up.pc.Refused?)
  }

  lemma OwnStepLeaves(s: State, u: UploadId, act: UploadAct, stored: bool, erased: bool, inserted: bool, deleted: bool)
    requires Inv(s) && CanSaga(s, u, act) && LeftBy(s, u, stored, erased, inserted, deleted)
    ensures var step := ByUpload(u, act);
            LeftBy(DoSaga(s, u, act), u, stored || StoresOwn(step, u), erased || ErasesOwn(step, u),
                   inserted || InsertsOwn(step, u), deleted || DeletesOwn(step, u))
  {
    hide RowsOk, JobsOk, Exclusive, Results, Offsets;
    assert u in s.uploads ==> UploadOk(s.rows, s.objects, s.log, s.uploads[u]);
    hide Saga, Provenance;
  }

  /** Steps of others leave the object and the row of an upload alone. */
  lemma OthersLeave(s: State, step: Step, u: UploadId)
    requires Inv(s) && Can(s, step) && (step.ByUpload? ==> step.u != u) && u in s.uploads
    ensures var s' := Apply(s, step); var up := s.uploads[u];
            && u in s'.uploads && s'.uploads[u] == up
            && (up.key in s'.objects <==> up.key in s.objects)
            && (HasRow(s'.rows, up) <==> HasRow(s.rows, up))
  {
    hide DoAct, CanAct, DoSaga, CanSaga, RowsOk, JobsOk, Exclusive, Saga, Results, Offsets;
    match step
    case ByWorker(w, act) => WorkerEffect(s, w, act);
    case ByUpload(v, act) =>
      UploadEffect(s, v, act);
      UploadRowEffect(s, v, act);
      UploadObjectEffect(s, v, act);
  }

  lemma NotYetBegun(s: State, step: Step, u: UploadId)
    requires Can(s, step) && (step.ByUpload? ==> step.u != u) && u !in s.uploads
    ensures u !in Apply(s, step).uploads
  {
    hide DoAct, CanAct, DoSaga, CanSaga;
    match step
    case ByWorker(w, act) => WorkerEffect(s, w, act);
    case ByUpload(v, act) => UploadEffect(s, v, act);
  }

  lemma {:induction false} RunLeaves(s0: State, run: seq<Step>, u: UploadId)
    requires Init(s0) && Legal(s0, run)
    ensures LeftBy(Exec(s0, run), u, StoredIn(run, u), ErasedIn(run, u), InsertedIn(run, u), DeletedIn(run, u))
    decreases |run|
  {
    hide Can, Apply, Inv, StoresOwn, ErasesOwn, InsertsOwn, DeletesOwn, StoredIn, ErasedIn, InsertedIn, DeletedIn;
    if run == [] {
      NothingOwnYet(u);
    } else {
      var run', step := run[..|run| - 1], run[|run| - 1];
      assert run' + [step] == run;
      LegalPrefix(s0, run', step);
      RunLeaves(s0, run', u);
      InitInv(s0);
      RunKeepsInv(s0, run');
      OneMoreOwn(run', step, u);
      StepLeaves(Exec(s0, run'), step, u,
                 StoredIn(run', u), ErasedIn(run', u), InsertedIn(run', u), DeletedIn(run', u));
    }
  }

  lemma NothingOwnYet(u: UploadId)
    ensures !StoredIn([], u) && !ErasedIn([], u) && !InsertedIn([], u) && !DeletedIn([], u)
  {
  }

  lemma StepLeaves(s: State, step: Step, u: UploadId, stored: bool, erased: bool, inserted: bool, deleted: bool)
    requires Inv(s) && Can(s, step) && LeftBy(s, u, stored, erased, inserted, deleted)
    ensures LeftBy(Apply(s, step), u, stored || StoresOwn(step, u), erased || ErasesOwn(step, u),
                   inserted || InsertsOwn(step, u), deleted || DeletesOwn(step, u))
  {
    hide Inv, DoAct, CanAct, DoSaga, CanSaga;
    if step.ByUpload? && step.u == u {
      OwnStepLeaves(s, u, step.saga, stored, erased, inserted, deleted);
    } else if u in s.uploads {
      OthersLeave(s, step, u);
    } else {
      NotYetBegun(s, step, u);
    }
  }

  /** After any run the object of an upload is stored if and only if its put took effect and its object delete did
      not, and its row exists if and only if its insert took effect and its row delete did not, whatever the calls
      reported and whatever other processes did. */
  lemma LeftBehindIff(s0: State, run: seq<Step>, u: UploadId)
    requires Init(s0) && Legal(s0, run) && u in Exec(s0, run).uploads
    ensures var s := Exec(s0, run);
            && (s.uploads[u].key in s.objects <==> StoredIn(run, u) && !ErasedIn(run, u))
            && (HasRow(s.rows, s.uploads[u]) <==> InsertedIn(run, u) && !DeletedIn(run, u))
  {
    hide Legal, Exec, StoredIn, ErasedIn, InsertedIn, DeletedIn;
    RunLeaves(s0, run, u);
  }

  /** A refused upload leaves its row if and only if it is torn. */
  lemma RefusedLeavesRowIffTorn(s: State, u: UploadId)
    requires Reachable(s) && u in s.uploads && s.uploads[u].pc.Refused?
    ensures HasRow(s.rows, s.uploads[u]) <==> s.uploads[u].torn
  {
    hide RowsOk, JobsOk, Exclusive, Results, Offsets;
    ReachableInv(s);
    assert UploadOk(s.rows, s.objects, s.log, s.uploads[u]);
  }
}
