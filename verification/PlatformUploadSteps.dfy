/** Every action of an upload request keeps the invariant. */
module PlatformUploadSteps {
  import opened Basics
  import opened ObjectKeys
  import opened Platform
  import opened PlatformInvariant
  import opened PlatformWorkerSteps

  // ---------------------------------------------------------------- an upload moves, its object comes or goes

  function WithSource(s: State, u: UploadId, up: Upload, objects: Objects): State {
    s.(uploads := s.uploads[u := up], objects := objects)
  }

  /** The upload keeps its key, body and row, and at most its own object changes. */
  ghost predicate SourceOk(s: State, u: UploadId, up: Upload, objects: Objects) {
    && u in s.uploads
    && up.key == s.uploads[u].key && up.body == s.uploads[u].body && up.row == s.uploads[u].row
    && UploadOk(s.rows, objects, s.log, up)
    && objects.Keys - {up.key} == s.objects.Keys - {up.key}
    && forall k <- objects | k != up.key :: k in s.objects && objects[k] == s.objects[k]
  }

  lemma SourceKeepsProvenance(s: State, u: UploadId, up: Upload, objects: Objects)
    requires Provenance(s) && RowsOk(s) && SourceOk(s, u, up, objects)
    ensures Provenance(WithSource(s, u, up, objects)) && RowsOk(WithSource(s, u, up, objects))
  {
  }

  lemma SourceKeepsSaga(s: State, u: UploadId, up: Upload, objects: Objects)
    requires Provenance(s) && Saga(s) && SourceOk(s, u, up, objects)
    ensures Saga(WithSource(s, u, up, objects))
  {
    var s' := WithSource(s, u, up, objects);
    forall v <- s'.uploads ensures UploadOk(s'.rows, s'.objects, s'.log, s'.uploads[v]) {
      if v != u {
        var k := s.uploads[v].key;
        assert UploadOk(s.rows, s.objects, s.log, s.uploads[v]) && k != up.key;
        assert k in s.objects <==> k in objects by {
          assert k in s.objects <==> k in s.objects.Keys - {up.key};
          assert k in objects <==> k in objects.Keys - {up.key};
        }
      }
    }
  }

  lemma SourceKeepsFiles(objects: Objects, objects': Objects, k: ObjectKey, t: TrackId, out: Output, done: set<string>)
    requires Stored(objects, t, out, done) && k.Raw?
    requires objects'.Keys - {k} == objects.Keys - {k}
    requires forall x <- objects' | x != k :: x in objects && objects'[x] == objects[x]
    ensures Stored(objects', t, out, done)
  {
    forall f <- done ensures Hls(t, f) in objects' {
      assert Hls(t, f) in objects.Keys - {k};
    }
  }

  lemma SourceKeepsResults(s: State, u: UploadId, up: Upload, objects: Objects)
    requires Provenance(s) && Results(s) && SourceOk(s, u, up, objects)
    ensures Results(WithSource(s, u, up, objects))
  {
    var s' := WithSource(s, u, up, objects);
    forall t | MadeBy(s, t) ensures MadeBy(s', t) && UploadOf(s', t).body == UploadOf(s, t).body {
    }
    forall w <- s'.workers | !s'.workers[w].pc.Idle?
      ensures AttemptOk(s'.objects, UploadOf(s', s'.workers[w].pc.job.track).body, s'.workers[w].pc)
    {
      var pc := s.workers[w].pc;
      assert AttemptOk(s.objects, UploadOf(s, pc.job.track).body, pc);
      match pc
      case Uploading(job, raw, out, done) => SourceKeepsFiles(s.objects, objects, up.key, job.track, out, done);
      case Finishing(job, raw, out) => SourceKeepsFiles(s.objects, objects, up.key, job.track, out, out.Keys);
      case _ =>
    }
    forall t <- s'.rows ensures MadeBy(s', t) && ReadyOk(s'.objects, s'.made, UploadOf(s', t).body, t, s'.rows[t]) {
      assert ReadyOk(s.objects, s.made, UploadOf(s, t).body, t, s.rows[t]);
      if s.rows[t].status == Ready {
        SourceKeepsFiles(s.objects, objects, up.key, t, s.made[t].out, s.made[t].out.Keys);
      }
    }
  }

  lemma SourceKeepsInv(s: State, u: UploadId, up: Upload, objects: Objects)
    requires Inv(s) && SourceOk(s, u, up, objects)
    ensures Inv(WithSource(s, u, up, objects))
  {
    hide RowsOk, JobsOk, Saga, Results, Offsets;
    var s' := WithSource(s, u, up, objects);
    SourceKeepsProvenance(s, u, up, objects);
    SourceKeepsSaga(s, u, up, objects);
    SourceKeepsResults(s, u, up, objects);
    JobsFollow(s, s');
    OffsetsFollow(s, s');
  }

  // ---------------------------------------------------------------- the steps that are such moves

  lemma StoreKeepsInv(s: State, u: UploadId, call: Call)
    requires Inv(s) && Active(s, u) && s.uploads[u].pc.Storing?
    ensures Inv(DoStore(s, u, call))
  {
    hide RowsOk, JobsOk, Exclusive, Results, Offsets;
    var up := s.uploads[u];
    assert UploadOk(s.rows, s.objects, s.log, up);
    var objects := if call.Took() then s.objects[up.key := up.body] else s.objects;
    SourceKeepsInv(s, u, up.(pc := if call.Ok? then Inserting else Refused(false)), objects);
  }

  lemma UndoObjectKeepsInv(s: State, u: UploadId, call: Call)
    requires Inv(s) && Active(s, u) && s.uploads[u].pc.UndoingObject?
    ensures Inv(DoUndoObject(s, u, call))
  {
    hide RowsOk, JobsOk, Exclusive, Results, Offsets;
    var up := s.uploads[u];
    assert UploadOk(s.rows, s.objects, s.log, up);
    SourceKeepsInv(s, u, up.(pc := Refused(call.Took())), if call.Took() then s.objects - {up.key} else s.objects);
  }

  /** An upload moves on without touching any object. */
  lemma UploadMoveKeepsInv(s: State, u: UploadId, up: Upload)
    requires Inv(s) && u in s.uploads
    requires up.key == s.uploads[u].key && up.body == s.uploads[u].body && up.row == s.uploads[u].row
    requires UploadOk(s.rows, s.objects, s.log, s.uploads[u]) ==> UploadOk(s.rows, s.objects, s.log, up)
    ensures Inv(WithUpload(s, u, up))
  {
    hide RowsOk, JobsOk, Exclusive, Results, Offsets;
    assert UploadOk(s.rows, s.objects, s.log, s.uploads[u]);
    SourceKeepsInv(s, u, up, s.objects);
    assert WithSource(s, u, up, s.objects) == WithUpload(s, u, up);
  }

  // ---------------------------------------------------------------- a request begins

  lemma BeginKeepsInv(s: State, u: UploadId, name: string, ext: string, body: Bytes)
    requires Inv(s) && CanBegin(s, u, name, ext)
    ensures Inv(DoBegin(s, u, name, ext, body))
  {
    hide RowsOk, JobsOk, Exclusive, Saga, Results, Offsets;
    var s' := DoBegin(s, u, name, ext, body);
    BeginKeepsProvenance(s, u, name, ext, body);
    BeginKeepsSaga(s, u, name, ext, body);
    JobsFollow(s, s');
    OffsetsFollow(s, s');
    RowsAreMade(s, s');
    ResultsFollow(s, s');
    assert Exclusive(s') by { SameClaims(s, s'); }
  }

  lemma SameClaims(s: State, s': State)
    requires Exclusive(s) && s'.rows == s.rows && s'.workers == s.workers
    ensures Exclusive(s')
  {
  }

  lemma BeginKeepsProvenance(s: State, u: UploadId, name: string, ext: string, body: Bytes)
    requires Provenance(s) && RowsOk(s) && CanBegin(s, u, name, ext)
    ensures var s' := DoBegin(s, u, name, ext, body); Provenance(s') && RowsOk(s')
    ensures var s' := DoBegin(s, u, name, ext, body);
            forall x | MadeBy(s, x) :: MadeBy(s', x) && UploadOf(s', x) == UploadOf(s, x)
  {
    var s' := DoBegin(s, u, name, ext, body);
    forall x <- s'.creator ensures MadeBy(s', x) && UploadOf(s', x).row == Some(x) {
      assert MadeBy(s, x) && UploadOf(s, x).row == Some(x);
    }
    forall x <- s'.rows ensures RowOk(s', x, s'.rows[x]) {
      assert RowOk(s, x, s.rows[x]);
    }
  }

  lemma BeginKeepsSaga(s: State, u: UploadId, name: string, ext: string, body: Bytes)
    requires Saga(s) && CanBegin(s, u, name, ext)
    ensures Saga(DoBegin(s, u, name, ext, body))
  {
  }

  /** Results survive any change that leaves workers, objects and attempts alone and every remaining row as it is. */
  lemma ResultsFollow(s: State, s': State)
    requires Results(s)
    requires s'.objects == s.objects && s'.made == s.made && s'.workers == s.workers
    requires forall t | MadeBy(s, t) :: MadeBy(s', t) && UploadOf(s', t).body == UploadOf(s, t).body
    requires forall t <- s'.rows ::
               MadeBy(s', t) && (if t in s.rows then s'.rows[t] == s.rows[t] else s'.rows[t].status != Ready)
    ensures Results(s')
  {
  }

  // ---------------------------------------------------------------- rows come and go

  lemma InsertKeepsProvenance(s: State, u: UploadId, t: TrackId, call: Call)
    requires Provenance(s) && CanInsert(s, u, t) && call.Took() && s.uploads[u].row.None?
    ensures Provenance(DoInsert(s, u, t, call))
  {
    var s' := DoInsert(s, u, t, call);
    forall x <- s'.creator ensures MadeBy(s', x) && UploadOf(s', x).row == Some(x) {
      assert x != t ==> MadeBy(s, x) && UploadOf(s, x).row == Some(x);
    }
  }

  /** Every track keeps its upload, with the same key and body. */
  lemma InsertKeepsMakers(s: State, u: UploadId, t: TrackId, call: Call)
    requires CanInsert(s, u, t) && call.Took()
    ensures var s' := DoInsert(s, u, t, call);
            forall x | MadeBy(s, x) ::
              && MadeBy(s', x) && UploadOf(s', x).key == UploadOf(s, x).key
              && UploadOf(s', x).body == UploadOf(s, x).body
  {
  }

  lemma InsertKeepsRows(s: State, u: UploadId, t: TrackId, call: Call)
    requires RowsOk(s) && CanInsert(s, u, t) && call.Took()
    ensures t !in s.rows
    ensures RowsOk(DoInsert(s, u, t, call))
  {
  }

  lemma NoRowYet(s: State, u: UploadId)
    requires Saga(s) && u in s.uploads && s.uploads[u].pc.Inserting?
    ensures s.uploads[u].row.None? && HasObject(s.objects, s.uploads[u])
  {
  }

  lemma InsertKeepsSaga(s: State, u: UploadId, t: TrackId, call: Call)
    requires Provenance(s) && Saga(s) && CanInsert(s, u, t) && call.Took()
    ensures Saga(DoInsert(s, u, t, call))
  {
    var s' := DoInsert(s, u, t, call);
    NoRowYet(s, u);
    forall v <- s'.uploads ensures UploadOk(s'.rows, s'.objects, s'.log, s'.uploads[v]) {
      assert UploadOk(s.rows, s.objects, s.log, s.uploads[v]);
      assert v != u && s.uploads[v].row.Some? ==> s.uploads[v].row.value in s.creator;
    }
  }

  lemma InsertKeepsExclusive(s: State, u: UploadId, t: TrackId, call: Call)
    requires JobsOk(s) && Exclusive(s) && CanInsert(s, u, t) && call.Took()
    ensures Exclusive(DoInsert(s, u, t, call))
  {
  }

  lemma InsertKeepsInv(s: State, u: UploadId, t: TrackId, call: Call)
    requires Inv(s) && CanInsert(s, u, t)
    ensures Inv(DoInsert(s, u, t, call))
  {
    hide RowsOk, JobsOk, Exclusive, Saga, Results, Offsets, UploadOk;
    if call.Took() {
      var s' := DoInsert(s, u, t, call);
      NoRowYet(s, u);
      InsertKeepsProvenance(s, u, t, call);
      InsertKeepsMakers(s, u, t, call);
      InsertKeepsRows(s, u, t, call);
      InsertKeepsSaga(s, u, t, call);
      InsertKeepsExclusive(s, u, t, call);
      JobsFollow(s, s');
      assert MadeBy(s', t);
      RowsAreMade(s, s');
      ResultsFollow(s, s');
      OffsetsFollow(s, s');
    } else {
      NoRowYet(s, u);
      assert UploadOk(s.rows, s.objects, s.log, s.uploads[u].(pc := UndoingObject)) by { GiveUp(s, u); }
      UploadMoveKeepsInv(s, u, s.uploads[u].(pc := UndoingObject));
    }
  }

  lemma RowsAreMade(s: State, s': State)
    requires RowsOk(s)
    requires forall x | MadeBy(s, x) :: MadeBy(s', x)
    ensures forall x <- s.rows :: MadeBy(s', x)
  {
  }

  lemma GiveUp(s: State, u: UploadId)
    requires Saga(s) && u in s.uploads && s.uploads[u].pc.Inserting?
    ensures UploadOk(s.rows, s.objects, s.log, s.uploads[u].(pc := UndoingObject))
  {
  }

  lemma UndoRowKeepsSaga(s: State, u: UploadId, call: Call)
    requires Provenance(s) && Saga(s) && CanUndoRow(s, u)
    ensures Saga(DoUndoRow(s, u, call))
  {
    var s' := DoUndoRow(s, u, call);
    forall v <- s'.uploads ensures UploadOk(s'.rows, s'.objects, s'.log, s'.uploads[v]) {
      assert UploadOk(s.rows, s.objects, s.log, s.uploads[v]);
      assert v != u && s.uploads[v].row.Some? ==> s.creator[s.uploads[v].row.value] == v;
    }
  }

  lemma UndoRowKeepsProvenance(s: State, u: UploadId, call: Call)
    requires Provenance(s) && CanUndoRow(s, u)
    ensures Provenance(DoUndoRow(s, u, call))
  {
  }

  lemma UndoRowKeepsMakers(s: State, u: UploadId, call: Call)
    requires CanUndoRow(s, u)
    ensures var s' := DoUndoRow(s, u, call);
            forall x | MadeBy(s, x) ::
              && MadeBy(s', x) && UploadOf(s', x).key == UploadOf(s, x).key
              && UploadOf(s', x).body == UploadOf(s, x).body
  {
  }

  lemma UndoRowKeepsRows(s: State, u: UploadId, call: Call)
    requires RowsOk(s) && CanUndoRow(s, u)
    ensures RowsOk(DoUndoRow(s, u, call))
  {
  }

  lemma UndoRowKeepsInv(s: State, u: UploadId, call: Call)
    requires Inv(s) && CanUndoRow(s, u)
    ensures Inv(DoUndoRow(s, u, call))
  {
    hide RowsOk, JobsOk, Saga, Results, Offsets;
    var s' := DoUndoRow(s, u, call);
    UndoRowKeepsProvenance(s, u, call);
    UndoRowKeepsMakers(s, u, call);
    UndoRowKeepsRows(s, u, call);
    UndoRowKeepsSaga(s, u, call);
    JobsFollow(s, s');
    RowsAreMade(s, s');
    ResultsFollow(s, s');
    OffsetsFollow(s, s');
  }

  // ---------------------------------------------------------------- the broker writes a job

  lemma AppendKeepsJobs(s: State, u: UploadId, p: Partition)
    requires Provenance(s) && JobsOk(s) && CanAppend(s, u, p)
    ensures JobsOk(DoAppend(s, u, p))
  {
  }

  lemma AppendKeepsSaga(s: State, u: UploadId, p: Partition)
    requires Saga(s) && CanAppend(s, u, p)
    ensures Saga(DoAppend(s, u, p))
  {
    var s' := DoAppend(s, u, p);
    forall v <- s'.uploads ensures UploadOk(s'.rows, s'.objects, s'.log, s'.uploads[v]) {
      var up := s.uploads[v];
      assert UploadOk(s.rows, s.objects, s.log, up);
      if up.pc.Created? {
        var q, o :| q in s.log && 0 <= o < |s.log[q]| && s.log[q][o].track == up.row.value;
        assert q in s'.log && 0 <= o < |s'.log[q]| && s'.log[q][o].track == up.row.value;
      }
    }
  }

  lemma AppendKeepsOffsets(s: State, u: UploadId, p: Partition)
    requires Offsets(s) && CanAppend(s, u, p)
    ensures Offsets(DoAppend(s, u, p))
  {
  }

  lemma AppendKeepsInv(s: State, u: UploadId, p: Partition)
    requires Inv(s) && CanAppend(s, u, p)
    ensures Inv(DoAppend(s, u, p))
  {
    hide RowsOk, JobsOk, Saga, Results, Offsets;
    var s' := DoAppend(s, u, p);
    AppendKeepsJobs(s, u, p);
    AppendKeepsSaga(s, u, p);
    AppendKeepsOffsets(s, u, p);
    SameRows(s, s');
    ResultsFollow(s, s');
  }

  lemma SameRows(s: State, s': State)
    requires RowsOk(s) && s'.rows == s.rows && s'.uploads == s.uploads && s'.creator == s.creator
    ensures RowsOk(s') && forall t <- s'.rows :: MadeBy(s', t)
  {
  }

  // ---------------------------------------------------------------- all actions

  lemma UploadStepKeepsInv(s: State, u: UploadId, act: UploadAct)
    requires Inv(s) && CanSaga(s, u, act)
    ensures Inv(DoSaga(s, u, act))
  {
    hide Inv;
    match act
    case Begin(name, ext, body) => BeginKeepsInv(s, u, name, ext, body);
    case Store(call) => StoreKeepsInv(s, u, call);
    case Insert(t, call) => InsertKeepsInv(s, u, t, call);
    case Append(p) => AppendKeepsInv(s, u, p);
    case PublishOk => UploadMoveKeepsInv(s, u, s.uploads[u].(pc := Created));
    case PublishError => UploadMoveKeepsInv(s, u, s.uploads[u].(pc := UndoingRow));
    case UndoRow(call) => UndoRowKeepsInv(s, u, call);
    case UndoObject(call) => UndoObjectKeepsInv(s, u, call);
    case Abort => UploadMoveKeepsInv(s, u, s.uploads[u].(alive := false));
  }
}
