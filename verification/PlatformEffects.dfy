/** Which part of the shared state each action writes, and what it leaves there. */
module PlatformEffects {
  import opened Basics
  import opened ObjectKeys
  import opened Platform

  /** The parts of the state that are not local to a worker. */
  ghost predicate SameOutside(s: State, s': State) {
    && s'.rows == s.rows && s'.objects == s.objects && s'.log == s.log && s'.uploads == s.uploads
    && s'.creator == s.creator && s'.made == s.made && s'.abandoned == s.abandoned
  }

  /** The four actions of a worker that write outside it. */
  predicate Writes(act: WorkerAct) {
    act.Claim? || act.Put? || act.CloseReady? || act.CloseFailed?
  }

  /** What a writing action finds and leaves: the row of the job's own track, or one file under its prefix. */
  ghost predicate Written(s: State, w: WorkerId, act: WorkerAct, s': State)
    requires Writes(act)
  {
    && Runs(s, w) && !PcOf(s, w).Idle?
    && s'.log == s.log && s'.uploads == s.uploads && s'.creator == s.creator
    && var t := PcOf(s, w).job.track;
       match act
       case Claim(call) =>
         && PcOf(s, w).Checked? && s'.objects == s.objects && s'.made == s.made
         && s'.rows == (if call.Took() then ClaimRows(s.rows, t) else s.rows)
         && s'.abandoned == (if call.Took() then s.abandoned else s.abandoned + {t})
       case Put(file, call) =>
         && CanPut(s, w, file) && s'.rows == s.rows && s'.made == s.made && s'.abandoned == s.abandoned
         && s'.objects == (if call.Took() then s.objects[Hls(t, file) := PcOf(s, w).out[file]] else s.objects)
       case CloseReady(call) =>
         && PcOf(s, w).Finishing? && s'.objects == s.objects && s'.abandoned == s.abandoned
         && s'.rows == (if call.Took() then ReadyRows(s.rows, t, Hls(t, MASTER)) else s.rows)
         && s'.made == (if call.Took() && Finishable(s.rows, t)
                        then s.made[t := Attempt(PcOf(s, w).raw, PcOf(s, w).out)] else s.made)
       case CloseFailed(call) =>
         && PcOf(s, w).Failing? && s'.objects == s.objects && s'.made == s.made && s'.abandoned == s.abandoned
         && s'.rows == (if call.Took() then FailRows(s.rows, t) else s.rows)
       case _ => true
  }

  lemma WorkerEffect(s: State, w: WorkerId, act: WorkerAct)
    requires CanAct(s, w, act)
    ensures if Writes(act) then Written(s, w, act, DoAct(s, w, act)) else SameOutside(s, DoAct(s, w, act))
  {
  }

  /** What an upload can change: rows and creators by inserting or deleting its own row, and its own object. */
  lemma UploadEffect(s: State, u: UploadId, act: UploadAct)
    requires CanSaga(s, u, act)
    ensures var s' := DoSaga(s, u, act);
            && s'.workers == s.workers && s'.made == s.made && s'.abandoned == s.abandoned
            && s'.committed == s.committed
            && s'.uploads.Keys == s.uploads.Keys + {u}
            && forall v <- s.uploads | v != u :: s'.uploads[v] == s.uploads[v]
  {
  }

  lemma UploadRowEffect(s: State, u: UploadId, act: UploadAct)
    requires CanSaga(s, u, act)
    ensures match act
            case Insert(t, call) =>
              && CanInsert(s, u, t)
              && DoSaga(s, u, act).rows
                 == (if call.Took() then s.rows[t := Row(Pending, s.uploads[u].key, |s.uploads[u].body|, None)]
                     else s.rows)
              && DoSaga(s, u, act).creator == (if call.Took() then s.creator[t := u] else s.creator)
            case UndoRow(call) =>
              && CanUndoRow(s, u) && DoSaga(s, u, act).creator == s.creator
              && DoSaga(s, u, act).rows == (if call.Took() then s.rows - {s.uploads[u].row.value} else s.rows)
            case _ => DoSaga(s, u, act).rows == s.rows && DoSaga(s, u, act).creator == s.creator
  {
  }

  lemma UploadObjectEffect(s: State, u: UploadId, act: UploadAct)
    requires CanSaga(s, u, act)
    ensures match act
            case Store(call) =>
              && Active(s, u)
              && DoSaga(s, u, act).objects
                 == (if call.Took() then s.objects[s.uploads[u].key := s.uploads[u].body] else s.objects)
            case UndoObject(call) =>
              && Active(s, u)
              && DoSaga(s, u, act).objects == (if call.Took() then s.objects - {s.uploads[u].key} else s.objects)
            case _ => DoSaga(s, u, act).objects == s.objects
  {
  }

  /** An action of one worker leaves every other worker alone. */
  lemma OthersKeepPlace(s: State, w: WorkerId, act: WorkerAct)
    requires CanAct(s, w, act)
    ensures forall v | v != w ::
              (v in DoAct(s, w, act).workers <==> v in s.workers)
              && (v in s.workers ==> DoAct(s, w, act).workers[v] == s.workers[v])
  {
  }
}
