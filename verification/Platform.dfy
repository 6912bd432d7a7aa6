/** The shared state of the streaming platform (PostgreSQL rows, S3 objects, the Kafka job topic) together with
    every transcode worker and every upload request working on it, as one labelled transition system.
    Each step is one atomic action of one process: a remote call, a local decision, a crash, or an action of the
    Kafka group coordinator. Steps of different processes interleave freely. */
module Platform {
  import opened Basics
  import opened GoPaths
  import opened ObjectKeys

  type TrackId = string
  type WorkerId = nat
  type UploadId = nat
  type Partition = nat

  /** The files one conversion leaves in its output directory. */
  type Output = map<string, Bytes>

  /** The playlist FFmpeg is told to write, and the one every ready row names. */
  const MASTER: string := "master.m3u8"

  datatype Status = Pending | Processing | Ready | Failed

  datatype Row = Row(status: Status, objectKey: ObjectKey, size: nat, playlist: Option<ObjectKey>)

  type Rows = map<TrackId, Row>
  type Objects = map<ObjectKey, Bytes>

  /** A message of the job topic. */
  datatype Job = Job(track: TrackId, path: ObjectKey)

  /** Where a worker stands in the body of its message loop. `guarded` tells a commit inside the `try` block
      from one outside it. */
  datatype Pc =
    | Idle
    | Taken(job: Job)
    | Checked(job: Job)
    | Downloading(job: Job)
    | Converting(job: Job, raw: Bytes)
    | Uploading(job: Job, raw: Bytes, out: Output, done: set<string>)
    | Finishing(job: Job, raw: Bytes, out: Output)
    | Failing(job: Job)
    | Acking(job: Job, guarded: bool)
  {
    /** Between a successful claim and the closing write. */
    predicate Holding() {
      Downloading? || Converting? || Uploading? || Finishing? || Failing?
    }

    /** Inside the `try` block. */
    predicate Guarded() {
      Holding() || (Acking? && guarded)
    }

    /** A message is in hand whose claim has not been decided yet. */
    predicate Undecided() {
      Taken? || Checked?
    }
  }

  /** `pos` holds, for each assigned partition, the offset after the last message taken from it. */
  datatype Worker = Worker(pc: Pc, pos: map<Partition, nat>)

  datatype UploadPc =
    | Storing
    | Inserting
    | Publishing
    | UndoingRow
    | UndoingObject
    | Created                  // answered 201
    | Refused(erased: bool)    // answered 500; erased: its compensation removed the object

  /** One upload request. `row` is the row its insert made, if any; `sent` is set once it reaches the publish call;
      `torn` records that its insert took effect while reporting an error, or that its row delete had no effect. */
  datatype Upload = Upload(key: ObjectKey, body: Bytes, row: Option<TrackId>, sent: bool, torn: bool, alive: bool,
                           pc: UploadPc)

  /** What a worker read and produced in the attempt that made a track ready. */
  datatype Attempt = Attempt(raw: Bytes, out: Output)

  /** `creator`, `made` and `abandoned` record history and are never read by a process: the upload that inserted a
      row, the attempt that made it ready, and the tracks on which a claim raised an error without effect. */
  datatype State = State(
    rows: Rows,
    objects: Objects,
    log: map<Partition, seq<Job>>,
    committed: map<Partition, nat>,
    workers: map<WorkerId, Worker>,
    uploads: map<UploadId, Upload>,
    creator: map<TrackId, UploadId>,
    made: map<TrackId, Attempt>,
    abandoned: set<TrackId>)

  /** What can happen to or in a worker. The first four are the process life cycle and the Kafka group coordinator. */
  datatype WorkerAct =
    | Start
    | Assign(p: Partition)
    | Revoke(p: Partition)
    | Die
    | Deliver(p: Partition)
    | ReadStatus(call: Call)
    | Claim(call: Call)
    | Download(answered: bool)
    | Convert(result: Option<Output>)
    | Put(file: string, call: Call)
    | PutsDone
    | CloseReady(call: Call)
    | CloseFailed(call: Call)
    | Commit
    | Raise

  /** What can happen in an upload request. */
  datatype UploadAct =
    | Begin(name: string, ext: string, body: Bytes)
    | Store(call: Call)
    | Insert(t: TrackId, call: Call)
    | Append(p: Partition)
    | PublishOk
    | PublishError
    | UndoRow(call: Call)
    | UndoObject(call: Call)
    | Abort

  datatype Step = ByWorker(w: WorkerId, act: WorkerAct) | ByUpload(u: UploadId, saga: UploadAct)

  // ---------------------------------------------------------------- row updates of the two services

  predicate Claimable(rows: Rows, t: TrackId) {
    t in rows && (rows[t].status == Pending || rows[t].status == Failed)
  }

  /** UPDATE ... SET status = 'processing' WHERE id = t AND status IN ('pending', 'failed') */
  function ClaimRows(rows: Rows, t: TrackId): Rows {
    if Claimable(rows, t) then rows[t := rows[t].(status := Processing)] else rows
  }

  /** UPDATE ... SET status = 'failed' WHERE id = t */
  function FailRows(rows: Rows, t: TrackId): Rows {
    if t in rows then rows[t := rows[t].(status := Failed)] else rows
  }

  predicate Finishable(rows: Rows, t: TrackId) {
    t in rows && rows[t].status == Processing
  }

  /** UPDATE ... SET status = 'ready', hls_playlist_key = key WHERE id = t AND status = 'processing' */
  function ReadyRows(rows: Rows, t: TrackId, key: ObjectKey): Rows {
    if Finishable(rows, t) then rows[t := rows[t].(status := Ready, playlist := Some(key))] else rows
  }

  // ---------------------------------------------------------------- steps of a worker

  predicate Runs(s: State, w: WorkerId) {
    w in s.workers
  }

  function PcOf(s: State, w: WorkerId): Pc
    requires Runs(s, w)
  {
    s.workers[w].pc
  }

  function WithPc(s: State, w: WorkerId, pc: Pc): State
    requires Runs(s, w)
  {
    s.(workers := s.workers[w := s.workers[w].(pc := pc)])
  }

  function WithPos(s: State, w: WorkerId, pos: map<Partition, nat>): State
    requires Runs(s, w)
  {
    s.(workers := s.workers[w := s.workers[w].(pos := pos)])
  }

  function DoStart(s: State, w: WorkerId): State {
    s.(workers := s.workers[w := Worker(Idle, map[])])
  }

  /** A rebalance hands partition `p` to `w`, which starts at the committed offset. The previous owner may
      still be at work on messages of `p`. */
  function DoAssign(s: State, w: WorkerId, p: Partition): State
    requires Runs(s, w) && p in s.committed
  {
    WithPos(s, w, s.workers[w].pos[p := s.committed[p]])
  }

  function DoRevoke(s: State, w: WorkerId, p: Partition): State
    requires Runs(s, w)
  {
    WithPos(s, w, s.workers[w].pos - {p})
  }

  function DoDie(s: State, w: WorkerId): State {
    s.(workers := s.workers - {w})
  }

  predicate CanDeliver(s: State, w: WorkerId, p: Partition) {
    && Runs(s, w) && PcOf(s, w).Idle?
    && p in s.workers[w].pos && p in s.log && s.workers[w].pos[p] < |s.log[p]|
  }

  function DoDeliver(s: State, w: WorkerId, p: Partition): State
    requires CanDeliver(s, w, p)
  {
    var o := s.workers[w].pos[p];
    WithPc(WithPos(s, w, s.workers[w].pos[p := o + 1]), w, Taken(s.log[p][o]))
  }

  /** get_track_status and the test on its result; a database error reads as no status. */
  function DoReadStatus(s: State, w: WorkerId, call: Call): State
    requires Runs(s, w) && PcOf(s, w).Taken?
  {
    var job := PcOf(s, w).job;
    WithPc(s, w, if call.Ok? && job.track in s.rows && s.rows[job.track].status == Ready
                 then Acking(job, false) else Checked(job))
  }

  /** update_track_status(t, 'processing') and the test on its result. */
  function DoClaim(s: State, w: WorkerId, call: Call): State
    requires Runs(s, w) && PcOf(s, w).Checked?
  {
    var job := PcOf(s, w).job;
    var won := call.Ok? && Claimable(s.rows, job.track);
    WithPc(s, w, if won then Downloading(job) else Acking(job, false))
      .(rows := if call.Took() then ClaimRows(s.rows, job.track) else s.rows,
        abandoned := if call.Took() then s.abandoned else s.abandoned + {job.track})
  }

  predicate CanDownload(s: State, w: WorkerId) {
    Runs(s, w) && PcOf(s, w).Downloading?
  }

  /** download_file, with a store that answers or refuses; a missing object is an error like any other. */
  function DoDownload(s: State, w: WorkerId, answered: bool): State
    requires CanDownload(s, w)
  {
    var job := PcOf(s, w).job;
    WithPc(s, w, if answered && job.path in s.objects then Converting(job, s.objects[job.path]) else Failing(job))
  }

  /** FFmpeg either fails or leaves files in the output directory; names of directory entries contain no slash. That
      the playlist is among them is not checked by anyone. */
  predicate CanConvert(s: State, w: WorkerId, result: Option<Output>) {
    && Runs(s, w) && PcOf(s, w).Converting?
    && (result.Some? ==> forall f <- result.value :: SlashFree(f))
  }

  function DoConvert(s: State, w: WorkerId, result: Option<Output>): State
    requires CanConvert(s, w, result)
  {
    var pc := PcOf(s, w);
    WithPc(s, w, if result.Some? then Uploading(pc.job, pc.raw, result.value, {}) else Failing(pc.job))
  }

  predicate CanPut(s: State, w: WorkerId, file: string) {
    && Runs(s, w) && PcOf(s, w).Uploading?
    && file in PcOf(s, w).out && file !in PcOf(s, w).done
  }

  /** One put_object of upload_hls_folder. */
  function DoPut(s: State, w: WorkerId, file: string, call: Call): State
    requires CanPut(s, w, file)
  {
    var pc := PcOf(s, w);
    WithPc(s, w, if call.Ok? then pc.(done := pc.done + {file}) else Failing(pc.job))
      .(objects := if call.Took() then s.objects[Hls(pc.job.track, file) := pc.out[file]] else s.objects)
  }

  predicate CanPutsDone(s: State, w: WorkerId) {
    Runs(s, w) && PcOf(s, w).Uploading? && PcOf(s, w).done == PcOf(s, w).out.Keys
  }

  function DoPutsDone(s: State, w: WorkerId): State
    requires CanPutsDone(s, w)
  {
    var pc := PcOf(s, w);
    WithPc(s, w, Finishing(pc.job, pc.raw, pc.out))
  }

  /** update_track_ready; its result is ignored. */
  function DoCloseReady(s: State, w: WorkerId, call: Call): State
    requires Runs(s, w) && PcOf(s, w).Finishing?
  {
    var pc := PcOf(s, w);
    var t := pc.job.track;
    WithPc(s, w, Acking(pc.job, true))
      .(rows := if call.Took() then ReadyRows(s.rows, t, Hls(t, MASTER)) else s.rows,
        made := if call.Took() && Finishable(s.rows, t) then s.made[t := Attempt(pc.raw, pc.out)] else s.made)
  }

  /** update_track_status(t, 'failed'); its result is ignored. */
  function DoCloseFailed(s: State, w: WorkerId, call: Call): State
    requires Runs(s, w) && PcOf(s, w).Failing?
  {
    var job := PcOf(s, w).job;
    WithPc(s, w, Acking(job, true)).(rows := if call.Took() then FailRows(s.rows, job.track) else s.rows)
  }

  /** The offsets on record once every position in `pos` is committed. */
  function CommitAll(committed: map<Partition, nat>, pos: map<Partition, nat>): map<Partition, nat> {
    committed + (pos - (pos.Keys - committed.Keys))
  }

  function DoCommit(s: State, w: WorkerId): State
    requires Runs(s, w) && PcOf(s, w).Acking?
  {
    WithPc(s, w, Idle).(committed := CommitAll(s.committed, s.workers[w].pos))
  }

  /** An exception inside the `try` block: it is logged and the loop goes on without a commit. */
  function DoRaise(s: State, w: WorkerId): State
    requires Runs(s, w) && PcOf(s, w).Guarded()
  {
    WithPc(s, w, Idle)
  }

  // ---------------------------------------------------------------- steps of an upload

  /** The broker holds a job for the track. */
  ghost predicate Queued(log: map<Partition, seq<Job>>, t: TrackId) {
    exists p, o :: p in log && 0 <= o < |log[p]| && log[p][o].track == t
  }

  predicate Active(s: State, u: UploadId) {
    u in s.uploads && s.uploads[u].alive
  }

  function WithUpload(s: State, u: UploadId, up: Upload): State {
    s.(uploads := s.uploads[u := up])
  }

  /** A request passes validation and draws a fresh object name: no upload and no stored object uses its key. */
  ghost predicate CanBegin(s: State, u: UploadId, name: string, ext: string) {
    && u !in s.uploads && SlashFree(name) && SlashFree(ext) && Raw(name, ext) !in s.objects
    && forall v <- s.uploads :: s.uploads[v].key != Raw(name, ext)
  }

  function DoBegin(s: State, u: UploadId, name: string, ext: string, body: Bytes): State {
    WithUpload(s, u, Upload(Raw(name, ext), body, None, false, false, true, Storing))
  }

  /** PutOriginal. An error after the put leaves the object behind. */
  function DoStore(s: State, u: UploadId, call: Call): State
    requires Active(s, u)
  {
    var up := s.uploads[u];
    WithUpload(s, u, up.(pc := if call.Ok? then Inserting else Refused(false)))
      .(objects := if call.Took() then s.objects[up.key := up.body] else s.objects)
  }

  predicate CanInsert(s: State, u: UploadId, t: TrackId) {
    Active(s, u) && s.uploads[u].pc.Inserting? && t !in s.creator && SlashFree(t)
  }

  /** CreateTrack under a fresh row id `t`. */
  function DoInsert(s: State, u: UploadId, t: TrackId, call: Call): State
    requires CanInsert(s, u, t)
  {
    var up := s.uploads[u];
    WithUpload(s, u, if call.Ok? then up.(row := Some(t), sent := true, pc := Publishing)
                     else if call.Took() then up.(row := Some(t), torn := true, pc := UndoingObject)
                     else up.(pc := UndoingObject))
      .(rows := if call.Took() then s.rows[t := Row(Pending, up.key, |up.body|, None)] else s.rows,
        creator := if call.Took() then s.creator[t := u] else s.creator)
  }

  predicate CanAppend(s: State, u: UploadId, p: Partition) {
    u in s.uploads && s.uploads[u].sent && s.uploads[u].row.Some? && p in s.log
  }

  /** The broker writes the job. Producer retries can write it again, and a write can land after the publish call
      has reported a failure. */
  function DoAppend(s: State, u: UploadId, p: Partition): State
    requires CanAppend(s, u, p)
  {
    var up := s.uploads[u];
    s.(log := s.log[p := s.log[p] + [Job(up.row.value, up.key)]])
  }

  ghost predicate CanPublishOk(s: State, u: UploadId) {
    && Active(s, u) && s.uploads[u].pc.Publishing?
    && s.uploads[u].row.Some? && Queued(s.log, s.uploads[u].row.value)
  }

  function DoPublishOk(s: State, u: UploadId): State
    requires Active(s, u)
  {
    WithUpload(s, u, s.uploads[u].(pc := Created))
  }

  function DoPublishError(s: State, u: UploadId): State
    requires Active(s, u)
  {
    WithUpload(s, u, s.uploads[u].(pc := UndoingRow))
  }

  predicate CanUndoRow(s: State, u: UploadId) {
    Active(s, u) && s.uploads[u].pc.UndoingRow? && s.uploads[u].row.Some?
  }

  /** DeleteTrackByID, whose error is ignored. */
  function DoUndoRow(s: State, u: UploadId, call: Call): State
    requires CanUndoRow(s, u)
  {
    var up := s.uploads[u];
    WithUpload(s, u, up.(pc := UndoingObject, torn := up.torn || !call.Took()))
      .(rows := if call.Took() then s.rows - {up.row.value} else s.rows)
  }

  /** TrackStorage.Delete, whose error is ignored. */
  function DoUndoObject(s: State, u: UploadId, call: Call): State
    requires Active(s, u)
  {
    var up := s.uploads[u];
    WithUpload(s, u, up.(pc := Refused(call.Took())))
      .(objects := if call.Took() then s.objects - {up.key} else s.objects)
  }

  function DoAbort(s: State, u: UploadId): State
    requires Active(s, u)
  {
    WithUpload(s, u, s.uploads[u].(alive := false))
  }

  // ---------------------------------------------------------------- all steps

  predicate CanAct(s: State, w: WorkerId, act: WorkerAct) {
    match act
    case Start => !Runs(s, w)
    case Assign(p) => Runs(s, w) && PcOf(s, w).Idle? && p in s.committed
    case Revoke(p) => Runs(s, w)
    case Die => Runs(s, w)
    case Deliver(p) => CanDeliver(s, w, p)
    case ReadStatus(_) => Runs(s, w) && PcOf(s, w).Taken?
    case Claim(_) => Runs(s, w) && PcOf(s, w).Checked?
    case Download(_) => CanDownload(s, w)
    case Convert(result) => CanConvert(s, w, result)
    case Put(file, _) => CanPut(s, w, file)
    case PutsDone => CanPutsDone(s, w)
    case CloseReady(_) => Runs(s, w) && PcOf(s, w).Finishing?
    case CloseFailed(_) => Runs(s, w) && PcOf(s, w).Failing?
    case Commit => Runs(s, w) && PcOf(s, w).Acking?
    case Raise => Runs(s, w) && PcOf(s, w).Guarded()
  }

  function DoAct(s: State, w: WorkerId, act: WorkerAct): State
    requires CanAct(s, w, act)
  {
    match act
    case Start => DoStart(s, w)
    case Assign(p) => DoAssign(s, w, p)
    case Revoke(p) => DoRevoke(s, w, p)
    case Die => DoDie(s, w)
    case Deliver(p) => DoDeliver(s, w, p)
    case ReadStatus(call) => DoReadStatus(s, w, call)
    case Claim(call) => DoClaim(s, w, call)
    case Download(answered) => DoDownload(s, w, answered)
    case Convert(result) => DoConvert(s, w, result)
    case Put(file, call) => DoPut(s, w, file, call)
    case PutsDone => DoPutsDone(s, w)
    case CloseReady(call) => DoCloseReady(s, w, call)
    case CloseFailed(call) => DoCloseFailed(s, w, call)
    case Commit => DoCommit(s, w)
    case Raise => DoRaise(s, w)
  }

  ghost predicate CanSaga(s: State, u: UploadId, act: UploadAct) {
    match act
    case Begin(name, ext, body) => CanBegin(s, u, name, ext)
    case Store(_) => Active(s, u) && s.uploads[u].pc.Storing?
    case Insert(t, _) => CanInsert(s, u, t)
    case Append(p) => CanAppend(s, u, p)
    case PublishOk => CanPublishOk(s, u)
    case PublishError => Active(s, u) && s.uploads[u].pc.Publishing?
    case UndoRow(_) => CanUndoRow(s, u)
    case UndoObject(_) => Active(s, u) && s.uploads[u].pc.UndoingObject?
    case Abort => Active(s, u)
  }

  ghost function DoSaga(s: State, u: UploadId, act: UploadAct): State
    requires CanSaga(s, u, act)
  {
    match act
    case Begin(name, ext, body) => DoBegin(s, u, name, ext, body)
    case Store(call) => DoStore(s, u, call)
    case Insert(t, call) => DoInsert(s, u, t, call)
    case Append(p) => DoAppend(s, u, p)
    case PublishOk => DoPublishOk(s, u)
    case PublishError => DoPublishError(s, u)
    case UndoRow(call) => DoUndoRow(s, u, call)
    case UndoObject(call) => DoUndoObject(s, u, call)
    case Abort => DoAbort(s, u)
  }

  ghost predicate Can(s: State, step: Step) {
    match step
    case ByWorker(w, act) => CanAct(s, w, act)
    case ByUpload(u, act) => CanSaga(s, u, act)
  }

  ghost function Apply(s: State, step: Step): State
    requires Can(s, step)
  {
    match step
    case ByWorker(w, act) => DoAct(s, w, act)
    case ByUpload(u, act) => DoSaga(s, u, act)
  }

  // ---------------------------------------------------------------- runs

  /** Nothing stored, nothing queued, no process running. */
  predicate Init(s: State) {
    && s.rows == map[] && s.objects == map[] && s.workers == map[] && s.uploads == map[]
    && s.creator == map[] && s.made == map[] && s.abandoned == {}
    && s.log.Keys == s.committed.Keys
    && (forall p <- s.log :: s.log[p] == [])
    && (forall p <- s.committed :: s.committed[p] == 0)
  }

  ghost predicate Legal(s: State, run: seq<Step>)
    decreases |run|
  {
    run == [] || (Can(s, run[0]) && Legal(Apply(s, run[0]), run[1..]))
  }

  /** The state after a run. */
  ghost function Exec(s: State, run: seq<Step>): State
    requires Legal(s, run)
    decreases |run|
  {
    if run == [] then s else Exec(Apply(s, run[0]), run[1..])
  }

  /** Some run from an empty platform ends in `s`. */
  ghost predicate Reachable(s: State) {
    exists s0, run :: Init(s0) && Legal(s0, run) && Exec(s0, run) == s
  }

  lemma {:induction false} OneMore(s: State, run: seq<Step>, step: Step)
    requires Legal(s, run) && Can(Exec(s, run), step)
    ensures Legal(s, run + [step]) && Exec(s, run + [step]) == Apply(Exec(s, run), step)
    decreases |run|
  {
    if run == [] {
      assert (run + [step])[1..] == [];
    } else {
      assert (run + [step])[1..] == run[1..] + [step];
      OneMore(Apply(s, run[0]), run[1..], step);
    }
  }

  lemma {:induction false} LegalPrefix(s: State, run: seq<Step>, step: Step)
    requires Legal(s, run + [step])
    ensures Legal(s, run) && Can(Exec(s, run), step) && Exec(s, run + [step]) == Apply(Exec(s, run), step)
    decreases |run|
  {
    hide Can, Apply;
    if run == [] {
      assert (run + [step])[1..] == [] && (run + [step])[0] == step;
    } else {
      assert (run + [step])[0] == run[0] && (run + [step])[1..] == run[1..] + [step];
      LegalPrefix(Apply(s, run[0]), run[1..], step);
    }
  }

  lemma ReachMore(s: State, step: Step)
    requires Reachable(s) && Can(s, step)
    ensures Reachable(Apply(s, step))
  {
    var s0, run :| Init(s0) && Legal(s0, run) && Exec(s0, run) == s;
    OneMore(s0, run, step);
    assert Exec(s0, run + [step]) == Apply(s, step);
  }
}
