/** What holds in every reachable state of the platform. */
module PlatformInvariant {
  import opened Basics
  import opened ObjectKeys
  import opened Platform

  // ---------------------------------------------------------------- who made what

  predicate MadeBy(s: State, t: TrackId) {
    t in s.creator && s.creator[t] in s.uploads
  }

  /** The upload that inserted the row of a track. */
  function UploadOf(s: State, t: TrackId): Upload
    requires MadeBy(s, t)
  {
    s.uploads[s.creator[t]]
  }

  /** Rows and uploads name each other, and distinct uploads own distinct raw keys. */
  ghost predicate Provenance(s: State) {
    && (forall t <- s.creator :: MadeBy(s, t) && UploadOf(s, t).row == Some(t))
    && (forall u <- s.uploads | s.uploads[u].row.Some? ::
          s.uploads[u].row.value in s.creator && s.creator[s.uploads[u].row.value] == u)
    && (forall u <- s.uploads :: s.uploads[u].key.Raw?)
    && (forall u <- s.uploads, v <- s.uploads | u != v :: s.uploads[u].key != s.uploads[v].key)
  }

  /** A row carries the key and length of the object its own upload stores. */
  predicate RowOk(s: State, t: TrackId, row: Row) {
    MadeBy(s, t) && row.objectKey == UploadOf(s, t).key && row.size == |UploadOf(s, t).body|
  }

  ghost predicate RowsOk(s: State) {
    forall t <- s.rows :: RowOk(s, t, s.rows[t])
  }

  /** A job carries the id and key of the row its own upload made. */
  predicate JobOk(s: State, job: Job) {
    MadeBy(s, job.track) && job.path == UploadOf(s, job.track).key
  }

  ghost predicate JobsOk(s: State) {
    && (forall p <- s.log :: forall o | 0 <= o < |s.log[p]| :: JobOk(s, s.log[p][o]))
    && (forall w <- s.workers | !s.workers[w].pc.Idle? :: JobOk(s, s.workers[w].pc.job))
  }

  // ---------------------------------------------------------------- exclusive claims

  /** The worker is between a successful claim on `t` and its closing write. */
  predicate Holds(s: State, w: WorkerId, t: TrackId) {
    w in s.workers && s.workers[w].pc.Holding() && s.workers[w].pc.job.track == t
  }

  predicate Locked(rows: Rows, t: TrackId) {
    t in rows ==> rows[t].status == Processing
  }

  ghost predicate Exclusive(s: State) {
    && (forall w <- s.workers | s.workers[w].pc.Holding() :: Locked(s.rows, s.workers[w].pc.job.track))
    && (forall w <- s.workers, v <- s.workers | w != v && s.workers[w].pc.Holding() && s.workers[v].pc.Holding() ::
          s.workers[w].pc.job.track != s.workers[v].pc.job.track)
  }

  // ---------------------------------------------------------------- the upload saga

  predicate HasObject(objects: Objects, up: Upload) {
    up.key in objects && objects[up.key] == up.body
  }

  predicate HasRow(rows: Rows, up: Upload) {
    up.row.Some? && up.row.value in rows
  }

  ghost predicate UploadOk(rows: Rows, objects: Objects, log: map<Partition, seq<Job>>, up: Upload) {
    && (up.sent ==> up.row.Some?)
    && (up.torn ==> HasRow(rows, up) && (up.pc.UndoingObject? || up.pc.Refused?))
    && (up.key in objects ==> objects[up.key] == up.body)
    && match up.pc
       case Storing => up.row.None? && up.key !in objects
       case Inserting => up.row.None? && HasObject(objects, up)
       case Publishing => HasRow(rows, up) && HasObject(objects, up)
       case UndoingRow => HasRow(rows, up) && HasObject(objects, up)
       case UndoingObject => (HasRow(rows, up) ==> up.torn) && HasObject(objects, up)
       case Created => HasRow(rows, up) && HasObject(objects, up) && Queued(log, up.row.value)
       case Refused(erased) =>
         && (HasRow(rows, up) ==> up.torn)
         && (if erased then up.key !in objects else up.row.Some? ==> HasObject(objects, up))
  }

  ghost predicate Saga(s: State) {
    forall u <- s.uploads :: UploadOk(s.rows, s.objects, s.log, s.uploads[u])
  }

  // ---------------------------------------------------------------- conversion results

  /** The files `done` of `out` are stored under the HLS prefix of the track with their own bytes. */
  predicate Stored(objects: Objects, t: TrackId, out: Output, done: set<string>) {
    forall f <- done :: f in out && Hls(t, f) in objects && objects[Hls(t, f)] == out[f]
  }

  predicate Complete(objects: Objects, t: TrackId, out: Output) {
    Stored(objects, t, out, out.Keys)
  }

  /** A running attempt works on the uploaded bytes `source`, and what it reports stored is stored. */
  predicate AttemptOk(objects: Objects, source: Bytes, pc: Pc) {
    match pc
    case Converting(job, raw) => raw == source
    case Uploading(job, raw, out, done) => raw == source && Stored(objects, job.track, out, done)
    case Finishing(job, raw, out) => raw == source && Complete(objects, job.track, out)
    case _ => true
  }

  /** The playlist of a ready row belongs to an attempt on the uploaded bytes whose whole output is stored. */
  predicate ReadyOk(objects: Objects, made: map<TrackId, Attempt>, source: Bytes, t: TrackId, row: Row) {
    row.status == Ready ==>
      && t in made
      && row.playlist == Some(Hls(t, MASTER))
      && made[t].raw == source
      && Complete(objects, t, made[t].out)
  }

  ghost predicate Results(s: State) {
    && (forall w <- s.workers | !s.workers[w].pc.Idle? ::
          && MadeBy(s, s.workers[w].pc.job.track)
          && AttemptOk(s.objects, UploadOf(s, s.workers[w].pc.job.track).body, s.workers[w].pc))
    && (forall t <- s.rows :: MadeBy(s, t) && ReadyOk(s.objects, s.made, UploadOf(s, t).body, t, s.rows[t]))
  }

  // ---------------------------------------------------------------- committed offsets

  /** No claim of this track is owed any more: the row is gone, was claimed, or its claim raised an error. */
  predicate Settled(rows: Rows, abandoned: set<TrackId>, t: TrackId) {
    t !in rows || rows[t].status != Pending || t in abandoned
  }

  predicate JobPassed(rows: Rows, abandoned: set<TrackId>, pc: Pc, job: Job) {
    Settled(rows, abandoned, job.track) || (pc.Undecided() && pc.job == job)
  }

  /** The first `n` jobs were passed by a worker that now stands at `pc`. */
  predicate PrefixPassed(rows: Rows, abandoned: set<TrackId>, pc: Pc, jobs: seq<Job>, n: nat) {
    n <= |jobs| && forall o | 0 <= o < n :: JobPassed(rows, abandoned, pc, jobs[o])
  }

  predicate TakenOk(s: State, worker: Worker) {
    forall p <- worker.pos :: p in s.log && PrefixPassed(s.rows, s.abandoned, worker.pc, s.log[p], worker.pos[p])
  }

  ghost predicate Offsets(s: State) {
    && s.log.Keys == s.committed.Keys
    && (forall p <- s.committed :: PrefixPassed(s.rows, s.abandoned, Idle, s.log[p], s.committed[p]))
    && (forall w <- s.workers :: TakenOk(s, s.workers[w]))
  }

  ghost predicate Inv(s: State) {
    && Provenance(s) && RowsOk(s) && JobsOk(s)
    && Exclusive(s)
    && Saga(s)
    && Results(s)
    && Offsets(s)
  }

  lemma InitInv(s: State)
    requires Init(s)
    ensures Inv(s)
  {
  }
}
