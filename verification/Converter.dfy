/** The code of the transcode worker: its database and storage functions and the body of its message loop, run
    against services that other processes change between any two of its steps. Outcomes the code cannot control
    arrive as arguments. Each step is entered in the trace, and `Valid` says that the whole trace is a run of the
    transition system: the loop body does what the system lets a worker do, in that order, and nothing else. */
module Converter {
  import opened Basics
  import opened GoPaths
  import opened ObjectKeys
  import opened Platform
  import opened PlatformInvariant
  import opened PlatformTheorems
  import opened Services

  /** Worker `w` stands at `pc`. */
  ghost predicate At(c: Cluster, w: WorkerId, pc: Pc)
    reads c
  {
    c.Valid() && w in c.places && c.places[w] == pc
  }

  method Interfere(c: Cluster, ghost w: WorkerId, ghost pc: Pc)
    requires At(c, w, pc)
    modifies c
    ensures At(c, w, pc) && old(c.trace) <= c.trace && WorkerPart(c.trace, w) == old(WorkerPart(c.trace, w))
  {
    hide Init, Can, Apply, Legal, Exec, WorkerPart;
    ghost var before := c.trace;
    c.OthersAroundWorker(w);
    WorkerUndisturbed(c.origin, before, c.trace, w);
  }

  // ---------------------------------------------------------------- database.py

  /** None when the row is missing or the query raises. */
  method GetTrackStatus(c: Cluster, t: TrackId, call: Call) returns (status: Option<Status>)
    ensures status == if call.Ok? && t in c.rows then Some(c.rows[t].status) else None
  {
    status := None;
    if call.Ok? {
      if t in c.rows {
        status := Some(c.rows[t].status);
      }
    }
  }

  method UpdateTrackStatus(c: Cluster, t: TrackId, status: Status, call: Call) returns (updated: bool)
    modifies c`rows
    ensures !call.Took() ==> c.rows == old(c.rows)
    ensures call.Took() && status == Processing ==> c.rows == ClaimRows(old(c.rows), t)
    ensures call.Took() && status == Failed ==> c.rows == FailRows(old(c.rows), t)
    ensures call.Took() && status != Processing ==>
              c.rows == if t in old(c.rows) then old(c.rows)[t := old(c.rows)[t].(status := status)] else old(c.rows)
    ensures updated <==> call.Ok? && (if status == Processing then Claimable(old(c.rows), t) else t in old(c.rows))
  {
    var count := 0;
    if call.Took() {
      if status == Processing {
        if t in c.rows && (c.rows[t].status == Pending || c.rows[t].status == Failed) {
          c.rows := c.rows[t := c.rows[t].(status := status)];
          count := 1;
        }
      } else if t in c.rows {
        c.rows := c.rows[t := c.rows[t].(status := status)];
        count := 1;
      }
    }
    updated := call.Ok? && count > 0;
  }

  method UpdateTrackReady(c: Cluster, t: TrackId, key: ObjectKey, call: Call) returns (updated: bool)
    modifies c`rows
    ensures c.rows == if call.Took() then ReadyRows(old(c.rows), t, key) else old(c.rows)
    ensures updated <==> call.Ok? && Finishable(old(c.rows), t)
  {
    var count := 0;
    if call.Took() {
      if t in c.rows && c.rows[t].status == Processing {
        c.rows := c.rows[t := c.rows[t].(status := Ready, playlist := Some(key))];
        count := 1;
      }
    }
    updated := call.Ok? && count > 0;
  }

  // ---------------------------------------------------------------- what the outside world answers

  /** download_file: True, False on a ClientError, or another exception. */
  datatype Reply = Yes | No | Raised

  /** put_object: stored, a ClientError, or another exception. */
  datatype PutReply = Done | ClientError(applied: bool) | OtherError(applied: bool)

  /** convert_audio_to_hls: exit code 0 with these files, another exit code, or an exception. */
  datatype ConvertReply = Files(out: Output) | ExitCode | Exception

  /** Everything the loop body meets while it handles one message. `cleanup` and `commit` say whether removing the
      temporary directory and committing succeed. */
  datatype Fate = Fate(status: Call, claim: Call, download: Reply, convert: ConvertReply, put: string -> PutReply,
                       cleanup: bool, fail: Call, close: Call, commit: bool)

  /** Names of directory entries contain no slash. */
  predicate Sane(fate: Fate) {
    fate.convert.Files? ==> forall f <- fate.convert.out :: SlashFree(f)
  }

  // ---------------------------------------------------------------- what a pass does

  datatype End = Skipped | Succeeded | FailedJob | Swallowed | Crashed

  /** The actions of a pass, or of a part of it, and how it ends. */
  datatype Work = Work(acts: seq<WorkerAct>, end: End)

  function After(acts: seq<WorkerAct>, work: Work): Work {
    Work(acts + work.acts, work.end)
  }

  function PutCall(reply: PutReply): Call {
    if reply.Done? then Ok else Lost(reply.applied)
  }

  /** One put for each file tried. */
  function Puts(tried: seq<string>, put: string -> PutReply): seq<WorkerAct> {
    if tried == [] then []
    else Puts(tried[..|tried| - 1], put) + [Put(tried[|tried| - 1], PutCall(put(tried[|tried| - 1])))]
  }

  /** upload_hls_folder: every file was stored, one was refused, or an exception escaped. */
  datatype FolderEnd = AllStored | PutRefused | PutBroke

  function FolderResult(tried: seq<string>, put: string -> PutReply): FolderEnd {
    if tried == [] || put(tried[|tried| - 1]).Done? then AllStored
    else if put(tried[|tried| - 1]).ClientError? then PutRefused else PutBroke
  }

  /** The files are tried one after the other in any order, each at most once, up to the first that is not stored. */
  predicate Tries(tried: seq<string>, out: Output, put: string -> PutReply) {
    && (forall f <- tried :: f in out)
    && (forall i, j | 0 <= i < j < |tried| :: tried[i] != tried[j])
    && (forall i | 0 <= i < |tried| - 1 :: put(tried[i]).Done?)
    && (FolderResult(tried, put).AllStored? ==> forall f <- out :: f in tried)
  }

  /** All tries so far were stored, and `left` is still to be tried. */
  ghost predicate Trying(tried: seq<string>, out: Output, put: string -> PutReply, left: set<string>) {
    && left <= out.Keys
    && (forall f :: f in tried <==> f in out.Keys - left)
    && (forall i, j | 0 <= i < j < |tried| :: tried[i] != tried[j])
    && (forall f <- tried :: put(f).Done?)
  }

  lemma StartTrying(out: Output, put: string -> PutReply)
    ensures Trying([], out, put, out.Keys) && Puts([], put) == [] && out.Keys - out.Keys == {}
  {
  }

  lemma TryOne(tried: seq<string>, out: Output, put: string -> PutReply, left: set<string>, f: string)
    requires Trying(tried, out, put, left) && f in left
    ensures var tried' := tried + [f];
            && Puts(tried', put) == Puts(tried, put) + [Put(f, PutCall(put(f)))]
            && (put(f).Done? ==> Trying(tried', out, put, left - {f}))
            && (!put(f).Done? ==> Tries(tried', out, put) && !FolderResult(tried', put).AllStored?
                                  && (FolderResult(tried', put).PutRefused? <==> put(f).ClientError?))
            && out.Keys - (left - {f}) == out.Keys - left + {f}
  {
    assert (tried + [f])[..|tried|] == tried;
  }

  lemma TriedAll(tried: seq<string>, out: Output, put: string -> PutReply)
    requires Trying(tried, out, put, {})
    ensures Tries(tried, out, put) && FolderResult(tried, put).AllStored? && forall f <- out :: put(f).Done?
  {
  }

  /** A commit outside the `try` block: if it raises, the process ends. */
  function SkipWork(commit: bool): Work {
    if commit then Work([Commit], Skipped) else Work([Die], Crashed)
  }

  /** A commit inside the `try` block: if it raises, the exception is swallowed. */
  function CloseWork(commit: bool, end: End): Work {
    if commit then Work([Commit], end) else Work([Raise], Swallowed)
  }

  function FailWork(fate: Fate): Work {
    After([CloseFailed(fate.fail)], CloseWork(fate.commit, FailedJob))
  }

  function FolderWork(fate: Fate, tried: seq<string>): Work {
    After(Puts(tried, fate.put),
          match FolderResult(tried, fate.put)
          case PutBroke => Work([Raise], Swallowed)
          case PutRefused => FailWork(fate)
          case AllStored =>
            After([PutsDone],
                  if fate.cleanup then After([CloseReady(fate.close)], CloseWork(fate.commit, Succeeded))
                  else Work([Raise], Swallowed)))
  }

  function ConvertWork(fate: Fate, tried: seq<string>): Work {
    match fate.convert
    case Exception => Work([Raise], Swallowed)
    case ExitCode => After([Convert(None)], FailWork(fate))
    case Files(out) => After([Convert(Some(out))], FolderWork(fate, tried))
  }

  /** What the `try` block does; `found` tells whether the object was there when the download asked for it. */
  function JobWork(fate: Fate, found: bool, tried: seq<string>): Work {
    if fate.download.Raised? then Work([Raise], Swallowed)
    else After([Platform.Download(fate.download.Yes?)],
               if fate.download.Yes? && found then ConvertWork(fate, tried) else FailWork(fate))
  }

  /** What one pass finds: a ready row, a claim that changed the row, the object, and the files it tried to store. */
  datatype Seen = Seen(ready: bool, acquired: bool, found: bool, tried: seq<string>)

  function PassWork(p: Partition, fate: Fate, seen: Seen): Work {
    After([Deliver(p), ReadStatus(fate.status)],
          if seen.ready then SkipWork(fate.commit)
          else After([Claim(fate.claim)],
                     if seen.acquired then JobWork(fate, seen.found, seen.tried) else SkipWork(fate.commit)))
  }

  /** Nothing fails from the download to the commit. */
  predicate Smooth(fate: Fate) {
    && fate.download.Yes? && fate.convert.Files? && (forall f <- fate.convert.out :: fate.put(f).Done?)
    && fate.cleanup && fate.commit
  }

  /** A job succeeds exactly if its object is there and nothing fails, and it is marked failed exactly if the object
      is missing or refused, FFmpeg fails, or a file is refused, and the commit succeeds. */
  lemma JobEnds(fate: Fate, found: bool, tried: seq<string>)
    requires fate.convert.Files? ==> Tries(tried, fate.convert.out, fate.put)
    ensures var end := JobWork(fate, found, tried).end;
            && (end.Succeeded? <==> found && Smooth(fate))
            && (end.FailedJob? <==>
                  && fate.commit && !fate.download.Raised?
                  && (|| fate.download.No? || !found || fate.convert.ExitCode?
                      || (fate.convert.Files? && FolderResult(tried, fate.put).PutRefused?)))
            && (end.Succeeded? || end.FailedJob? || end.Swallowed?)
  {
    if fate.convert.Files? && !FolderResult(tried, fate.put).AllStored? {
      assert tried[|tried| - 1] in fate.convert.out;
    }
  }

  // ---------------------------------------------------------------- single steps

  /** The consumer hands out the next message of partition `p`. */
  method Receive(c: Cluster, w: WorkerId, p: Partition) returns (job: Job)
    requires c.Valid() && CanDeliver(c.Now(), w, p)
    modifies c
    ensures job == old(c.log[p][c.positions[w][p]])
    ensures At(c, w, Taken(job)) && c.trace == old(c.trace) + [ByWorker(w, Deliver(p))]
    ensures WorkerPart(c.trace, w) == old(WorkerPart(c.trace, w)) + [Deliver(p)]
  {
    hide Init, Legal, Exec, WorkerPart;
    ghost var before := c.Now();
    var o := c.positions[w][p];
    job := c.log[p][o];
    var advanced: map<Partition, nat> := c.positions[w][p := o + 1];
    c.positions := c.positions[w := advanced];
    c.Record(before, ByWorker(w, Deliver(p)));
  }

  method CheckReady(c: Cluster, ghost w: WorkerId, job: Job, call: Call) returns (ready: bool)
    requires At(c, w, Taken(job))
    modifies c
    ensures At(c, w, if ready then Acking(job, false) else Checked(job)) && old(c.trace) <= c.trace
    ensures WorkerPart(c.trace, w) == old(WorkerPart(c.trace, w)) + [ReadStatus(call)]
  {
    Interfere(c, w, Taken(job));
    hide Init, Legal, Exec, WorkerPart;
    var status := GetTrackStatus(c, job.track, call);
    ready := status == Some(Ready);
    c.Record(c.Now(), ByWorker(w, ReadStatus(call)));
  }

  method Acquire(c: Cluster, ghost w: WorkerId, job: Job, call: Call) returns (acquired: bool)
    requires At(c, w, Checked(job))
    modifies c
    ensures At(c, w, if acquired then Downloading(job) else Acking(job, false)) && old(c.trace) <= c.trace
    ensures acquired ==> call.Ok?
    ensures WorkerPart(c.trace, w) == old(WorkerPart(c.trace, w)) + [Claim(call)]
  {
    Interfere(c, w, Checked(job));
    hide Init, Legal, Exec, WorkerPart;
    ghost var before := c.Now();
    acquired := UpdateTrackStatus(c, job.track, Processing, call);
    ClaimInTrace(c, w, job, call, before, acquired);
  }

  ghost method ClaimInTrace(c: Cluster, w: WorkerId, job: Job, call: Call, before: State, acquired: bool)
    requires Init(c.origin) && Legal(c.origin, c.trace) && Exec(c.origin, c.trace) == before
    requires c.positions.Keys == c.places.Keys && c.creator.Keys <= c.issued
    requires Runs(before, w) && PcOf(before, w) == Checked(job)
    requires c.Now() == before.(rows := if call.Took() then ClaimRows(before.rows, job.track) else before.rows)
    requires acquired <==> call.Ok? && Claimable(before.rows, job.track)
    modifies c`places, c`uploads, c`creator, c`made, c`abandoned, c`trace
    ensures At(c, w, if acquired then Downloading(job) else Acking(job, false)) && old(c.trace) <= c.trace
    ensures WorkerPart(c.trace, w) == old(WorkerPart(c.trace, w)) + [Claim(call)]
  {
    hide Init, Legal, Exec, WorkerPart;
    c.Record(before, ByWorker(w, Claim(call)));
  }

  /** Enters an action that moves the worker and leaves the services alone. */
  ghost method Enter(c: Cluster, w: WorkerId, act: WorkerAct, pc: Pc)
    requires c.Valid() && Runs(c.Now(), w) && CanAct(c.Now(), w, act) && !act.Revoke?
    requires DoAct(c.Now(), w, act) == WithPc(c.Now(), w, pc)
    modifies c`places, c`uploads, c`creator, c`made, c`abandoned, c`trace
    ensures At(c, w, pc) && c.trace == old(c.trace) + [ByWorker(w, act)]
    ensures WorkerPart(c.trace, w) == old(WorkerPart(c.trace, w)) + [act]
  {
    hide Init, Legal, Exec, DoAct, CanAct, WorkerPart;
    c.Record(c.Now(), ByWorker(w, act));
  }

  /** download_file; `raw` is the local copy. */
  method Download(c: Cluster, ghost w: WorkerId, job: Job, reply: Reply) returns (ok: bool, raw: Bytes)
    requires At(c, w, Downloading(job)) && !reply.Raised?
    modifies c
    ensures ok <==> reply.Yes? && job.path in c.objects
    ensures ok ==> raw == c.objects[job.path]
    ensures At(c, w, if ok then Converting(job, raw) else Failing(job)) && old(c.trace) <= c.trace
    ensures WorkerPart(c.trace, w) == old(WorkerPart(c.trace, w)) + [Platform.Download(reply.Yes?)]
  {
    Interfere(c, w, Downloading(job));
    hide Init, Legal, Exec, WorkerPart;
    ok := reply.Yes? && job.path in c.objects;
    raw := if ok then c.objects[job.path] else [];
    Enter(c, w, Platform.Download(reply.Yes?), if ok then Converting(job, raw) else Failing(job));
  }

  method Transcode(c: Cluster, ghost w: WorkerId, job: Job, raw: Bytes, reply: ConvertReply)
    returns (result: Option<Output>)
    requires At(c, w, Converting(job, raw)) && !reply.Exception?
    requires reply.Files? ==> forall f <- reply.out :: SlashFree(f)
    modifies c
    ensures result == if reply.Files? then Some(reply.out) else None
    ensures At(c, w, if result.Some? then Uploading(job, raw, result.value, {}) else Failing(job))
    ensures old(c.trace) <= c.trace
    ensures WorkerPart(c.trace, w) == old(WorkerPart(c.trace, w)) + [Convert(result)]
  {
    Interfere(c, w, Converting(job, raw));
    hide Init, Legal, Exec, WorkerPart;
    result := if reply.Files? then Some(reply.out) else None;
    Enter(c, w, Convert(result), if result.Some? then Uploading(job, raw, result.value, {}) else Failing(job));
  }

  method PutFile(c: Cluster, ghost w: WorkerId, job: Job, ghost raw: Bytes, out: Output, ghost done: set<string>,
                 file: string, reply: PutReply)
    returns (ok: bool)
    requires At(c, w, Uploading(job, raw, out, done)) && file in out && file !in done
    modifies c
    ensures ok <==> reply.Done?
    ensures At(c, w, if ok then Uploading(job, raw, out, done + {file}) else Failing(job)) && old(c.trace) <= c.trace
    ensures WorkerPart(c.trace, w) == old(WorkerPart(c.trace, w)) + [Put(file, PutCall(reply))]
  {
    Interfere(c, w, Uploading(job, raw, out, done));
    hide Init, Legal, Exec, WorkerPart;
    ghost var before := c.Now();
    if reply.Done? || reply.applied {
      c.objects := c.objects[Hls(job.track, file) := out[file]];
    }
    ok := reply.Done?;
    PutInTrace(c, w, job, raw, out, done, file, PutCall(reply), before);
  }

  ghost method PutInTrace(c: Cluster, w: WorkerId, job: Job, raw: Bytes, out: Output, done: set<string>, file: string,
                          call: Call, before: State)
    requires Init(c.origin) && Legal(c.origin, c.trace) && Exec(c.origin, c.trace) == before
    requires c.positions.Keys == c.places.Keys && c.creator.Keys <= c.issued
    requires Runs(before, w) && PcOf(before, w) == Uploading(job, raw, out, done) && file in out && file !in done
    requires c.Now() == before.(objects := if call.Took() then before.objects[Hls(job.track, file) := out[file]]
                                           else before.objects)
    modifies c`places, c`uploads, c`creator, c`made, c`abandoned, c`trace
    ensures At(c, w, if call.Ok? then Uploading(job, raw, out, done + {file}) else Failing(job))
    ensures old(c.trace) <= c.trace
    ensures WorkerPart(c.trace, w) == old(WorkerPart(c.trace, w)) + [Put(file, call)]
  {
    hide Init, Legal, Exec, WorkerPart;
    c.Record(before, ByWorker(w, Put(file, call)));
  }

  method UploadHlsFolder(c: Cluster, ghost w: WorkerId, job: Job, ghost raw: Bytes, out: Output,
                         put: string -> PutReply)
    returns (end: FolderEnd, ghost tried: seq<string>)
    requires At(c, w, Uploading(job, raw, out, {}))
    modifies c
    ensures old(c.trace) <= c.trace
    ensures Tries(tried, out, put) && end == FolderResult(tried, put)
    ensures end.AllStored? <==> forall f <- out :: put(f).Done?
    ensures end.AllStored? ==> At(c, w, Finishing(job, raw, out)) && Complete(c.objects, job.track, out)
    ensures !end.AllStored? ==> At(c, w, Failing(job))
    ensures WorkerPart(c.trace, w)
            == old(WorkerPart(c.trace, w)) + Puts(tried, put) + if end.AllStored? then [PutsDone] else []
  {
    hide Init, Legal, Exec, Can, Apply, WorkerPart, Tries, Trying, Puts, FolderResult;
    var left := out.Keys;
    tried := [];
    StartTrying(out, put);
    while left != {}
      invariant left <= out.Keys && old(c.trace) <= c.trace
      invariant At(c, w, Uploading(job, raw, out, out.Keys - left))
      invariant Trying(tried, out, put, left)
      invariant WorkerPart(c.trace, w) == old(WorkerPart(c.trace, w)) + Puts(tried, put)
      decreases left
    {
      var file :| file in left;
      TryOne(tried, out, put, left, file);
      var ok := PutFile(c, w, job, raw, out, out.Keys - left, file, put(file));
      tried := tried + [file];
      if !ok {
        return if put(file).ClientError? then PutRefused else PutBroke, tried;
      }
      left := left - {file};
    }
    assert out.Keys - left == out.Keys;
    TriedAll(tried, out, put);
    AllPut(c, w, job, raw, out);
    end := AllStored;
  }

  method AllPut(c: Cluster, ghost w: WorkerId, job: Job, ghost raw: Bytes, out: Output)
    requires At(c, w, Uploading(job, raw, out, out.Keys))
    modifies c
    ensures At(c, w, Finishing(job, raw, out)) && Complete(c.objects, job.track, out) && old(c.trace) <= c.trace
    ensures WorkerPart(c.trace, w) == old(WorkerPart(c.trace, w)) + [PutsDone]
  {
    Interfere(c, w, Uploading(job, raw, out, out.Keys));
    hide Init, Legal, Exec, Inv, WorkerPart;
    c.Record(c.Now(), ByWorker(w, PutsDone));
    c.ValidIsReachable();
    ReachableInv(c.Now());
    FinishedIsComplete(c.Now(), w);
  }

  lemma FinishedIsComplete(s: State, w: WorkerId)
    requires Inv(s) && Runs(s, w) && PcOf(s, w).Finishing?
    ensures Complete(s.objects, PcOf(s, w).job.track, PcOf(s, w).out)
  {
  }

  method MarkFailed(c: Cluster, ghost w: WorkerId, job: Job, call: Call)
    requires At(c, w, Failing(job))
    modifies c
    ensures At(c, w, Acking(job, true)) && old(c.trace) <= c.trace
    ensures WorkerPart(c.trace, w) == old(WorkerPart(c.trace, w)) + [CloseFailed(call)]
  {
    Interfere(c, w, Failing(job));
    hide Init, Legal, Exec, WorkerPart;
    ghost var before := c.Now();
    var updated := UpdateTrackStatus(c, job.track, Failed, call);
    FailureInTrace(c, w, job, call, before);
  }

  ghost method FailureInTrace(c: Cluster, w: WorkerId, job: Job, call: Call, before: State)
    requires Init(c.origin) && Legal(c.origin, c.trace) && Exec(c.origin, c.trace) == before
    requires c.positions.Keys == c.places.Keys && c.creator.Keys <= c.issued
    requires Runs(before, w) && PcOf(before, w) == Failing(job)
    requires c.Now() == before.(rows := if call.Took() then FailRows(before.rows, job.track) else before.rows)
    modifies c`places, c`uploads, c`creator, c`made, c`abandoned, c`trace
    ensures At(c, w, Acking(job, true)) && old(c.trace) <= c.trace
    ensures WorkerPart(c.trace, w) == old(WorkerPart(c.trace, w)) + [CloseFailed(call)]
  {
    hide Init, Legal, Exec, WorkerPart;
    c.Record(before, ByWorker(w, CloseFailed(call)));
  }

  /** The track is created, and its row is ready or deleted. */
  predicate ReadyOrGone(s: State, t: TrackId) {
    t in s.creator && (t in s.rows ==> s.rows[t].status == Ready)
  }

  method MarkReady(c: Cluster, ghost w: WorkerId, job: Job, ghost raw: Bytes, ghost out: Output, call: Call)
    requires At(c, w, Finishing(job, raw, out))
    modifies c
    ensures At(c, w, Acking(job, true)) && old(c.trace) <= c.trace
    ensures WorkerPart(c.trace, w) == old(WorkerPart(c.trace, w)) + [CloseReady(call)]
    ensures call.Took() ==> ReadyOrGone(c.Now(), job.track)
  {
    Interfere(c, w, Finishing(job, raw, out));
    hide Init, Legal, Exec, WorkerPart;
    ghost var before := c.Now();
    assert Locked(c.rows, job.track) && job.track in c.creator by {
      c.ValidIsReachable();
      HolderOwnsRow(before, w);
    }
    var updated := UpdateTrackReady(c, job.track, Hls(job.track, MASTER), call);
    SuccessInTrace(c, w, job, raw, out, call, before);
  }

  lemma HolderOwnsRow(s: State, w: WorkerId)
    requires Reachable(s) && Runs(s, w) && PcOf(s, w).Holding()
    ensures Locked(s.rows, PcOf(s, w).job.track) && PcOf(s, w).job.track in s.creator
  {
    hide RowsOk, Saga, Results, Offsets;
    ReachableInv(s);
    assert JobOk(s, PcOf(s, w).job);
  }

  ghost method SuccessInTrace(c: Cluster, w: WorkerId, job: Job, raw: Bytes, out: Output, call: Call, before: State)
    requires Init(c.origin) && Legal(c.origin, c.trace) && Exec(c.origin, c.trace) == before
    requires c.positions.Keys == c.places.Keys && c.creator.Keys <= c.issued
    requires Runs(before, w) && PcOf(before, w) == Finishing(job, raw, out)
    requires c.Now() == before.(rows := if call.Took() then ReadyRows(before.rows, job.track, Hls(job.track, MASTER))
                                        else before.rows)
    modifies c`places, c`uploads, c`creator, c`made, c`abandoned, c`trace
    ensures At(c, w, Acking(job, true)) && old(c.trace) <= c.trace && c.creator == old(c.creator)
    ensures WorkerPart(c.trace, w) == old(WorkerPart(c.trace, w)) + [CloseReady(call)]
  {
    hide Init, Legal, Exec, WorkerPart;
    c.Record(before, ByWorker(w, CloseReady(call)));
  }

  method CommitOffsets(c: Cluster, w: WorkerId, ghost job: Job, ghost guarded: bool)
    requires At(c, w, Acking(job, guarded))
    modifies c
    ensures At(c, w, Idle) && old(c.trace) < c.trace && c.trace[|c.trace| - 1] == ByWorker(w, Commit)
    ensures WorkerPart(c.trace, w) == old(WorkerPart(c.trace, w)) + [Commit]
  {
    Interfere(c, w, Acking(job, guarded));
    hide Init, Legal, Exec, WorkerPart;
    ghost var before := c.Now();
    c.committed := CommitAll(c.committed, c.positions[w]);
    CommitInTrace(c, w, before);
  }

  ghost method CommitInTrace(c: Cluster, w: WorkerId, before: State)
    requires Init(c.origin) && Legal(c.origin, c.trace) && Exec(c.origin, c.trace) == before
    requires c.positions.Keys == c.places.Keys && c.creator.Keys <= c.issued
    requires Runs(before, w) && PcOf(before, w).Acking?
    requires c.Now() == before.(committed := CommitAll(before.committed, before.workers[w].pos))
    modifies c`places, c`uploads, c`creator, c`made, c`abandoned, c`trace
    ensures At(c, w, Idle) && c.trace == old(c.trace) + [ByWorker(w, Commit)]
    ensures WorkerPart(c.trace, w) == old(WorkerPart(c.trace, w)) + [Commit]
  {
    hide Init, Legal, Exec, WorkerPart;
    c.Record(before, ByWorker(w, Commit));
  }

  /** The handler of the `try` block: the exception is logged and the loop goes on. */
  method SwallowException(c: Cluster, ghost w: WorkerId, ghost pc: Pc)
    requires At(c, w, pc) && pc.Guarded()
    modifies c
    ensures At(c, w, Idle) && old(c.trace) < c.trace && c.trace[|c.trace| - 1] == ByWorker(w, Raise)
    ensures WorkerPart(c.trace, w) == old(WorkerPart(c.trace, w)) + [Raise]
  {
    Interfere(c, w, pc);
    hide Init, Legal, Exec, WorkerPart;
    Enter(c, w, Raise, Idle);
  }

  /** An exception outside the `try` block ends the process. */
  method Crash(c: Cluster, w: WorkerId, ghost pc: Pc)
    requires At(c, w, pc)
    modifies c
    ensures c.Valid() && w !in c.places && old(c.trace) < c.trace && c.trace[|c.trace| - 1] == ByWorker(w, Die)
    ensures WorkerPart(c.trace, w) == old(WorkerPart(c.trace, w)) + [Die]
  {
    Interfere(c, w, pc);
    hide Init, Legal, Exec, WorkerPart;
    ghost var before := c.Now();
    c.positions := c.positions - {w};
    c.Record(before, ByWorker(w, Die));
  }

  // ---------------------------------------------------------------- main.py

  /** The message was acknowledged. */
  predicate Acknowledged(end: End) {
    end.Skipped? || end.Succeeded? || end.FailedJob?
  }

  /** A row that is ready or gone stays ready or gone. */
  lemma StaysReadyOrGone(origin: State, before: seq<Step>, after: seq<Step>, t: TrackId)
    requires Init(origin) && Legal(origin, before) && Legal(origin, after) && before <= after
    requires ReadyOrGone(Exec(origin, before), t)
    ensures ReadyOrGone(Exec(origin, after), t)
  {
    hide Inv, Can, Apply;
    var more := after[|before|..];
    assert after == before + more;
    RunsConcatenate(origin, before, more);
    InitInv(origin);
    RunKeepsInv(origin, before);
    var s := Exec(origin, before);
    if t in s.rows {
      if t in Exec(s, more).rows {
        ReadyForever(s, more, t);
      }
      CreatorStays(s, more, t);
    } else {
      GoneForever(s, more, t);
    }
  }

  lemma {:induction false} CreatorStays(s: State, run: seq<Step>, t: TrackId)
    requires Legal(s, run) && t in s.creator
    ensures t in Exec(s, run).creator
    decreases |run|
  {
    hide Can, Apply;
    if run != [] {
      StepKeepsCreator(s, run[0], t);
      CreatorStays(Apply(s, run[0]), run[1..], t);
    }
  }

  /** The upload of the track was answered 201. */
  ghost predicate AnsweredTrack(s: State, t: TrackId) {
    exists u :: Answered(s, u, t)
  }

  lemma StaysAnswered(origin: State, before: seq<Step>, after: seq<Step>, t: TrackId)
    requires Legal(origin, before) && Legal(origin, after) && before <= after
    ensures AnsweredTrack(Exec(origin, before), t) ==> AnsweredTrack(Exec(origin, after), t)
  {
    hide Can, Apply, Answered;
    var more := after[|before|..];
    assert after == before + more;
    RunsConcatenate(origin, before, more);
    if u :| Answered(Exec(origin, before), u, t) {
      AnsweredForever(Exec(origin, before), more, u, t);
    }
  }

  /** The object of an answered upload is there, and so is its row. */
  lemma AnsweredHasObject(s: State, w: WorkerId)
    requires Reachable(s) && Runs(s, w) && !PcOf(s, w).Idle? && AnsweredTrack(s, PcOf(s, w).job.track)
    ensures PcOf(s, w).job.path in s.objects
  {
    hide RowsOk, Exclusive, Results, Offsets;
    ReachableInv(s);
    var job := PcOf(s, w).job;
    var u :| Answered(s, u, job.track);
    assert JobOk(s, job) && UploadOk(s.rows, s.objects, s.log, s.uploads[u]);
  }

  lemma AnsweredStands(s: State, t: TrackId)
    requires Reachable(s) && AnsweredTrack(s, t)
    ensures t in s.rows
  {
    hide Inv;
    ReachableInv(s);
    var u :| Answered(s, u, t);
    AnsweredHasRow(s, u, t);
  }

  ghost predicate RunTo(origin: State, run: seq<Step>, s: State) {
    Legal(origin, run) && Exec(origin, run) == s
  }

  lemma RunSoFar(c: Cluster)
    requires c.Valid()
    ensures RunTo(c.origin, c.trace, c.Now())
  {
  }

  /** An upload answered when the services stood at `was` is answered now. */
  lemma AnsweredByNow(c: Cluster, run: seq<Step>, was: State, t: TrackId)
    requires c.Valid() && RunTo(c.origin, run, was) && run <= c.trace
    ensures AnsweredTrack(was, t) ==> AnsweredTrack(c.Now(), t)
  {
    hide AnsweredTrack, Legal, Exec, Init;
    StaysAnswered(c.origin, run, c.trace, t);
  }

  lemma FoundIfAnswered(c: Cluster, w: WorkerId, job: Job, pc: Pc)
    requires At(c, w, pc) && !pc.Idle? && pc.job == job
    ensures AnsweredTrack(c.Now(), job.track) ==> job.path in c.objects
  {
    hide AnsweredTrack, Legal, Exec, Init;
    c.ValidIsReachable();
    if AnsweredTrack(c.Now(), job.track) {
      AnsweredHasObject(c.Now(), w);
    }
  }

  lemma ReadyIfAnswered(c: Cluster, t: TrackId)
    requires c.Valid()
    ensures AnsweredTrack(c.Now(), t) && ReadyOrGone(c.Now(), t) ==> t in c.rows && c.rows[t].status == Ready
  {
    hide AnsweredTrack, Legal, Exec, Init;
    c.ValidIsReachable();
    if AnsweredTrack(c.Now(), t) {
      AnsweredStands(c.Now(), t);
    }
  }

  /** The commit outside the `try` block: it succeeds or ends the process. */
  method Acknowledge(c: Cluster, w: WorkerId, ghost job: Job, commit: bool) returns (end: End)
    requires At(c, w, Acking(job, false))
    modifies c
    ensures old(c.trace) < c.trace
    ensures end == SkipWork(commit).end && WorkerPart(c.trace, w) == old(WorkerPart(c.trace, w)) + SkipWork(commit).acts
    ensures commit ==> At(c, w, Idle) && c.trace[|c.trace| - 1] == ByWorker(w, Commit)
    ensures !commit ==> c.Valid() && w !in c.places && c.trace[|c.trace| - 1] == ByWorker(w, Die)
  {
    hide WorkerPart;
    if commit {
      CommitOffsets(c, w, job, false);
      end := Skipped;
    } else {
      Crash(c, w, Acking(job, false));
      end := Crashed;
    }
  }

  /** The commit inside the `try` block: it succeeds or its exception is swallowed. */
  method AcknowledgeGuarded(c: Cluster, w: WorkerId, ghost job: Job, commit: bool, result: End) returns (end: End)
    requires At(c, w, Acking(job, true))
    modifies c
    ensures At(c, w, Idle) && old(c.trace) < c.trace && end == (if commit then result else Swallowed)
    ensures c.trace[|c.trace| - 1] == ByWorker(w, if commit then Commit else Raise)
    ensures WorkerPart(c.trace, w) == old(WorkerPart(c.trace, w)) + CloseWork(commit, result).acts
  {
    hide WorkerPart;
    if commit {
      CommitOffsets(c, w, job, true);
      end := result;
    } else {
      SwallowException(c, w, Acking(job, true));
      end := Swallowed;
    }
  }

  method FailJob(c: Cluster, w: WorkerId, job: Job, fate: Fate) returns (end: End)
    requires At(c, w, Failing(job))
    modifies c
    ensures At(c, w, Idle) && old(c.trace) < c.trace
    ensures end == FailWork(fate).end && WorkerPart(c.trace, w) == old(WorkerPart(c.trace, w)) + FailWork(fate).acts
    ensures c.trace[|c.trace| - 1] == ByWorker(w, if fate.commit then Commit else Raise)
  {
    hide WorkerPart;
    MarkFailed(c, w, job, fate.fail);
    end := AcknowledgeGuarded(c, w, job, fate.commit, FailedJob);
  }

  method FinishJob(c: Cluster, w: WorkerId, job: Job, ghost raw: Bytes, ghost out: Output, close: Call, commit: bool)
    returns (end: End)
    requires At(c, w, Finishing(job, raw, out))
    modifies c
    ensures At(c, w, Idle) && old(c.trace) < c.trace && end == (if commit then Succeeded else Swallowed)
    ensures c.trace[|c.trace| - 1] == ByWorker(w, if commit then Commit else Raise)
    ensures WorkerPart(c.trace, w)
            == old(WorkerPart(c.trace, w)) + After([CloseReady(close)], CloseWork(commit, Succeeded)).acts
    ensures close.Took() ==> ReadyOrGone(c.Now(), job.track)
  {
    hide Init, Legal, Exec, Can, Apply, ReadyOrGone, WorkerPart;
    MarkReady(c, w, job, raw, out, close);
    ghost var marked := c.trace;
    end := AcknowledgeGuarded(c, w, job, commit, Succeeded);
    if close.Took() {
      StaysReadyOrGone(c.origin, marked, c.trace, job.track);
    }
  }

  /** What the `try` block does with an acquired job: download, convert, then store and close. It takes exactly the
      actions of `JobWork`, and the object of an answered upload is found. */
  method ProcessJob(c: Cluster, w: WorkerId, job: Job, fate: Fate)
    returns (end: End, ghost found: bool, ghost tried: seq<string>)
    requires At(c, w, Downloading(job)) && Sane(fate)
    modifies c
    ensures At(c, w, Idle) && old(c.trace) < c.trace
    ensures c.trace[|c.trace| - 1] == ByWorker(w, if end.Swallowed? then Raise else Commit)
    ensures end == JobWork(fate, found, tried).end
    ensures WorkerPart(c.trace, w) == old(WorkerPart(c.trace, w)) + JobWork(fate, found, tried).acts
    ensures AnsweredTrack(old(c.Now()), job.track) ==> found
    ensures end.Succeeded? <==> found && Smooth(fate)
    ensures end.FailedJob? ==>
              || fate.download.No? || !found || fate.convert.ExitCode?
              || (fate.convert.Files? && exists f <- fate.convert.out :: fate.put(f).ClientError?)
    ensures end.Succeeded? || end.FailedJob? || end.Swallowed?
    ensures end.Succeeded? && fate.close.Took() ==> ReadyOrGone(c.Now(), job.track)
  {
    hide Init, Legal, Exec, Can, Apply, ReadyOrGone, AnsweredTrack, Cluster.Valid, Cluster.Now, WorkerPart;
    hide RunTo;
    ghost var start, was := c.trace, c.Now();
    RunSoFar(c);
    found, tried := true, [];
    if fate.download.Raised? {
      SwallowException(c, w, Downloading(job));
      return Swallowed, true, [];
    }
    var ok, raw := Download(c, w, job, fate.download);
    found := job.path in c.objects;
    AnsweredByNow(c, start, was, job.track);
    FoundIfAnswered(c, w, job, if ok then Converting(job, raw) else Failing(job));
    if !ok {
      end := FailJob(c, w, job, fate);
      return;
    }
    if fate.convert.Exception? {
      SwallowException(c, w, Converting(job, raw));
      return Swallowed, found, tried;
    }
    var result := Transcode(c, w, job, raw, fate.convert);
    if result.None? {
      end := FailJob(c, w, job, fate);
    } else {
      end, tried := PublishResult(c, w, job, raw, result.value, fate);
      JobEnds(fate, found, tried);
    }
  }

  method PublishResult(c: Cluster, w: WorkerId, job: Job, ghost raw: Bytes, out: Output, fate: Fate)
    returns (end: End, ghost tried: seq<string>)
    requires At(c, w, Uploading(job, raw, out, {}))
    modifies c
    ensures At(c, w, Idle) && old(c.trace) < c.trace
    ensures c.trace[|c.trace| - 1] == ByWorker(w, if end.Swallowed? then Raise else Commit)
    ensures Tries(tried, out, fate.put)
    ensures end == FolderWork(fate, tried).end
    ensures WorkerPart(c.trace, w) == old(WorkerPart(c.trace, w)) + FolderWork(fate, tried).acts
    ensures end.Succeeded? && fate.close.Took() ==> ReadyOrGone(c.Now(), job.track)
  {
    hide Init, Legal, Exec, Can, Apply, ReadyOrGone, Cluster.Valid, Cluster.Now, WorkerPart, Tries, Puts;
    var folder;
    folder, tried := UploadHlsFolder(c, w, job, raw, out, fate.put);
    if folder.PutBroke? {
      SwallowException(c, w, Failing(job));
      end := Swallowed;
    } else if folder.PutRefused? {
      end := FailJob(c, w, job, fate);
    } else if !fate.cleanup {
      SwallowException(c, w, Finishing(job, raw, out));
      end := Swallowed;
    } else {
      end := FinishJob(c, w, job, raw, out, fate.close, fate.commit);
    }
  }

  /** The body of the message loop for the next message of partition `p`. The worker takes exactly the actions of
      `PassWork`, whatever other processes do between them: `seen` is what it meets. A job that was acquired succeeds
      exactly if its object is there and nothing fails, and the object of an answered upload is there. A successful
      pass whose closing write took effect leaves the track ready, unless its row was deleted. */
  method HandleMessage(c: Cluster, w: WorkerId, p: Partition, fate: Fate) returns (end: End, ghost seen: Seen)
    requires c.Valid() && Sane(fate) && CanDeliver(c.Now(), w, p)
    modifies c
    ensures c.Valid() && old(c.trace) < c.trace
    ensures c.trace[|old(c.trace)|] == ByWorker(w, Deliver(p))
    ensures if end.Crashed? then w !in c.places else At(c, w, Idle)
    ensures c.trace[|c.trace| - 1]
            == ByWorker(w, if Acknowledged(end) then Commit else if end.Swallowed? then Raise else Die)
    ensures end == PassWork(p, fate, seen).end
    ensures WorkerPart(c.trace, w) == old(WorkerPart(c.trace, w)) + PassWork(p, fate, seen).acts
    ensures seen.acquired ==> fate.claim.Ok?
    ensures AnsweredTrack(old(c.Now()), old(c.log[p][c.positions[w][p]]).track) ==> seen.found
    ensures !seen.ready && seen.acquired ==> (end.Succeeded? <==> seen.found && Smooth(fate))
    ensures end.FailedJob? ==>
              || fate.download.No? || !seen.found || fate.convert.ExitCode?
              || (fate.convert.Files? && exists f <- fate.convert.out :: fate.put(f).ClientError?)
    ensures end.Succeeded? && fate.close.Took() ==>
              var t := old(c.log[p][c.positions[w][p]]).track;
              ReadyOrGone(c.Now(), t) && (AnsweredTrack(old(c.Now()), t) ==> t in c.rows && c.rows[t].status == Ready)
  {
    hide Init, Legal, Exec, Can, Apply, ReadyOrGone, AnsweredTrack, Cluster.Valid, Cluster.Now, WorkerPart;
    hide JobWork, Smooth, RunTo;
    ghost var start, was := c.trace, c.Now();
    RunSoFar(c);
    seen := Seen(false, false, true, []);
    var job := Receive(c, w, p);
    var ready := CheckReady(c, w, job, fate.status);
    if ready {
      end := Acknowledge(c, w, job, fate.commit);
      return end, seen.(ready := true);
    }
    var acquired := Acquire(c, w, job, fate.claim);
    if !acquired {
      end := Acknowledge(c, w, job, fate.commit);
      return;
    }
    AnsweredByNow(c, start, was, job.track);
    ghost var found, tried;
    end, found, tried := ProcessJob(c, w, job, fate);
    seen := Seen(false, true, found, tried);
    AnsweredByNow(c, start, was, job.track);
    ReadyIfAnswered(c, job.track);
  }

  // ---------------------------------------------------------------- the message loop

  /** What the consumer meets while it polls: a partition assigned to it, or a message with its fate. */
  datatype Poll = Assigned(p: Partition) | Message(p: Partition, fate: Fate)

  /** What became of a poll: the partition was taken over, a message was handled, or there was nothing when the first
      `at` steps had been taken. */
  datatype Visit = Joined | Handled(seen: Seen) | Nothing(at: nat)

  function VisitActs(poll: Poll, visit: Visit): seq<WorkerAct> {
    if visit.Joined? then [Assign(poll.p)]
    else if visit.Handled? && poll.Message? then PassWork(poll.p, poll.fate, visit.seen).acts
    else []
  }

  function AllActs(polls: seq<Poll>, visits: seq<Visit>): seq<WorkerAct>
    requires |visits| <= |polls|
  {
    if visits == [] then []
    else AllActs(polls, visits[..|visits| - 1]) + VisitActs(polls[|visits| - 1], visits[|visits| - 1])
  }

  /** Only a partition that does not exist is not taken over, and only a message that is not there is not handled. */
  ghost predicate Fits(origin: State, trace: seq<Step>, w: WorkerId, poll: Poll, visit: Visit) {
    match visit
    case Joined => poll.Assigned?
    case Handled(_) => poll.Message?
    case Nothing(at) =>
      if poll.Assigned? then poll.p !in origin.committed
      else at <= |trace| && Legal(origin, trace[..at]) && !CanDeliver(Exec(origin, trace[..at]), w, poll.p)
  }

  lemma StillFits(origin: State, trace: seq<Step>, longer: seq<Step>, w: WorkerId, poll: Poll, visit: Visit)
    requires trace <= longer && Fits(origin, trace, w, poll, visit)
    ensures Fits(origin, longer, w, poll, visit)
  {
    if visit.Nothing? && poll.Message? {
      assert longer[..visit.at] == trace[..visit.at];
    }
  }

  method AcceptPartition(c: Cluster, w: WorkerId, p: Partition)
    requires At(c, w, Idle) && p in c.committed
    modifies c
    ensures At(c, w, Idle) && old(c.trace) < c.trace && p in c.positions[w]
    ensures WorkerPart(c.trace, w) == old(WorkerPart(c.trace, w)) + [Assign(p)]
  {
    hide Init, Legal, Exec, WorkerPart;
    ghost var before := c.Now();
    var extended: map<Partition, nat> := c.positions[w][p := c.committed[p]];
    c.positions := c.positions[w := extended];
    c.Record(before, ByWorker(w, Assign(p)));
  }

  method Subscribe(c: Cluster, w: WorkerId)
    requires c.Valid() && w !in c.places
    modifies c
    ensures At(c, w, Idle) && old(c.trace) < c.trace
    ensures WorkerPart(c.trace, w) == old(WorkerPart(c.trace, w)) + [Start]
  {
    hide Init, Legal, Exec, WorkerPart;
    ghost var before := c.Now();
    var none: map<Partition, nat> := map[];
    c.positions := c.positions[w := none];
    c.Record(before, ByWorker(w, Start));
  }

  /** One poll of an idle worker. */
  method ServePoll(c: Cluster, w: WorkerId, poll: Poll) returns (alive: bool, ghost visit: Visit)
    requires At(c, w, Idle) && (poll.Message? ==> Sane(poll.fate))
    modifies c
    ensures c.Valid() && old(c.trace) <= c.trace && (alive ==> At(c, w, Idle))
    ensures Fits(c.origin, c.trace, w, poll, visit)
    ensures WorkerPart(c.trace, w) == old(WorkerPart(c.trace, w)) + VisitActs(poll, visit)
    ensures !alive <==> visit.Handled? && poll.Message? && PassWork(poll.p, poll.fate, visit.seen).end.Crashed?
  {
    hide Init, Legal, Exec, Can, Apply, Sane, WorkerPart, PassWork;
    Interfere(c, w, Idle);
    PartitionsNow(c);
    alive, visit := true, Nothing(|c.trace|);
    assert c.trace[..|c.trace|] == c.trace;
    if poll.Assigned? {
      if poll.p in c.committed {
        AcceptPartition(c, w, poll.p);
        visit := Joined;
      }
    } else if poll.p in c.positions[w] && poll.p in c.log && c.positions[w][poll.p] < |c.log[poll.p]| {
      var end;
      ghost var seen;
      end, seen := HandleMessage(c, w, poll.p, poll.fate);
      alive, visit := !end.Crashed?, Handled(seen);
    }
  }

  lemma PartitionsNow(c: Cluster)
    requires c.Valid()
    ensures c.committed.Keys == c.origin.committed.Keys && c.log.Keys == c.origin.log.Keys
  {
    hide Init;
    RunKeepsPartitions(c.origin, c.trace);
  }

  /** A whole life of a worker process: it subscribes, takes over every partition assigned to it and handles every
      message that is there, until it has polled all or crashed. The services then stand in a reachable state of the
      system, so everything proved of those states holds. */
  method Serve(c: Cluster, w: WorkerId, polls: seq<Poll>) returns (ghost visits: seq<Visit>)
    requires c.Valid() && w !in c.places
    requires forall i | 0 <= i < |polls| && polls[i].Message? :: Sane(polls[i].fate)
    modifies c
    ensures c.Valid() && old(c.trace) < c.trace && Reachable(c.Now())
    ensures |visits| <= |polls|
    ensures WorkerPart(c.trace, w) == old(WorkerPart(c.trace, w)) + [Start] + AllActs(polls, visits)
    ensures forall i | 0 <= i < |visits| :: Fits(c.origin, c.trace, w, polls[i], visits[i])
    ensures |visits| < |polls| ==>
              && visits != [] && var i := |visits| - 1;
              && visits[i].Handled? && polls[i].Message?
              && PassWork(polls[i].p, polls[i].fate, visits[i].seen).end.Crashed?
  {
    hide Init, Legal, Exec, Can, Apply, Sane, WorkerPart, PassWork, VisitActs, Fits;
    Subscribe(c, w);
    visits := [];
    var i, alive := 0, true;
    while i < |polls| && alive
      invariant 0 <= i == |visits| <= |polls| && c.Valid() && old(c.trace) < c.trace
      invariant alive ==> At(c, w, Idle)
      invariant !alive ==>
                  && visits != [] && visits[i - 1].Handled? && polls[i - 1].Message?
                  && PassWork(polls[i - 1].p, polls[i - 1].fate, visits[i - 1].seen).end.Crashed?
      invariant WorkerPart(c.trace, w) == old(WorkerPart(c.trace, w)) + [Start] + AllActs(polls, visits)
      invariant forall j | 0 <= j < i :: Fits(c.origin, c.trace, w, polls[j], visits[j])
      decreases |polls| - i
    {
      ghost var before, done := c.trace, visits;
      ghost var visit;
      alive, visit := ServePoll(c, w, polls[i]);
      visits := done + [visit];
      assert visits[..i] == done;
      forall j | 0 <= j < i ensures Fits(c.origin, c.trace, w, polls[j], visits[j]) {
        StillFits(c.origin, before, c.trace, w, polls[j], done[j]);
      }
      i := i + 1;
    }
    c.ValidIsReachable();
  }
}
