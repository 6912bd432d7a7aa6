/** The services behind the processes, as one object their code updates in place: the rows of PostgreSQL, the objects
    of S3, the job topic of Kafka and the positions of its consumers. A ghost trace records every step any process
    takes, so that code running against the services can be compared with the transition system. */
module Services {
  import opened Platform
  import opened PlatformEffects

  /** A step that can happen while the code of worker `w` is between two of its own steps: anything other processes
      do, and the loss of a partition in a rebalance. */
  predicate ForeignToWorker(step: Step, w: WorkerId) {
    step.ByWorker? && step.w == w ==> step.act.Revoke?
  }

  /** A step that can happen while the code of upload `u` is between two of its own steps: anything other processes
      do, and a late write of its own job by the broker. */
  predicate ForeignToUpload(step: Step, u: UploadId) {
    step.ByUpload? && step.u == u ==> step.saga.Append?
  }

  /** The actions of worker `w` in a run; losing a partition is not its own. */
  function WorkerPart(run: seq<Step>, w: WorkerId): seq<WorkerAct> {
    if run == [] then []
    else WorkerPart(run[..|run| - 1], w)
         + (if ForeignToWorker(run[|run| - 1], w) then [] else [run[|run| - 1].act])
  }

  /** The actions of upload `u` in a run, but for the broker's writes of its job. */
  function UploadPart(run: seq<Step>, u: UploadId): seq<UploadAct> {
    if run == [] then []
    else UploadPart(run[..|run| - 1], u)
         + (if ForeignToUpload(run[|run| - 1], u) then [] else [run[|run| - 1].saga])
  }

  lemma PartsOfOneMore(run: seq<Step>, step: Step)
    ensures forall w :: WorkerPart(run + [step], w)
                        == WorkerPart(run, w) + (if ForeignToWorker(step, w) then [] else [step.act])
    ensures forall u :: UploadPart(run + [step], u)
                        == UploadPart(run, u) + (if ForeignToUpload(step, u) then [] else [step.saga])
  {
  }

  lemma {:induction false} ForeignRunKeepsWorkerPart(before: seq<Step>, after: seq<Step>, w: WorkerId)
    requires before <= after && forall i | |before| <= i < |after| :: ForeignToWorker(after[i], w)
    ensures WorkerPart(after, w) == WorkerPart(before, w)
    decreases |after|
  {
    if |before| == |after| {
      assert before == after;
    } else {
      ForeignRunKeepsWorkerPart(before, after[..|after| - 1], w);
    }
  }

  lemma {:induction false} ForeignRunKeepsUploadPart(before: seq<Step>, after: seq<Step>, u: UploadId)
    requires before <= after && forall i | |before| <= i < |after| :: ForeignToUpload(after[i], u)
    ensures UploadPart(after, u) == UploadPart(before, u)
    decreases |after|
  {
    if |before| == |after| {
      assert before == after;
    } else {
      ForeignRunKeepsUploadPart(before, after[..|after| - 1], u);
    }
  }

  lemma {:induction false} RunsConcatenate(s: State, first: seq<Step>, second: seq<Step>)
    requires Legal(s, first + second)
    ensures Legal(s, first) && Legal(Exec(s, first), second)
    ensures Exec(s, first + second) == Exec(Exec(s, first), second)
    decreases |first|
  {
    hide Can, Apply;
    if first == [] {
      assert first + second == second;
    } else {
      assert (first + second)[0] == first[0] && (first + second)[1..] == first[1..] + second;
      RunsConcatenate(Apply(s, first[0]), first[1..], second);
    }
  }

  lemma ForeignStepKeepsPc(s: State, step: Step, w: WorkerId)
    requires Can(s, step) && Runs(s, w) && ForeignToWorker(step, w)
    ensures Runs(Apply(s, step), w) && PcOf(Apply(s, step), w) == PcOf(s, w)
  {
    hide DoSaga, CanSaga;
    match step
    case ByWorker(v, act) => if v != w { OthersStay(s, v, act, w); } else { RevokeKeepsPc(s, w, act.p); }
    case ByUpload(u, act) => UploadEffect(s, u, act);
  }

  lemma OthersStay(s: State, v: WorkerId, act: WorkerAct, w: WorkerId)
    requires CanAct(s, v, act) && v != w && Runs(s, w)
    ensures Runs(DoAct(s, v, act), w) && PcOf(DoAct(s, v, act), w) == PcOf(s, w)
  {
  }

  lemma RevokeKeepsPc(s: State, w: WorkerId, p: Partition)
    requires CanAct(s, w, Revoke(p))
    ensures Runs(DoAct(s, w, Revoke(p)), w) && PcOf(DoAct(s, w, Revoke(p)), w) == PcOf(s, w)
  {
  }

  lemma {:induction false} ForeignRunKeepsPc(s: State, run: seq<Step>, w: WorkerId)
    requires Legal(s, run) && Runs(s, w) && forall i | 0 <= i < |run| :: ForeignToWorker(run[i], w)
    ensures Runs(Exec(s, run), w) && PcOf(Exec(s, run), w) == PcOf(s, w)
    decreases |run|
  {
    hide Can, Apply;
    if run != [] {
      ForeignStepKeepsPc(s, run[0], w);
      ForeignRunKeepsPc(Apply(s, run[0]), run[1..], w);
    }
  }

  lemma ForeignStepKeepsUpload(s: State, step: Step, u: UploadId)
    requires Can(s, step) && u in s.uploads && ForeignToUpload(step, u)
    ensures u in Apply(s, step).uploads && Apply(s, step).uploads[u] == s.uploads[u]
  {
    hide DoAct, CanAct, DoSaga, CanSaga;
    match step
    case ByWorker(w, act) => WorkerEffect(s, w, act);
    case ByUpload(v, act) => if v != u { UploadEffect(s, v, act); } else { AppendKeepsUpload(s, u, act.p); }
  }

  lemma AppendKeepsUpload(s: State, u: UploadId, p: Partition)
    requires CanSaga(s, u, Append(p))
    ensures DoSaga(s, u, Append(p)).uploads == s.uploads
  {
  }

  lemma {:induction false} ForeignRunKeepsUpload(s: State, run: seq<Step>, u: UploadId)
    requires Legal(s, run) && u in s.uploads && forall i | 0 <= i < |run| :: ForeignToUpload(run[i], u)
    ensures u in Exec(s, run).uploads && Exec(s, run).uploads[u] == s.uploads[u]
    decreases |run|
  {
    hide Can, Apply;
    if run != [] {
      ForeignStepKeepsUpload(s, run[0], u);
      ForeignRunKeepsUpload(Apply(s, run[0]), run[1..], u);
    }
  }

  function WorkersAt(places: map<WorkerId, Pc>, positions: map<WorkerId, map<Partition, nat>>): map<WorkerId, Worker> {
    map w | w in places && w in positions :: Worker(places[w], positions[w])
  }

  function PlacesOf(workers: map<WorkerId, Worker>): map<WorkerId, Pc> {
    map w | w in workers :: workers[w].pc
  }

  predicate PositionsOf(workers: map<WorkerId, Worker>, positions: map<WorkerId, map<Partition, nat>>) {
    positions.Keys == workers.Keys && forall w <- workers :: positions[w] == workers[w].pos
  }

  lemma WorkersRecombine(workers: map<WorkerId, Worker>, positions: map<WorkerId, map<Partition, nat>>)
    requires PositionsOf(workers, positions)
    ensures WorkersAt(PlacesOf(workers), positions) == workers && PlacesOf(workers).Keys == positions.Keys
  {
  }

  class Cluster {
    var rows: Rows
    var objects: Objects
    var log: map<Partition, seq<Job>>
    var committed: map<Partition, nat>

    /** The offset after the last message taken, for each consumer and partition. */
    var positions: map<WorkerId, map<Partition, nat>>

    /** The row ids the database has generated; it generates none twice. */
    var issued: set<TrackId>

    /** Where the code of each worker stands. */
    ghost var places: map<WorkerId, Pc>
    ghost var uploads: map<UploadId, Upload>
    ghost var creator: map<TrackId, UploadId>
    ghost var made: map<TrackId, Attempt>
    ghost var abandoned: set<TrackId>
    ghost const origin: State
    ghost var trace: seq<Step>

    ghost function Now(): State
      reads this
    {
      State(rows, objects, log, committed, WorkersAt(places, positions), uploads, creator, made, abandoned)
    }

    /** The services stand where the recorded run leads from an empty platform. */
    ghost predicate Valid()
      reads this
    {
      && positions.Keys == places.Keys && creator.Keys <= issued
      && Init(origin) && Legal(origin, trace) && Exec(origin, trace) == Now()
    }

    lemma ValidIsReachable()
      requires Valid()
      ensures Reachable(Now())
    {
    }

    constructor (partitions: set<Partition>)
      ensures Valid() && trace == [] && Now() == origin && log.Keys == partitions
    {
      var emptyLog: map<Partition, seq<Job>> := map p | p in partitions :: [];
      var zero: map<Partition, nat> := map p | p in partitions :: 0;
      rows, objects, log, committed := map[], map[], emptyLog, zero;
      positions, places, uploads, creator, made, abandoned := map[], map[], map[], map[], map[], {};
      issued := {};
      origin := State(map[], map[], emptyLog, zero, map[], map[], map[], map[], {});
      trace := [];
    }

    /** Enters a step whose effect the code has just had on the services. */
    ghost method Record(before: State, step: Step)
      requires Init(origin) && Legal(origin, trace) && Exec(origin, trace) == before && Can(before, step)
      requires var s := Apply(before, step);
               && rows == s.rows && objects == s.objects && log == s.log && committed == s.committed
               && PositionsOf(s.workers, positions) && s.creator.Keys <= issued
      modifies this`places, this`uploads, this`creator, this`made, this`abandoned, this`trace
      ensures Valid() && Now() == Apply(before, step) && trace == old(trace) + [step]
      ensures step.ByWorker? && !step.act.Revoke? ==>
                WorkerPart(trace, step.w) == WorkerPart(old(trace), step.w) + [step.act]
      ensures step.ByUpload? ==>
                UploadPart(trace, step.u)
                == UploadPart(old(trace), step.u) + (if step.saga.Append? then [] else [step.saga])
    {
      hide Init, Can, Apply, Legal, Exec, PlacesOf, PositionsOf, WorkersAt, WorkerPart, UploadPart;
      PartsOfOneMore(trace, step);
      var s := Apply(before, step);
      OneMore(origin, trace, step);
      places := PlacesOf(s.workers);
      uploads, creator, made, abandoned := s.uploads, s.creator, s.made, s.abandoned;
      trace := trace + [step];
      WorkersRecombine(s.workers, positions);
    }

    /** Whatever other processes do before the next step of worker `w`. */
    method OthersAroundWorker(ghost w: WorkerId)
      requires Valid()
      modifies this
      ensures Valid() && old(trace) <= trace
      ensures forall i | |old(trace)| <= i < |trace| :: ForeignToWorker(trace[i], w)
    {
    }

    /** Whatever other processes do before the next step of upload `u`. */
    method OthersAroundUpload(ghost u: UploadId)
      requires Valid()
      modifies this
      ensures Valid() && old(trace) <= trace
      ensures forall i | |old(trace)| <= i < |trace| :: ForeignToUpload(trace[i], u)
    {
    }
  }

  /** Interference leaves a worker at its place in the loop. */
  lemma WorkerUndisturbed(origin: State, before: seq<Step>, after: seq<Step>, w: WorkerId)
    requires Legal(origin, before) && Legal(origin, after) && before <= after
    requires Runs(Exec(origin, before), w)
    requires forall i | |before| <= i < |after| :: ForeignToWorker(after[i], w)
    ensures Runs(Exec(origin, after), w) && PcOf(Exec(origin, after), w) == PcOf(Exec(origin, before), w)
    ensures WorkerPart(after, w) == WorkerPart(before, w)
  {
    hide Can, Apply;
    ForeignRunKeepsWorkerPart(before, after, w);
    assert after == before + after[|before|..];
    RunsConcatenate(origin, before, after[|before|..]);
    ForeignRunKeepsPc(Exec(origin, before), after[|before|..], w);
  }

  lemma UploadUndisturbed(origin: State, before: seq<Step>, after: seq<Step>, u: UploadId)
    requires Legal(origin, before) && Legal(origin, after) && before <= after
    requires u in Exec(origin, before).uploads
    requires forall i | |before| <= i < |after| :: ForeignToUpload(after[i], u)
    ensures u in Exec(origin, after).uploads && Exec(origin, after).uploads[u] == Exec(origin, before).uploads[u]
    ensures UploadPart(after, u) == UploadPart(before, u)
  {
    hide Can, Apply;
    ForeignRunKeepsUploadPart(before, after, u);
    assert after == before + after[|before|..];
    RunsConcatenate(origin, before, after[|before|..]);
    ForeignRunKeepsUpload(Exec(origin, before), after[|before|..], u);
  }
}
