/** When a listener is forgotten: the last event of a session says `playing`, yet the session is not in the set and
    nothing will put it there, so no terminal event will follow. A removal decided before the heartbeat's event but
    carried out after its ZADD does this. */
module Stranding {
  import opened Basics
  import opened Sessions

  function LastStatus(topic: seq<Event>, x: Session): Option<Status> {
    if topic == [] then None
    else if topic[|topic| - 1].session == x then Some(topic[|topic| - 1].status)
    else LastStatus(topic[..|topic| - 1], x)
  }

  lemma LastStatusMore(topic: seq<Event>, e: Event, call: Call, x: Session)
    ensures LastStatus(Publish(topic, e, call), x)
            == if call.Took() && e.session == x then Some(e.status) else LastStatus(topic, x)
  {
  }

  predicate IsPing(q: Request, x: Session) {
    !q.Removing? && q.session == x
  }

  ghost predicate PingUnderWay(requests: map<Id, Request>, x: Session) {
    exists r :: r in requests && IsPing(requests[r], x)
  }

  ghost predicate RemovalUnderWay(requests: map<Id, Request>, x: Session) {
    exists r :: r in requests && requests[r] == Removing(Live(x))
  }

  ghost predicate Stranded(s: State, x: Session) {
    LastStatus(s.topic, x) == Some(Playing) && Live(x) !in s.active && !PingUnderWay(s.requests, x)
  }

  // ---------------------------------------------------------------- when it cannot happen

  /** A session said to be playing is in the set or about to be, and no removal is on its way. */
  ghost predicate Kept(s: State, x: Session) {
    LastStatus(s.topic, x) == Some(Playing) ==>
      !RemovalUnderWay(s.requests, x) && (Live(x) in s.active || PingUnderWay(s.requests, x))
  }

  /** The step is no ping of the session that meets a removal under way, loses its way to Redis, or is heard of only
      after its send had raised an error. */
  ghost predicate Careful(s: State, step: Step, x: Session)
    requires Can(s, step)
  {
    && (step.PingSend? && step.x == x ==> !RemovalUnderWay(s.requests, x) && step.call != Lost(true))
    && (step.Drop? ==> !IsPing(s.requests[step.r], x))
    && (step.LateWrite? ==> step.e != Event(x, Playing))
  }

  ghost predicate CarefulRun(s: State, run: seq<Step>, x: Session)
    requires Legal(s, run)
    decreases |run|
  {
    run == [] || (Careful(s, run[0], x) && CarefulRun(Apply(s, run[0]), run[1..], x))
  }

  lemma SendKeeps(s: State, step: Step, x: Session)
    requires Can(s, step) && Careful(s, step, x) && Kept(s, x)
    requires step.PingSend? || step.StopSend? || step.PollSend? || step.PollPurge?
    ensures Kept(Apply(s, step), x)
  {
    hide LastStatus, Publish, Lists, PingUnderWay, RemovalUnderWay;
    match step
    case PingSend(r, y, call) =>
      LastStatusMore(s.topic, Event(y, Playing), call, x);
      StartKeeps(s.requests, r, Acked(y), call, x);
    case StopSend(r, y, call) =>
      LastStatusMore(s.topic, Event(y, Stopped), call, x);
      StartKeeps(s.requests, r, Removing(Live(y)), call, x);
    case PollSend(r, call) =>
      LastStatusMore(s.topic, Event(s.poller.todo[0].session, TimedOut), call, x);
      StartKeeps(s.requests, r, Removing(s.poller.todo[0]), call, x);
    case PollPurge(r) =>
      StartKeeps(s.requests, r, Removing(s.poller.todo[0]), Ok, x);
  }

  lemma StartKeeps(requests: map<Id, Request>, r: Id, q: Request, call: Call, x: Session)
    requires r !in requests
    ensures var more := Start(requests, r, q, call);
            && (PingUnderWay(more, x) <==> PingUnderWay(requests, x) || (call.Ok? && IsPing(q, x)))
            && (RemovalUnderWay(more, x) <==> RemovalUnderWay(requests, x) || (call.Ok? && q == Removing(Live(x))))
  {
    var more := Start(requests, r, q, call);
    assert forall k | k in requests :: k in more && more[k] == requests[k];
    if call.Ok? {
      assert r in more && more[r] == q;
    }
  }

  lemma EndKeeps(requests: map<Id, Request>, r: Id, x: Session)
    requires r in requests
    ensures !IsPing(requests[r], x) ==> (PingUnderWay(requests - {r}, x) <==> PingUnderWay(requests, x))
    ensures RemovalUnderWay(requests - {r}, x) ==> RemovalUnderWay(requests, x)
    ensures requests[r] == Removing(Live(x)) ==> RemovalUnderWay(requests, x)
  {
    var fewer := requests - {r};
    assert forall k | k in fewer :: k in requests && fewer[k] == requests[k];
    if !IsPing(requests[r], x) && PingUnderWay(requests, x) {
      var k :| k in requests && IsPing(requests[k], x);
      assert k in fewer;
    }
  }

  lemma LandKeeps(s: State, r: Id, x: Session)
    requires Can(s, Land(r)) && Kept(s, x)
    ensures Kept(Apply(s, Land(r)), x)
  {
    hide LastStatus, Lists, PingUnderWay, RemovalUnderWay;
    EndKeeps(s.requests, r, x);
  }

  lemma ReadKeeps(s: State, r: Id, x: Session)
    requires Can(s, PingRead(r)) && Kept(s, x)
    ensures Kept(Apply(s, PingRead(r)), x)
  {
    hide LastStatus, Lists;
    var after := Apply(s, PingRead(r)).requests;
    assert forall k | k in s.requests && k != r :: k in after && after[k] == s.requests[k];
    assert r in after && IsPing(after[r], x) == IsPing(s.requests[r], x);
  }

  lemma StepKeeps(s: State, step: Step, x: Session)
    requires Can(s, step) && Careful(s, step, x) && Kept(s, x)
    ensures Kept(Apply(s, step), x)
  {
    if step.PingSend? || step.StopSend? || step.PollSend? || step.PollPurge? {
      SendKeeps(s, step, x);
    } else if step.Land? {
      LandKeeps(s, step.r, x);
    } else if step.PingRead? {
      ReadKeeps(s, step.r, x);
    } else if step.Drop? {
      hide LastStatus, Lists, PingUnderWay, RemovalUnderWay;
      EndKeeps(s.requests, step.r, x);
    } else if step.LateWrite? {
      hide LastStatus, Lists, PingUnderWay, RemovalUnderWay;
      LastStatusMore(s.topic, step.e, Ok, x);
    } else {
      hide LastStatus, Lists, PingUnderWay, RemovalUnderWay;
    }
  }

  lemma {:induction false} RunKeeps(s: State, run: seq<Step>, x: Session)
    requires Legal(s, run) && CarefulRun(s, run, x) && Kept(s, x)
    ensures Kept(Exec(s, run), x)
    decreases |run|
  {
    hide Can, Apply, Kept, Careful;
    if run != [] {
      StepKeeps(s, run[0], x);
      RunKeeps(Apply(s, run[0]), run[1..], x);
    }
  }

  /** If no ping of a session is sent while a removal of it is under way, none is lost on its way to Redis and none is
      written after its send raised an error, the session is never forgotten: once its pings have landed, it is in the
      set or its last event is terminal. */
  lemma NeverStranded(s0: State, run: seq<Step>, x: Session)
    requires Init(s0) && Legal(s0, run) && CarefulRun(s0, run, x)
    ensures !Stranded(Exec(s0, run), x)
  {
    hide Can, Apply, Careful;
    RunKeeps(s0, run, x);
  }

  // ---------------------------------------------------------------- when it can

  /** Commands already sent arrive; nothing new happens and nothing is lost. */
  predicate Deliveries(run: seq<Step>) {
    forall i | 0 <= i < |run| :: run[i].PingRead? || run[i].Land?
  }

  ghost predicate StrandedAfter(s: State, run: seq<Step>, x: Session) {
    Deliveries(run) && Legal(s, run) && Stranded(Exec(s, run), x)
  }

  lemma {:induction false} DeliveriesAreCareful(s: State, run: seq<Step>, x: Session)
    requires Legal(s, run) && Deliveries(run)
    ensures CarefulRun(s, run, x)
    decreases |run|
  {
    hide Can, Apply;
    if run != [] {
      assert forall i | 0 <= i < |run[1..]| :: run[1..][i] == run[i + 1];
      DeliveriesAreCareful(Apply(s, run[0]), run[1..], x);
    }
  }

  lemma Prepend(s: State, step: Step, run: seq<Step>)
    requires Can(s, step) && Legal(Apply(s, step), run)
    ensures Legal(s, [step] + run) && Exec(s, [step] + run) == Exec(Apply(s, step), run)
  {
  }

  /** Every ping of the session can land before removal `k` does. */
  lemma {:induction false} DrainPings(s: State, x: Session, k: Id) returns (run: seq<Step>)
    requires k in s.requests && s.requests[k] == Removing(Live(x))
    ensures Legal(s, run) && Deliveries(run)
    ensures var t := Exec(s, run);
            && !PingUnderWay(t.requests, x) && t.topic == s.topic
            && k in t.requests && t.requests[k] == Removing(Live(x))
    decreases s.requests.Keys
  {
    hide Lists, Put;
    if r :| r in s.requests && IsPing(s.requests[r], x) {
      var s1 := if s.requests[r].Acked? then Apply(s, PingRead(r)) else s;
      var s2 := Apply(s1, Land(r));
      assert s2.requests.Keys == s.requests.Keys - {r};
      run := DrainPings(s2, x, k);
      Prepend(s1, Land(r), run);
      run := [Land(r)] + run;
      if s.requests[r].Acked? {
        Prepend(s, PingRead(r), run);
        run := [PingRead(r)] + run;
      }
    } else {
      run := [];
    }
  }

  /** A ping sent now can be forgotten, by nothing worse than commands arriving late, if and only if a removal of its
      session is under way when its event is sent. */
  lemma PingCanBeForgottenIff(s: State, r: Id, x: Session)
    requires Can(s, PingSend(r, x, Ok))
    ensures (exists run :: StrandedAfter(Apply(s, PingSend(r, x, Ok)), run, x)) <==> RemovalUnderWay(s.requests, x)
  {
    var s1 := Apply(s, PingSend(r, x, Ok));
    LastStatusMore(s.topic, Event(x, Playing), Ok, x);
    StartKeeps(s.requests, r, Acked(x), Ok, x);
    hide Can, Apply, LastStatus;
    if RemovalUnderWay(s.requests, x) {
      var run := ForgetPing(s1, x);
    } else {
      assert Kept(s1, x);
      forall run ensures !StrandedAfter(s1, run, x) {
        if StrandedAfter(s1, run, x) {
          DeliveriesAreCareful(s1, run, x);
          RunKeeps(s1, run, x);
          assert false;
        }
      }
    }
  }

  lemma ForgetPing(s: State, x: Session) returns (run: seq<Step>)
    requires LastStatus(s.topic, x) == Some(Playing) && RemovalUnderWay(s.requests, x)
    ensures StrandedAfter(s, run, x)
  {
    hide Legal, Exec, Lists, LastStatus;
    var k :| k in s.requests && s.requests[k] == Removing(Live(x));
    run := DrainPings(s, x, k);
    OneMore(s, run, Land(k));
    var t := Exec(s, run);
    EndKeeps(t.requests, k, x);
    run := run + [Land(k)];
  }

  // ---------------------------------------------------------------- such runs exist

  /** The poller has sent `stopped_by_timeout` for a session that pinged 21 seconds ago, and its ZREM is on its way. */
  lemma PollerDecides(x: Session) returns (run: seq<Step>)
    ensures Legal(Quiet(0.0), run)
    ensures Exec(Quiet(0.0), run)
            == State(map[Live(x) := 20], [Event(x, Playing)] + [Event(x, TimedOut)], {}, 21.0,
                     map[1 := Removing(Live(x))], Waiting(1, Live(x), []), map[x := 1], map[x := 0.0])
  {
    var s0 := Quiet(0.0);
    run := OneBeat(s0, x);
    hide Legal, Exec;
    run := Two(s0, run, Tick(21.0), PollClock);
    assert Lists([Live(x)], Exec(s0, run).active, 21);
    assert [Live(x)][1..] == [];
    run := Two(s0, run, PollList([Live(x)]), PollSend(1, Ok));
  }

  /** A listener who returns while the poller clears its expired session is forgotten: the heartbeat is accepted,
      then the poller's ZREM lands, and no terminal event follows the last `playing`. */
  lemma PollerForgetsReturningListener(x: Session) returns (run: seq<Step>)
    ensures Init(Quiet(0.0)) && Legal(Quiet(0.0), run) && Stranded(Exec(Quiet(0.0), run), x)
    ensures Exec(Quiet(0.0), run).requests == map[]
    ensures Exec(Quiet(0.0), run).topic == [Event(x, Playing), Event(x, TimedOut), Event(x, Playing)]
  {
    var s0 := Quiet(0.0);
    run := PollerDecides(x);
    hide Legal, Exec;
    run := Two(s0, run, PingSend(2, x, Ok), PingRead(2));
    run := Two(s0, run, Land(2), Land(1));
    var s := Exec(s0, run);
    assert s.requests == map[];
    assert Live(x) !in s.active;
  }

  /** So does a ping whose ZADD is lost after its event was accepted. */
  lemma LostHeartbeatIsForgotten(x: Session)
    ensures var run := [PingSend(0, x, Ok), Drop(0)];
            Legal(Quiet(0.0), run) && Stranded(Exec(Quiet(0.0), run), x)
  {
    var s0, run := Quiet(0.0), [PingSend(0, x, Ok), Drop(0)];
    var s1 := Apply(s0, run[0]);
    var s2 := Apply(s1, run[1]);
    assert run[1..] == [Drop(0)] && run[1..][1..] == [];
    assert Legal(s1, run[1..]) && Exec(s1, run[1..]) == s2;
    assert s2.requests == map[] && s2.active == map[];
  }
}
