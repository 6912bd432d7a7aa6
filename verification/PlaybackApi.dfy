/** The code of the heartbeat and stop endpoints and of the poller, run while other requests go on between any two
    awaits. With `calm`, nothing else happens meanwhile. */
module PlaybackApi {
  import opened Basics
  import opened Sessions

  // ---------------------------------------------------------------- whose step it is

  predicate Polling(step: Step) {
    step.PollClock? || step.PollList? || step.PollSend? || step.PollPurge? || step.PollSkip?
    || step.PollNext? || step.PollRest? || step.PollerDies? || step.PollerStarts?
  }

  /** The step moves request `r` on. */
  predicate Moves(step: Step, r: Id) {
    (step.PingRead? || step.Land? || step.Drop?) && step.r == r
  }

  /** A step of others while the poller is where it is; the answer to its own ZREM is the poller's to see. */
  predicate ForeignToPoller(step: Step, poller: Poller) {
    !Polling(step) && !(poller.Waiting? && Moves(step, poller.r))
  }

  /** The poller and the command it waits for are as they were. */
  predicate SamePoller(s: State, s': State) {
    && s'.poller == s.poller
    && (s.poller.Waiting? && s.poller.r in s.requests ==>
          s.poller.r in s'.requests && s'.requests[s.poller.r] == s.requests[s.poller.r])
  }

  predicate SameRequest(s: State, s': State, r: Id) {
    r in s.requests ==> r in s'.requests && s'.requests[r] == s.requests[r]
  }

  lemma ForeignStepKeepsPoller(s: State, step: Step)
    requires Can(s, step) && ForeignToPoller(step, s.poller)
    ensures SamePoller(s, Apply(s, step))
  {
  }

  lemma StepKeepsRequest(s: State, step: Step, r: Id)
    requires Can(s, step) && !Moves(step, r)
    ensures SameRequest(s, Apply(s, step), r)
  {
  }

  /** The poller's own steps in a run, without the ids of its requests. */
  function PollPart(run: seq<Step>): seq<Step> {
    if run == [] then [] else PollPart(run[..|run| - 1]) + Shown(run[|run| - 1])
  }

  function Shown(step: Step): seq<Step> {
    if !Polling(step) then []
    else if step.PollSend? || step.PollPurge? then [step.(r := 0)]
    else [step]
  }

  /** The steps in a run that send or move request `r` of an endpoint. */
  function RequestPart(run: seq<Step>, r: Id): seq<Step> {
    if run == [] then [] else
      RequestPart(run[..|run| - 1], r) + (if Serves(run[|run| - 1], r) then [run[|run| - 1]] else [])
  }

  predicate Serves(step: Step, r: Id) {
    Moves(step, r) || ((step.PingSend? || step.StopSend?) && step.r == r)
  }

  lemma PartsOfOneMore(run: seq<Step>, step: Step, r: Id)
    ensures PollPart(run + [step]) == PollPart(run) + Shown(step)
    ensures RequestPart(run + [step], r) == RequestPart(run, r) + (if Serves(step, r) then [step] else [])
  {
  }

  lemma {:induction false} OthersKeepPoller(origin: State, before: seq<Step>, after: seq<Step>)
    requires Legal(origin, before) && Legal(origin, after) && before <= after
    requires forall i | |before| <= i < |after| :: ForeignToPoller(after[i], Exec(origin, before).poller)
    ensures SamePoller(Exec(origin, before), Exec(origin, after)) && PollPart(after) == PollPart(before)
    decreases |after|
  {
    hide Can, Apply, Moves, Polling;
    if |before| == |after| {
      assert before == after;
    } else {
      var after', step := after[..|after| - 1], after[|after| - 1];
      assert after' + [step] == after;
      LegalPrefix(origin, after', step);
      OthersKeepPoller(origin, before, after');
      ForeignStepKeepsPoller(Exec(origin, after'), step);
      PartsOfOneMore(after', step, 0);
    }
  }

  lemma {:induction false} OthersKeepRequest(origin: State, before: seq<Step>, after: seq<Step>, r: Id)
    requires Legal(origin, before) && Legal(origin, after) && before <= after && r in Exec(origin, before).requests
    requires forall i | |before| <= i < |after| :: !Moves(after[i], r)
    ensures SameRequest(Exec(origin, before), Exec(origin, after), r)
    ensures RequestPart(after, r) == RequestPart(before, r)
    ensures Exec(origin, before).topic <= Exec(origin, after).topic
    decreases |after|
  {
    hide Can, Apply, Moves;
    if |before| == |after| {
      assert before == after;
    } else {
      var after', step := after[..|after| - 1], after[|after| - 1];
      assert after' + [step] == after;
      LegalPrefix(origin, after', step);
      OthersKeepRequest(origin, before, after', r);
      StepKeepsRequest(Exec(origin, after'), step, r);
      TopicGrows(Exec(origin, after'), step);
      OpenRequestIsNotSent(Exec(origin, after'), step, r);
      PartsOfOneMore(after', step, r);
    }
  }

  lemma TopicGrows(s: State, step: Step)
    requires Can(s, step)
    ensures s.topic <= Apply(s, step).topic
  {
    hide Lists, Put;
  }

  lemma OpenRequestIsNotSent(s: State, step: Step, r: Id)
    requires Can(s, step) && r in s.requests && !Moves(step, r)
    ensures !Serves(step, r)
  {
  }

  // ---------------------------------------------------------------- one pass of the poller

  /** How the processing of one listed member fares: the outcome of its send, and whether its ZREM is answered. */
  datatype Fate = Fate(send: Call, answered: bool)

  /** The steps the poller takes for one member. */
  function Handling(m: Member, fate: Fate): seq<Step> {
    match m
    case Live(_) => [PollSend(0, fate.send)] + (if fate.send.Ok? then [PollNext(fate.answered)] else [])
    case Corrupt(_) => [PollPurge(0), PollNext(fate.answered)]
    case Odd(_) => [PollSkip]
  }

  /** A ZREM that raises while a member that is not JSON is purged ends the poller. */
  predicate Fatal(m: Member, fate: Fate) {
    m.Corrupt? && !fate.answered
  }

  /** The steps for a list of members, up to the one that ends the poller, if any. */
  function HandlingAll(order: seq<Member>, fates: Member -> Fate): seq<Step> {
    if order == [] then [PollRest]
    else if Fatal(order[0], fates(order[0])) then Handling(order[0], fates(order[0]))
    else Handling(order[0], fates(order[0])) + HandlingAll(order[1..], fates)
  }

  predicate Survives(order: seq<Member>, fates: Member -> Fate) {
    forall m <- order :: !Fatal(m, fates(m))
  }

  predicate Cleared(m: Member, fate: Fate) {
    fate.answered && ((m.Live? && fate.send.Ok?) || m.Corrupt?)
  }

  function Timeouts(m: Member, fate: Fate): seq<Event> {
    if m.Live? && fate.send.Took() then [Event(m.session, TimedOut)] else []
  }

  function AllTimeouts(order: seq<Member>, fates: Member -> Fate): seq<Event> {
    if order == [] then []
    else Timeouts(order[0], fates(order[0])) + AllTimeouts(order[1..], fates)
  }

  /** The members left when every listed one is processed. */
  function Left(active: map<Member, int>, order: seq<Member>, fates: Member -> Fate): map<Member, int> {
    active - (set m | m in order && Cleared(m, fates(m)))
  }

  /** The steps of one round. */
  function Round(order: seq<Member>, listed: bool, fates: Member -> Fate): seq<Step> {
    [PollClock] + (if listed then [PollList(order)] + HandlingAll(order, fates) else [PollerDies])
  }

  /** The poller goes on after the round. */
  predicate Lives(order: seq<Member>, listed: bool, fates: Member -> Fate) {
    listed && Survives(order, fates)
  }

  /** The steps of rounds with these listings. */
  function Rounds(orders: seq<seq<Member>>, listed: nat -> bool, fates: nat -> Member -> Fate): seq<Step> {
    if orders == [] then [] else
      var k := |orders| - 1;
      Rounds(orders[..k], listed, fates) + Round(orders[k], listed(k), fates(k))
  }

  lemma AllStep(active: map<Member, int>, order: seq<Member>, fates: Member -> Fate)
    requires order != []
    ensures var m, rest := order[0], order[1..];
            && HandlingAll(order, fates)
               == Handling(m, fates(m)) + (if Fatal(m, fates(m)) then [] else HandlingAll(rest, fates))
            && AllTimeouts(order, fates) == Timeouts(m, fates(m)) + AllTimeouts(rest, fates)
            && (Survives(order, fates) <==> !Fatal(m, fates(m)) && Survives(rest, fates))
            && Left(active, order, fates)
               == Left(if Cleared(m, fates(m)) then active - {m} else active, rest, fates)
  {
    hide Handling, Timeouts, Fatal, Cleared;
    assert order == [order[0]] + order[1..];
  }

  lemma AllDone(active: map<Member, int>, fates: Member -> Fate)
    ensures HandlingAll([], fates) == [PollRest] && AllTimeouts([], fates) == []
    ensures Survives([], fates) && Left(active, [], fates) == active
  {
  }

  /** What a calm round at second `now` leaves: the members not yet expired, and the expired ones that were not sent
      or not removed, all with the scores they had. */
  lemma LeftExact(active: map<Member, int>, order: seq<Member>, fates: Member -> Fate, now: int)
    requires Lists(order, active, now)
    ensures var left := Left(active, order, fates);
            && (forall m :: m in left <==> m in active && (active[m] < 0 || active[m] > now || !Cleared(m, fates(m))))
            && (forall m <- left :: left[m] == active[m])
  {
  }

  /** One event per session that was sent, and none for any other. */
  lemma {:induction false} TimeoutsExact(order: seq<Member>, fates: Member -> Fate, x: Session)
    requires forall i, j | 0 <= i < j < |order| :: order[i] != order[j]
    ensures Terminals(AllTimeouts(order, fates), x) == if Live(x) in order && fates(Live(x)).send.Took() then 1 else 0
    ensures forall e <- AllTimeouts(order, fates) :: e.status == TimedOut
    decreases |order|
  {
    if order != [] {
      var m, rest := order[0], order[1..];
      assert forall i | 0 <= i < |rest| :: rest[i] == order[i + 1];
      TimeoutsExact(rest, fates, x);
      TerminalsConcatenate(Timeouts(m, fates(m)), AllTimeouts(rest, fates), x);
      assert Terminals(Timeouts(m, fates(m)), x) == if m == Live(x) && fates(m).send.Took() then 1 else 0 by {
        if m.Live? && fates(m).send.Took() {
          TerminalsMore([], Event(m.session, TimedOut), Ok, x);
          assert [] + [Event(m.session, TimedOut)] == [Event(m.session, TimedOut)];
        }
      }
    }
  }

  lemma {:induction false} TerminalsConcatenate(a: seq<Event>, b: seq<Event>, x: Session)
    ensures Terminals(a + b, x) == Terminals(a, x) + Terminals(b, x)
    decreases |b|
  {
    if b == [] {
      assert a + b == a;
    } else {
      var n := |b| - 1;
      assert (a + b)[..|a + b| - 1] == a + b[..n];
      TerminalsConcatenate(a, b[..n], x);
    }
  }

  // ---------------------------------------------------------------- the code

  class Api {
    var active: map<Member, int>
    var topic: seq<Event>
    var clock: real

    ghost var unsure: set<Event>
    ghost var requests: map<Id, Request>
    ghost var poller: Poller
    ghost var inserts: map<Session, nat>
    ghost var lastRead: map<Session, real>
    ghost const origin: State
    ghost var trace: seq<Step>

    ghost function Now(): State
      reads this
    {
      State(active, topic, unsure, clock, requests, poller, inserts, lastRead)
    }

    ghost predicate Valid()
      reads this
    {
      Init(origin) && Legal(origin, trace) && Exec(origin, trace) == Now()
    }

    constructor (start: real)
      requires start >= 0.0
      ensures Valid() && trace == [] && Now() == Quiet(start)
    {
      active, topic, clock := map[], [], start;
      unsure, requests, poller, inserts, lastRead := {}, map[], Resting, map[], map[];
      origin, trace := Quiet(start), [];
    }

    /** Enters a step whose effect the code has just had. */
    ghost method Record(before: State, step: Step, r: Id)
      requires Init(origin) && Legal(origin, trace) && Exec(origin, trace) == before && Can(before, step)
      requires var s := Apply(before, step); active == s.active && topic == s.topic && clock == s.clock
      modifies this`unsure, this`requests, this`poller, this`inserts, this`lastRead, this`trace
      ensures Valid() && Now() == Apply(before, step) && trace == old(trace) + [step]
      ensures PollPart(trace) == PollPart(old(trace)) + Shown(step)
      ensures RequestPart(trace, r) == RequestPart(old(trace), r) + if Serves(step, r) then [step] else []
    {
      hide Init, Can, Apply, Legal, Exec, PollPart, RequestPart, Serves, Shown;
      var s := Apply(before, step);
      OneMore(origin, trace, step);
      PartsOfOneMore(trace, step, r);
      unsure, requests, poller, inserts, lastRead := s.unsure, s.requests, s.poller, s.inserts, s.lastRead;
      trace := trace + [step];
    }

    method OthersAroundPoller(ghost calm: bool)
      requires Valid()
      modifies this
      ensures Valid() && old(trace) <= trace && (calm ==> trace == old(trace))
      ensures forall i | |old(trace)| <= i < |trace| :: ForeignToPoller(trace[i], old(poller))
    {
    }

    method OthersAroundRequest(ghost r: Id)
      requires Valid()
      modifies this
      ensures Valid() && old(trace) <= trace
      ensures forall i | |old(trace)| <= i < |trace| :: !Moves(trace[i], r)
    {
    }

    method AwaitInPoll(ghost calm: bool)
      requires Valid()
      modifies this
      ensures Valid() && old(trace) <= trace && SamePoller(old(Now()), Now())
      ensures PollPart(trace) == PollPart(old(trace)) && (calm ==> Now() == old(Now()))
    {
      hide Init, Can, Apply, Legal, Exec, PollPart, SamePoller, ForeignToPoller;
      ghost var before := trace;
      OthersAroundPoller(calm);
      OthersKeepPoller(origin, before, trace);
    }

    method AwaitInRequest(ghost r: Id)
      requires Valid() && r in requests
      modifies this
      ensures Valid() && old(trace) <= trace && SameRequest(old(Now()), Now(), r) && old(topic) <= topic
      ensures RequestPart(trace, r) == RequestPart(old(trace), r)
    {
      hide Init, Can, Apply, Legal, Exec, RequestPart, SameRequest, Moves;
      ghost var before := trace;
      OthersAroundRequest(r);
      OthersKeepRequest(origin, before, trace, r);
    }

    /** POST /ping: the event that the session is playing first, then the expiry computed from the clock, then the
        ZADD. */
    method PingEvent(x: Session, send: Call, answered: bool, ghost r: Id) returns (ok: bool)
      requires Valid() && r !in requests
      modifies this
      ensures Valid() && old(trace) <= trace
      ensures ok <==> send.Ok? && answered
      ensures RequestPart(trace, r)
              == RequestPart(old(trace), r) + [PingSend(r, x, send)]
                 + (if send.Ok? then [PingRead(r)] + (if answered then [Land(r)] else []) else [])
      ensures old(topic) + (if send.Took() then [Event(x, Playing)] else []) <= topic
      ensures ok ==> Live(x) in active && x in lastRead && active[Live(x)] == Expiry(lastRead[x])
    {
      hide Init, Can, Apply, Legal, Exec, RequestPart, PollPart, Expiry;
      ok := Announce(x, Playing, send, r);
      if !ok {
        return;
      }
      var expiration := ReadClock(x, r);
      AwaitInRequest(r);
      if answered {
        Extend(x, expiration, r);
      }
      ok := answered;
    }

    /** POST /stop: the event that the session has stopped first, then the ZREM. */
    method StopEvent(x: Session, send: Call, answered: bool, ghost r: Id) returns (ok: bool)
      requires Valid() && r !in requests
      modifies this
      ensures Valid() && old(trace) <= trace
      ensures ok <==> send.Ok? && answered
      ensures RequestPart(trace, r)
              == RequestPart(old(trace), r) + [StopSend(r, x, send)] + (if ok then [Land(r)] else [])
      ensures old(topic) + (if send.Took() then [Event(x, Stopped)] else []) <= topic
      ensures ok ==> Live(x) !in active
    {
      hide Init, Can, Apply, Legal, Exec, RequestPart, PollPart;
      ok := Announce(x, Stopped, send, r);
      if !ok {
        return;
      }
      AwaitInRequest(r);
      if answered {
        Discard(Live(x), r);
      }
      ok := answered;
    }

    /** send_and_wait of an endpoint's event. */
    method Announce(x: Session, status: Status, send: Call, ghost r: Id) returns (ok: bool)
      requires Valid() && r !in requests && !status.TimedOut?
      modifies this
      ensures Valid() && old(trace) <= trace
      ensures ok == send.Ok? && topic == old(topic) + if send.Took() then [Event(x, status)] else []
      ensures ok ==> r in requests && requests[r] == if status.Playing? then Acked(x) else Removing(Live(x))
      ensures RequestPart(trace, r) == RequestPart(old(trace), r)
                                       + [if status.Playing? then PingSend(r, x, send) else StopSend(r, x, send)]
    {
      hide Init, Legal, Exec, RequestPart, PollPart, Lists, Put;
      ghost var before := Now();
      if send.Took() {
        topic := topic + [Event(x, status)];
      }
      Record(before, if status.Playing? then PingSend(r, x, send) else StopSend(r, x, send), r);
      ok := send.Ok?;
    }

    /** int(time.time()) + 20, read after the event was acknowledged. */
    method ReadClock(x: Session, ghost r: Id) returns (expiration: int)
      requires Valid() && r in requests && requests[r] == Acked(x)
      modifies this
      ensures Valid() && old(trace) <= trace
      ensures r in requests && requests[r].Adding? && requests[r].session == x && old(topic) <= topic
      ensures expiration == Expiry(requests[r].read)
      ensures RequestPart(trace, r) == RequestPart(old(trace), r) + [PingRead(r)]
    {
      AwaitInRequest(r);
      hide Init, Legal, Exec, RequestPart, PollPart, Lists, Put;
      expiration := clock.Floor + 20;
      Record(Now(), PingRead(r), r);
    }

    /** ZADD carried out and answered. */
    method Extend(x: Session, expiration: int, ghost r: Id)
      requires Valid() && r in requests && requests[r].Adding? && requests[r].session == x
      requires expiration == Expiry(requests[r].read)
      modifies this
      ensures Valid() && old(trace) <= trace
      ensures Live(x) in active && x in lastRead && active[Live(x)] == Expiry(lastRead[x]) && topic == old(topic)
      ensures RequestPart(trace, r) == RequestPart(old(trace), r) + [Land(r)]
    {
      hide Init, Legal, Exec, RequestPart, PollPart, Lists, Expiry;
      ghost var before := Now();
      active := active[Live(x) := expiration];
      Record(before, Land(r), r);
    }

    /** ZREM carried out and answered. */
    method Discard(m: Member, ghost r: Id)
      requires Valid() && r in requests && requests[r] == Removing(m)
      modifies this
      ensures Valid() && old(trace) <= trace && Now() == old(Now()).(requests := old(requests) - {r}, active := active)
      ensures active == old(active) - {m}
      ensures RequestPart(trace, r) == RequestPart(old(trace), r) + [Land(r)] && PollPart(trace) == PollPart(old(trace))
    {
      hide Init, Legal, Exec, RequestPart, PollPart, Lists, Expiry;
      ghost var before := Now();
      active := active - {m};
      Record(before, Land(r), r);
    }

    /** ZRANGE active_sessions 0 now BYSCORE */
    method ZRange(now: int) returns (order: seq<Member>)
      ensures Lists(order, active, now)
    {
      order := [];
      var todo := active.Keys;
      while todo != {}
        invariant todo <= active.Keys
        invariant forall m :: m in order <==> m !in todo && Expired(active, m, now)
        invariant forall i, j | 0 <= i < j < |order| :: order[i] != order[j]
        decreases todo
      {
        var m :| m in todo;
        todo := todo - {m};
        if 0 <= active[m] <= now {
          order := order + [m];
        }
      }
    }

    /** The poller's ZREM of the member it is processing, and what its answer or its failure leads to. */
    method Remove(m: Member, answered: bool, ghost calm: bool)
      requires Valid() && poller.Waiting? && poller.member == m
      requires poller.r in requests && requests[poller.r] == Removing(m)
      modifies this
      ensures Valid() && old(trace) <= trace
      ensures poller == if answered || !m.Corrupt? then Working(old(poller).todo) else Dead
      ensures PollPart(trace) == PollPart(old(trace)) + [PollNext(answered)]
      ensures calm ==> topic == old(topic) && clock == old(clock)
      ensures calm ==> active == if answered then old(active) - {m} else old(active)
    {
      AwaitInPoll(calm);
      hide Init, Can, Apply, Legal, Exec, RequestPart, PollPart, Shown;
      if answered {
        Discard(m, poller.r);
      }
      Resume(m, answered);
    }

    /** After the ZREM: the next member, or the end of the poller. */
    ghost method Resume(m: Member, answered: bool)
      requires Valid() && poller.Waiting? && poller.member == m && (answered ==> poller.r !in requests)
      modifies this`unsure, this`requests, this`poller, this`inserts, this`lastRead, this`trace
      ensures Valid() && old(trace) <= trace
      ensures poller == if answered || !m.Corrupt? then Working(old(poller).todo) else Dead
      ensures PollPart(trace) == PollPart(old(trace)) + [PollNext(answered)]
    {
      hide Init, Legal, Exec, RequestPart, PollPart, Lists, Put;
      Record(Now(), PollNext(answered), 0);
    }

    /** The body of the loop over expired members. */
    method Process(m: Member, fate: Fate, ghost rest: seq<Member>, ghost calm: bool)
      requires Valid() && poller == Working([m] + rest)
      modifies this
      ensures Valid() && old(trace) <= trace
      ensures poller == if Fatal(m, fate) then Dead else Working(rest)
      ensures PollPart(trace) == PollPart(old(trace)) + Handling(m, fate)
      ensures calm ==> topic == old(topic) + Timeouts(m, fate) && clock == old(clock)
      ensures calm ==> active == if Cleared(m, fate) then old(active) - {m} else old(active)
    {
      hide Init, Can, Apply, Legal, Exec, RequestPart, PollPart;
      match m
      case Live(x) =>
        var sent := SendTimeout(x, fate.send, rest, calm);
        if sent {
          Remove(m, fate.answered, calm);
        }
      case Corrupt(_) =>
        Purge(m, rest, calm);
        Remove(m, fate.answered, calm);
      case Odd(_) =>
        Skip(m, rest, calm);
    }

    method SendTimeout(x: Session, send: Call, ghost rest: seq<Member>, ghost calm: bool) returns (ok: bool)
      requires Valid() && poller == Working([Live(x)] + rest)
      modifies this
      ensures Valid() && old(trace) <= trace && ok == send.Ok?
      ensures ok ==> poller.Waiting? && poller.member == Live(x) && poller.todo == rest
                     && poller.r in requests && requests[poller.r] == Removing(Live(x))
      ensures !ok ==> poller == Working(rest)
      ensures PollPart(trace) == PollPart(old(trace)) + [PollSend(0, send)]
      ensures calm ==> topic == old(topic) + (if send.Took() then [Event(x, TimedOut)] else [])
      ensures calm ==> active == old(active) && clock == old(clock)
    {
      AwaitInPoll(calm);
      hide Init, Legal, Exec, RequestPart, PollPart, Lists, Put;
      assert ([Live(x)] + rest)[1..] == rest;
      ghost var before, r := Now(), FreshId(requests);
      if send.Took() {
        topic := topic + [Event(x, TimedOut)];
      }
      Record(before, PollSend(r, send), 0);
      ok := send.Ok?;
    }

    /** The ZREM of a member that is not JSON is sent without an event. */
    method Purge(m: Member, ghost rest: seq<Member>, ghost calm: bool)
      requires Valid() && poller == Working([m] + rest) && m.Corrupt?
      modifies this
      ensures Valid() && old(trace) <= trace && poller.Waiting? && poller.member == m && poller.todo == rest
      ensures poller.r in requests && requests[poller.r] == Removing(m)
      ensures PollPart(trace) == PollPart(old(trace)) + [PollPurge(0)]
      ensures calm ==> topic == old(topic) && active == old(active) && clock == old(clock)
    {
      AwaitInPoll(calm);
      hide Init, Legal, Exec, RequestPart, PollPart, Lists, Put;
      assert ([m] + rest)[1..] == rest;
      Record(Now(), PollPurge(FreshId(requests)), 0);
    }

    method Skip(m: Member, ghost rest: seq<Member>, ghost calm: bool)
      requires Valid() && poller == Working([m] + rest) && m.Odd?
      modifies this
      ensures Valid() && old(trace) <= trace && poller == Working(rest)
      ensures PollPart(trace) == PollPart(old(trace)) + [PollSkip]
      ensures calm ==> topic == old(topic) && active == old(active) && clock == old(clock)
    {
      AwaitInPoll(calm);
      hide Init, Legal, Exec, RequestPart, PollPart, Lists, Put;
      assert ([m] + rest)[1..] == rest;
      Record(Now(), PollSkip, 0);
    }

    /** One round of the poller: whatever else goes on, it takes the steps its fate allows for every listed member, a
        failing one never holding back the others, unless purging a member that is not JSON raises. In a calm round
        the set afterwards is what was there but for the expired members that were sent and removed, and the topic
        has one more event for each session sent. */
    method PollPass(listed: bool, fates: Member -> Fate, ghost calm: bool) returns (order: seq<Member>, alive: bool)
      requires Valid() && poller.Resting?
      modifies this
      ensures Valid() && old(trace) <= trace
      ensures alive == Lives(order, listed, fates) && poller == if alive then Resting else Dead
      ensures PollPart(trace) == PollPart(old(trace)) + Round(order, listed, fates)
      ensures calm && listed ==> Lists(order, old(active), old(clock).Floor)
      ensures calm && listed && Survives(order, fates) ==>
                && active == Left(old(active), order, fates)
                && topic == old(topic) + AllTimeouts(order, fates)
    {
      hide Init, Can, Apply, Legal, Exec, RequestPart, PollPart, Lists, Left, Survives, AllTimeouts, HandlingAll;
      alive := false;
      order := Fetch(listed, calm);
      if listed {
        alive := ProcessAll(order, fates, calm);
      }
    }

    /** The clock, then the expired members; a read that raises ends the poller. */
    method Fetch(listed: bool, ghost calm: bool) returns (order: seq<Member>)
      requires Valid() && poller.Resting?
      modifies this
      ensures Valid() && old(trace) <= trace && poller == if listed then Working(order) else Dead
      ensures PollPart(trace)
              == PollPart(old(trace)) + [PollClock] + [if listed then PollList(order) else PollerDies]
      ensures calm ==> active == old(active) && topic == old(topic)
      ensures calm && listed ==> Lists(order, old(active), old(clock).Floor)
    {
      hide Init, Legal, Exec, RequestPart, PollPart, Lists, Put;
      var now := ReadNow();
      AwaitInPoll(calm);
      order := [];
      if listed {
        order := ZRange(now);
      }
      Record(Now(), if listed then PollList(order) else PollerDies, 0);
    }

    method ReadNow() returns (now: int)
      requires Valid() && poller.Resting?
      modifies this
      ensures Valid() && old(trace) <= trace && now == clock.Floor && poller == Clocked(now)
      ensures PollPart(trace) == PollPart(old(trace)) + [PollClock]
      ensures active == old(active) && topic == old(topic) && clock == old(clock)
    {
      hide Init, Legal, Exec, RequestPart, PollPart, Lists, Put;
      now := clock.Floor;
      Record(Now(), PollClock, 0);
    }

    method ProcessAll(order: seq<Member>, fates: Member -> Fate, ghost calm: bool) returns (alive: bool)
      requires Valid() && poller == Working(order)
      modifies this
      ensures Valid() && old(trace) <= trace
      ensures alive == Survives(order, fates) && poller == if alive then Resting else Dead
      ensures PollPart(trace) == PollPart(old(trace)) + HandlingAll(order, fates)
      ensures calm && alive ==>
                active == Left(old(active), order, fates) && topic == old(topic) + AllTimeouts(order, fates)
    {
      hide Init, Can, Apply, Legal, Exec, RequestPart, PollPart, Handling, HandlingAll, AllTimeouts;
      hide Left, Survives, Cleared, Timeouts;
      var k := 0;
      ghost var done: seq<Step> := [];
      while k < |order|
        invariant 0 <= k <= |order| && Valid() && old(trace) <= trace
        invariant poller == Working(order[k..])
        invariant PollPart(trace) == PollPart(old(trace)) + done
        invariant done + HandlingAll(order[k..], fates) == HandlingAll(order, fates)
        invariant Survives(order, fates) <==> Survives(order[k..], fates)
        invariant calm ==> Left(active, order[k..], fates) == Left(old(active), order, fates)
        invariant calm ==> topic + AllTimeouts(order[k..], fates) == old(topic) + AllTimeouts(order, fates)
      {
        ghost var rest := order[k..];
        assert rest == [order[k]] + order[k + 1..] && rest[1..] == order[k + 1..];
        AllStep(active, rest, fates);
        Process(order[k], fates(order[k]), order[k + 1..], calm);
        done := done + Handling(order[k], fates(order[k]));
        if order[k].Corrupt? && !fates(order[k]).answered {
          return false;
        }
        k := k + 1;
      }
      assert order[k..] == [];
      AllDone(active, fates);
      Rest();
      alive := true;
    }

    method Rest()
      requires Valid() && poller == Working([])
      modifies this
      ensures Valid() && old(trace) <= trace && poller == Resting
      ensures PollPart(trace) == PollPart(old(trace)) + [PollRest]
      ensures active == old(active) && topic == old(topic)
    {
      hide Init, Legal, Exec, RequestPart, PollPart, Lists, Put;
      Record(Now(), PollRest, 0);
    }

    /** As many rounds as asked for, each with all its steps, unless one of them ends the poller. */
    method PollExpiredSessions(listed: nat -> bool, fates: nat -> Member -> Fate, rounds: nat)
      returns (ghost orders: seq<seq<Member>>)
      requires Valid() && poller.Resting?
      modifies this
      ensures Valid() && old(trace) <= trace
      ensures PollPart(trace) == PollPart(old(trace)) + Rounds(orders, listed, fates)
      ensures forall k | 0 <= k < |orders| - 1 :: Lives(orders[k], listed(k), fates(k))
      ensures if poller.Dead? then 0 < |orders| <= rounds && !Lives(orders[|orders| - 1], listed(|orders| - 1),
                                                                    fates(|orders| - 1))
              else poller.Resting? && |orders| == rounds
      ensures forall x :: CountAt(inserts, x) <= Present(active, x) + Terminals(topic, x)
    {
      hide Init, Can, Apply, Legal, Exec, PollPart, Present, Terminals, Lives, Round;
      orders := [];
      var k, alive := 0, true;
      while k < rounds && alive
        invariant Valid() && old(trace) <= trace && poller == if alive then Resting else Dead
        invariant k == |orders| <= rounds && (!alive ==> k > 0)
        invariant PollPart(trace) == PollPart(old(trace)) + Rounds(orders, listed, fates)
        invariant forall j | 0 <= j < k :: Lives(orders[j], listed(j), fates(j)) <==> alive || j < k - 1
        decreases rounds - k
      {
        AwaitInPoll(false);
        ghost var done := orders;
        var order, survived := PollPass(listed(k), fates(k), false);
        orders := done + [order];
        assert orders[..k] == done;
        k, alive := k + 1, survived;
      }
      forall x ensures CountAt(inserts, x) <= Present(active, x) + Terminals(topic, x) {
        TerminalEventsNeverShort(origin, trace, x);
      }
    }
  }

  ghost function FreshId(requests: map<Id, Request>): (r: Id)
    ensures r !in requests
  {
    Above(requests.Keys)
  }

  ghost function Above(ids: set<Id>): (n: Id)
    ensures forall r <- ids :: r < n
  {
    if ids == {} then 0 else
      var r :| r in ids;
      var n := Above(ids - {r});
      assert forall k <- ids :: k == r || k in ids - {r};
      if r < n then n else r + 1
  }
}
