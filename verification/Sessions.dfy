/** Listening sessions: a sorted set of expiry times that heartbeats extend, stops remove and a single poller clears,
    each of them talking to Kafka first and to Redis afterwards, with anything happening in between. */
module Sessions {
  import opened Basics

  datatype Session = Session(track: string, user: string)

  /** A member of `active_sessions`: the JSON text of a session, text that is not JSON, or JSON without the two
      names the poller reads. */
  datatype Member = Live(session: Session) | Corrupt(text: string) | Odd(text: string)

  datatype Status = Playing | Stopped | TimedOut

  datatype Event = Event(session: Session, status: Status)

  type Id = nat

  /** A request under way: a ping whose event is acknowledged, a ping whose ZADD is on its way with the time it read,
      or a ZREM on its way. */
  datatype Request =
    | Acked(session: Session)
    | Adding(session: Session, read: real)
    | Removing(member: Member)

  datatype Poller =
    | Resting
    | Clocked(now: int)
    | Working(todo: seq<Member>)
    | Waiting(r: Id, member: Member, todo: seq<Member>)
    | Dead

  /** `unsure` holds the events whose send raised an error; the broker may still write them. The last two fields are
      bookkeeping: how often each session was inserted, and the time read by the ping whose ZADD landed last. */
  datatype State = State(
    active: map<Member, int>, topic: seq<Event>, unsure: set<Event>, clock: real, requests: map<Id, Request>,
    poller: Poller, inserts: map<Session, nat>, lastRead: map<Session, real>)

  datatype Step =
    | Tick(to: real)
    | PingSend(r: Id, x: Session, call: Call)
    | PingRead(r: Id)
    | StopSend(r: Id, x: Session, call: Call)
    | Land(r: Id)                             // Redis carries a command out
    | Drop(r: Id)                             // a request dies or its command is lost
    | LateWrite(e: Event)                     // the broker writes an event whose send had raised an error
    | PollClock
    | PollList(order: seq<Member>)
    | PollSend(r: Id, call: Call)
    | PollPurge(r: Id)                        // ZREM of a member that is not JSON
    | PollSkip                                // a member that cannot be processed stays
    | PollNext(answered: bool)                // the ZREM was answered, or raised
    | PollRest
    | PollerDies
    | PollerStarts

  const LEASE := 20

  /** int(time.time()) + 20 */
  function Expiry(read: real): int {
    read.Floor + LEASE
  }

  predicate Expired(active: map<Member, int>, m: Member, now: int) {
    m in active && 0 <= active[m] <= now
  }

  /** ZRANGE active_sessions 0 now BYSCORE */
  ghost predicate Lists(order: seq<Member>, active: map<Member, int>, now: int) {
    && (forall m :: m in order <==> Expired(active, m, now))
    && (forall i, j | 0 <= i < j < |order| :: order[i] != order[j])
  }

  ghost predicate Can(s: State, step: Step) {
    match step
    case Tick(to) => s.clock <= to
    case PingSend(r, _, _) => r !in s.requests
    case PingRead(r) => r in s.requests && s.requests[r].Acked?
    case StopSend(r, _, _) => r !in s.requests
    case Land(r) => r in s.requests && !s.requests[r].Acked?
    case Drop(r) => r in s.requests
    case LateWrite(e) => e in s.unsure
    case PollClock => s.poller.Resting?
    case PollList(order) => s.poller.Clocked? && Lists(order, s.active, s.poller.now)
    case PollSend(r, _) => s.poller.Working? && s.poller.todo != [] && s.poller.todo[0].Live? && r !in s.requests
    case PollPurge(r) => s.poller.Working? && s.poller.todo != [] && s.poller.todo[0].Corrupt? && r !in s.requests
    case PollSkip => s.poller.Working? && s.poller.todo != [] && s.poller.todo[0].Odd?
    case PollNext(answered) => s.poller.Waiting? && (answered ==> s.poller.r !in s.requests)
    case PollRest => s.poller == Working([])
    case PollerDies => true
    case PollerStarts => s.poller.Dead?
  }

  function Put(active: map<Member, int>, q: Request): map<Member, int>
    requires !q.Acked?
  {
    if q.Adding? then active[Live(q.session) := Expiry(q.read)] else active - {q.member}
  }

  /** Starts a request unless its event could not be sent. */
  function Start(requests: map<Id, Request>, r: Id, q: Request, call: Call): map<Id, Request> {
    if call.Ok? then requests[r := q] else requests
  }

  function Publish(topic: seq<Event>, e: Event, call: Call): seq<Event> {
    if call.Took() then topic + [e] else topic
  }

  function Doubt(unsure: set<Event>, e: Event, call: Call): set<Event> {
    if call.Ok? then unsure else unsure + {e}
  }

  function Apply(s: State, step: Step): State
    requires Can(s, step)
  {
    match step
    case Tick(to) => s.(clock := to)
    case PingSend(r, x, call) =>
      s.(topic := Publish(s.topic, Event(x, Playing), call), unsure := Doubt(s.unsure, Event(x, Playing), call),
         requests := Start(s.requests, r, Acked(x), call))
    case PingRead(r) => s.(requests := s.requests[r := Adding(s.requests[r].session, s.clock)])
    case StopSend(r, x, call) =>
      s.(topic := Publish(s.topic, Event(x, Stopped), call), unsure := Doubt(s.unsure, Event(x, Stopped), call),
         requests := Start(s.requests, r, Removing(Live(x)), call))
    case Land(r) =>
      var q := s.requests[r];
      s.(requests := s.requests - {r}, active := Put(s.active, q),
         inserts := if q.Adding? && Live(q.session) !in s.active
                    then s.inserts[q.session := CountAt(s.inserts, q.session) + 1] else s.inserts,
         lastRead := if q.Adding? then s.lastRead[q.session := q.read] else s.lastRead)
    case Drop(r) => s.(requests := s.requests - {r})
    case LateWrite(e) => s.(topic := s.topic + [e])
    case PollClock => s.(poller := Clocked(s.clock.Floor))
    case PollList(order) => s.(poller := Working(order))
    case PollSend(r, call) =>
      var m, rest := s.poller.todo[0], s.poller.todo[1..];
      s.(topic := Publish(s.topic, Event(m.session, TimedOut), call),
         unsure := Doubt(s.unsure, Event(m.session, TimedOut), call),
         requests := Start(s.requests, r, Removing(m), call),
         poller := if call.Ok? then Waiting(r, m, rest) else Working(rest))
    case PollPurge(r) =>
      var m, rest := s.poller.todo[0], s.poller.todo[1..];
      s.(requests := s.requests[r := Removing(m)], poller := Waiting(r, m, rest))
    case PollSkip => s.(poller := Working(s.poller.todo[1..]))
    case PollNext(answered) =>
      s.(poller := if answered || !s.poller.member.Corrupt? then Working(s.poller.todo) else Dead)
    case PollRest => s.(poller := Resting)
    case PollerDies => s.(poller := Dead)
    case PollerStarts => s.(poller := Resting)
  }

  /** Sessions left over from an earlier deployment count as inserted once. */
  ghost predicate Init(s: State) {
    && s == State(s.active, [], {}, s.clock, map[], Resting, s.inserts, map[])
    && s.clock >= 0.0
    && forall x: Session :: CountAt(s.inserts, x) == Present(s.active, x)
  }

  ghost predicate Legal(s: State, run: seq<Step>)
    decreases |run|
  {
    run == [] || (Can(s, run[0]) && Legal(Apply(s, run[0]), run[1..]))
  }

  ghost function Exec(s: State, run: seq<Step>): State
    requires Legal(s, run)
    decreases |run|
  {
    if run == [] then s else Exec(Apply(s, run[0]), run[1..])
  }

  lemma {:induction false} OneMore(s: State, run: seq<Step>, step: Step)
    requires Legal(s, run) && Can(Exec(s, run), step)
    ensures Legal(s, run + [step]) && Exec(s, run + [step]) == Apply(Exec(s, run), step)
    decreases |run|
  {
    hide Can, Apply;
    if run == [] {
      assert (run + [step])[1..] == [];
    } else {
      OneMore(Apply(s, run[0]), run[1..], step);
      assert (run + [step])[1..] == run[1..] + [step];
    }
  }

  lemma {:induction false} LegalPrefix(s: State, run: seq<Step>, step: Step)
    requires Legal(s, run + [step])
    ensures Legal(s, run) && Can(Exec(s, run), step) && Exec(s, run + [step]) == Apply(Exec(s, run), step)
    decreases |run|
  {
    hide Can, Apply;
    if run == [] {
      assert (run + [step])[1..] == [] && (run + [step])[0] == step;
    } else {
      assert (run + [step])[0] == run[0] && (run + [step])[1..] == run[1..] + [step];
      LegalPrefix(Apply(s, run[0]), run[1..], step);
    }
  }

  // ---------------------------------------------------------------- terminal events are never short

  function Present(active: map<Member, int>, x: Session): nat {
    if Live(x) in active then 1 else 0
  }

  predicate Terminal(e: Event, x: Session) {
    e.session == x && e.status != Playing
  }

  /** How many stopped and stopped_by_timeout events the topic holds for a session. */
  function Terminals(topic: seq<Event>, x: Session): nat {
    if topic == [] then 0
    else Terminals(topic[..|topic| - 1], x) + if Terminal(topic[|topic| - 1], x) then 1 else 0
  }

  lemma TerminalsMore(topic: seq<Event>, e: Event, call: Call, x: Session)
    ensures Terminals(Publish(topic, e, call), x)
            == Terminals(topic, x) + if call.Took() && Terminal(e, x) then 1 else 0
  {
  }

  /** The ZREM commands for a session that are on their way. */
  ghost function Removals(requests: map<Id, Request>, x: Session): set<Id> {
    set r | r in requests && requests[r] == Removing(Live(x))
  }

  lemma RemovalsPut(requests: map<Id, Request>, r: Id, q: Request, x: Session)
    requires r !in requests
    ensures |Removals(requests[r := q], x)| == |Removals(requests, x)| + if q == Removing(Live(x)) then 1 else 0
  {
    var more := requests[r := q];
    if q == Removing(Live(x)) {
      assert Removals(more, x) == Removals(requests, x) + {r};
    } else {
      assert Removals(more, x) == Removals(requests, x);
    }
  }

  lemma RemovalsStart(requests: map<Id, Request>, r: Id, q: Request, call: Call, x: Session)
    requires r !in requests
    ensures |Removals(Start(requests, r, q, call), x)|
            == |Removals(requests, x)| + if call.Ok? && q == Removing(Live(x)) then 1 else 0
  {
    hide Removals;
    RemovalsPut(requests, r, q, x);
  }

  lemma RemovalsEnd(requests: map<Id, Request>, r: Id, x: Session)
    requires r in requests
    ensures |Removals(requests - {r}, x)|
            == |Removals(requests, x)| - if requests[r] == Removing(Live(x)) then 1 else 0
  {
    var fewer := Removals(requests - {r}, x);
    if requests[r] == Removing(Live(x)) {
      assert Removals(requests, x) == fewer + {r};
    } else {
      assert Removals(requests, x) == fewer;
    }
  }

  /** Each insertion, and each removal on its way, has its own terminal event, but for the session present now. */
  ghost predicate Accounted(s: State, x: Session) {
    CountAt(s.inserts, x) + |Removals(s.requests, x)| <= Present(s.active, x) + Terminals(s.topic, x)
  }

  lemma RequestKeepsAccount(s: State, step: Step, x: Session)
    requires Can(s, step) && Accounted(s, x) && (step.PingSend? || step.StopSend? || step.PollSend? || step.PollPurge?)
    ensures Accounted(Apply(s, step), x)
  {
    hide Terminals, Removals, Start, Publish, Lists;
    match step
    case PingSend(r, y, call) =>
      RemovalsStart(s.requests, r, Acked(y), call, x);
      TerminalsMore(s.topic, Event(y, Playing), call, x);
    case StopSend(r, y, call) =>
      RemovalsStart(s.requests, r, Removing(Live(y)), call, x);
      TerminalsMore(s.topic, Event(y, Stopped), call, x);
    case PollSend(r, call) =>
      RemovalsStart(s.requests, r, Removing(s.poller.todo[0]), call, x);
      TerminalsMore(s.topic, Event(s.poller.todo[0].session, TimedOut), call, x);
    case PollPurge(r) => PurgeKeepsAccount(s, r, x);
  }

  lemma PurgeKeepsAccount(s: State, r: Id, x: Session)
    requires Can(s, PollPurge(r)) && Accounted(s, x)
    ensures Accounted(Apply(s, PollPurge(r)), x)
  {
    hide Terminals, Removals, Lists;
    RemovalsStart(s.requests, r, Removing(s.poller.todo[0]), Ok, x);
  }

  lemma LandKeepsAccount(s: State, r: Id, x: Session)
    requires Can(s, Land(r)) && Accounted(s, x)
    ensures Accounted(Apply(s, Land(r)), x)
  {
    hide Terminals, Removals, Lists;
    RemovalsEnd(s.requests, r, x);
  }

  lemma ReadKeepsAccount(s: State, r: Id, x: Session)
    requires Can(s, PingRead(r)) && Accounted(s, x)
    ensures Accounted(Apply(s, PingRead(r)), x)
  {
    hide Terminals, Lists;
    assert Removals(Apply(s, PingRead(r)).requests, x) == Removals(s.requests, x);
  }

  lemma StepKeepsAccount(s: State, step: Step, x: Session)
    requires Can(s, step) && Accounted(s, x)
    ensures Accounted(Apply(s, step), x)
  {
    if step.PingSend? || step.StopSend? || step.PollSend? || step.PollPurge? {
      RequestKeepsAccount(s, step, x);
    } else if step.PingRead? {
      ReadKeepsAccount(s, step.r, x);
    } else if step.Land? {
      LandKeepsAccount(s, step.r, x);
    } else if step.Drop? {
      hide Terminals, Removals, Lists;
      RemovalsEnd(s.requests, step.r, x);
    } else if step.LateWrite? {
      hide Terminals, Removals, Lists;
      TerminalsMore(s.topic, step.e, Ok, x);
    } else {
      hide Terminals, Removals, Lists;
    }
  }

  lemma {:induction false} RunKeepsAccount(s: State, run: seq<Step>, x: Session)
    requires Legal(s, run) && Accounted(s, x)
    ensures Accounted(Exec(s, run), x)
    decreases |run|
  {
    hide Can, Apply, Accounted;
    if run != [] {
      StepKeepsAccount(s, run[0], x);
      RunKeepsAccount(Apply(s, run[0]), run[1..], x);
    }
  }

  /** However pings, stops and the poller interleave, fail and restart, a session is inserted at most as often as
      it has terminal events in the topic, plus once if it is present now. */
  lemma TerminalEventsNeverShort(s0: State, run: seq<Step>, x: Session)
    requires Init(s0) && Legal(s0, run)
    ensures var s := Exec(s0, run); CountAt(s.inserts, x) <= Present(s.active, x) + Terminals(s.topic, x)
  {
    hide Can, Apply, Legal, Exec;
    assert Removals(s0.requests, x) == {};
    RunKeepsAccount(s0, run, x);
  }

  // ---------------------------------------------------------------- what stands in the topic

  function Copies(topic: seq<Event>, e: Event): nat {
    if topic == [] then 0 else Copies(topic[..|topic| - 1], e) + if topic[|topic| - 1] == e then 1 else 0
  }

  /** The step puts `e` into the topic: a ping says that its session is playing, a stop that it has stopped, the poller
      that the listed session was stopped by timeout; and a late write repeats what was sent. */
  predicate Writes(s: State, step: Step, e: Event) {
    match step
    case PingSend(_, x, call) => e.session == x && e.status.Playing? && call.Took()
    case StopSend(_, x, call) => e.session == x && e.status.Stopped? && call.Took()
    case PollSend(_, call) =>
      && s.poller.Working? && s.poller.todo != [] && s.poller.todo[0] == Live(e.session)
      && e.status.TimedOut? && call.Took()
    case LateWrite(late) => late == e
    case _ => false
  }

  ghost function WritesIn(s: State, run: seq<Step>, e: Event): nat
    requires Legal(s, run)
    decreases |run|
  {
    if run == [] then 0
    else (if Writes(s, run[0], e) then 1 else 0) + WritesIn(Apply(s, run[0]), run[1..], e)
  }

  lemma StepWrites(s: State, step: Step, e: Event)
    requires Can(s, step)
    ensures s.topic <= Apply(s, step).topic
    ensures Copies(Apply(s, step).topic, e) == Copies(s.topic, e) + if Writes(s, step, e) then 1 else 0
  {
    hide Lists, Put;
  }

  /** Over any run the topic gains an event exactly as often as a ping, a stop, the poller or a late write puts it
      there. */
  lemma {:induction false} TopicExact(s: State, run: seq<Step>, e: Event)
    requires Legal(s, run)
    ensures s.topic <= Exec(s, run).topic
    ensures Copies(Exec(s, run).topic, e) == Copies(s.topic, e) + WritesIn(s, run, e)
    decreases |run|
  {
    hide Can, Apply, Writes;
    if run != [] {
      StepWrites(s, run[0], e);
      TopicExact(Apply(s, run[0]), run[1..], e);
    }
  }

  // ---------------------------------------------------------------- what ends the poller

  /** A running poller ends exactly if its process dies, its read raises, or the removal of a member that is not JSON
      raises; any other failure leaves it running. */
  lemma PollerEndsIff(s: State, step: Step)
    requires Can(s, step) && !s.poller.Dead?
    ensures Apply(s, step).poller.Dead? <==>
              step.PollerDies? || (step.PollNext? && !step.answered && s.poller.member.Corrupt?)
  {
    hide Lists, Put;
  }

  // ---------------------------------------------------------------- heartbeats keep a session alive

  /** A session that was not in the set at the start expires 20 seconds after the second its last landed heartbeat
      read, and the poller's second is not in the future. */
  predicate Leased(s: State, x: Session) {
    && (Live(x) in s.active ==> x in s.lastRead && s.active[Live(x)] == Expiry(s.lastRead[x]))
    && (s.poller.Clocked? ==> s.poller.now <= s.clock.Floor)
  }

  lemma StepKeepsLease(s: State, step: Step, x: Session)
    requires Can(s, step) && Leased(s, x)
    ensures Leased(Apply(s, step), x)
  {
  }

  lemma {:induction false} RunKeepsLease(s: State, run: seq<Step>, x: Session)
    requires Legal(s, run) && Leased(s, x)
    ensures Leased(Exec(s, run), x)
    decreases |run|
  {
    hide Can, Apply, Leased;
    if run != [] {
      StepKeepsLease(s, run[0], x);
      RunKeepsLease(Apply(s, run[0]), run[1..], x);
    }
  }

  /** No more than `d` seconds have passed since the last landed heartbeat read the clock. */
  predicate Punctual(s: State, x: Session, d: real) {
    x in s.lastRead ==> s.clock <= s.lastRead[x] + d
  }

  /** A session that started outside the set is listed as expired although its heartbeats landed within `d` seconds. */
  ghost predicate Evicted(s0: State, run: seq<Step>, order: seq<Member>, x: Session, d: real) {
    && Init(s0) && Live(x) !in s0.active && Legal(s0, run) && Punctual(Exec(s0, run), x, d)
    && Can(Exec(s0, run), PollList(order)) && Live(x) in order
  }

  /** In no interleaving does a poll list a session as expired while its heartbeats keep landing within 19 seconds. */
  lemma HeartbeatsKeepSession(s0: State, run: seq<Step>, order: seq<Member>, x: Session)
    ensures !Evicted(s0, run, order, x, 19.0)
  {
    if Evicted(s0, run, order, x, 19.0) {
      RunKeepsLease(s0, run, x);
      assert false;
    }
  }

  /** Within 19 seconds is the longest promise the two truncations and the lease of 20 seconds allow. */
  lemma NineteenIsExact(d: real)
    ensures (forall s0, run, order, x :: !Evicted(s0, run, order, x, d)) <==> d <= 19.0
  {
    if d <= 19.0 {
      forall s0, run, order, x ensures !Evicted(s0, run, order, x, d) {
        HeartbeatsKeepSession(s0, run, order, x);
      }
    } else {
      var s0, run, order, x := LateHeartbeat(d);
    }
  }

  function Quiet(clock: real): State {
    State(map[], [], {}, clock, map[], Resting, map[], map[])
  }

  /** With a longer allowance a heartbeat that reads the clock late in its second is listed before it is due. */
  lemma LateHeartbeat(d: real) returns (s0: State, run: seq<Step>, order: seq<Member>, x: Session)
    requires d > 19.0
    ensures Evicted(s0, run, order, x, d)
  {
    x := Session("t", "u");
    var read := if d >= 20.0 then 0.0 else 20.0 - d;
    s0 := Quiet(read);
    order := [Live(x)];
    run := OneBeat(s0, x);
    var s1 := Exec(s0, run);
    hide Legal, Exec;
    run := Two(s0, run, Tick(read + d), PollClock);
    assert Lists(order, s1.active, (read + d).Floor) by {
      assert s1.active == map[Live(x) := Expiry(read)];
    }
  }

  lemma Two(s0: State, run: seq<Step>, a: Step, b: Step) returns (more: seq<Step>)
    requires Legal(s0, run) && Can(Exec(s0, run), a) && Can(Apply(Exec(s0, run), a), b)
    ensures Legal(s0, more) && Exec(s0, more) == Apply(Apply(Exec(s0, run), a), b)
  {
    hide Can, Apply, Legal, Exec;
    OneMore(s0, run, a);
    OneMore(s0, run + [a], b);
    more := run + [a] + [b];
  }

  /** One heartbeat, from its event to its ZADD. */
  lemma OneBeat(s0: State, x: Session) returns (run: seq<Step>)
    requires s0 == Quiet(s0.clock)
    ensures Legal(s0, run)
    ensures Exec(s0, run) == State(map[Live(x) := Expiry(s0.clock)], [Event(x, Playing)], {}, s0.clock, map[],
                                   Resting, map[x := 1], map[x := s0.clock])
  {
    run := Nothing(s0);
    hide Legal, Exec;
    run := Two(s0, run, PingSend(0, x, Ok), PingRead(0));
    OneMore(s0, run, Land(0));
    run := run + [Land(0)];
    assert Exec(s0, run).requests == map[];
  }

  lemma Nothing(s0: State) returns (run: seq<Step>)
    ensures Legal(s0, run) && Exec(s0, run) == s0
  {
    run := [];
  }
}
