/** What one track of a `/stats` answer shows while events are being processed: how the two counts compare, in every
    run, in prompt runs, and in prompt runs without errors. */
module ListenerCounts {
  import opened Basics
  import opened Presence
  import opened Statistics
  import opened Listeners

  // ---------------------------------------------------------------- every run

  predicate IsBeatOf(c: Command, t: Track, u: Session) {
    c.track == t && c.op.Beat? && c.op.session == u
  }

  /** Some ZADD of the session on the track was carried out. */
  predicate Beaten(log: seq<Command>, t: Track, u: Session) {
    exists i :: 0 <= i < |log| && IsBeatOf(log[i], t, u)
  }

  predicate NoDayLeave(log: seq<Command>) {
    forall i | 0 <= i < |log| && log[i].which.Day? :: !log[i].op.Leave?
  }

  /** The listener of the day was pruned since its last second ZADD: its stamp was a day old. */
  ghost predicate Aged(log: seq<Command>, t: Track, u: Session) {
    var ops := OpsOf(log, Day, t);
    exists i :: IsLast(ops, u, i) && ops[i].Beat? && !Survives(ops, i, DAY_WINDOW)
  }

  lemma LastMore(ops: seq<Op>, op: Op, u: Session, i: int)
    requires IsLast(ops, u, i) && !op.About(u)
    ensures IsLast(ops + [op], u, i) && (ops + [op])[i] == ops[i]
  {
  }

  /** A session that was beaten and is not torn has its second ZADD as its last command on the day set. */
  lemma {:induction false} LastDayBeat(log: seq<Command>, t: Track, u: Session) returns (i: int)
    requires NoDayLeave(log) && Beaten(log, t, u) && !Torn(log, t, u)
    ensures IsLast(OpsOf(log, Day, t), u, i) && OpsOf(log, Day, t)[i].Beat?
    decreases |log|
  {
    var log', c := log[..|log| - 1], log[|log| - 1];
    assert log' + [c] == log;
    var ops := OpsOf(log', Day, t);
    if IsBeatOf(c, t, u) {
      i := |ops|;
    } else {
      var k :| 0 <= k < |log| && IsBeatOf(log[k], t, u);
      assert IsBeatOf(log'[k], t, u);
      i := LastDayBeat(log', t, u);
      if c.which.Day? && c.track == t {
        LastMore(ops, c.op, u, i);
      } else {
        assert ops + [] == ops;
      }
    }
  }

  lemma DayHoldsUnlessAged(log: seq<Command>, t: Track, u: Session)
    requires NoDayLeave(log) && Beaten(log, t, u)
    ensures u in SetOf(log, Day, t) || Torn(log, t, u) || Aged(log, t, u)
  {
    if !Torn(log, t, u) {
      var ops := OpsOf(log, Day, t);
      var i := LastDayBeat(log, t, u);
      FoldExact(ops, u, DAY_WINDOW);
      assert SetOf(log, Day, t) == Fold(ops, DAY_WINDOW);
      if Survives(ops, i, DAY_WINDOW) {
        assert LiveAt(ops, u, i, DAY_WINDOW);
      }
    }
  }

  /** Whoever is or was counted as a current listener was beaten, and the day set is never left. */
  ghost predicate Grounded(s: State) {
    && NoDayLeave(s.log)
    && (forall t, u | u in SetOf(s.log, Online, t) :: Beaten(s.log, t, u))
    && (forall r <- s.looks :: s.looks[r].next <= 3)
    && (forall r <- s.looks, u | s.looks[r].next == 3 && u in s.looks[r].seen :: Beaten(s.log, s.looks[r].track, u))
  }

  lemma BeatenMore(log: seq<Command>, c: Command, t: Track, u: Session)
    ensures Beaten(log, t, u) || IsBeatOf(c, t, u) ==> Beaten(log + [c], t, u)
  {
    var log' := log + [c];
    assert log'[|log|] == c;
    if Beaten(log, t, u) {
      var i :| 0 <= i < |log| && IsBeatOf(log[i], t, u);
      assert IsBeatOf(log'[i], t, u);
    }
  }

  lemma CarriedGrounds(s: State, c: Command)
    requires Grounded(s) && !(c.which.Day? && c.op.Leave?)
    ensures Grounded(s.(log := s.log + [c]))
  {
    hide SetOf, Beaten;
    var log' := s.log + [c];
    forall t, u | u in SetOf(log', Online, t) ensures Beaten(log', t, u) {
      SetAfter(s.log, c, Online, t);
      BeatenMore(s.log, c, t, u);
    }
    forall r <- s.looks, u | s.looks[r].next == 3 && u in s.looks[r].seen ensures Beaten(log', s.looks[r].track, u) {
      BeatenMore(s.log, c, s.looks[r].track, u);
    }
  }

  lemma StepGrounds(s: State, step: Step)
    requires Grounded(s) && Can(s, step)
    ensures Grounded(Do(s, step))
  {
    hide SetOf, Beaten, NoDayLeave, Commands;
    match step
    case Send(call) =>
      CommandsOf(s.consumer.event);
      if call.Took() {
        CarriedGrounds(s, Current(s.consumer));
      }
    case LookSend(r, call) =>
      if call.Took() && s.looks[r].next < 2 {
        CarriedGrounds(s, PruneCommand(s.looks[r]));
      }
    case _ =>
  }

  lemma {:induction false} RunGrounds(s: State, run: seq<Step>)
    requires Grounded(s) && Legal(s, run)
    ensures Grounded(Exec(s, run))
    decreases |run|
  {
    hide Can, Do, Grounded;
    if run != [] {
      StepGrounds(s, run[0]);
      RunGrounds(Do(s, run[0]), run[1..]);
    }
  }

  /** In every run at all, whoever the answer counts as a current listener is a listener of the day when those are
      counted, or its last heartbeat lacks its second ZADD, or its entry of the day was pruned meanwhile. */
  lemma AnswerAccounted(s0: State, run: seq<Step>, r: Id, u: Session)
    requires Init(s0) && Legal(s0, run) && Can(Exec(s0, run), Answer(r)) && u in Exec(s0, run).looks[r].seen
    ensures var s := Exec(s0, run);
            var t := s.looks[r].track;
            u in SetOf(s.log, Day, t) || Torn(s.log, t, u) || Aged(s.log, t, u)
  {
    hide Legal, Exec, SetOf, Torn, Aged, Beaten, NoDayLeave;
    StartGrounded(s0);
    RunGrounds(s0, run);
    var s := Exec(s0, run);
    DayHoldsUnlessAged(s.log, s.looks[r].track, u);
  }

  lemma StartGrounded(s: State)
    requires Init(s)
    ensures Grounded(s)
  {
  }

  // ---------------------------------------------------------------- prompt runs

  /** Counts compare as what is left of each set without the other. */
  lemma CountsCompare(a: set<Session>, b: set<Session>)
    ensures |a| - |b| == |a - b| - |b - a|
  {
    assert a == (a - b) + (a * b) && b == (b - a) + (a * b);
    assert |a| == |a - b| + |a * b| && |b| == |b - a| + |a * b|;
  }

  /** The sessions counted as current listeners whose last heartbeat has not reached the day set. */
  function Missing(log: seq<Command>, look: Request): set<Session> {
    set u | u in look.seen && Torn(log, look.track, u) && u !in SetOf(log, Day, look.track)
  }

  /** The answer is given less than half a day after the look began. */
  predicate Timely(s: State, r: Id) {
    r in s.looks && s.looks[r].next == 3 && s.clock < s.looks[r].now as real + HALF_DAY
  }

  /** In prompt runs online_now exceeds last_24h by exactly the sessions whose last heartbeat has not reached the day
      set, less the listeners of the day that are not current: so it exceeds it if and only if there are more of the
      former. */
  lemma AnswerExact(s0: State, run: seq<Step>, r: Id)
    requires Init(s0) && Legal(s0, run) && PromptRun(s0, run) && Timely(Exec(s0, run), r)
    ensures var s := Exec(s0, run); var look := s.looks[r]; var day := SetOf(s.log, Day, look.track).Keys;
            && look.seen - day == Missing(s.log, look)
            && |look.seen| - |day| == |Missing(s.log, look)| - |day - look.seen|
  {
    hide Legal, Exec, SetOf, Torn, PromptRun, Kept, BeatOk;
    var s := Exec(s0, run);
    var look := s.looks[r];
    InitInv(s0, look.track);
    RunKeepsInv(s0, run, look.track);
    assert LookOk(s.log, s.clock, look, look.track);
    var day := SetOf(s.log, Day, look.track).Keys;
    assert look.seen - day == Missing(s.log, look);
    CountsCompare(look.seen, day);
  }

  // ---------------------------------------------------------------- prompt runs without errors

  /** The consumer meets no error and does not crash. */
  predicate Smooth(step: Step) {
    (step.Send? ==> step.call.Ok?) && !step.Crash?
  }

  /** The consumer is between the two ZADDs of a heartbeat. */
  predicate InFlight(consumer: Consumer, t: Track, u: Session) {
    && consumer.Busy? && consumer.event.track == t && consumer.event.session == Some(u)
    && consumer.event.status == Playing && (consumer.next == 1 || consumer.next == 2)
  }

  /** Only the heartbeat in flight is torn. */
  ghost predicate TornInFlight(s: State) {
    forall t, u | Torn(s.log, t, u) :: InFlight(s.consumer, t, u)
  }

  lemma StepKeepsInFlight(s: State, step: Step)
    requires TornInFlight(s) && Can(s, step) && Smooth(step)
    ensures TornInFlight(Do(s, step))
  {
    hide Torn, SetOf, Commands;
    var s' := Do(s, step);
    if step.Send? {
      CommandsOf(s.consumer.event);
      forall t, u | Torn(s'.log, t, u) ensures InFlight(s'.consumer, t, u) {
        TornAfter(s.log, Current(s.consumer), t, u);
      }
    } else if step.LookSend? && s'.log != s.log {
      forall t, u | Torn(s'.log, t, u) ensures InFlight(s'.consumer, t, u) {
        TornAfter(s.log, PruneCommand(s.looks[step.r]), t, u);
      }
    }
  }

  lemma {:induction false} RunKeepsInFlight(s: State, run: seq<Step>)
    requires TornInFlight(s) && Legal(s, run) && forall i | 0 <= i < |run| :: Smooth(run[i])
    ensures TornInFlight(Exec(s, run))
    decreases |run|
  {
    hide Can, Do, TornInFlight, Smooth;
    if run != [] {
      StepKeepsInFlight(s, run[0]);
      RunKeepsInFlight(Do(s, run[0]), run[1..]);
    }
  }

  /** Without errors online_now exceeds last_24h by at most one, and it does so if and only if the consumer is between
      the two ZADDs of a heartbeat of this track, for a session that was counted and is not yet a listener of the day,
      while every listener of the day was counted as a current one. */
  lemma AnswerWithoutErrors(s0: State, run: seq<Step>, r: Id)
    requires Init(s0) && Legal(s0, run) && PromptRun(s0, run) && Timely(Exec(s0, run), r)
    requires forall i | 0 <= i < |run| :: Smooth(run[i])
    ensures var s := Exec(s0, run); var look := s.looks[r]; var day := SetOf(s.log, Day, look.track).Keys;
            && |look.seen| <= |day| + 1
            && (|look.seen| > |day|
                <==> exists u :: InFlight(s.consumer, look.track, u) && u in look.seen && u !in day && day <= look.seen)
  {
    hide Legal, Exec, SetOf, Torn, PromptRun, Smooth;
    AnswerExact(s0, run, r);
    StartInFlight(s0);
    RunKeepsInFlight(s0, run);
    var s := Exec(s0, run);
    var look := s.looks[r];
    OneMissing(s.consumer, look, Missing(s.log, look), SetOf(s.log, Day, look.track).Keys);
  }

  lemma StartInFlight(s: State)
    requires Init(s)
    ensures TornInFlight(s)
  {
  }

  lemma OneMissing(consumer: Consumer, look: Request, missing: set<Session>, day: set<Session>)
    requires look.seen - day == missing && |look.seen| - |day| == |missing| - |day - look.seen|
    requires forall u <- missing :: InFlight(consumer, look.track, u)
    ensures |look.seen| <= |day| + 1
    ensures |look.seen| > |day|
            <==> exists u :: InFlight(consumer, look.track, u) && u in look.seen && u !in day && day <= look.seen
  {
    if u :| u in missing {
      assert missing == {u};
      if |look.seen| > |day| {
        assert day - look.seen == {};
      }
      if day <= look.seen {
        assert day - look.seen == {};
      }
    } else {
      assert missing == {};
    }
  }

  // ---------------------------------------------------------------- runs in which the bound fails

  /** A heartbeat stamped at second 100. */
  function Heartbeat(t: Track, u: Session): PlaybackEvent {
    PlaybackEvent(t, Some(u), Playing, 100.0)
  }

  function Empty(): State {
    State([], 100.0, Free, map[])
  }

  /** The run is prompt and leads to a state. */
  ghost predicate LeadsTo(run: seq<Step>, s: State) {
    Legal(Empty(), run) && PromptRun(Empty(), run) && Exec(Empty(), run) == s
  }

  lemma {:induction false} PromptMore(s: State, run: seq<Step>, step: Step)
    requires Legal(s, run + [step]) && Legal(s, run) && PromptRun(s, run) && Prompt(Exec(s, run), step)
    ensures PromptRun(s, run + [step])
    decreases |run|
  {
    hide Can, Do, Prompt;
    if run == [] {
      assert (run + [step])[1..] == [];
    } else {
      assert (run + [step])[1..] == run[1..] + [step];
      PromptMore(Do(s, run[0]), run[1..], step);
    }
  }

  lemma Advance(run: seq<Step>, s: State, step: Step, s': State)
    requires LeadsTo(run, s) && Can(s, step) && Prompt(s, step) && Do(s, step) == s'
    ensures LeadsTo(run + [step], s')
  {
    hide Can, Do, Prompt, Legal, Exec, PromptRun;
    OneMore(Empty(), run, step);
    PromptMore(Empty(), run, step);
  }

  /** The sets of the track after one first ZADD and the two prunes of a look in the same second. */
  lemma OneBeatPruned(t: Track, u: Session)
    ensures var log := [Command(Online, t, Beat(u, 100.0))] + [Command(Online, t, Prune(100.0))]
                       + [Command(Day, t, Prune(100.0))];
            SetOf(log, Online, t).Keys == {u} && SetOf(log, Day, t).Keys == {}
  {
    var c0, c1 := Command(Online, t, Beat(u, 100.0)), Command(Online, t, Prune(100.0));
    var c2 := Command(Day, t, Prune(100.0));
    assert SetOf([], Online, t) == map[] && SetOf([], Day, t) == map[];
    assert [] + [c0] == [c0];
    hide SetOf;
    SetAfter([], c0, Online, t);
    SetAfter([c0], c1, Online, t);
    SetAfter([c0] + [c1], c2, Online, t);
    SetAfter([], c0, Day, t);
    SetAfter([c0], c1, Day, t);
    SetAfter([c0] + [c1], c2, Day, t);
    assert SetOf([c0], Online, t) == map[u := 100.0];
    assert SetOf([c0] + [c1], Online, t) == map[u := 100.0];
  }

  /** A look that falls between the first ZADD of a heartbeat and its second counts one current listener and none of
      the day. */
  lemma LookInBetween(run: seq<Step>, consumer: Consumer, t: Track, u: Session) returns (more: seq<Step>, s: State)
    requires LeadsTo(run, State([Command(Online, t, Beat(u, 100.0))], 100.0, consumer, map[]))
    ensures LeadsTo(more, s) && more == run + [Ask(0, t)] + [LookSend(0, Ok)] + [LookSend(0, Ok)] + [LookSend(0, Ok)]
    ensures s.consumer == consumer && Timely(s, 0) && s.looks[0].track == t
    ensures |s.looks[0].seen| == 1 && |SetOf(s.log, Day, t)| == 0
  {
    hide LeadsTo, SetOf;
    var s1 := State([Command(Online, t, Beat(u, 100.0))], 100.0, consumer, map[]);
    var s2 := s1.(looks := map[0 := Request(t, 100, 0, {})]);
    var s3 := s1.(log := s1.log + [Command(Online, t, Prune(100.0))], looks := map[0 := Request(t, 100, 1, {})]);
    var s4 := s3.(log := s3.log + [Command(Day, t, Prune(100.0))], looks := map[0 := Request(t, 100, 2, {})]);
    OneBeatPruned(t, u);
    s := s4.(looks := map[0 := Request(t, 100, 3, {u})]);
    Advance(run, s1, Ask(0, t), s2);
    more := run + [Ask(0, t)];
    Advance(more, s2, LookSend(0, Ok), s3);
    more := more + [LookSend(0, Ok)];
    Advance(more, s3, LookSend(0, Ok), s4);
    more := more + [LookSend(0, Ok)];
    Advance(more, s4, LookSend(0, Ok), s);
    more := more + [LookSend(0, Ok)];
    assert |SetOf(s.log, Day, t)| == |SetOf(s.log, Day, t).Keys|;
  }

  lemma NothingDone()
    ensures LeadsTo([], Empty())
  {
  }

  /** Without any error, `/stats` called between the two ZADDs of a first heartbeat reports one current listener and
      none of the day. */
  lemma CallInBetweenExceeds(t: Track, u: Session) returns (run: seq<Step>, s: State)
    requires u != ""
    ensures Init(Empty()) && LeadsTo(run, s) && forall i | 0 <= i < |run| :: Smooth(run[i])
    ensures Timely(s, 0) && s.looks[0].track == t && |s.looks[0].seen| == 1 && |SetOf(s.log, Day, t)| == 0
  {
    hide LeadsTo;
    var e, c0 := Heartbeat(t, u), Command(Online, t, Beat(u, 100.0));
    var s1 := Empty().(consumer := Busy(e, 0));
    var s2 := State([c0], 100.0, Busy(e, 1), map[]);
    NothingDone();
    assert [] + [Take(e)] == [Take(e)] && [] + [c0] == [c0];
    Advance([], Empty(), Take(e), s1);
    Advance([Take(e)], s1, Send(Ok), s2);
    run, s := LookInBetween([Take(e)] + [Send(Ok)], Busy(e, 1), t, u);
  }

  /** An error on the command after the first ZADD leaves this state behind with no event in progress. */
  lemma FailedCommandExceeds(t: Track, u: Session) returns (run: seq<Step>, s: State)
    requires u != ""
    ensures Init(Empty()) && LeadsTo(run, s) && s.consumer.Free?
    ensures Timely(s, 0) && s.looks[0].track == t && |s.looks[0].seen| == 1 && |SetOf(s.log, Day, t)| == 0
  {
    hide LeadsTo;
    var e, c0 := Heartbeat(t, u), Command(Online, t, Beat(u, 100.0));
    var s1 := Empty().(consumer := Busy(e, 0));
    var s2 := State([c0], 100.0, Busy(e, 1), map[]);
    var s3 := s2.(consumer := Free);
    NothingDone();
    assert [] + [Take(e)] == [Take(e)] && [] + [c0] == [c0];
    Advance([], Empty(), Take(e), s1);
    Advance([Take(e)], s1, Send(Ok), s2);
    Advance([Take(e)] + [Send(Ok)], s2, Send(Lost(false)), s3);
    run, s := LookInBetween([Take(e)] + [Send(Ok)] + [Send(Lost(false))], Free, t, u);
  }
}
