/** The code of the statistics service: the processing of one playback event and the answer of `/stats`, each a row of
    Redis commands between which other requests go on. With `calm`, nothing else happens meanwhile. */
module StatisticsService {
  import opened Basics
  import opened Presence
  import opened Statistics
  import opened Listeners

  // ---------------------------------------------------------------- whose step it is

  predicate Consuming(step: Step) {
    step.Take? || step.Send? || step.Crash?
  }

  /** The step belongs to look `r`. */
  predicate Looking(step: Step, r: Id) {
    (step.Ask? || step.LookSend? || step.Answer? || step.Quit?) && step.r == r
  }

  function ConsumerPart(run: seq<Step>): seq<Step> {
    if run == [] then [] else
      ConsumerPart(run[..|run| - 1]) + (if Consuming(run[|run| - 1]) then [run[|run| - 1]] else [])
  }

  function LookPart(run: seq<Step>, r: Id): seq<Step> {
    if run == [] then [] else
      LookPart(run[..|run| - 1], r) + (if Looking(run[|run| - 1], r) then [run[|run| - 1]] else [])
  }

  lemma PartsOfOneMore(run: seq<Step>, step: Step, r: Id)
    ensures ConsumerPart(run + [step]) == ConsumerPart(run) + (if Consuming(step) then [step] else [])
    ensures LookPart(run + [step], r) == LookPart(run, r) + (if Looking(step, r) then [step] else [])
  {
    assert (run + [step])[..|run|] == run;
  }

  lemma StepKeepsConsumer(s: State, step: Step)
    requires Can(s, step) && !Consuming(step)
    ensures Do(s, step).consumer == s.consumer
  {
  }

  predicate SameLook(s: State, s': State, r: Id) {
    (r in s'.looks <==> r in s.looks) && (r in s.looks && r in s'.looks ==> s'.looks[r] == s.looks[r])
  }

  lemma StepKeepsLook(s: State, step: Step, r: Id)
    requires Can(s, step) && !Looking(step, r)
    ensures SameLook(s, Do(s, step), r)
  {
  }

  lemma {:induction false} OthersKeepConsumer(origin: State, before: seq<Step>, after: seq<Step>)
    requires Legal(origin, before) && Legal(origin, after) && before <= after
    requires forall i | |before| <= i < |after| :: !Consuming(after[i])
    ensures Exec(origin, after).consumer == Exec(origin, before).consumer
    ensures ConsumerPart(after) == ConsumerPart(before)
    decreases |after|
  {
    hide Can, Do, Consuming;
    if |before| == |after| {
      assert before == after;
    } else {
      var after', step := after[..|after| - 1], after[|after| - 1];
      assert after' + [step] == after;
      LegalPrefix(origin, after', step);
      OthersKeepConsumer(origin, before, after');
      StepKeepsConsumer(Exec(origin, after'), step);
      PartsOfOneMore(after', step, 0);
    }
  }

  lemma {:induction false} OthersKeepLook(origin: State, before: seq<Step>, after: seq<Step>, r: Id)
    requires Legal(origin, before) && Legal(origin, after) && before <= after
    requires forall i | |before| <= i < |after| :: !Looking(after[i], r)
    ensures SameLook(Exec(origin, before), Exec(origin, after), r) && LookPart(after, r) == LookPart(before, r)
    decreases |after|
  {
    hide Can, Do, Looking;
    if |before| == |after| {
      assert before == after;
    } else {
      var after', step := after[..|after| - 1], after[|after| - 1];
      assert after' + [step] == after;
      LegalPrefix(origin, after', step);
      OthersKeepLook(origin, before, after', r);
      StepKeepsLook(Exec(origin, after'), step, r);
      PartsOfOneMore(after', step, r);
    }
  }

  // ---------------------------------------------------------------- stored sets

  /** The stored sets of track `t` are what the log makes of them. */
  predicate StoredAt(online: map<Track, ZSet>, day: map<Track, ZSet>, log: seq<Command>, t: Track) {
    SetAt(online, t) == SetOf(log, Online, t) && SetAt(day, t) == SetOf(log, Day, t)
  }

  ghost predicate Stored(online: map<Track, ZSet>, day: map<Track, ZSet>, log: seq<Command>) {
    forall t :: StoredAt(online, day, log, t)
  }

  /** The stored sets after a command. */
  function Changed(sets: map<Track, ZSet>, c: Command, which: Which): map<Track, ZSet> {
    if c.which == which then sets[c.track := Apply(SetAt(sets, c.track), c.op, Window(which))] else sets
  }

  lemma CarryStores(online: map<Track, ZSet>, day: map<Track, ZSet>, log: seq<Command>, c: Command)
    requires Stored(online, day, log)
    ensures Stored(Changed(online, c, Online), Changed(day, c, Day), log + [c])
  {
    hide SetOf;
    forall t ensures StoredAt(Changed(online, c, Online), Changed(day, c, Day), log + [c], t) {
      assert StoredAt(online, day, log, t);
      SetAfter(log, c, Online, t);
      SetAfter(log, c, Day, t);
    }
  }

  /** The sets of every track are what the history of whole events and looks makes of them. */
  ghost predicate AllMatch(online: map<Track, ZSet>, day: map<Track, ZSet>, h: seq<Entry>) {
    forall t :: Matches(online, day, h, t)
  }

  /** The commands of an event or a look, on one set of one track. */
  lemma OpsOfEvent(log: seq<Command>, e: PlaybackEvent, t: Track)
    ensures OpsOf(log + Commands(e), Online, t) == OpsOf(log, Online, t) + OnlineOp(Event(e), t)
    ensures OpsOf(log + Commands(e), Day, t) == OpsOf(log, Day, t) + DayOp(Event(e), t)
  {
    var cs := Commands(e);
    if cs == [] {
      assert log + cs == log;
    } else if e.status == Playing {
      CommandsOf(e);
      assert log + cs == log + [cs[0]] + [cs[1]] + [cs[2]] + [cs[3]];
      OpsOfMore(log, cs[0], t);
      OpsOfMore(log + [cs[0]], cs[1], t);
      OpsOfMore(log + [cs[0]] + [cs[1]], cs[2], t);
      OpsOfMore(log + [cs[0]] + [cs[1]] + [cs[2]], cs[3], t);
    } else {
      CommandsOf(e);
      OpsOfMore(log, cs[0], t);
    }
  }

  lemma OpsOfMore(log: seq<Command>, c: Command, t: Track)
    ensures OpsOf(log + [c], Online, t)
            == OpsOf(log, Online, t) + (if c.which.Online? && c.track == t then [c.op] else [])
    ensures OpsOf(log + [c], Day, t) == OpsOf(log, Day, t) + (if c.which.Day? && c.track == t then [c.op] else [])
  {
    assert (log + [c])[..|log|] == log;
  }

  function LookCommands(t: Track, now: int): seq<Command> {
    [Command(Online, t, Prune(now as real)), Command(Day, t, Prune(now as real))]
  }

  lemma OpsOfLook(log: seq<Command>, x: Track, now: int, t: Track)
    ensures OpsOf(log + LookCommands(x, now), Online, t) == OpsOf(log, Online, t) + OnlineOp(Look(x, now), t)
    ensures OpsOf(log + LookCommands(x, now), Day, t) == OpsOf(log, Day, t) + DayOp(Look(x, now), t)
  {
    var cs := LookCommands(x, now);
    assert log + cs == log + [cs[0]] + [cs[1]];
    OpsOfMore(log, cs[0], t);
    OpsOfMore(log + [cs[0]], cs[1], t);
  }

  /** A whole event or look takes sets that match a history to sets that match it with one more entry. */
  lemma WholeEntryMatches(online: map<Track, ZSet>, day: map<Track, ZSet>, log: seq<Command>,
                          online': map<Track, ZSet>, day': map<Track, ZSet>, log': seq<Command>,
                          h: seq<Entry>, x: Entry)
    requires Stored(online, day, log) && Stored(online', day', log') && AllMatch(online, day, h)
    requires log' == log + match x case Event(e) => Commands(e) case Look(t, now) => LookCommands(t, now)
    ensures AllMatch(online', day', h + [x])
  {
    forall t ensures Matches(online', day', h + [x], t) {
      hide OpsOf, OnlineOp, DayOp, Commands, LookCommands, OnlineOps, DayOps, Fold, ApplyAll;
      assert StoredAt(online, day, log, t) && StoredAt(online', day', log', t) && Matches(online, day, h, t);
      match x {
        case Event(e) => OpsOfEvent(log, e, t);
        case Look(track, now) => OpsOfLook(log, track, now, t);
      }
      FoldMore(OpsOf(log, Online, t), OnlineOp(x, t), ONLINE_WINDOW);
      FoldMore(OpsOf(log, Day, t), DayOp(x, t), DAY_WINDOW);
      SetsStep(h, x, t);
    }
  }

  // ---------------------------------------------------------------- the code

  datatype Item = Item(track: Track, onlineNow: nat, last24h: nat)

  /** The commands sent for an event when they fare as `calls` says: up to the first that raises. */
  function Sends(n: nat, calls: nat -> Call, next: nat): seq<Step>
    decreases n - next
  {
    if next >= n then []
    else if calls(next).Ok? then [Send(calls(next))] + Sends(n, calls, next + 1)
    else [Send(calls(next))]
  }

  predicate AllOk(n: nat, calls: nat -> Call) {
    forall i: nat | i < n :: calls(i).Ok?
  }

  /** The steps of one look. */
  function LookSteps(r: Id, t: Track, calls: nat -> Call): seq<Step> {
    [Ask(r, t)] + [LookSend(r, calls(0))]
    + (if !calls(0).Ok? then []
       else [LookSend(r, calls(1))]
            + (if !calls(1).Ok? then []
               else [LookSend(r, calls(2))]
                    + (if !calls(2).Ok? then [] else [if calls(3).Ok? then Answer(r) else Quit(r)])))
  }

  /** The run ends with the answer of look `r`, which shows what that look counted. */
  ghost predicate Answers(origin: State, run: seq<Step>, r: Id, item: Item) {
    && run != [] && run[|run| - 1] == Answer(r) && Legal(origin, run[..|run| - 1])
    && var s := Exec(origin, run[..|run| - 1]);
       && Can(s, Answer(r))
       && item == Item(s.looks[r].track, |s.looks[r].seen|, |SetOf(s.log, Day, s.looks[r].track)|)
  }

  /** The looks of one answer, all in the same second. */
  function LooksAt(top: seq<Track>, now: int): seq<Entry> {
    if top == [] then [] else LooksAt(top[..|top| - 1], now) + [Look(top[|top| - 1], now)]
  }

  /** Each item shows its track as history `h` and the looks at the tracks up to it leave it. */
  ghost predicate AllShown(items: seq<Item>, h: seq<Entry>, top: seq<Track>, now: int) {
    |items| <= |top| && forall k | 0 <= k < |items| :: ShownAt(items[k], h, top, k, now)
  }

  ghost predicate ShownAt(item: Item, h: seq<Entry>, top: seq<Track>, k: int, now: int)
    requires 0 <= k < |top|
  {
    var h' := h + LooksAt(top[..k], now) + [Look(top[k], now)];
    item == Item(top[k], |OnlineSet(h', top[k])|, |DaySet(h', top[k])|)
  }

  /** Each item was answered by a look at its track in the course of the run. */
  ghost predicate AllAnswered(origin: State, run: seq<Step>, r: Id, items: seq<Item>, top: seq<Track>) {
    |items| <= |top| && forall k | 0 <= k < |items| :: AnsweredIn(origin, run, r, items[k], top[k])
  }

  ghost predicate AnsweredIn(origin: State, run: seq<Step>, r: Id, item: Item, t: Track) {
    item.track == t && exists part :: part <= run && Answers(origin, part, r, item)
  }

  lemma NothingShownYet(origin: State, run: seq<Step>, r: Id, top: seq<Track>, now: int)
    ensures AllAnswered(origin, run, r, [], top)
    ensures forall h: seq<Entry> :: h + LooksAt(top[..0], now) == h && AllShown([], h, top, now)
  {
  }

  lemma OneMoreAnswer(origin: State, before: seq<Step>, run: seq<Step>, r: Id, done: seq<Item>, item: Item,
                      top: seq<Track>)
    requires AllAnswered(origin, before, r, done, top) && before <= run && |done| < |top|
    requires item.track == top[|done|] && Answers(origin, run, r, item)
    ensures AllAnswered(origin, run, r, done + [item], top)
  {
    hide Answers;
    var more := done + [item];
    assert AnsweredIn(origin, run, r, item, top[|done|]);
    forall k | 0 <= k < |more| ensures AnsweredIn(origin, run, r, more[k], top[k]) {
      if k < |done| {
        assert AnsweredIn(origin, before, r, done[k], top[k]);
        var part :| part <= before && Answers(origin, part, r, done[k]);
        assert part <= run;
      }
    }
  }

  lemma OneMoreLook(done: seq<Item>, item: Item, h: seq<Entry>, top: seq<Track>, now: int)
    requires |done| < |top| && AllShown(done, h, top, now) && ShownAt(item, h, top, |done|, now)
    ensures var k := |done|; h + LooksAt(top[..k], now) + [Look(top[k], now)] == h + LooksAt(top[..k + 1], now)
    ensures AllShown(done + [item], h, top, now)
  {
    hide ShownAt;
    var k := |done|;
    assert top[..k + 1][..k] == top[..k] && top[..k + 1][k] == top[k];
  }

  class Service {
    var online: map<Track, ZSet>
    var day: map<Track, ZSet>
    var clock: real
    var counter: map<Track, nat>
    var delta: map<Track, nat>

    ghost var log: seq<Command>
    ghost var consumer: Consumer
    ghost var looks: map<Id, Request>
    ghost const origin: State
    ghost var trace: seq<Step>

    ghost function Now(): State
      reads this
    {
      State(log, clock, consumer, looks)
    }

    ghost predicate Valid()
      reads this
    {
      Init(origin) && Legal(origin, trace) && Exec(origin, trace) == Now() && Stored(online, day, log)
    }

    constructor (start: real)
      requires start >= 0.0
      ensures Valid() && trace == [] && consumer.Free? && looks == map[] && counter == map[] && delta == map[]
      ensures AllMatch(online, day, [])
    {
      online, day, clock, counter, delta := map[], map[], start, map[], map[];
      log, consumer, looks, trace := [], Free, map[], [];
      origin := State([], start, Free, map[]);
    }

    /** Enters a step whose effect the code has just had. */
    ghost method Record(before: State, step: Step, r: Id)
      requires Init(origin) && Legal(origin, trace) && Exec(origin, trace) == before && Can(before, step)
      requires Do(before, step).clock == clock && Stored(online, day, Do(before, step).log)
      modifies this`log, this`consumer, this`looks, this`trace
      ensures Valid() && Now() == Do(before, step) && trace == old(trace) + [step]
      ensures ConsumerPart(trace) == ConsumerPart(old(trace)) + (if Consuming(step) then [step] else [])
      ensures LookPart(trace, r) == LookPart(old(trace), r) + (if Looking(step, r) then [step] else [])
    {
      hide Init, Can, Do, Legal, Exec, ConsumerPart, LookPart, Consuming, Looking, Stored;
      var s := Do(before, step);
      OneMore(origin, trace, step);
      PartsOfOneMore(trace, step, r);
      log, consumer, looks, trace := s.log, s.consumer, s.looks, trace + [step];
    }

    /** What other requests do while the consumer awaits. */
    method OthersAroundConsumer(ghost calm: bool)
      requires Valid()
      modifies this`online, this`day, this`clock, this`log, this`consumer, this`looks, this`trace
      ensures Valid() && old(trace) <= trace
      ensures forall i | |old(trace)| <= i < |trace| :: !Consuming(trace[i])
      ensures calm ==> trace == old(trace) && online == old(online) && day == old(day)
    {
    }

    /** What the consumer and other requests do while a look awaits. */
    method OthersAroundLook(ghost r: Id, ghost calm: bool)
      requires Valid()
      modifies this`online, this`day, this`clock, this`log, this`consumer, this`looks, this`trace
      ensures Valid() && old(trace) <= trace
      ensures forall i | |old(trace)| <= i < |trace| :: !Looking(trace[i], r)
      ensures calm ==> trace == old(trace) && online == old(online) && day == old(day)
    {
    }

    method AwaitInConsumer(ghost calm: bool)
      requires Valid()
      modifies this`online, this`day, this`clock, this`log, this`consumer, this`looks, this`trace
      ensures Valid() && old(trace) <= trace && consumer == old(consumer)
      ensures ConsumerPart(trace) == ConsumerPart(old(trace))
      ensures calm ==> Now() == old(Now()) && online == old(online) && day == old(day)
    {
      hide Init, Can, Do, Legal, Exec, ConsumerPart, Consuming, Stored;
      ghost var before := trace;
      OthersAroundConsumer(calm);
      OthersKeepConsumer(origin, before, trace);
    }

    method AwaitInLook(ghost r: Id, ghost calm: bool)
      requires Valid()
      modifies this`online, this`day, this`clock, this`log, this`consumer, this`looks, this`trace
      ensures Valid() && old(trace) <= trace && SameLook(old(Now()), Now(), r)
      ensures LookPart(trace, r) == LookPart(old(trace), r)
      ensures calm ==> Now() == old(Now()) && online == old(online) && day == old(day)
    {
      hide Init, Can, Do, Legal, Exec, LookPart, Looking, Stored, SameLook;
      ghost var before := trace;
      OthersAroundLook(r, calm);
      OthersKeepLook(origin, before, trace, r);
    }

    /** Redis carries a command out. */
    method Carry(c: Command)
      modifies this`online, this`day
      ensures online == Changed(old(online), c, Online) && day == Changed(old(day), c, Day)
    {
      if c.which.Online? {
        online := online[c.track := Apply(SetAt(online, c.track), c.op, ONLINE_WINDOW)];
      } else {
        day := day[c.track := Apply(SetAt(day, c.track), c.op, DAY_WINDOW)];
      }
    }

    ghost method Begin(event: PlaybackEvent)
      requires Valid() && consumer.Free?
      modifies this`log, this`consumer, this`looks, this`trace
      ensures Valid() && old(trace) <= trace && log == old(log)
      ensures consumer == if Commands(event) == [] then Free else Busy(event, 0)
      ensures ConsumerPart(trace) == ConsumerPart(old(trace)) + [Take(event)]
    {
      hide Init, Legal, Exec, ConsumerPart, LookPart, Stored, Commands;
      Record(Now(), Take(event), 0);
    }

    /** One awaited command of the consumer. */
    method SendNext(c: Command, call: Call, ghost calm: bool) returns (ok: bool)
      requires Valid() && consumer.Busy? && consumer.next < |Commands(consumer.event)| && c == Current(consumer)
      modifies this`online, this`day, this`clock, this`log, this`consumer, this`looks, this`trace
      ensures Valid() && old(trace) <= trace && ok == call.Ok? && consumer == Onward(old(consumer), call)
      ensures ConsumerPart(trace) == ConsumerPart(old(trace)) + [Send(call)]
      ensures calm && ok ==> log == old(log) + [c]
    {
      hide Init, Legal, Exec, ConsumerPart, LookPart, Stored, Changed, Commands;
      AwaitInConsumer(calm);
      ghost var before := Now();
      if call.Took() {
        CarryStores(online, day, log, c);
        Carry(c);
      }
      ok := call.Ok?;
      Record(before, Send(call), 0);
    }

    /** process_event: the commands of the event go out one by one until one raises. Undisturbed and without errors,
        it is the whole event of the history. A `started` event counts a play instead. */
    method ProcessEvent(event: PlaybackEvent, calls: nat -> Call, ghost calm: bool) returns (ok: bool)
      requires Valid() && consumer.Free?
      modifies this
      ensures Valid() && old(trace) <= trace && consumer.Free?
      ensures ConsumerPart(trace)
              == ConsumerPart(old(trace)) + [Take(event)] + Sends(|Commands(event)|, calls, 0)
      ensures event.status != Started ==>
                ok == AllOk(|Commands(event)|, calls) && counter == old(counter) && delta == old(delta)
      ensures calm && ok ==>
                forall h :: AllMatch(old(online), old(day), h) ==> AllMatch(online, day, h + [Event(event)])
      ensures event.status == Started ==>
                && ok == (calls(0).Ok? && calls(1).Ok?)
                && (forall t :: CountAt(counter, t) == CountAt(old(counter), t)
                                + if t == event.track && calls(0).Took() then 1 else 0)
                && (forall t :: CountAt(delta, t) == CountAt(old(delta), t)
                                + if t == event.track && calls(0).Ok? && calls(1).Took() then 1 else 0)
    {
      hide Init, Can, Do, Legal, Exec, ConsumerPart, LookPart, Stored, AllMatch, Commands, Sends;
      ghost var log0, online0, day0 := log, online, day;
      SomeCommands(event);
      Begin(event);
      if event.status == Playing {
        if event.session.None? || event.session.value == "" {
          ok := true;
          NoCommands(event, calls);
        } else {
          ok := SendHeartbeat(event, event.session.value, calls, calm);
        }
      } else if event.status == Stopped || event.status == StoppedByTimeout {
        if event.session.None? || event.session.value == "" {
          ok := true;
          NoCommands(event, calls);
        } else {
          ok := SendStop(event, event.session.value, calls, calm);
        }
      } else {
        NoCommands(event, calls);
        ok := CountPlay(event.track, calls(0), calls(1));
      }
      if calm && ok {
        forall h | AllMatch(online0, day0, h) ensures AllMatch(online, day, h + [Event(event)]) {
          WholeEntryMatches(online0, day0, log0, online, day, log, h, Event(event));
        }
      }
    }

    /** The four commands of a heartbeat. */
    method SendHeartbeat(event: PlaybackEvent, u: Session, calls: nat -> Call, ghost calm: bool) returns (ok: bool)
      requires Valid() && consumer == Busy(event, 0)
      requires event.status == Playing && event.session == Some(u) && u != ""
      modifies this`online, this`day, this`clock, this`log, this`consumer, this`looks, this`trace
      ensures Valid() && old(trace) <= trace && consumer.Free? && ok == AllOk(|Commands(event)|, calls)
      ensures ConsumerPart(trace) == ConsumerPart(old(trace)) + Sends(|Commands(event)|, calls, 0)
      ensures calm && ok ==> log == old(log) + Commands(event)
    {
      hide Init, Can, Do, Legal, Exec, ConsumerPart, LookPart, Stored, Commands, Sends;
      HeartbeatSends(event, calls);
      var t := event.track;
      ok := SendNext(Command(Online, t, Beat(u, event.ts)), calls(0), calm);
      if !ok {
        return;
      }
      ok := SendNext(Command(Online, t, Prune(event.ts)), calls(1), calm);
      if !ok {
        return;
      }
      ok := SendNext(Command(Day, t, Beat(u, event.ts)), calls(2), calm);
      if !ok {
        return;
      }
      ok := SendNext(Command(Day, t, Prune(event.ts)), calls(3), calm);
    }

    method SendStop(event: PlaybackEvent, u: Session, calls: nat -> Call, ghost calm: bool) returns (ok: bool)
      requires Valid() && consumer == Busy(event, 0) && event.session == Some(u) && u != ""
      requires event.status == Stopped || event.status == StoppedByTimeout
      modifies this`online, this`day, this`clock, this`log, this`consumer, this`looks, this`trace
      ensures Valid() && old(trace) <= trace && consumer.Free? && ok == AllOk(|Commands(event)|, calls)
      ensures ConsumerPart(trace) == ConsumerPart(old(trace)) + Sends(|Commands(event)|, calls, 0)
      ensures calm && ok ==> log == old(log) + Commands(event)
    {
      hide Init, Can, Do, Legal, Exec, ConsumerPart, LookPart, Stored;
      ok := SendNext(Command(Online, event.track, Leave(u)), calls(0), calm);
    }

    method StartLook(t: Track, ghost r: Id) returns (now: int)
      requires Valid() && r !in looks
      modifies this`log, this`consumer, this`looks, this`trace
      ensures Valid() && old(trace) <= trace && log == old(log) && now == clock.Floor
      ensures r in looks && looks[r] == Request(t, now, 0, {})
      ensures LookPart(trace, r) == LookPart(old(trace), r) + [Ask(r, t)]
    {
      hide Init, Legal, Exec, ConsumerPart, LookPart, Stored;
      now := clock.Floor;
      Record(Now(), Ask(r, t), r);
    }

    /** One awaited prune of a look. */
    method PruneNext(c: Command, call: Call, ghost r: Id, ghost calm: bool) returns (ok: bool)
      requires Valid() && r in looks && looks[r].next < 2 && c == PruneCommand(looks[r])
      modifies this`online, this`day, this`clock, this`log, this`consumer, this`looks, this`trace
      ensures Valid() && old(trace) <= trace && ok == call.Ok?
      ensures ok ==> r in looks && looks[r] == old(looks[r]).(next := old(looks[r]).next + 1)
      ensures !ok ==> r !in looks
      ensures LookPart(trace, r) == LookPart(old(trace), r) + [LookSend(r, call)]
      ensures (calm ==> clock == old(clock)) && (calm && ok ==> log == old(log) + [c])
    {
      hide Init, Legal, Exec, ConsumerPart, LookPart, Stored, Changed;
      AwaitInLook(r, calm);
      ghost var before := Now();
      if call.Took() {
        CarryStores(online, day, log, c);
        Carry(c);
      }
      ok := call.Ok?;
      Record(before, LookSend(r, call), r);
    }

    /** The ZCARD of the current listeners. */
    method CountOnline(t: Track, call: Call, ghost r: Id, ghost calm: bool) returns (n: nat)
      requires Valid() && r in looks && looks[r].next == 2 && looks[r].track == t
      modifies this`online, this`day, this`clock, this`log, this`consumer, this`looks, this`trace
      ensures Valid() && old(trace) <= trace
      ensures call.Ok? ==> r in looks && looks[r] == old(looks[r]).(next := 3, seen := looks[r].seen)
                           && n == |looks[r].seen|
      ensures !call.Ok? ==> r !in looks
      ensures LookPart(trace, r) == LookPart(old(trace), r) + [LookSend(r, call)]
      ensures calm ==> clock == old(clock)
      ensures calm && call.Ok? ==> log == old(log) && looks[r].seen == SetOf(log, Online, t).Keys
    {
      hide Init, Legal, Exec, ConsumerPart, LookPart, SetOf;
      AwaitInLook(r, calm);
      assert StoredAt(online, day, log, t);
      hide Stored;
      n := |SetAt(online, t)|;
      assert n == |SetOf(log, Online, t).Keys|;
      Record(Now(), LookSend(r, call), r);
    }

    /** The ZCARD of the listeners of the day, and the answer. */
    method CountDay(t: Track, onlineNow: nat, call: Call, ghost r: Id, ghost calm: bool) returns (item: Option<Item>)
      requires Valid() && r in looks && looks[r].next == 3 && looks[r].track == t && onlineNow == |looks[r].seen|
      modifies this`online, this`day, this`clock, this`log, this`consumer, this`looks, this`trace
      ensures Valid() && old(trace) <= trace && r !in looks
      ensures item.Some? <==> call.Ok?
      ensures item.Some? ==> item.value.track == t && Answers(origin, trace, r, item.value)
      ensures LookPart(trace, r) == LookPart(old(trace), r) + [if call.Ok? then Answer(r) else Quit(r)]
      ensures calm ==> log == old(log) && clock == old(clock)
      ensures calm && item.Some? ==> item.value == Item(t, onlineNow, |SetOf(log, Day, t)|)
    {
      hide Init, Legal, Exec, ConsumerPart, LookPart, SetOf;
      AwaitInLook(r, calm);
      assert StoredAt(online, day, log, t);
      hide Stored;
      ghost var run := trace;
      if call.Ok? {
        item := Some(Item(t, onlineNow, |SetAt(day, t)|));
        Record(Now(), Answer(r), r);
        assert trace[..|trace| - 1] == run;
      } else {
        item := None;
        Record(Now(), Quit(r), r);
      }
    }

    method PruneBoth(t: Track, calls: nat -> Call, ghost r: Id, ghost calm: bool) returns (ok: bool, now: int)
      requires Valid() && r !in looks
      modifies this`online, this`day, this`clock, this`log, this`consumer, this`looks, this`trace
      ensures Valid() && old(trace) <= trace && now == old(clock).Floor && ok == (calls(0).Ok? && calls(1).Ok?)
      ensures if ok then r in looks && looks[r] == Request(t, now, 2, {}) else r !in looks
      ensures LookPart(trace, r)
              == LookPart(old(trace), r) + [Ask(r, t)] + [LookSend(r, calls(0))]
                 + (if !calls(0).Ok? then [] else [LookSend(r, calls(1))])
      ensures (calm ==> clock == old(clock)) && (calm && ok ==> log == old(log) + LookCommands(t, now))
    {
      hide Init, Can, Do, Legal, Exec, ConsumerPart, LookPart, Stored;
      now := StartLook(t, r);
      ok := PruneNext(Command(Online, t, Prune(now as real)), calls(0), r, calm);
      if ok {
        ok := PruneNext(Command(Day, t, Prune(now as real)), calls(1), r, calm);
      }
    }

    method CountBoth(t: Track, calls: nat -> Call, ghost r: Id, ghost calm: bool) returns (item: Option<Item>)
      requires Valid() && r in looks && looks[r].next == 2 && looks[r].track == t
      modifies this`online, this`day, this`clock, this`log, this`consumer, this`looks, this`trace
      ensures Valid() && old(trace) <= trace && r !in looks
      ensures item.Some? <==> calls(2).Ok? && calls(3).Ok?
      ensures item.Some? ==> item.value.track == t && Answers(origin, trace, r, item.value)
      ensures LookPart(trace, r)
              == LookPart(old(trace), r) + [LookSend(r, calls(2))]
                 + (if !calls(2).Ok? then [] else [if calls(3).Ok? then Answer(r) else Quit(r)])
      ensures calm ==> clock == old(clock)
      ensures calm && item.Some? ==>
                log == old(log) && item.value == Item(t, |SetOf(log, Online, t).Keys|, |SetOf(log, Day, t)|)
    {
      hide Init, Can, Do, Legal, Exec, ConsumerPart, LookPart, Stored, SetOf, Answers;
      item := None;
      var onlineNow := CountOnline(t, calls(2), r, calm);
      if calls(2).Ok? {
        item := CountDay(t, onlineNow, calls(3), r, calm);
      }
    }

    /** One track of `/stats`: two prunes, then two counts, with events and other requests going on in between; an
        error ends the request. Undisturbed, it is the whole look of the history and shows its counts. */
    method LookAt(t: Track, calls: nat -> Call, ghost r: Id, ghost calm: bool) returns (item: Option<Item>)
      requires Valid() && r !in looks
      modifies this`online, this`day, this`clock, this`log, this`consumer, this`looks, this`trace
      ensures Valid() && old(trace) <= trace && r !in looks
      ensures LookPart(trace, r) == LookPart(old(trace), r) + LookSteps(r, t, calls)
      ensures item.Some? <==> AllOk(4, calls)
      ensures item.Some? ==> item.value.track == t && Answers(origin, trace, r, item.value)
      ensures calm ==> clock == old(clock)
      ensures calm && item.Some? ==>
                forall h :: AllMatch(old(online), old(day), h) ==>
                  var h' := h + [Look(t, old(clock).Floor)];
                  AllMatch(online, day, h') && item.value == Item(t, |OnlineSet(h', t)|, |DaySet(h', t)|)
    {
      hide Init, Can, Do, Legal, Exec, ConsumerPart, LookPart, Stored, AllMatch, SetOf, OnlineSet, DaySet, Answers;
      ghost var log0, online0, day0 := log, online, day;
      item := None;
      var ok, now := PruneBoth(t, calls, r, calm);
      if !ok {
        return;
      }
      item := CountBoth(t, calls, r, calm);
      if calm && item.Some? {
        forall h | AllMatch(online0, day0, h)
          ensures AllMatch(online, day, h + [Look(t, now)])
          ensures item.value == Item(t, |OnlineSet(h + [Look(t, now)], t)|, |DaySet(h + [Look(t, now)], t)|)
        {
          WholeEntryMatches(online0, day0, log0, online, day, log, h, Look(t, now));
          CountsOfMatch(online, day, log, h + [Look(t, now)], t);
        }
      }
    }

    /** `/stats` for the tracks of the chart, reading the clock anew for each: one answered look per track, in order.
        Any error ends it without an answer. Undisturbed, it is the looks at these tracks and shows their counts. */
    method Stats(top: seq<Track>, calls: nat -> nat -> Call, ghost r: Id, ghost calm: bool)
      returns (items: Option<seq<Item>>)
      requires Valid() && r !in looks
      modifies this`online, this`day, this`clock, this`log, this`consumer, this`looks, this`trace
      ensures Valid() && old(trace) <= trace && r !in looks
      ensures items.Some? <==> forall k: nat | k < |top| :: AllOk(4, calls(k))
      ensures items.Some? ==> |items.value| == |top| && AllAnswered(origin, trace, r, items.value, top)
      ensures calm && items.Some? ==>
                forall h | AllMatch(old(online), old(day), h) ::
                  && AllMatch(online, day, h + LooksAt(top, old(clock).Floor))
                  && AllShown(items.value, h, top, old(clock).Floor)
    {
      hide Init, Can, Do, Legal, Exec, LookPart, Stored, AllMatch, SetOf, AllOk, Answers, OnlineSet, DaySet;
      hide LooksAt, AllShown, AllAnswered;
      var done: seq<Item> := [];
      ghost var online0, day0, now := online, day, clock.Floor;
      NothingShownYet(origin, trace, r, top, now);
      for k := 0 to |top|
        invariant Valid() && old(trace) <= trace && r !in looks && |done| == k
        invariant forall j: nat | j < k :: AllOk(4, calls(j))
        invariant AllAnswered(origin, trace, r, done, top)
        invariant calm ==> clock.Floor == now
        invariant calm ==> forall h | AllMatch(online0, day0, h) ::
                    AllMatch(online, day, h + LooksAt(top[..k], now)) && AllShown(done, h, top, now)
      {
        ghost var before, online1, day1 := trace, online, day;
        var item := LookAt(top[k], calls(k), r, calm);
        if item.None? {
          return None;
        }
        OneMoreAnswer(origin, before, trace, r, done, item.value, top);
        if calm {
          forall h | AllMatch(online0, day0, h)
            ensures AllMatch(online, day, h + LooksAt(top[..k + 1], now))
            ensures AllShown(done + [item.value], h, top, now)
          {
            assert AllMatch(online1, day1, h + LooksAt(top[..k], now)) && AllShown(done, h, top, now);
            OneMoreLook(done, item.value, h, top, now);
          }
        }
        done := done + [item.value];
      }
      assert top[..|top|] == top;
      items := Some(done);
    }

    /** The two increments of a `started` event. */
    method CountPlay(t: Track, first: Call, second: Call) returns (ok: bool)
      modifies this`counter, this`delta
      ensures ok == (first.Ok? && second.Ok?)
      ensures forall x :: CountAt(counter, x) == CountAt(old(counter), x) + if x == t && first.Took() then 1 else 0
      ensures forall x :: CountAt(delta, x) == CountAt(old(delta), x)
                          + if x == t && first.Ok? && second.Took() then 1 else 0
    {
      if first.Took() {
        counter := counter[t := CountAt(counter, t) + 1];
      }
      if first != Ok {
        return false;
      }
      if second.Took() {
        delta := delta[t := CountAt(delta, t) + 1];
      }
      ok := second.Ok?;
    }
  }

  lemma CountsOfMatch(online: map<Track, ZSet>, day: map<Track, ZSet>, log: seq<Command>, h: seq<Entry>, t: Track)
    requires Stored(online, day, log) && AllMatch(online, day, h)
    ensures SetOf(log, Online, t) == OnlineSet(h, t) && SetOf(log, Day, t) == DaySet(h, t)
    ensures |SetOf(log, Online, t).Keys| == |OnlineSet(h, t)|
  {
    hide SetOf, OnlineSet, DaySet;
    assert StoredAt(online, day, log, t) && Matches(online, day, h, t);
  }

  lemma NoCommands(event: PlaybackEvent, calls: nat -> Call)
    requires !Named(event) || event.status == Started
    ensures Commands(event) == [] && Sends(|Commands(event)|, calls, 0) == [] && AllOk(|Commands(event)|, calls)
  {
  }

  lemma SomeCommands(event: PlaybackEvent)
    ensures Commands(event) == [] <==> !Named(event) || event.status == Started
  {
  }

  lemma HeartbeatSends(event: PlaybackEvent, calls: nat -> Call)
    requires Named(event) && event.status == Playing
    ensures |Commands(event)| == 4
    ensures Commands(event) == [Commands(event)[0]] + [Commands(event)[1]] + [Commands(event)[2]] + [Commands(event)[3]]
    ensures Commands(event)[0] == Command(Online, event.track, Beat(event.session.value, event.ts))
    ensures Commands(event)[1] == Command(Online, event.track, Prune(event.ts))
    ensures Commands(event)[2] == Command(Day, event.track, Beat(event.session.value, event.ts))
    ensures Commands(event)[3] == Command(Day, event.track, Prune(event.ts))
    ensures Sends(4, calls, 0)
            == [Send(calls(0))] + (if !calls(0).Ok? then [] else
               [Send(calls(1))] + (if !calls(1).Ok? then [] else
               [Send(calls(2))] + (if !calls(2).Ok? then [] else [Send(calls(3))])))
    ensures AllOk(4, calls) <==> calls(0).Ok? && calls(1).Ok? && calls(2).Ok? && calls(3).Ok?
  {
    assert Sends(4, calls, 4) == [];
    assert Sends(4, calls, 3) == [Send(calls(3))];
    assert Sends(4, calls, 2) == if calls(2).Ok? then [Send(calls(2))] + Sends(4, calls, 3) else [Send(calls(2))];
    assert Sends(4, calls, 1) == if calls(1).Ok? then [Send(calls(1))] + Sends(4, calls, 2) else [Send(calls(1))];
  }
}
