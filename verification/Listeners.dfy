/** The statistics service at the level of its Redis commands: one consumer sends the commands of each event one by one
    and gives an event up at the first error, while any number of `/stats` requests prune and count in between. */
module Listeners {
  import opened Basics
  import opened Presence
  import opened Statistics

  type Id = nat

  datatype Which = Online | Day

  /** A command on one of the two sets of a track. */
  datatype Command = Command(which: Which, track: Track, op: Op)

  datatype Consumer = Free | Busy(event: PlaybackEvent, next: nat)

  /** One track of a `/stats` answer under way: `now` is the second it read, `next` counts the commands answered (two
      prunes, then two ZCARDs), `seen` is what the first ZCARD counted. */
  datatype Request = Request(track: Track, now: int, next: nat, seen: set<Session>)

  /** `log` holds the commands Redis has carried out. */
  datatype State = State(log: seq<Command>, clock: real, consumer: Consumer, looks: map<Id, Request>)

  datatype Step =
    | Tick(to: real)
    | Take(event: PlaybackEvent)
    | Send(call: Call)
    | Crash
    | Ask(r: Id, t: Track)
    | LookSend(r: Id, call: Call)
    | Answer(r: Id)
    | Quit(r: Id)

  // ---------------------------------------------------------------- the sets

  function Window(which: Which): real {
    if which.Online? then ONLINE_WINDOW else DAY_WINDOW
  }

  /** The commands of the log on one set. */
  function OpsOf(log: seq<Command>, which: Which, t: Track): seq<Op> {
    if log == [] then [] else
      var c := log[|log| - 1];
      OpsOf(log[..|log| - 1], which, t) + if c.which == which && c.track == t then [c.op] else []
  }

  function SetOf(log: seq<Command>, which: Which, t: Track): ZSet {
    Fold(OpsOf(log, which, t), Window(which))
  }

  lemma SetAfter(log: seq<Command>, c: Command, which: Which, t: Track)
    ensures SetOf(log + [c], which, t)
            == if c.which == which && c.track == t then Apply(SetOf(log, which, t), c.op, Window(which))
               else SetOf(log, which, t)
  {
    assert (log + [c])[..|log|] == log;
    var ops := OpsOf(log, which, t);
    assert (ops + [c.op])[..|ops|] == ops;
    assert ops + [] == ops;
  }

  /** The last heartbeat of a session on a track had its first ZADD carried out and its second one not. */
  predicate Torn(log: seq<Command>, t: Track, u: Session) {
    if log == [] then false else
      var c := log[|log| - 1];
      if c.track == t && c.op.Beat? && c.op.session == u then c.which.Online? else Torn(log[..|log| - 1], t, u)
  }

  lemma TornAfter(log: seq<Command>, c: Command, t: Track, u: Session)
    ensures Torn(log + [c], t, u)
            == if c.track == t && c.op.Beat? && c.op.session == u then c.which.Online? else Torn(log, t, u)
  {
    assert (log + [c])[..|log|] == log;
  }

  // ---------------------------------------------------------------- steps

  /** The commands of an event in the order they are sent. */
  function Commands(e: PlaybackEvent): seq<Command> {
    if !Named(e) || e.status == Started then []
    else if e.status == Playing then
      [Command(Online, e.track, Beat(e.session.value, e.ts)), Command(Online, e.track, Prune(e.ts)),
       Command(Day, e.track, Beat(e.session.value, e.ts)), Command(Day, e.track, Prune(e.ts))]
    else [Command(Online, e.track, Leave(e.session.value))]
  }

  function PruneCommand(look: Request): Command {
    Command(if look.next == 0 then Online else Day, look.track, Prune(look.now as real))
  }

  predicate Can(s: State, step: Step) {
    match step
    case Tick(to) => s.clock <= to
    case Take(_) => s.consumer.Free?
    case Send(_) => s.consumer.Busy? && s.consumer.next < |Commands(s.consumer.event)|
    case Crash => true
    case Ask(r, _) => r !in s.looks
    case LookSend(r, _) => r in s.looks && s.looks[r].next < 3
    case Answer(r) => r in s.looks && s.looks[r].next == 3
    case Quit(r) => r in s.looks
  }

  function Carry(log: seq<Command>, c: Command, call: Call): seq<Command> {
    if call.Took() then log + [c] else log
  }

  /** The consumer after its command was answered, or raised. */
  function Onward(consumer: Consumer, call: Call): Consumer
    requires consumer.Busy?
  {
    if call.Ok? && consumer.next + 1 < |Commands(consumer.event)| then consumer.(next := consumer.next + 1) else Free
  }

  function Do(s: State, step: Step): State
    requires Can(s, step)
  {
    match step
    case Tick(to) => s.(clock := to)
    case Take(e) => s.(consumer := if Commands(e) == [] then Free else Busy(e, 0))
    case Send(call) =>
      s.(log := Carry(s.log, Commands(s.consumer.event)[s.consumer.next], call), consumer := Onward(s.consumer, call))
    case Crash => s.(consumer := Free)
    case Ask(r, t) => s.(looks := s.looks[r := Request(t, s.clock.Floor, 0, {})])
    case LookSend(r, call) =>
      var look := s.looks[r];
      s.(log := if look.next < 2 then Carry(s.log, PruneCommand(look), call) else s.log,
         looks := if !call.Ok? then s.looks - {r}
                  else if look.next < 2 then s.looks[r := look.(next := look.next + 1)]
                  else s.looks[r := look.(next := 3, seen := SetOf(s.log, Online, look.track).Keys)])
    case Answer(r) => s.(looks := s.looks - {r})
    case Quit(r) => s.(looks := s.looks - {r})
  }

  predicate Init(s: State) {
    s == State([], s.clock, Free, map[]) && s.clock >= 0.0
  }

  ghost predicate Legal(s: State, run: seq<Step>)
    decreases |run|
  {
    run == [] || (Can(s, run[0]) && Legal(Do(s, run[0]), run[1..]))
  }

  ghost function Exec(s: State, run: seq<Step>): State
    requires Legal(s, run)
    decreases |run|
  {
    if run == [] then s else Exec(Do(s, run[0]), run[1..])
  }

  lemma {:induction false} OneMore(s: State, run: seq<Step>, step: Step)
    requires Legal(s, run) && Can(Exec(s, run), step)
    ensures Legal(s, run + [step]) && Exec(s, run + [step]) == Do(Exec(s, run), step)
    decreases |run|
  {
    hide Can, Do;
    if run == [] {
      assert (run + [step])[1..] == [];
    } else {
      OneMore(Do(s, run[0]), run[1..], step);
      assert (run + [step])[1..] == run[1..] + [step];
    }
  }

  lemma {:induction false} LegalPrefix(s: State, run: seq<Step>, step: Step)
    requires Legal(s, run + [step])
    ensures Legal(s, run) && Can(Exec(s, run), step) && Exec(s, run + [step]) == Do(Exec(s, run), step)
    decreases |run|
  {
    hide Can, Do;
    if run == [] {
      assert (run + [step])[1..] == [] && (run + [step])[0] == step;
    } else {
      assert (run + [step])[0] == run[0] && (run + [step])[1..] == run[1..] + [step];
      LegalPrefix(Do(s, run[0]), run[1..], step);
    }
  }

  /** What a ZCARD of the current listeners counts, in any interleaving and with any errors: the sessions whose last
      command on the set is a ZADD that no prune carried out since has reached. */
  lemma CountedExact(log: seq<Command>, t: Track, u: Session)
    ensures u in SetOf(log, Online, t) <==> exists i :: LiveAt(OpsOf(log, Online, t), u, i, ONLINE_WINDOW)
  {
    assert SetOf(log, Online, t) == Fold(OpsOf(log, Online, t), ONLINE_WINDOW);
    FoldExact(OpsOf(log, Online, t), u, ONLINE_WINDOW);
  }

  // ---------------------------------------------------------------- current listeners and listeners of the day

  const HALF_DAY: real := 43200.0

  /** Commands of a heartbeat reach Redis within half a day of its stamp, which is not in the future. */
  predicate Prompt(s: State, step: Step) {
    step.Send? && s.consumer.Busy? && s.consumer.event.status == Playing ==>
      s.consumer.event.ts <= s.clock < s.consumer.event.ts + HALF_DAY
  }

  ghost predicate PromptRun(s: State, run: seq<Step>)
    requires Legal(s, run)
    decreases |run|
  {
    run == [] || (Prompt(s, run[0]) && PromptRun(Do(s, run[0]), run[1..]))
  }

  /** Current listeners are listeners of the day with the same stamp, but for torn heartbeats. */
  predicate Kept(log: seq<Command>, t: Track) {
    forall u <- SetOf(log, Online, t) :: Torn(log, t, u)
      || (u in SetOf(log, Day, t) && SetOf(log, Day, t)[u] == SetOf(log, Online, t)[u])
  }

  /** All current listeners are stamped after `limit`. */
  predicate After(log: seq<Command>, t: Track, limit: real) {
    forall u <- SetOf(log, Online, t) :: SetOf(log, Online, t)[u] > limit
  }

  /** What the consumer relies on in the middle of a heartbeat: its own stamp is the one in the online set, and once
      it has pruned that set, every stamp left is within the window. */
  predicate BeatOk(log: seq<Command>, consumer: Consumer, t: Track) {
    consumer.Busy? && consumer.event.status == Playing && consumer.event.track == t && Named(consumer.event) ==>
      var e, u := consumer.event, consumer.event.session.value;
      && (consumer.next >= 1 && u in SetOf(log, Online, t) ==> SetOf(log, Online, t)[u] == e.ts)
      && (consumer.next >= 2 ==> After(log, t, e.ts - ONLINE_WINDOW))
  }

  /** The sessions a look has counted are listeners of the day that no prune has reached, but for torn heartbeats. */
  predicate SeenOk(log: seq<Command>, t: Track, seen: set<Session>, limit: real) {
    forall u <- seen :: Torn(log, t, u) || (u in SetOf(log, Day, t) && SetOf(log, Day, t)[u] > limit)
  }

  /** All current listeners are stamped within half a day before a look. */
  predicate AfterLook(log: seq<Command>, t: Track, now: int) {
    After(log, t, now as real - HALF_DAY)
  }

  predicate SeenAt(log: seq<Command>, t: Track, seen: set<Session>, now: int) {
    SeenOk(log, t, seen, now as real - HALF_DAY)
  }

  predicate LookOk(log: seq<Command>, clock: real, look: Request, t: Track) {
    && look.now as real <= clock && look.next <= 3
    && (look.track == t ==>
          && (look.next == 1 || look.next == 2 ==> AfterLook(log, t, look.now))
          && (look.next == 3 && clock < look.now as real + HALF_DAY ==> SeenAt(log, t, look.seen, look.now)))
  }

  ghost predicate Inv(s: State, t: Track) {
    && Kept(s.log, t) && BeatOk(s.log, s.consumer, t)
    && forall r <- s.looks :: LookOk(s.log, s.clock, s.looks[r], t)
  }

  // ---------------------------------------------------------------- what one command does to them

  /** A command that concerns neither set of the track. */
  lemma OtherTrack(log: seq<Command>, c: Command, t: Track)
    requires c.track != t
    ensures forall w :: SetOf(log + [c], w, t) == SetOf(log, w, t)
    ensures forall u :: Torn(log + [c], t, u) == Torn(log, t, u)
  {
    forall w ensures SetOf(log + [c], w, t) == SetOf(log, w, t) {
      SetAfter(log, c, w, t);
    }
    forall u ensures Torn(log + [c], t, u) == Torn(log, t, u) {
      TornAfter(log, c, t, u);
    }
  }

  /** The sets and the torn heartbeats of the track of a command after it. */
  ghost predicate Carried(log: seq<Command>, c: Command) {
    var log', t := log + [c], c.track;
    && (forall w :: SetOf(log', w, t)
                    == if w == c.which then Apply(SetOf(log, w, t), c.op, Window(w)) else SetOf(log, w, t))
    && (forall u :: Torn(log', t, u) == if c.op.Beat? && c.op.session == u then c.which.Online? else Torn(log, t, u))
  }

  lemma OwnTrack(log: seq<Command>, c: Command)
    ensures Carried(log, c)
  {
    var t := c.track;
    forall w ensures SetOf(log + [c], w, t)
                     == if w == c.which then Apply(SetOf(log, w, t), c.op, Window(w)) else SetOf(log, w, t) {
      SetAfter(log, c, w, t);
    }
    forall u ensures Torn(log + [c], t, u)
                     == if c.op.Beat? && c.op.session == u then c.which.Online? else Torn(log, t, u) {
      TornAfter(log, c, t, u);
    }
  }

  /** A prune of the online set, or a leave, takes nobody's entry of the day away. */
  lemma ShrinkKeeps(log: seq<Command>, c: Command)
    requires c.which.Online? && !c.op.Beat?
    requires Kept(log, c.track)
    ensures Kept(log + [c], c.track)
    ensures forall limit :: After(log, c.track, limit) ==> After(log + [c], c.track, limit)
    ensures forall seen, limit :: SeenOk(log, c.track, seen, limit) ==> SeenOk(log + [c], c.track, seen, limit)
    ensures forall u :: u in SetOf(log + [c], Online, c.track) ==>
              u in SetOf(log, Online, c.track)
              && SetOf(log + [c], Online, c.track)[u] == SetOf(log, Online, c.track)[u]
    ensures c.op.Prune? ==> After(log + [c], c.track, c.op.now - ONLINE_WINDOW)
  {
    hide SetOf, Torn;
    OwnTrack(log, c);
  }

  /** A first ZADD tears its session and stamps it. */
  lemma BeatTears(log: seq<Command>, c: Command)
    requires c.which.Online? && c.op.Beat? && Kept(log, c.track)
    ensures Kept(log + [c], c.track)
    ensures forall limit :: After(log, c.track, limit) && c.op.ts > limit ==> After(log + [c], c.track, limit)
    ensures forall seen, limit :: SeenOk(log, c.track, seen, limit) ==> SeenOk(log + [c], c.track, seen, limit)
    ensures c.op.session in SetOf(log + [c], Online, c.track)
            && SetOf(log + [c], Online, c.track)[c.op.session] == c.op.ts
  {
    hide SetOf, Torn;
    OwnTrack(log, c);
  }

  /** A second ZADD mends its session. */
  lemma BeatMends(log: seq<Command>, c: Command)
    requires c.which.Day? && c.op.Beat? && Kept(log, c.track)
    requires var O := SetOf(log, Online, c.track); c.op.session in O ==> O[c.op.session] == c.op.ts
    ensures Kept(log + [c], c.track)
    ensures SetOf(log + [c], Online, c.track) == SetOf(log, Online, c.track)
    ensures forall seen, limit :: SeenOk(log, c.track, seen, limit) && c.op.ts > limit ==>
              SeenOk(log + [c], c.track, seen, limit)
  {
    hide SetOf, Torn;
    OwnTrack(log, c);
  }

  /** A prune of the day set that is behind all current stamps. */
  lemma DayPruneKeeps(log: seq<Command>, c: Command)
    requires c.which.Day? && c.op.Prune? && Kept(log, c.track) && After(log, c.track, c.op.now - DAY_WINDOW)
    ensures Kept(log + [c], c.track)
    ensures SetOf(log + [c], Online, c.track) == SetOf(log, Online, c.track)
    ensures forall seen, limit :: SeenOk(log, c.track, seen, limit) && c.op.now - DAY_WINDOW <= limit ==>
              SeenOk(log + [c], c.track, seen, limit)
  {
    hide SetOf, Torn;
    OwnTrack(log, c);
  }

  // ---------------------------------------------------------------- every step keeps them

  /** The command at hand of a busy consumer. */
  function Current(consumer: Consumer): Command
    requires consumer.Busy? && consumer.next < |Commands(consumer.event)|
  {
    Commands(consumer.event)[consumer.next]
  }

  lemma CommandsOf(e: PlaybackEvent)
    requires Commands(e) != []
    ensures Named(e) && e.status != Started
    ensures e.status == Playing ==>
              && |Commands(e)| == 4
              && Commands(e)[0] == Command(Online, e.track, Beat(e.session.value, e.ts))
              && Commands(e)[1] == Command(Online, e.track, Prune(e.ts))
              && Commands(e)[2] == Command(Day, e.track, Beat(e.session.value, e.ts))
              && Commands(e)[3] == Command(Day, e.track, Prune(e.ts))
    ensures e.status != Playing ==> Commands(e) == [Command(Online, e.track, Leave(e.session.value))]
  {
  }

  /** Looks are unharmed by a longer log in which their facts still hold. */
  ghost predicate LooksFollow(log: seq<Command>, log': seq<Command>, t: Track, clock: real) {
    && (forall now | now as real <= clock && AfterLook(log, t, now) :: AfterLook(log', t, now))
    && (forall seen, now | now as real <= clock < now as real + HALF_DAY && SeenAt(log, t, seen, now) ::
          SeenAt(log', t, seen, now))
  }

  lemma LookFollows(log: seq<Command>, log': seq<Command>, clock: real, look: Request, t: Track)
    requires LooksFollow(log, log', t, clock) && LookOk(log, clock, look, t)
    ensures LookOk(log', clock, look, t)
  {
    hide AfterLook, SeenAt;
  }

  lemma OtherTrackKeeps(log: seq<Command>, c: Command, consumer: Consumer, clock: real, t: Track)
    requires c.track != t && Kept(log, t)
    ensures Kept(log + [c], t) && LooksFollow(log, log + [c], t, clock)
    ensures BeatOk(log, consumer, t) ==> BeatOk(log + [c], consumer, t)
  {
    hide SetOf, Torn;
    OtherTrack(log, c, t);
  }

  /** The command of the consumer, carried out, on the track itself. */
  lemma CarriedKeeps(s: State, t: Track)
    requires Inv(s, t) && Can(s, Send(Ok)) && Prompt(s, Send(Ok)) && s.consumer.event.track == t
    ensures var log' := s.log + [Current(s.consumer)];
            && Kept(log', t) && LooksFollow(s.log, log', t, s.clock)
            && BeatOk(log', s.consumer.(next := s.consumer.next + 1), t)
  {
    hide SetOf, Torn, Kept, After, SeenOk, Commands;
    var e, c := s.consumer.event, Current(s.consumer);
    CommandsOf(e);
    if e.status != Playing || s.consumer.next == 1 {
      ShrinkKeeps(s.log, c);
    } else if s.consumer.next == 0 {
      BeatTears(s.log, c);
    } else if s.consumer.next == 2 {
      BeatMends(s.log, c);
      AfterOfEqual(s.log, s.log + [c], t);
    } else {
      AfterLater(s.log, t, e.ts - ONLINE_WINDOW, e.ts - DAY_WINDOW);
      DayPruneKeeps(s.log, c);
      AfterOfEqual(s.log, s.log + [c], t);
    }
  }

  lemma AfterOfEqual(log: seq<Command>, log': seq<Command>, t: Track)
    requires SetOf(log', Online, t) == SetOf(log, Online, t)
    ensures forall limit :: After(log, t, limit) <==> After(log', t, limit)
  {
    hide SetOf;
  }

  lemma AfterLater(log: seq<Command>, t: Track, high: real, low: real)
    requires After(log, t, high) && low <= high
    ensures After(log, t, low)
  {
    hide SetOf;
  }

  lemma LooksKeep(s: State, log': seq<Command>, t: Track)
    requires LooksFollow(s.log, log', t, s.clock) && forall r <- s.looks :: LookOk(s.log, s.clock, s.looks[r], t)
    ensures forall r <- s.looks :: LookOk(log', s.clock, s.looks[r], t)
  {
    hide LooksFollow, LookOk;
    forall r <- s.looks ensures LookOk(log', s.clock, s.looks[r], t) {
      LookFollows(s.log, log', s.clock, s.looks[r], t);
    }
  }

  lemma SendKeeps(s: State, call: Call, t: Track)
    requires Inv(s, t) && Can(s, Send(call)) && Prompt(s, Send(call))
    ensures Inv(Do(s, Send(call)), t)
  {
    hide Kept, LooksFollow, LookOk, Commands;
    var c := Current(s.consumer);
    CommandsOf(s.consumer.event);
    assert c.track == s.consumer.event.track;
    if call.Took() {
      if c.track == t {
        CarriedKeeps(s, t);
      } else {
        OtherTrackKeeps(s.log, c, s.consumer, s.clock, t);
      }
      LooksKeep(s, s.log + [c], t);
    }
  }

  /** The prunes of a look, carried out, on the track itself. */
  lemma LookCarriedKeeps(s: State, r: Id, t: Track)
    requires Inv(s, t) && r in s.looks && s.looks[r].next < 2 && s.looks[r].track == t
    ensures var log' := s.log + [PruneCommand(s.looks[r])];
            && Kept(log', t) && LooksFollow(s.log, log', t, s.clock) && BeatOk(log', s.consumer, t)
            && AfterLook(log', t, s.looks[r].now)
  {
    hide SetOf, Torn, Kept, After, SeenOk;
    var look, c := s.looks[r], PruneCommand(s.looks[r]);
    if look.next == 0 {
      ShrinkKeeps(s.log, c);
      AfterLater(s.log + [c], t, look.now as real - ONLINE_WINDOW, look.now as real - HALF_DAY);
    } else {
      AfterLater(s.log, t, look.now as real - HALF_DAY, look.now as real - DAY_WINDOW);
      DayPruneKeeps(s.log, c);
      AfterOfEqual(s.log, s.log + [c], t);
    }
  }

  lemma PruneKeeps(s: State, r: Id, call: Call, t: Track)
    requires Inv(s, t) && Can(s, LookSend(r, call)) && s.looks[r].next < 2
    ensures Inv(Do(s, LookSend(r, call)), t)
  {
    hide Kept, BeatOk, LooksFollow, AfterLook, SeenAt;
    var look, c := s.looks[r], PruneCommand(s.looks[r]);
    if call.Took() {
      if look.track == t {
        LookCarriedKeeps(s, r, t);
      } else {
        OtherTrackKeeps(s.log, c, s.consumer, s.clock, t);
      }
      LooksKeep(s, s.log + [c], t);
    }
  }

  lemma CountKeeps(s: State, r: Id, call: Call, t: Track)
    requires Inv(s, t) && Can(s, LookSend(r, call)) && s.looks[r].next == 2
    ensures Inv(Do(s, LookSend(r, call)), t)
  {
    hide SetOf, Torn;
  }

  lemma StepKeepsInv(s: State, step: Step, t: Track)
    requires Inv(s, t) && Can(s, step) && Prompt(s, step)
    ensures Inv(Do(s, step), t)
  {
    match step
    case Send(call) => SendKeeps(s, call, t);
    case LookSend(r, call) => if s.looks[r].next < 2 { PruneKeeps(s, r, call, t); } else { CountKeeps(s, r, call, t); }
    case _ =>
      hide Kept, AfterLook, SeenAt, SetOf, Commands;
  }

  lemma {:induction false} RunKeepsInv(s: State, run: seq<Step>, t: Track)
    requires Inv(s, t) && Legal(s, run) && PromptRun(s, run)
    ensures Inv(Exec(s, run), t)
    decreases |run|
  {
    hide Can, Do, Inv, Prompt;
    if run != [] {
      StepKeepsInv(s, run[0], t);
      RunKeepsInv(Do(s, run[0]), run[1..], t);
    }
  }

  lemma InitInv(s: State, t: Track)
    requires Init(s)
    ensures Inv(s, t)
  {
  }

  /** In every interleaving of the commands of events and looks, with any errors and crashes, if heartbeats are prompt
      then every current listener of a track is a listener of the day with the same stamp, or its last heartbeat has
      had its first ZADD and not its second. */
  lemma OnlineWithinDayOrTorn(s0: State, run: seq<Step>, t: Track)
    requires Init(s0) && Legal(s0, run) && PromptRun(s0, run)
    ensures Kept(Exec(s0, run).log, t)
  {
    hide Can, Do, Legal, Exec, Kept, PromptRun;
    InitInv(s0, t);
    RunKeepsInv(s0, run, t);
  }
}
