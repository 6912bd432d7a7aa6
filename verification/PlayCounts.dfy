/** Write-behind counting of plays: every started play increments a running counter and a pending delta, one after the
    other; a periodic flush adds the deltas to the rows of the tracks and then deletes them, in four separate steps
    between which further plays are counted. */
module PlayCounts {
  import opened Basics

  type Track = string
  type Counts = map<Track, nat>

  /** Where the flush stands: `data` is what its first read of the deltas returned, `keys` what its second did. */
  datatype Flush =
    | Resting
    | Gathered(data: Counts)
    | Written(data: Counts)
    | Listed(data: Counts, keys: set<Track>)

  /** `total` has an entry for each track with a row. `counting` is a play between its two increments. The last five
      are bookkeeping: plays deleted by a flush that had not read them, plays written by flushes that failed before
      deleting them, plays whose second increment failed, plays flushed for a track without a row or gone with a
      deleted row, and deltas counted since the flush in progress read. */
  datatype State = State(
    counter: Counts, delta: Counts, total: Counts, counting: Option<Track>, flush: Flush,
    lost: Counts, over: Counts, dropped: Counts, unowned: Counts, since: Counts)

  datatype Step =
    | CountPlay(t: Track, call: Call)     // ZINCRBY plays:counter
    | CountDelta(call: Call)              // HINCRBY plays:delta
    | Gather(read: Option<Counts>)        // HGETALL and what it returned
    | Transact(call: Call)                // the UPDATE statements and their commit
    | ListKeys(ok: bool)                  // HGETALL
    | Clear(call: Call)                   // HDEL
    | Restart
    | AddRow(t: Track)                    // an upload inserts a row
    | DropRow(t: Track)                   // an upload takes its row back

  function Plus(counts: Counts, t: Track, n: nat): Counts {
    counts[t := CountAt(counts, t) + n]
  }

  function Sum(a: Counts, b: Counts): Counts {
    map t | t in a.Keys + b.Keys :: CountAt(a, t) + CountAt(b, t)
  }

  /** UPDATE tracks SET total_plays = total_plays + n for every entry; a track without a row is not credited. */
  function Credit(total: Counts, data: Counts): Counts {
    map t | t in total :: if t in total then total[t] + CountAt(data, t) else 0
  }

  /** What the UPDATE statements for tracks without a row would have added. */
  function Homeless(total: Counts, data: Counts): Counts {
    data - total.Keys
  }

  /** What deleting `keys` removes beyond what the first read saw. */
  function Unread(delta: Counts, data: Counts, keys: set<Track>): Counts {
    map t | t in keys && CountAt(delta, t) > CountAt(data, t) ::
      if t in keys && CountAt(delta, t) > CountAt(data, t) then CountAt(delta, t) - CountAt(data, t) else 0
  }

  /** The flush ends early: what it wrote but did not delete will be written again. */
  function Abandon(s: State): State {
    s.(flush := Resting,
       over := if s.flush.Written? || s.flush.Listed? then Sum(s.over, s.flush.data) else s.over)
  }

  /** The transaction takes effect. */
  function WriteRows(s: State): State
    requires s.flush.Gathered?
  {
    s.(total := Credit(s.total, s.flush.data), unowned := Sum(s.unowned, Homeless(s.total, s.flush.data)),
       flush := Written(s.flush.data))
  }

  predicate Can(s: State, step: Step) {
    match step
    case CountPlay(_, _) => s.counting.None?
    case CountDelta(_) => s.counting.Some?
    case Gather(read) => s.flush.Resting? && (read.Some? ==> read.value == s.delta)
    case Transact(_) => s.flush.Gathered?
    case ListKeys(_) => s.flush.Written?
    case Clear(_) => s.flush.Listed?
    case Restart => true
    case AddRow(t) => t !in s.total
    case DropRow(t) => t in s.total
  }

  function Apply(s: State, step: Step): State
    requires Can(s, step)
  {
    match step
    case CountPlay(t, call) =>
      s.(counter := if call.Took() then Plus(s.counter, t, 1) else s.counter,
         counting := if call.Ok? then Some(t) else None,
         dropped := if call == Lost(true) then Plus(s.dropped, t, 1) else s.dropped)
    case CountDelta(call) =>
      var t := s.counting.value;
      s.(counting := None,
         delta := if call.Took() then Plus(s.delta, t, 1) else s.delta,
         since := if call.Took() then Plus(s.since, t, 1) else s.since,
         dropped := if call.Took() then s.dropped else Plus(s.dropped, t, 1))
    case Gather(read) =>
      if read.Some? && read.value != map[] then s.(flush := Gathered(read.value), since := map[]) else s
    case Transact(call) =>
      var s1 := if call.Took() then WriteRows(s) else s.(flush := Resting);
      if call.Ok? then s1 else Abandon(s1)
    case ListKeys(ok) => if ok then s.(flush := Listed(s.flush.data, s.delta.Keys)) else Abandon(s)
    case Clear(call) =>
      if call.Took()
      then s.(delta := s.delta - s.flush.keys, flush := Resting,
              lost := Sum(s.lost, Unread(s.delta, s.flush.data, s.flush.keys)))
      else Abandon(s)
    case Restart =>
      Abandon(s).(counting := None,
                  dropped := if s.counting.Some? then Plus(s.dropped, s.counting.value, 1) else s.dropped)
    case AddRow(t) => s.(total := s.total[t := 0])
    case DropRow(t) => s.(total := s.total - {t}, unowned := Plus(s.unowned, t, s.total[t]))
  }

  predicate Init(s: State) {
    && s == State(map[], map[], s.total, None, Resting, map[], map[], map[], map[], map[])
    && forall t <- s.total :: s.total[t] == 0
  }

  ghost predicate Legal(s: State, run: seq<Step>)
    decreases |run|
  {
    run == [] || (Can(s, run[0]) && Legal(Apply(s, run[0]), run[1..]))
  }

  ghost function Exec(s: State, run: seq<Step>): State
    requires Legal(s, run)
    decreases |run|
  {
    if run == [] then s else Exec(Apply(s, run[0]), run[1..])
  }

  lemma {:induction false} OneMore(s: State, run: seq<Step>, step: Step)
    requires Legal(s, run) && Can(Exec(s, run), step)
    ensures Legal(s, run + [step]) && Exec(s, run + [step]) == Apply(Exec(s, run), step)
    decreases |run|
  {
    hide Can, Apply;
    if run == [] {
      assert (run + [step])[1..] == [];
    } else {
      OneMore(Apply(s, run[0]), run[1..], step);
      assert (run + [step])[1..] == run[1..] + [step];
    }
  }

  lemma OneStep(s: State, step: Step)
    requires Can(s, step)
    ensures Legal(s, [step]) && Exec(s, [step]) == Apply(s, step)
  {
    assert [step][1..] == [];
  }

  lemma TwoSteps(s: State, first: Step, second: Step, rest: seq<Step>)
    requires Can(s, first) && Can(Apply(s, first), second) && Legal(Apply(Apply(s, first), second), rest)
    ensures Legal(s, [first, second] + rest)
    ensures Exec(s, [first, second] + rest) == Exec(Apply(Apply(s, first), second), rest)
  {
    hide Can, Apply;
    assert ([first, second] + rest)[1..] == [second] + rest && ([second] + rest)[1..] == rest;
  }

  lemma EmptyRun(s: State)
    ensures Legal(s, []) && Exec(s, []) == s
  {
  }

  // ---------------------------------------------------------------- conservation

  /** Deltas the flush has written to the rows but not yet deleted. */
  function Doubled(s: State, t: Track): nat {
    if s.flush.Written? || s.flush.Listed? then CountAt(s.flush.data, t) else 0
  }

  function Between(s: State, t: Track): nat {
    if s.counting == Some(t) then 1 else 0
  }

  /** Where every counted play of a track is. */
  predicate Balanced(s: State, t: Track) {
    CountAt(s.counter, t) + CountAt(s.over, t) + Doubled(s, t)
    == CountAt(s.total, t) + CountAt(s.unowned, t) + CountAt(s.delta, t) + CountAt(s.lost, t) + CountAt(s.dropped, t)
       + Between(s, t)
  }

  /** While a flush is under way, the deltas are what it read plus what was counted since. */
  predicate Snapshot(s: State, t: Track) {
    !s.flush.Resting? ==> CountAt(s.delta, t) == CountAt(s.flush.data, t) + CountAt(s.since, t)
  }

  /** Every delta the flush read is still there, and is among those it will delete. */
  predicate KeysNested(s: State) {
    && (!s.flush.Resting? ==> s.flush.data.Keys <= s.delta.Keys)
    && (s.flush.Listed? ==> s.flush.data.Keys <= s.flush.keys)
  }

  ghost predicate Inv(s: State) {
    && (forall t :: Balanced(s, t) && Snapshot(s, t))
    && KeysNested(s)
  }

  lemma PlusAt(a: Counts, t: Track, n: nat, x: Track)
    ensures CountAt(Plus(a, t, n), x) == CountAt(a, x) + if x == t then n else 0
  {
  }

  lemma SumAt(a: Counts, b: Counts, x: Track)
    ensures CountAt(Sum(a, b), x) == CountAt(a, x) + CountAt(b, x)
  {
  }

  lemma CreditAt(total: Counts, data: Counts, x: Track)
    ensures CountAt(Credit(total, data), x) + CountAt(Homeless(total, data), x) == CountAt(total, x) + CountAt(data, x)
  {
  }

  lemma ClearAt(delta: Counts, data: Counts, keys: set<Track>, x: Track)
    requires CountAt(data, x) <= CountAt(delta, x)
    ensures CountAt(delta - keys, x) == if x in keys then 0 else CountAt(delta, x)
    ensures CountAt(Unread(delta, data, keys), x) == if x in keys then CountAt(delta, x) - CountAt(data, x) else 0
  {
  }

  /** A flush that ends early has doubled exactly what it wrote. */
  lemma AbandonKeepsBalance(s: State, t: Track)
    requires Balanced(s, t)
    ensures Balanced(Abandon(s), t)
  {
  }

  lemma CountingKeepsBalance(s: State, step: Step, t: Track)
    requires Can(s, step) && (step.CountPlay? || step.CountDelta?) && Balanced(s, t)
    ensures Balanced(Apply(s, step), t)
  {
    hide Plus;
    match step
    case CountPlay(x, call) =>
      PlusAt(s.counter, x, 1, t);
      PlusAt(s.dropped, x, 1, t);
    case CountDelta(call) =>
      PlusAt(s.delta, s.counting.value, 1, t);
      PlusAt(s.dropped, s.counting.value, 1, t);
  }

  lemma WriteKeepsBalance(s: State, t: Track)
    requires s.flush.Gathered? && Balanced(s, t)
    ensures Balanced(WriteRows(s), t)
  {
    hide Credit, Homeless, Sum;
    CreditAt(s.total, s.flush.data, t);
    SumAt(s.unowned, Homeless(s.total, s.flush.data), t);
  }

  lemma TransactKeepsBalance(s: State, call: Call, t: Track)
    requires s.flush.Gathered? && Balanced(s, t)
    ensures Balanced(Apply(s, Transact(call)), t)
  {
    hide WriteRows, Abandon;
    WriteKeepsBalance(s, t);
    AbandonKeepsBalance(if call.Took() then WriteRows(s) else s.(flush := Resting), t);
  }

  lemma RowChangeKeepsBalance(s: State, step: Step, t: Track)
    requires Can(s, step) && (step.AddRow? || step.DropRow?) && Balanced(s, t)
    ensures Balanced(Apply(s, step), t)
  {
    hide Plus;
    if step.DropRow? {
      PlusAt(s.unowned, step.t, s.total[step.t], t);
    }
  }

  lemma ClearKeepsBalance(s: State, call: Call, t: Track)
    requires s.flush.Listed? && s.flush.data.Keys <= s.flush.keys && Balanced(s, t) && Snapshot(s, t)
    ensures Balanced(Apply(s, Clear(call)), t)
  {
    hide Abandon, Sum, Unread;
    ClearAt(s.delta, s.flush.data, s.flush.keys, t);
    SumAt(s.lost, Unread(s.delta, s.flush.data, s.flush.keys), t);
    AbandonKeepsBalance(s, t);
  }

  lemma RestartKeepsBalance(s: State, t: Track)
    requires Balanced(s, t)
    ensures Balanced(Apply(s, Restart), t)
  {
    hide Abandon, Plus;
    AbandonKeepsBalance(s, t);
    AbandonKeepsCounting(s);
    if s.counting.Some? {
      PlusAt(s.dropped, s.counting.value, 1, t);
    }
  }

  lemma AbandonKeepsCounting(s: State)
    ensures Abandon(s) == s.(flush := Resting, over := Abandon(s).over)
  {
  }

  lemma StepKeepsBalance(s: State, step: Step, t: Track)
    requires Inv(s) && Can(s, step)
    ensures Balanced(Apply(s, step), t)
  {
    hide Plus, Sum, Credit, Unread, WriteRows;
    assert Balanced(s, t) && Snapshot(s, t);
    match step
    case CountPlay(_, _) => CountingKeepsBalance(s, step, t);
    case CountDelta(_) => CountingKeepsBalance(s, step, t);
    case Gather(_) =>
    case Transact(call) => TransactKeepsBalance(s, call, t);
    case ListKeys(ok) => AbandonKeepsBalance(s, t);
    case Clear(call) => ClearKeepsBalance(s, call, t);
    case Restart => RestartKeepsBalance(s, t);
    case AddRow(_) => RowChangeKeepsBalance(s, step, t);
    case DropRow(_) => RowChangeKeepsBalance(s, step, t);
  }

  lemma StepKeepsSnapshot(s: State, step: Step, t: Track)
    requires Can(s, step) && Snapshot(s, t)
    ensures Snapshot(Apply(s, step), t)
  {
    hide Sum, Credit, Unread, Plus, Abandon;
    AbandonKeepsKeys(s);
    match step
    case CountPlay(_, _) =>
    case CountDelta(_) =>
      PlusAt(s.delta, s.counting.value, 1, t);
      PlusAt(s.since, s.counting.value, 1, t);
    case Gather(_) =>
    case Transact(call) => TransactKeepsSnapshot(s, call, t);
    case ListKeys(_) =>
    case Clear(_) =>
    case Restart =>
    case AddRow(_) =>
    case DropRow(_) =>
  }

  lemma TransactKeepsSnapshot(s: State, call: Call, t: Track)
    requires s.flush.Gathered? && Snapshot(s, t)
    ensures Snapshot(Apply(s, Transact(call)), t)
  {
  }

  lemma CountingKeepsKeys(s: State, step: Step)
    requires Can(s, step) && (step.CountPlay? || step.CountDelta?) && KeysNested(s)
    ensures KeysNested(Apply(s, step))
  {
  }

  /** A flush that ends early rests, and so promises nothing about keys. */
  lemma AbandonKeepsKeys(s: State)
    ensures KeysNested(Abandon(s)) && Abandon(s).flush.Resting?
  {
  }

  lemma TransactKeepsKeys(s: State, call: Call)
    requires s.flush.Gathered? && KeysNested(s)
    ensures KeysNested(Apply(s, Transact(call)))
  {
    hide Credit, Homeless, Sum;
  }

  lemma FlushKeepsKeys(s: State, step: Step)
    requires Can(s, step) && !step.CountPlay? && !step.CountDelta? && KeysNested(s)
    ensures KeysNested(Apply(s, step))
  {
    hide Sum, Unread, Plus, Abandon, Credit;
    match step
    case Gather(_) =>
    case Transact(call) => TransactKeepsKeys(s, call);
    case ListKeys(_) => AbandonKeepsKeys(s);
    case Clear(_) => AbandonKeepsKeys(s);
    case Restart => AbandonKeepsKeys(s);
    case AddRow(_) =>
    case DropRow(_) =>
  }

  lemma StepKeepsInv(s: State, step: Step)
    requires Inv(s) && Can(s, step)
    ensures Inv(Apply(s, step))
  {
    hide Apply, Can, Balanced, Snapshot, KeysNested;
    if step.CountPlay? || step.CountDelta? {
      CountingKeepsKeys(s, step);
    } else {
      FlushKeepsKeys(s, step);
    }
    forall t ensures Balanced(Apply(s, step), t) && Snapshot(Apply(s, step), t) {
      assert Snapshot(s, t);
      StepKeepsSnapshot(s, step, t);
      StepKeepsBalance(s, step, t);
    }
  }

  lemma {:induction false} RunKeepsInv(s: State, run: seq<Step>)
    requires Inv(s) && Legal(s, run)
    ensures Inv(Exec(s, run))
    decreases |run|
  {
    if run != [] {
      StepKeepsInv(s, run[0]);
      RunKeepsInv(Apply(s, run[0]), run[1..]);
    }
  }

  /** In every reachable state the plays counted for a track, and those written twice, are exactly the plays on its
      row, those that found no row, those waiting as deltas, and those lost or dropped; a flush that has written and
      not deleted accounts for what it wrote. */
  lemma Conservation(s0: State, run: seq<Step>, t: Track)
    requires Init(s0) && Legal(s0, run)
    ensures Balanced(Exec(s0, run), t)
    ensures var s := Exec(s0, run);
            s.flush.Resting? && s.counting.None? ==>
              CountAt(s.counter, t) + CountAt(s.over, t)
              == CountAt(s.total, t) + CountAt(s.unowned, t) + CountAt(s.delta, t) + CountAt(s.lost, t)
                 + CountAt(s.dropped, t)
  {
    hide Can, Apply;
    InitInv(s0);
    RunKeepsInv(s0, run);
  }

  lemma InitInv(s: State)
    requires Init(s)
    ensures Inv(s)
  {
  }

  // ---------------------------------------------------------------- when a row shows too many plays

  /** The step ends a flush that has added plays of `t` to its row, and leaves them among the deltas: a commit whose
      answer is lost, a second read that fails, a deletion that does not take effect, or a restart in between. */
  predicate Doubles(s: State, step: Step, t: Track) {
    match step
    case Transact(call) => s.flush.Gathered? && call == Lost(true) && CountAt(s.flush.data, t) > 0
    case ListKeys(ok) => s.flush.Written? && !ok && CountAt(s.flush.data, t) > 0
    case Clear(call) => s.flush.Listed? && !call.Took() && CountAt(s.flush.data, t) > 0
    case Restart => (s.flush.Written? || s.flush.Listed?) && CountAt(s.flush.data, t) > 0
    case _ => false
  }

  ghost predicate DoublesIn(s: State, run: seq<Step>, t: Track)
    requires Legal(s, run)
    decreases |run|
  {
    run != [] && (Doubles(s, run[0], t) || DoublesIn(Apply(s, run[0]), run[1..], t))
  }

  lemma AbandonDoubles(s: State, t: Track)
    ensures CountAt(Abandon(s).over, t) == CountAt(s.over, t) + Doubled(s, t)
  {
    hide Sum;
    if s.flush.Written? || s.flush.Listed? {
      SumAt(s.over, s.flush.data, t);
    }
  }

  lemma StepDoubles(s: State, step: Step, t: Track)
    requires Can(s, step)
    ensures CountAt(Apply(s, step).over, t) >= CountAt(s.over, t)
    ensures CountAt(Apply(s, step).over, t) > CountAt(s.over, t) <==> Doubles(s, step, t)
  {
    hide Abandon, Sum, Unread, Credit, Homeless, Plus;
    AbandonDoubles(s, t);
    if step.Transact? {
      AbandonDoubles(WriteRows(s), t);
      AbandonDoubles(s.(flush := Resting), t);
    }
  }

  /** Plays of a track are written twice in exactly the runs with a step that doubles them. */
  lemma {:induction false} OverIff(s: State, run: seq<Step>, t: Track)
    requires Legal(s, run)
    ensures CountAt(Exec(s, run).over, t) >= CountAt(s.over, t)
    ensures CountAt(Exec(s, run).over, t) > CountAt(s.over, t) <==> DoublesIn(s, run, t)
    decreases |run|
  {
    hide Can, Apply, Doubles;
    if run != [] {
      StepDoubles(s, run[0], t);
      OverIff(Apply(s, run[0]), run[1..], t);
    }
  }

  /** A row never shows more plays than were counted in a run in which no flush fails between its commit and its
      deletion. */
  lemma NeverOvercounts(s0: State, run: seq<Step>, t: Track)
    requires Init(s0) && Legal(s0, run) && !DoublesIn(s0, run, t)
    ensures CountAt(Exec(s0, run).total, t) <= CountAt(Exec(s0, run).counter, t)
  {
    hide Can, Apply;
    InitInv(s0);
    RunKeepsInv(s0, run);
    OverIff(s0, run, t);
    assert Snapshot(Exec(s0, run), t) && Balanced(Exec(s0, run), t);
  }

  /** When every play of a track that always had its row has been flushed and none was lost on the way, the row shows
      more plays than were counted exactly if some step doubled them, and the right number otherwise. */
  lemma OvercountsIff(s0: State, run: seq<Step>, t: Track)
    requires Init(s0) && Legal(s0, run) && t in s0.total && DropRow(t) !in run
    requires var s := Exec(s0, run);
             && s.flush.Resting? && s.counting.None?
             && CountAt(s.delta, t) == CountAt(s.lost, t) == CountAt(s.dropped, t) == 0
    ensures CountAt(Exec(s0, run).total, t) >= CountAt(Exec(s0, run).counter, t)
    ensures CountAt(Exec(s0, run).total, t) > CountAt(Exec(s0, run).counter, t) <==> DoublesIn(s0, run, t)
  {
    hide Can, Apply;
    StandingRowOwnsPlays(s0, run, t);
    Conservation(s0, run, t);
    OverIff(s0, run, t);
  }

  /** A track whose row was there from the start and never dropped has no play without a row. */
  lemma {:induction false} StandingRowOwnsPlays(s: State, run: seq<Step>, t: Track)
    requires Legal(s, run) && t in s.total && DropRow(t) !in run
    ensures t in Exec(s, run).total && CountAt(Exec(s, run).unowned, t) == CountAt(s.unowned, t)
    decreases |run|
  {
    hide Can, Apply;
    if run != [] {
      StandingRowKeeps(s, run[0], t);
      StandingRowOwnsPlays(Apply(s, run[0]), run[1..], t);
    }
  }

  lemma StandingRowKeeps(s: State, step: Step, t: Track)
    requires Can(s, step) && t in s.total && step != DropRow(t)
    ensures t in Apply(s, step).total && CountAt(Apply(s, step).unowned, t) == CountAt(s.unowned, t)
  {
    hide Unread, Sum, Credit, Homeless, Abandon;
    AbandonKeepsRows(s);
    if step.Transact? {
      CreditKeepsRow(s, t);
      AbandonKeepsRows(WriteRows(s));
      AbandonKeepsRows(s.(flush := Resting));
    }
  }

  lemma AbandonKeepsRows(s: State)
    ensures Abandon(s).total == s.total && Abandon(s).unowned == s.unowned
  {
  }

  lemma CreditKeepsRow(s: State, t: Track)
    requires s.flush.Gathered? && t in s.total
    ensures t in WriteRows(s).total && CountAt(WriteRows(s).unowned, t) == CountAt(s.unowned, t)
  {
    SumAt(s.unowned, Homeless(s.total, s.flush.data), t);
  }

  // ---------------------------------------------------------------- what one flush loses and keeps

  /** The deletion of a flush loses exactly the plays that reached the deltas after its first read and whose track
      its second read listed; every other play waits for the next flush. */
  lemma ClearLosesLatePlays(s: State, t: Track)
    requires Inv(s) && s.flush.Listed?
    ensures var s' := Apply(s, Clear(Ok));
            && CountAt(s'.lost, t) == CountAt(s.lost, t) + (if t in s.flush.keys then CountAt(s.since, t) else 0)
            && CountAt(s'.delta, t) == (if t in s.flush.keys then 0 else CountAt(s.since, t))
            && CountAt(s'.over, t) == CountAt(s.over, t)
  {
    hide Sum, Unread;
    assert Snapshot(s, t);
    ClearAt(s.delta, s.flush.data, s.flush.keys, t);
    SumAt(s.lost, Unread(s.delta, s.flush.data, s.flush.keys), t);
  }

  /** An undisturbed flush without errors credits every delta to its row, empties the deltas and loses nothing. */
  lemma UndisturbedFlush(s: State)
    requires s.flush.Resting? && s.delta != map[]
    ensures var run := [Gather(Some(s.delta)), Transact(Ok), ListKeys(true), Clear(Ok)];
            && Legal(s, run)
            && var s' := Exec(s, run);
               && s'.flush.Resting? && s'.delta == map[]
               && s'.total == Credit(s.total, s.delta) && s'.unowned == Sum(s.unowned, Homeless(s.total, s.delta))
               && s'.counter == s.counter && s'.over == s.over && s'.dropped == s.dropped
               && forall t :: CountAt(s'.lost, t) == CountAt(s.lost, t)
  {
    var run := [Gather(Some(s.delta)), Transact(Ok), ListKeys(true), Clear(Ok)];
    var s2 := Apply(Apply(s, Gather(Some(s.delta))), Transact(Ok));
    var s4 := Apply(Apply(s2, ListKeys(true)), Clear(Ok));
    hide Legal, Exec;
    EmptyRun(s4);
    TwoSteps(s2, ListKeys(true), Clear(Ok), []);
    TwoSteps(s, Gather(Some(s.delta)), Transact(Ok), [ListKeys(true), Clear(Ok)] + []);
    assert run == [Gather(Some(s.delta)), Transact(Ok)] + ([ListKeys(true), Clear(Ok)] + []);
  }

  // ---------------------------------------------------------------- runs in which the counts differ

  function FreshRows(a: Track): State {
    State(map[], map[], map[a := 0], None, Resting, map[], map[], map[], map[], map[])
  }

  /** One more step of a run whose end is known. */
  lemma Advance(s0: State, run: seq<Step>, s: State, step: Step, s': State)
    requires Legal(s0, run) && Exec(s0, run) == s && Can(s, step) && Apply(s, step) == s'
    ensures Legal(s0, run + [step]) && Exec(s0, run + [step]) == s'
  {
    hide Can, Apply, Legal, Exec;
    OneMore(s0, run, step);
  }

  /** One play has been counted, and a flush has read it. */
  lemma FirstRead(a: Track) returns (run: seq<Step>, s: State)
    ensures Init(FreshRows(a)) && Legal(FreshRows(a), run) && Exec(FreshRows(a), run) == s
    ensures s == State(map[a := 1], map[a := 1], map[a := 0], None, Gathered(map[a := 1]),
                       map[], map[], map[], map[], map[])
  {
    var s0 := FreshRows(a);
    var s1 := Apply(s0, CountPlay(a, Ok));
    var s2 := Apply(s1, CountDelta(Ok));
    s := Apply(s2, Gather(Some(s2.delta)));
    run := [];
    assert Legal(s0, run) && Exec(s0, run) == s0;
    hide Legal, Exec;
    Advance(s0, run, s0, CountPlay(a, Ok), s1);
    run := run + [CountPlay(a, Ok)];
    Advance(s0, run, s1, CountDelta(Ok), s2);
    run := run + [CountDelta(Ok)];
    Advance(s0, run, s2, Gather(Some(s2.delta)), s);
    run := run + [Gather(Some(s2.delta))];
  }

  /** Another play is counted before the flush writes. */
  lemma PlayDuringFlush(a: Track) returns (run: seq<Step>, s: State)
    ensures Init(FreshRows(a)) && Legal(FreshRows(a), run) && Exec(FreshRows(a), run) == s
    ensures s == State(map[a := 2], map[a := 2], map[a := 0], None, Gathered(map[a := 1]),
                       map[], map[], map[], map[], map[a := 1])
  {
    var s0 := FreshRows(a);
    var first, s1 := FirstRead(a);
    var s2 := Apply(s1, CountPlay(a, Ok));
    s := Apply(s2, CountDelta(Ok));
    hide Legal, Exec;
    Advance(s0, first, s1, CountPlay(a, Ok), s2);
    run := first + [CountPlay(a, Ok)];
    Advance(s0, run, s2, CountDelta(Ok), s);
    run := run + [CountDelta(Ok)];
  }

  /** The flush writes what it read, then lists and deletes the track. */
  lemma LatePlayDeleted(a: Track) returns (s1: State, s2: State, s3: State)
    ensures var s := State(map[a := 2], map[a := 2], map[a := 0], None, Gathered(map[a := 1]),
                           map[], map[], map[], map[], map[a := 1]);
            && Can(s, Transact(Ok)) && Apply(s, Transact(Ok)) == s1
            && Can(s1, ListKeys(true)) && Apply(s1, ListKeys(true)) == s2
            && Can(s2, Clear(Ok)) && Apply(s2, Clear(Ok)) == s3
    ensures s3.flush.Resting? && s3.counter == map[a := 2] && s3.total == map[a := 1] && s3.delta == map[]
    ensures s3.lost == map[a := 1]
  {
    var s := State(map[a := 2], map[a := 2], map[a := 0], None, Gathered(map[a := 1]),
                   map[], map[], map[], map[], map[a := 1]);
    s1 := Apply(s, Transact(Ok));
    s2 := Apply(s1, ListKeys(true));
    s3 := Apply(s2, Clear(Ok));
  }

  /** A play counted between the two reads of a flush is deleted without reaching its row. */
  lemma LatePlayIsLost(a: Track) returns (run: seq<Step>, s: State)
    ensures Init(FreshRows(a)) && Legal(FreshRows(a), run) && Exec(FreshRows(a), run) == s
    ensures s.flush.Resting? && s.counter == map[a := 2] && s.total == map[a := 1] && s.delta == map[]
    ensures s.lost == map[a := 1]
  {
    var s0 := FreshRows(a);
    var first, s3 := PlayDuringFlush(a);
    var s4, s5;
    s4, s5, s := LatePlayDeleted(a);
    hide Legal, Exec, Can, Apply;
    Advance(s0, first, s3, Transact(Ok), s4);
    run := first + [Transact(Ok)];
    Advance(s0, run, s4, ListKeys(true), s5);
    run := run + [ListKeys(true)];
    Advance(s0, run, s5, Clear(Ok), s);
    run := run + [Clear(Ok)];
  }

  /** A flush whose second read fails has credited its plays, and the next flush credits them again. */
  lemma FailedListingCountsTwice(a: Track) returns (run: seq<Step>, s: State)
    ensures Init(FreshRows(a)) && Legal(FreshRows(a), run) && Exec(FreshRows(a), run) == s
    ensures s.counter == map[a := 1] && s.total == map[a := 2] && s.over == map[a := 1]
  {
    var s0 := FreshRows(a);
    var first, s1 := FirstRead(a);
    var s2 := Apply(s1, Transact(Ok));
    var s3 := Apply(s2, ListKeys(false));
    assert a in s3.delta;
    var s4 := Apply(s3, Gather(Some(s3.delta)));
    s := Apply(s4, Transact(Ok));
    hide Legal, Exec;
    Advance(s0, first, s1, Transact(Ok), s2);
    run := first + [Transact(Ok)];
    Advance(s0, run, s2, ListKeys(false), s3);
    run := run + [ListKeys(false)];
    Advance(s0, run, s3, Gather(Some(s3.delta)), s4);
    run := run + [Gather(Some(s3.delta))];
    Advance(s0, run, s4, Transact(Ok), s);
    run := run + [Transact(Ok)];
  }
}
