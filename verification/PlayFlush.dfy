/** The code that counts plays and the code that flushes them, each run while the other goes on and uploads add and
    drop rows: whatever happens between two awaits, the services stay where a run of the transition system leads. */
module PlayFlush {
  import opened Basics
  import opened PlayCounts

  predicate Counting(step: Step) {
    step.CountPlay? || step.CountDelta?
  }

  predicate Flushing(step: Step) {
    step.Gather? || step.Transact? || step.ListKeys? || step.Clear?
  }

  predicate RowChange(step: Step) {
    step.AddRow? || step.DropRow?
  }

  /** No row was added or dropped from step `n` on. */
  predicate RowsStand(run: seq<Step>, n: nat) {
    forall i | n <= i < |run| :: !RowChange(run[i])
  }

  predicate OfFlush(step: Step) {
    Flushing(step) || step.Restart?
  }

  predicate OfPlays(step: Step) {
    Counting(step) || step.Restart?
  }

  /** The steps of a run that the flush took, and restarts. */
  function FlushPart(run: seq<Step>): seq<Step> {
    if run == [] then [] else FlushPart(run[..|run| - 1]) + (if OfFlush(run[|run| - 1]) then [run[|run| - 1]] else [])
  }

  /** The steps of a run that the counting of plays took, and restarts. */
  function PlayPart(run: seq<Step>): seq<Step> {
    if run == [] then [] else PlayPart(run[..|run| - 1]) + (if OfPlays(run[|run| - 1]) then [run[|run| - 1]] else [])
  }

  lemma PartsOfOneMore(run: seq<Step>, step: Step)
    ensures FlushPart(run + [step]) == FlushPart(run) + (if OfFlush(step) then [step] else [])
    ensures PlayPart(run + [step]) == PlayPart(run) + (if OfPlays(step) then [step] else [])
  {
  }

  /** What counting plays and changing rows leave to the flush. */
  predicate SameFlush(s: State, s': State) {
    && s'.flush == s.flush && s'.lost == s.lost && s'.over == s.over
    && s.delta.Keys <= s'.delta.Keys
  }

  lemma CountingKeepsFlush(s: State, step: Step)
    requires Can(s, step) && (Counting(step) || RowChange(step))
    ensures SameFlush(s, Apply(s, step)) && (!RowChange(step) ==> Apply(s, step).total == s.total)
  {
  }

  lemma {:induction false} PlaysKeepFlush(origin: State, before: seq<Step>, after: seq<Step>)
    requires Legal(origin, before) && Legal(origin, after) && before <= after
    requires forall i | |before| <= i < |after| :: Counting(after[i]) || RowChange(after[i])
    ensures SameFlush(Exec(origin, before), Exec(origin, after)) && FlushPart(after) == FlushPart(before)
    ensures RowsStand(after, |before|) ==> Exec(origin, after).total == Exec(origin, before).total
    decreases |after|
  {
    hide Can, Apply, Legal, Exec, Counting, RowChange, OfFlush, FlushPart;
    if |before| == |after| {
      assert before == after;
    } else {
      var after', step := after[..|after| - 1], after[|after| - 1];
      assert after' + [step] == after && after[|after'|] == step;
      LegalPrefix(origin, after', step);
      PlaysKeepFlush(origin, before, after');
      CountingKeepsFlush(Exec(origin, after'), step);
      CountingIsNotFlushing(step);
      PartsOfOneMore(after', step);
    }
  }

  lemma CountingIsNotFlushing(step: Step)
    ensures Counting(step) || RowChange(step) ==> !OfFlush(step)
    ensures Flushing(step) || RowChange(step) ==> !OfPlays(step)
  {
  }

  lemma {:induction false} LegalPrefix(s: State, run: seq<Step>, step: Step)
    requires Legal(s, run + [step])
    ensures Legal(s, run) && Can(Exec(s, run), step) && Exec(s, run + [step]) == Apply(Exec(s, run), step)
    decreases |run|
  {
    hide Can, Apply;
    if run == [] {
      assert (run + [step])[1..] == [] && (run + [step])[0] == step;
    } else {
      assert (run + [step])[0] == run[0] && (run + [step])[1..] == run[1..] + [step];
      LegalPrefix(Apply(s, run[0]), run[1..], step);
    }
  }

  lemma TransactKeepsCounting(s: State, call: Call)
    requires s.flush.Gathered?
    ensures Apply(s, Transact(call)).counting == s.counting && Apply(s, Transact(call)).counter == s.counter
  {
    hide Sum, Credit, Homeless, Abandon;
    AbandonKeepsCounting(if call.Took() then WriteRows(s) else s.(flush := Resting));
  }

  lemma FlushingKeepsCounting(s: State, step: Step)
    requires Can(s, step) && (Flushing(step) || RowChange(step))
    ensures Apply(s, step).counting == s.counting && Apply(s, step).counter == s.counter
  {
    if step.Transact? {
      TransactKeepsCounting(s, step.call);
    } else {
      hide Sum, Unread, Plus, Abandon;
      AbandonKeepsCounting(s);
    }
  }

  lemma {:induction false} FlushesKeepCounting(origin: State, before: seq<Step>, after: seq<Step>)
    requires Legal(origin, before) && Legal(origin, after) && before <= after
    requires forall i | |before| <= i < |after| :: Flushing(after[i]) || RowChange(after[i])
    ensures Exec(origin, after).counting == Exec(origin, before).counting
    ensures Exec(origin, after).counter == Exec(origin, before).counter && PlayPart(after) == PlayPart(before)
    decreases |after|
  {
    hide Can, Apply, Flushing, RowChange, OfPlays;
    if |before| == |after| {
      assert before == after;
    } else {
      var after', step := after[..|after| - 1], after[|after| - 1];
      assert after' + [step] == after;
      LegalPrefix(origin, after', step);
      FlushesKeepCounting(origin, before, after');
      FlushingKeepsCounting(Exec(origin, after'), step);
      CountingIsNotFlushing(step);
      PartsOfOneMore(after', step);
    }
  }

  /** How one flush fares: whether its reads answer, a row whose UPDATE raises, and the outcomes of commit and HDEL. */
  datatype Fate = Fate(read: bool, bad: Option<Track>, commit: Call, again: bool, clear: Call)

  function TransactCall(data: Counts, fate: Fate): Call {
    if fate.bad.Some? && fate.bad.value in data then Lost(false) else fate.commit
  }

  /** The steps one flush takes when its first read returns `data`. */
  function Pass(data: Counts, fate: Fate): seq<Step> {
    var call := TransactCall(data, fate);
    if !fate.read then [Gather(None)]
    else if data == map[] then [Gather(Some(data))]
    else if !call.Ok? then [Gather(Some(data)), Transact(call)]
    else if !fate.again then [Gather(Some(data)), Transact(call), ListKeys(false)]
    else [Gather(Some(data)), Transact(call), ListKeys(true), Clear(fate.clear)]
  }

  /** The steps of one flush after the other. */
  function Passes(gathered: seq<Counts>, fates: seq<Fate>): seq<Step>
    requires |gathered| <= |fates|
  {
    if gathered == [] then []
    else Passes(gathered[..|gathered| - 1], fates) + Pass(gathered[|gathered| - 1], fates[|gathered| - 1])
  }

  /** The flush adds what it read to the rows. */
  predicate Credits(data: Counts, fate: Fate) {
    fate.read && TransactCall(data, fate).Took()
  }

  /** What a number of flushes add to the row of `t`. */
  function Credited(gathered: seq<Counts>, fates: seq<Fate>, t: Track): nat
    requires |gathered| <= |fates|
  {
    if gathered == [] then 0 else
      Credited(gathered[..|gathered| - 1], fates, t)
      + if Credits(gathered[|gathered| - 1], fates[|gathered| - 1]) then CountAt(gathered[|gathered| - 1], t) else 0
  }

  /** The flush has credited what it read, and leaves it among the deltas. */
  predicate Repeats(data: Counts, fate: Fate) {
    && fate.read && data != map[] && TransactCall(data, fate).Took()
    && !Clears(data, fate)
  }

  /** The flush gets as far as its deletion, and the deletion takes effect. */
  predicate Clears(data: Counts, fate: Fate) {
    fate.read && data != map[] && TransactCall(data, fate).Ok? && fate.again && fate.clear.Took()
  }

  /** The deltas are the plays read and those counted since. */
  ghost predicate AddUp(delta: Counts, data: Counts, since: Counts) {
    forall t :: CountAt(delta, t) == CountAt(data, t) + CountAt(since, t)
  }

  /** After a deletion that took effect, the plays counted since the first read are lost if their track was read or
      listed, and wait for the next flush otherwise; of what was read nothing waits. */
  ghost predicate Settles(data: Counts, was: Counts, lost: Counts, delta: Counts, since: Counts) {
    forall t ::
      || (CountAt(lost, t) == CountAt(was, t) + CountAt(since, t) && CountAt(delta, t) == 0)
      || (t !in data && CountAt(lost, t) == CountAt(was, t) && CountAt(delta, t) == CountAt(since, t))
  }

  const NO_ERRORS := Fate(true, None, Ok, true, Ok)

  /** What one undisturbed flush does to the rows and the deltas. */
  lemma UndisturbedPass(s: State, fate: Fate)
    requires s.flush.Resting?
    ensures Legal(s, Pass(s.delta, fate))
    ensures var s' := Exec(s, Pass(s.delta, fate));
            && s'.flush.Resting?
            && s'.total == (if fate.read && TransactCall(s.delta, fate).Took() then Credit(s.total, s.delta)
                            else s.total)
            && s'.delta == (if Clears(s.delta, fate) then map[] else s.delta)
  {
    CreditNothing(s.total);
    hide Apply, Credit;
    var read := if fate.read then Some(s.delta) else None;
    UndisturbedGather(s, read);
    if !fate.read || s.delta == map[] {
      OneStep(s, Gather(read));
    } else {
      var call := TransactCall(s.delta, fate);
      var s1 := Apply(s, Gather(read));
      UndisturbedTransact(s1, call);
      if call.Ok? {
        UndisturbedClear(Apply(s1, Transact(call)), fate);
        TwoSteps(s, Gather(read), Transact(call), Rest(fate));
        assert Pass(s.delta, fate) == [Gather(read), Transact(call)] + Rest(fate);
      } else {
        TwoSteps(s, Gather(read), Transact(call), []);
        assert Pass(s.delta, fate) == [Gather(read), Transact(call)] + [];
      }
    }
  }

  lemma UndisturbedGather(s: State, read: Option<Counts>)
    requires Can(s, Gather(read))
    ensures Apply(s, Gather(read)).total == s.total && Apply(s, Gather(read)).delta == s.delta
    ensures Apply(s, Gather(read)).flush == if read.Some? && s.delta != map[] then Gathered(s.delta) else Resting
  {
  }

  /** The steps of a flush after a commit that was answered. */
  function Rest(fate: Fate): seq<Step> {
    if fate.again then [ListKeys(true), Clear(fate.clear)] else [ListKeys(false)]
  }

  lemma UndisturbedTransact(s: State, call: Call)
    requires s.flush.Gathered?
    ensures var s' := Apply(s, Transact(call));
            && s'.total == (if call.Took() then Credit(s.total, s.flush.data) else s.total)
            && s'.flush == (if call.Ok? then Written(s.flush.data) else Resting)
            && s'.delta == s.delta
  {
    hide Sum, Homeless, Credit;
  }

  lemma UndisturbedClear(s: State, fate: Fate)
    requires s.flush.Written?
    ensures Legal(s, Rest(fate))
    ensures var s' := Exec(s, Rest(fate));
            && s'.flush.Resting? && s'.total == s.total
            && s'.delta == if fate.again && fate.clear.Took() then map[] else s.delta
  {
    hide Sum, Unread, Legal, Exec;
    if fate.again {
      EmptyRun(Apply(Apply(s, ListKeys(true)), Clear(fate.clear)));
      TwoSteps(s, ListKeys(true), Clear(fate.clear), []);
      assert Rest(fate) == [ListKeys(true), Clear(fate.clear)] + [];
    } else {
      OneStep(s, ListKeys(false));
    }
  }

  /** A flush with any errors and a flush without errors, nothing in between: the pending plays of a track with a row
      are credited once, unless the first flush committed and then failed to be told so, to list or to delete; then
      they are credited twice. */
  lemma CreditedOnceIff(s: State, fate: Fate, t: Track)
    requires s.flush.Resting? && t in s.total && CountAt(s.delta, t) > 0
    ensures var first := Pass(s.delta, fate);
            && Legal(s, first)
            && var s1 := Exec(s, first);
               var second := Pass(s1.delta, NO_ERRORS);
               && Legal(s1, second)
               && var s2 := Exec(s1, second);
                  && s2.delta == map[]
                  && CountAt(s2.total, t) == CountAt(s.total, t)
                                            + (if Repeats(s.delta, fate) then 2 else 1) * CountAt(s.delta, t)
                  && (CountAt(s2.total, t) == CountAt(s.total, t) + CountAt(s.delta, t)
                      <==> !Repeats(s.delta, fate))
  {
    hide Legal, Exec;
    UndisturbedPass(s, fate);
    var s1 := Exec(s, Pass(s.delta, fate));
    UndisturbedPass(s1, NO_ERRORS);
  }

  class Counters {
    var counter: Counts
    var delta: Counts
    var total: Counts

    ghost var counting: Option<Track>
    ghost var flush: Flush
    ghost var lost: Counts
    ghost var over: Counts
    ghost var dropped: Counts
    ghost var unowned: Counts
    ghost var since: Counts
    ghost const origin: State
    ghost var trace: seq<Step>

    ghost function Now(): State
      reads this
    {
      State(counter, delta, total, counting, flush, lost, over, dropped, unowned, since)
    }

    ghost predicate Valid()
      reads this
    {
      Init(origin) && Legal(origin, trace) && Exec(origin, trace) == Now()
    }

    constructor (tracks: set<Track>)
      ensures Valid() && trace == [] && total.Keys == tracks && flush.Resting? && counting.None?
    {
      var rows: Counts := map t | t in tracks :: 0;
      counter, delta, total := map[], map[], rows;
      counting, flush, lost, over, dropped, unowned, since := None, Resting, map[], map[], map[], map[], map[];
      origin := State(map[], map[], rows, None, Resting, map[], map[], map[], map[], map[]);
      trace := [];
    }

    /** Enters a step whose effect the code has just had. */
    ghost method Record(before: State, step: Step)
      requires Init(origin) && Legal(origin, trace) && Exec(origin, trace) == before && Can(before, step)
      requires var s := Apply(before, step); counter == s.counter && delta == s.delta && total == s.total
      modifies this`counting, this`flush, this`lost, this`over, this`dropped, this`unowned, this`since, this`trace
      ensures Valid() && Now() == Apply(before, step) && trace == old(trace) + [step]
      ensures FlushPart(trace) == FlushPart(old(trace)) + (if OfFlush(step) then [step] else [])
      ensures PlayPart(trace) == PlayPart(old(trace)) + (if OfPlays(step) then [step] else [])
    {
      hide Init, Can, Apply, Legal, Exec, FlushPart, PlayPart, OfFlush, OfPlays;
      var s := Apply(before, step);
      OneMore(origin, trace, step);
      PartsOfOneMore(trace, step);
      counting, flush, lost, over := s.counting, s.flush, s.lost, s.over;
      dropped, unowned, since := s.dropped, s.unowned, s.since;
      trace := trace + [step];
    }

    /** While a flush is under way, the deltas are what it read and what was counted since. */
    lemma WaitingAddsUp()
      requires Valid() && !flush.Resting?
      ensures AddUp(delta, flush.data, since)
    {
      hide Init, Legal, Exec, Balanced, KeysNested;
      InitInv(origin);
      RunKeepsInv(origin, trace);
      forall t ensures CountAt(delta, t) == CountAt(flush.data, t) + CountAt(since, t) {
        assert Snapshot(Now(), t);
      }
    }

    lemma ClearSettles()
      requires Valid() && flush.Listed?
      ensures Settles(flush.data, lost, Sum(lost, Unread(delta, flush.data, flush.keys)), delta - flush.keys, since)
    {
      hide Init, Legal, Exec, Balanced, Sum, Unread;
      InitInv(origin);
      RunKeepsInv(origin, trace);
      var s' := Apply(Now(), Clear(Ok));
      forall t
        ensures
          || (CountAt(s'.lost, t) == CountAt(lost, t) + CountAt(since, t) && CountAt(s'.delta, t) == 0)
          || (t !in flush.data && CountAt(s'.lost, t) == CountAt(lost, t) && CountAt(s'.delta, t) == CountAt(since, t))
      {
        ClearLosesLatePlays(Now(), t);
      }
    }

    /** Plays counted, rows added and rows dropped while the flush awaits. */
    method PlaysGoOn()
      requires Valid()
      modifies this
      ensures Valid() && old(trace) <= trace
      ensures forall i | |old(trace)| <= i < |trace| :: Counting(trace[i]) || RowChange(trace[i])
    {
    }

    /** Flush steps taken and rows changed while the counting of a play awaits. */
    method FlushesGoOn()
      requires Valid()
      modifies this
      ensures Valid() && old(trace) <= trace
      ensures forall i | |old(trace)| <= i < |trace| :: Flushing(trace[i]) || RowChange(trace[i])
    {
    }

    method AwaitInFlush()
      requires Valid()
      modifies this
      ensures Valid() && old(trace) <= trace && SameFlush(old(Now()), Now())
      ensures FlushPart(trace) == FlushPart(old(trace))
      ensures RowsStand(trace, |old(trace)|) ==> total == old(total)
    {
      hide Init, Can, Apply, Legal, Exec, FlushPart, SameFlush, Counting, RowChange;
      ghost var before := trace;
      PlaysGoOn();
      PlaysKeepFlush(origin, before, trace);
    }

    method AwaitInCount()
      requires Valid()
      modifies this
      ensures Valid() && old(trace) <= trace && counting == old(counting) && counter == old(counter)
      ensures PlayPart(trace) == PlayPart(old(trace))
    {
      hide Init, Can, Apply, Legal, Exec, PlayPart, Flushing, RowChange;
      ghost var before := trace;
      FlushesGoOn();
      FlushesKeepCounting(origin, before, trace);
    }

    /** The two increments for a `started` event, between which a flush may take any of its steps. */
    method CountStarted(t: Track, first: Call, second: Call) returns (ok: bool)
      requires Valid() && counting.None?
      modifies this
      ensures Valid() && counting.None? && old(trace) <= trace
      ensures ok <==> first.Ok? && second.Ok?
      ensures PlayPart(trace) == PlayPart(old(trace))
                                 + [CountPlay(t, first)] + (if first.Ok? then [CountDelta(second)] else [])
      ensures CountAt(counter, t) == CountAt(old(counter), t) + if first.Took() then 1 else 0
    {
      hide Init, Legal, Exec, FlushPart, PlayPart;
      ghost var before := Now();
      if first.Took() {
        counter := Plus(counter, t, 1);
      }
      Record(before, CountPlay(t, first));
      if first != Ok {
        return false;
      }
      AwaitInCount();
      before := Now();
      if second.Took() {
        delta := Plus(delta, t, 1);
      }
      Record(before, CountDelta(second));
      ok := second.Ok?;
    }

    /** The UPDATE statements of one transaction, on the rows as the transaction sees them. */
    method UpdateRows(data: Counts, bad: Option<Track>) returns (rows: Counts, failed: bool)
      ensures failed <==> bad.Some? && bad.value in data
      ensures !failed ==> rows == Credit(total, data)
    {
      rows, failed := total, false;
      var todo := data.Keys;
      while todo != {}
        invariant todo <= data.Keys
        invariant rows == Credit(total, data - todo)
        invariant bad.Some? && bad.value in data ==> bad.value in todo
        decreases todo
      {
        var t :| t in todo;
        if bad == Some(t) {
          failed := true;
          return;
        }
        if t in rows {
          rows := rows[t := rows[t] + data[t]];
        }
        todo := todo - {t};
      }
      assert data - todo == data;
    }

    method Commit(data: Counts, fate: Fate) returns (ok: bool)
      requires Valid() && flush == Gathered(data)
      modifies this
      ensures Valid() && old(trace) <= trace
      ensures var call := TransactCall(data, fate);
              && ok == call.Ok?
              && flush == (if ok then Written(data) else Resting)
              && FlushPart(trace) == FlushPart(old(trace)) + [Transact(call)]
              && (RowsStand(trace, |old(trace)|) ==>
                    total == if call.Took() then Credit(old(total), data) else old(total))
              && over == (if call == Lost(true) then Sum(old(over), data) else old(over))
      ensures lost == old(lost) && AddUp(delta, data, since)
    {
      AwaitInFlush();
      WaitingAddsUp();
      hide AddUp;
      hide Init, Legal, Exec, FlushPart, PlayPart, Credit, Homeless, Sum;
      ghost var before := Now();
      var rows, failed := UpdateRows(data, fate.bad);
      var call := if failed then Lost(false) else fate.commit;
      if call.Took() {
        total := rows;
      }
      ok := call.Ok?;
      TransactInTrace(before, call);
    }

    ghost method TransactInTrace(before: State, call: Call)
      requires Init(origin) && Legal(origin, trace) && Exec(origin, trace) == before && before.flush.Gathered?
      requires Now() == before.(total := if call.Took() then Credit(before.total, before.flush.data) else before.total)
      modifies this`counting, this`flush, this`lost, this`over, this`dropped, this`unowned, this`since, this`trace
      ensures Valid() && trace == old(trace) + [Transact(call)]
      ensures flush == (if call.Ok? then Written(before.flush.data) else Resting)
      ensures over == (if call == Lost(true) then Sum(before.over, before.flush.data) else before.over)
      ensures lost == before.lost && delta == before.delta && since == before.since
      ensures FlushPart(trace) == FlushPart(old(trace)) + [Transact(call)]
    {
      hide Init, Legal, Exec, FlushPart, PlayPart, Credit, Homeless, Sum;
      Record(before, Transact(call));
    }

    method ClearKeys(keys: set<Track>, clear: Call)
      requires Valid() && flush.Listed? && flush.keys == keys
      modifies this
      ensures Valid() && old(trace) <= trace && flush.Resting?
      ensures FlushPart(trace) == FlushPart(old(trace)) + [Clear(clear)]
      ensures RowsStand(trace, |old(trace)|) ==> total == old(total)
      ensures over == if clear.Took() then old(over) else Sum(old(over), old(flush).data)
      ensures if clear.Took() then Settles(old(flush).data, old(lost), lost, delta, since)
              else lost == old(lost) && AddUp(delta, old(flush).data, since)
    {
      AwaitInFlush();
      WaitingAddsUp();
      ClearSettles();
      hide Init, Legal, Exec, FlushPart, PlayPart, Sum, Unread, AddUp, Settles;
      ghost var before := Now();
      if clear.Took() {
        delta := delta - keys;
      }
      Record(before, Clear(clear));
    }

    /** flush_plays_once: whatever plays are counted and rows change meanwhile, the flush takes exactly the steps its
        fate allows and ends at rest; unless rows were added or dropped, each is credited with what the first read
        returned if the transaction took effect, and unchanged otherwise. What it read is doubled exactly if the flush
        repeats it, and stays among the deltas unless the flush clears them; only then are later plays lost. */
    method FlushPlaysOnce(fate: Fate)
      requires Valid() && flush.Resting?
      modifies this
      ensures Valid() && flush.Resting? && old(trace) <= trace
      ensures FlushPart(trace) == FlushPart(old(trace)) + Pass(old(delta), fate)
      ensures RowsStand(trace, |old(trace)|) ==>
                total == if Credits(old(delta), fate) then Credit(old(total), old(delta)) else old(total)
      ensures over == if Repeats(old(delta), fate) then Sum(old(over), old(delta)) else old(over)
      ensures if Clears(old(delta), fate) then Settles(old(delta), old(lost), lost, delta, since)
              else lost == old(lost)
                   && if fate.read && old(delta) != map[] then AddUp(delta, old(delta), since) else delta == old(delta)
    {
      hide Init, Can, Apply, Legal, Exec, FlushPart, PlayPart, Credit, RowChange, Sum, AddUp, Settles;
      CreditNothing(total);
      var data := ReadDeltas(fate.read);
      if !fate.read || data == map[] {
        return;
      }
      var committed := Commit(data, fate);
      if !committed {
        return;
      }
      var keys := ReadKeys(fate.again);
      if !fate.again {
        return;
      }
      ClearKeys(keys, fate.clear);
    }

    /** The first HGETALL. */
    method ReadDeltas(read: bool) returns (data: Counts)
      requires Valid() && flush.Resting?
      modifies this
      ensures Valid() && old(trace) <= trace && data == delta == old(delta) && total == old(total)
      ensures lost == old(lost) && over == old(over)
      ensures flush == if read && data != map[] then Gathered(data) else Resting
      ensures FlushPart(trace) == FlushPart(old(trace)) + [Gather(if read then Some(data) else None)]
    {
      hide Init, Legal, Exec, FlushPart, PlayPart;
      data := delta;
      Record(Now(), Gather(if read then Some(data) else None));
    }

    /** The second HGETALL. */
    method ReadKeys(again: bool) returns (keys: set<Track>)
      requires Valid() && flush.Written?
      modifies this
      ensures Valid() && old(trace) <= trace
      ensures RowsStand(trace, |old(trace)|) ==> total == old(total)
      ensures if again then flush == Listed(old(flush).data, keys) && over == old(over)
              else flush.Resting? && over == Sum(old(over), old(flush).data)
      ensures lost == old(lost) && AddUp(delta, old(flush).data, since)
      ensures FlushPart(trace) == FlushPart(old(trace)) + [ListKeys(again)]
    {
      AwaitInFlush();
      WaitingAddsUp();
      hide Init, Legal, Exec, FlushPart, PlayPart, Sum, AddUp;
      keys := delta.Keys;
      Record(Now(), ListKeys(again));
    }

    /** flush_plays_loop: one flush after the other, failing or not, with plays counted and rows changing all along.
        Each takes exactly the steps its fate allows on what its first read returned; as long as no rows change, each
        row gains what the flushes that commit have read; after a flush that clears, nothing it read is pending; and
        every track is accounted for. */
    method FlushPlaysLoop(fates: seq<Fate>) returns (ghost gathered: seq<Counts>)
      requires Valid() && flush.Resting?
      modifies this
      ensures Valid() && flush.Resting? && old(trace) <= trace
      ensures |gathered| == |fates| && FlushPart(trace) == FlushPart(old(trace)) + Passes(gathered, fates)
      ensures RowsStand(trace, |old(trace)|) ==>
                && total.Keys == old(total).Keys
                && forall t <- total :: total[t] == old(total)[t] + Credited(gathered, fates, t)
      ensures fates != [] && Clears(gathered[|fates| - 1], fates[|fates| - 1]) ==>
                forall t <- gathered[|fates| - 1] :: CountAt(delta, t) == 0
      ensures forall t | counting.None? ::
                CountAt(counter, t) + CountAt(over, t)
                == CountAt(total, t) + CountAt(unowned, t) + CountAt(delta, t) + CountAt(lost, t) + CountAt(dropped, t)
    {
      hide Init, Can, Apply, Legal, Exec, FlushPart, Clears, Credits, Credit, Pass, AddUp, RowChange;
      gathered := [];
      for k := 0 to |fates|
        invariant Valid() && flush.Resting? && old(trace) <= trace && |gathered| == k
        invariant FlushPart(trace) == FlushPart(old(trace)) + Passes(gathered, fates)
        invariant RowsStand(trace, |old(trace)|) ==> Gained(old(total), total, gathered, fates)
        invariant k > 0 && Clears(gathered[k - 1], fates[k - 1]) ==>
                    forall t <- gathered[k - 1] :: CountAt(delta, t) == 0
      {
        AwaitInFlush();
        ghost var before, data, done := total, delta, gathered;
        FlushPlaysOnce(fates[k]);
        gathered := done + [data];
        assert gathered[..k] == done;
        if RowsStand(trace, |old(trace)|) {
          GainMore(old(total), before, done, data, fates);
        }
      }
      forall t | counting.None?
        ensures CountAt(counter, t) + CountAt(over, t)
                == CountAt(total, t) + CountAt(unowned, t) + CountAt(delta, t) + CountAt(lost, t) + CountAt(dropped, t)
      {
        Conservation(origin, trace, t);
      }
    }
  }

  /** Every row has gained what the flushes credit it with. */
  predicate Gained(was: Counts, total: Counts, gathered: seq<Counts>, fates: seq<Fate>)
    requires |gathered| <= |fates|
  {
    total.Keys == was.Keys && forall t <- total :: total[t] == was[t] + Credited(gathered, fates, t)
  }

  lemma GainMore(was: Counts, total: Counts, gathered: seq<Counts>, data: Counts, fates: seq<Fate>)
    requires |gathered| < |fates| && Gained(was, total, gathered, fates)
    ensures var total' := if Credits(data, fates[|gathered|]) then Credit(total, data) else total;
            Gained(was, total', gathered + [data], fates)
  {
    hide Credits;
    assert (gathered + [data])[..|gathered|] == gathered;
  }

  lemma CreditNothing(total: Counts)
    ensures Credit(total, map[]) == total
  {
  }
}
