/** What the statistics service promises of histories in which each playback event and each look of `/stats` at a track
    is carried out as a whole: events keep, for each track, a sorted set of current listeners and one of the listeners
    of the last day; a look prunes both and counts them. */
module Statistics {
  import opened Basics
  import opened Presence

  type Track = string

  datatype PlayStatus = Started | Playing | Stopped | StoppedByTimeout

  datatype PlaybackEvent = PlaybackEvent(track: Track, session: Option<Session>, status: PlayStatus, ts: real)

  /** What the service has done: processed an event, or looked at one track for `/stats`. */
  datatype Entry = Event(event: PlaybackEvent) | Look(track: Track, now: int)

  const ONLINE_WINDOW: real := 20.0
  const DAY_WINDOW: real := 86400.0

  /** The event names a session; an absent or empty name makes the service ignore presence. */
  predicate Named(e: PlaybackEvent) {
    e.session.Some? && e.session.value != ""
  }

  // ---------------------------------------------------------------- histories

  /** The commands an event sends about the current listeners of its track, and about those of the day. */
  function OnlineCommands(e: PlaybackEvent): seq<Op> {
    if !Named(e) || e.status == Started then []
    else if e.status == Playing then [Beat(e.session.value, e.ts), Prune(e.ts)]
    else [Leave(e.session.value)]
  }

  function DayCommands(e: PlaybackEvent): seq<Op> {
    if Named(e) && e.status == Playing then [Beat(e.session.value, e.ts), Prune(e.ts)] else []
  }

  /** What one entry means for the listeners of a track now, and for those of the last day. */
  function OnlineOp(x: Entry, t: Track): seq<Op> {
    match x
    case Event(e) => if e.track == t then OnlineCommands(e) else []
    case Look(track, now) => if track == t then [Prune(now as real)] else []
  }

  function DayOp(x: Entry, t: Track): seq<Op> {
    match x
    case Event(e) => if e.track == t then DayCommands(e) else []
    case Look(track, now) => if track == t then [Prune(now as real)] else []
  }

  function OnlineOps(h: seq<Entry>, t: Track): seq<Op> {
    if h == [] then [] else OnlineOps(h[..|h| - 1], t) + OnlineOp(h[|h| - 1], t)
  }

  function DayOps(h: seq<Entry>, t: Track): seq<Op> {
    if h == [] then [] else DayOps(h[..|h| - 1], t) + DayOp(h[|h| - 1], t)
  }

  function OnlineSet(h: seq<Entry>, t: Track): ZSet {
    Fold(OnlineOps(h, t), ONLINE_WINDOW)
  }

  function DaySet(h: seq<Entry>, t: Track): ZSet {
    Fold(DayOps(h, t), DAY_WINDOW)
  }

  function ApplyAll(z: ZSet, ops: seq<Op>, window: real): ZSet
    decreases |ops|
  {
    if ops == [] then z else ApplyAll(Apply(z, ops[0], window), ops[1..], window)
  }

  lemma {:induction false} FoldMore(h: seq<Op>, more: seq<Op>, window: real)
    ensures Fold(h + more, window) == ApplyAll(Fold(h, window), more, window)
    decreases |more|
  {
    if more == [] {
      assert h + more == h;
    } else {
      assert (h + [more[0]])[..|h|] == h;
      FoldMore(h + [more[0]], more[1..], window);
      assert h + [more[0]] + more[1..] == h + more;
    }
  }

  /** The sets of track `t` after one more entry. */
  predicate Follows(h: seq<Entry>, x: Entry, t: Track) {
    && OnlineSet(h + [x], t) == ApplyAll(OnlineSet(h, t), OnlineOp(x, t), ONLINE_WINDOW)
    && DaySet(h + [x], t) == ApplyAll(DaySet(h, t), DayOp(x, t), DAY_WINDOW)
  }

  lemma SetsStep(h: seq<Entry>, x: Entry, t: Track)
    ensures Follows(h, x, t)
  {
    assert (h + [x])[..|h + [x]| - 1] == h;
    FoldMore(OnlineOps(h, t), OnlineOp(x, t), ONLINE_WINDOW);
    FoldMore(DayOps(h, t), DayOp(x, t), DAY_WINDOW);
  }

  /** Two commands in a row. */
  lemma ApplyTwo(z: ZSet, a: Op, b: Op, window: real)
    ensures ApplyAll(z, [a, b], window) == Apply(Apply(z, a, window), b, window)
  {
    assert [a, b][1..] == [b] && [b][1..] == [];
    assert ApplyAll(Apply(z, a, window), [b], window) == Apply(Apply(z, a, window), b, window);
  }

  // ---------------------------------------------------------------- current listeners are listeners of the day

  predicate Within(a: ZSet, b: ZSet) {
    forall u <- a :: u in b && b[u] == a[u]
  }

  lemma WithinCommands(online: ZSet, day: ZSet, x: Entry, t: Track)
    requires Within(online, day)
    ensures Within(ApplyAll(online, OnlineOp(x, t), ONLINE_WINDOW), ApplyAll(day, DayOp(x, t), DAY_WINDOW))
  {
    if x.Event? && x.event.track == t && Named(x.event) && x.event.status == Playing {
      var a, b := Beat(x.event.session.value, x.event.ts), Prune(x.event.ts);
      ApplyTwo(online, a, b, ONLINE_WINDOW);
      ApplyTwo(day, a, b, DAY_WINDOW);
    }
  }

  lemma WithinStep(h: seq<Entry>, x: Entry, t: Track)
    requires Within(OnlineSet(h, t), DaySet(h, t))
    ensures Within(OnlineSet(h + [x], t), DaySet(h + [x], t))
  {
    hide OnlineSet, DaySet, OnlineOp, DayOp, Within;
    SetsStep(h, x, t);
    WithinCommands(OnlineSet(h, t), DaySet(h, t), x, t);
  }

  /** For any order, duplication and stamping of whole events, the current listeners are among those of the day, with
      the same stamps. */
  lemma {:induction false} OnlineWithinDay(h: seq<Entry>, t: Track)
    ensures Within(OnlineSet(h, t), DaySet(h, t))
    decreases |h|
  {
    if h != [] {
      var h', x := h[..|h| - 1], h[|h| - 1];
      assert h' + [x] == h;
      OnlineWithinDay(h', t);
      WithinStep(h', x, t);
    }
  }

  lemma {:induction false} SubsetCount(a: set<Session>, b: set<Session>)
    requires a <= b
    ensures |a| <= |b|
    decreases a
  {
    if x :| x in a {
      SubsetCount(a - {x}, b - {x});
    }
  }

  /** So at the end of a whole event or look there are no more current listeners than listeners of the day. */
  lemma OnlineAtMostDay(h: seq<Entry>, t: Track)
    ensures |OnlineSet(h, t)| <= |DaySet(h, t)|
  {
    OnlineWithinDay(h, t);
    assert OnlineSet(h, t).Keys <= DaySet(h, t).Keys;
    SubsetCount(OnlineSet(h, t).Keys, DaySet(h, t).Keys);
    assert |OnlineSet(h, t).Keys| == |OnlineSet(h, t)| && |DaySet(h, t).Keys| == |DaySet(h, t)|;
  }

  // ---------------------------------------------------------------- answers in terms of events

  predicate IsPlaying(x: Entry, t: Track, u: Session) {
    x.Event? && x.event.track == t && x.event.session == Some(u) && u != "" && x.event.status == Playing
  }

  predicate IsStop(x: Entry, t: Track, u: Session) {
    && x.Event? && x.event.track == t && x.event.session == Some(u) && u != ""
    && (x.event.status == Stopped || x.event.status == StoppedByTimeout)
  }

  /** The stamp of the last playing-or-stopped event of a session on a track, if that event is `playing`. */
  function LastMark(h: seq<Entry>, t: Track, u: Session): Option<real> {
    if h == [] then None
    else if IsPlaying(h[|h| - 1], t, u) then Some(h[|h| - 1].event.ts)
    else if IsStop(h[|h| - 1], t, u) then None
    else LastMark(h[..|h| - 1], t, u)
  }

  lemma {:induction false} MarkIsLastBeat(h: seq<Entry>, t: Track, u: Session, limit: real)
    ensures BeatAfter(OnlineOps(h, t), u, limit)
            <==> LastMark(h, t, u).Some? && LastMark(h, t, u).value > limit
    decreases |h|
  {
    if h != [] {
      var h', x := h[..|h| - 1], h[|h| - 1];
      MarkIsLastBeat(h', t, u, limit);
      var ops, o := OnlineOps(h', t), OnlineOp(x, t);
      if o == [] {
        assert ops + o == ops;
      } else if |o| == 1 {
        assert o == [o[0]];
        BeatAfterStep(ops, o[0], u, limit);
      } else {
        assert ops + o == ops + [o[0]] + [o[1]];
        BeatAfterStep(ops, o[0], u, limit);
        BeatAfterStep(ops + [o[0]], o[1], u, limit);
      }
    }
  }

  /** The entry is a heartbeat that changes presence. */
  predicate IsBeat(x: Entry) {
    x.Event? && Named(x.event) && x.event.status == Playing
  }

  /** The time an entry brings: the stamp of a heartbeat, or the second of a look. */
  predicate Timed(x: Entry) {
    x.Look? || IsBeat(x)
  }

  function TimeOf(x: Entry): real
    requires Timed(x)
  {
    if x.Look? then x.now as real else x.event.ts
  }

  /** No entry brings a later time than `b`. */
  predicate Until(h: seq<Entry>, b: real) {
    forall i | 0 <= i < |h| && Timed(h[i]) :: TimeOf(h[i]) <= b
  }

  /** Every heartbeat is stamped no earlier than the heartbeats and looks processed before it, as on one clock. A look
      may bring an earlier time than the heartbeats before it, since it reads whole seconds. */
  predicate Steady(h: seq<Entry>) {
    forall i, j | 0 <= i < j < |h| && Timed(h[i]) && IsBeat(h[j]) :: TimeOf(h[i]) <= h[j].event.ts
  }

  /** No earlier look read a later second. */
  predicate LooksUntil(h: seq<Entry>, now: int) {
    forall i | 0 <= i < |h| && h[i].Look? :: h[i].now <= now
  }

  predicate OpsUntil(ops: seq<Op>, b: real) {
    forall i | 0 <= i < |ops| && ops[i].Timed() :: ops[i].Time() <= b
  }

  lemma {:induction false} UntilOps(h: seq<Entry>, t: Track, b: real)
    requires Until(h, b)
    ensures OpsUntil(OnlineOps(h, t), b) && OpsUntil(DayOps(h, t), b)
    decreases |h|
  {
    if h != [] {
      var h', x := h[..|h| - 1], h[|h| - 1];
      assert Until(h', b) by {
        assert forall i | 0 <= i < |h'| :: h'[i] == h[i];
      }
      UntilOps(h', t, b);
      assert Timed(x) ==> TimeOf(x) <= b;
      assert OpsUntil(OnlineOp(x, t), b) && OpsUntil(DayOp(x, t), b);
      hide Until, OnlineOp, DayOp;
    }
  }

  lemma OrderExtends(ops: seq<Op>, more: seq<Op>)
    requires BeatsInOrder(ops)
    requires more == [] || (|more| == 1 && !more[0].Beat?)
             || exists u: Session, ts: real :: more == [Beat(u, ts), Prune(ts)] && OpsUntil(ops, ts)
    ensures BeatsInOrder(ops + more)
  {
  }

  lemma {:induction false} SteadyOps(h: seq<Entry>, t: Track)
    requires Steady(h)
    ensures BeatsInOrder(OnlineOps(h, t)) && BeatsInOrder(DayOps(h, t))
    decreases |h|
  {
    if h != [] {
      var h', x := h[..|h| - 1], h[|h| - 1];
      assert forall i | 0 <= i < |h'| :: h'[i] == h[i];
      SteadyOps(h', t);
      if IsBeat(x) {
        assert Until(h', x.event.ts);
        UntilOps(h', t, x.event.ts);
      }
      OrderExtends(OnlineOps(h', t), OnlineOp(x, t));
      OrderExtends(DayOps(h', t), DayOp(x, t));
    }
  }

  lemma {:induction false} LatestUntil(ops: seq<Op>, now: real, b: real)
    requires OpsUntil(ops, b) && now <= b
    ensures now <= Latest(ops, now) <= b
    decreases |ops|
  {
    if ops != [] {
      var ops' := ops[..|ops| - 1];
      assert forall i | 0 <= i < |ops'| :: ops'[i] == ops[i];
      LatestUntil(ops', now, b);
    }
  }

  /** A look at second `now` leaves exactly the sessions whose last playing-or-stopped event on the track is `playing`
      with a stamp within 20 seconds before the latest pruning of the track, this look included. */
  lemma OnlineExact(h: seq<Entry>, t: Track, now: int, u: Session)
    requires Steady(h)
    ensures u in OnlineSet(h + [Look(t, now)], t)
            <==> LastMark(h, t, u).Some?
                 && LastMark(h, t, u).value > Latest(OnlineOps(h, t), now as real) - 20.0
  {
    hide Latest, BeatsInOrder, Steady, BeatAfter, LastMark, Fold;
    SteadyOps(h, t);
    LookExact(OnlineOps(h, t), now as real, u, ONLINE_WINDOW);
    MarkIsLastBeat(h, t, u, Latest(OnlineOps(h, t), now as real) - ONLINE_WINDOW);
    assert (h + [Look(t, now)])[..|h|] == h;
  }

  /** The latest pruning lies between the look and the latest time of the history: within the second whose fraction
      the look has cut off, on one clock. */
  lemma LimitsWithinClock(h: seq<Entry>, t: Track, now: int, b: real)
    requires Until(h, b) && now as real <= b
    ensures now as real <= Latest(OnlineOps(h, t), now as real) <= b
    ensures now as real <= Latest(DayOps(h, t), now as real) <= b
  {
    UntilOps(h, t, b);
    LatestUntil(OnlineOps(h, t), now as real, b);
    LatestUntil(DayOps(h, t), now as real, b);
  }

  /** When no entry is later than the look, the limit is 20 seconds before the look. */
  lemma OnlineExactOnTime(h: seq<Entry>, t: Track, now: int, u: Session)
    requires Steady(h) && Until(h, now as real)
    ensures u in OnlineSet(h + [Look(t, now)], t)
            <==> LastMark(h, t, u).Some? && LastMark(h, t, u).value > now as real - 20.0
  {
    LimitsWithinClock(h, t, now, now as real);
    OnlineExact(h, t, now, u);
  }

  /** On any history at all, whoever a look at second `now` counts has a `playing` event stamped after now - 20 that
      was processed after its last stop. */
  lemma CountedHasPlayed(h: seq<Entry>, t: Track, now: int, u: Session)
    requires u in OnlineSet(h + [Look(t, now)], t)
    ensures LastMark(h, t, u).Some? && LastMark(h, t, u).value > now as real - 20.0
  {
    var ops, g := OnlineOps(h, t), OnlineOps(h, t) + [Prune(now as real)];
    assert (h + [Look(t, now)])[..|h|] == h;
    FoldExact(g, u, ONLINE_WINDOW);
    var i :| LiveAt(g, u, i, ONLINE_WINDOW);
    assert g[|ops|] == Prune(now as real) && i != |ops|;
    assert forall j | 0 <= j < |ops| :: g[j] == ops[j];
    assert IsLast(ops, u, i);
    MarkIsLastBeat(h, t, u, now as real - ONLINE_WINDOW);
  }

  /** The history without the looks of `/stats`. */
  function WithoutLooks(h: seq<Entry>): seq<Entry> {
    if h == [] then [] else WithoutLooks(h[..|h| - 1]) + (if h[|h| - 1].Look? then [] else [h[|h| - 1]])
  }

  /** Whether and when `/stats` was called before never changes what a later call shows. */
  lemma EarlierStatsDoNotMatter(h: seq<Entry>, t: Track, now: int, u: Session)
    requires Steady(h) && LooksUntil(h, now)
    ensures u in OnlineSet(h + [Look(t, now)], t) <==> u in OnlineSet(WithoutLooks(h) + [Look(t, now)], t)
  {
    WithoutLooksSteady(h);
    OnlineExact(h, t, now, u);
    OnlineExact(WithoutLooks(h), t, now, u);
    MarkWithoutLooks(h, t, u);
    LatestWithoutLooks(h, t, now);
  }

  lemma {:induction false} LatestMore(ops: seq<Op>, o: seq<Op>, floor: real)
    requires |o| <= 2
    ensures Latest(ops + o, floor)
            == if o == [] then Latest(ops, floor)
               else if |o| == 1 then Later(Latest(ops, floor), o[0])
               else Later(Later(Latest(ops, floor), o[0]), o[1])
  {
    if o == [] {
      assert ops + o == ops;
    } else if |o| == 1 {
      assert (ops + o)[..|ops|] == ops;
    } else {
      assert (ops + o)[..|ops| + 1] == ops + [o[0]] && (ops + [o[0]])[..|ops|] == ops;
    }
  }

  function Later(l: real, op: Op): real {
    if op.Prune? && op.now > l then op.now else l
  }

  lemma {:induction false} LatestWithoutLooks(h: seq<Entry>, t: Track, now: int)
    requires LooksUntil(h, now)
    ensures Latest(OnlineOps(WithoutLooks(h), t), now as real) == Latest(OnlineOps(h, t), now as real)
    decreases |h|
  {
    if h != [] {
      var h', x := h[..|h| - 1], h[|h| - 1];
      assert forall i | 0 <= i < |h'| :: h'[i] == h[i];
      LatestWithoutLooks(h', t, now);
      LatestBounds(OnlineOps(h', t), now as real);
      LatestMore(OnlineOps(h', t), OnlineOp(x, t), now as real);
      if x.Look? {
        assert WithoutLooks(h) == WithoutLooks(h');
      } else {
        assert WithoutLooks(h)[..|WithoutLooks(h)| - 1] == WithoutLooks(h');
        LatestMore(OnlineOps(WithoutLooks(h'), t), OnlineOp(x, t), now as real);
      }
    }
  }

  lemma {:induction false} MarkWithoutLooks(h: seq<Entry>, t: Track, u: Session)
    ensures LastMark(WithoutLooks(h), t, u) == LastMark(h, t, u)
    decreases |h|
  {
    if h != [] {
      var h', x := h[..|h| - 1], h[|h| - 1];
      MarkWithoutLooks(h', t, u);
      if x.Look? {
        assert WithoutLooks(h) == WithoutLooks(h');
      } else {
        assert WithoutLooks(h)[..|WithoutLooks(h)| - 1] == WithoutLooks(h');
      }
    }
  }

  lemma {:induction false} WithoutLooksSteady(h: seq<Entry>)
    requires Steady(h)
    ensures Steady(WithoutLooks(h)) && forall x <- WithoutLooks(h) :: x in h
    decreases |h|
  {
    if h != [] {
      var h', x := h[..|h| - 1], h[|h| - 1];
      assert forall i | 0 <= i < |h'| :: h'[i] == h[i];
      WithoutLooksSteady(h');
      var g := WithoutLooks(h');
      if IsBeat(x) {
        forall i | 0 <= i < |g| && Timed(g[i]) ensures TimeOf(g[i]) <= x.event.ts {
          assert g[i] in h';
          var j :| 0 <= j < |h'| && h'[j] == g[i];
          assert h[j] == g[i];
        }
      }
    }
  }

  /** The session has a `playing` event on the track stamped after `limit`. */
  ghost predicate Played(h: seq<Entry>, t: Track, u: Session, limit: real) {
    exists i :: 0 <= i < |h| && IsPlaying(h[i], t, u) && h[i].event.ts > limit
  }

  lemma {:induction false} PlayedIsBeat(h: seq<Entry>, t: Track, u: Session, limit: real)
    ensures SomeBeat(DayOps(h, t), u, limit) <==> Played(h, t, u, limit)
    ensures forall i | 0 <= i < |DayOps(h, t)| :: !DayOps(h, t)[i].Leave?
    decreases |h|
  {
    if h != [] {
      var h', x := h[..|h| - 1], h[|h| - 1];
      PlayedIsBeat(h', t, u, limit);
      assert SomeBeat(DayOp(x, t), u, limit) <==> IsPlaying(x, t, u) && x.event.ts > limit by {
        if IsPlaying(x, t, u) {
          assert DayOp(x, t)[0] == Beat(u, x.event.ts);
        }
      }
      SomeBeatStep(DayOps(h', t), DayOp(x, t), u, limit);
      PlayedStep(h', x, t, u, limit);
      assert h' + [x] == h;
    }
  }

  lemma SomeBeatStep(h: seq<Op>, o: seq<Op>, u: Session, limit: real)
    ensures SomeBeat(h + o, u, limit) <==> SomeBeat(h, u, limit) || SomeBeat(o, u, limit)
  {
    var g := h + o;
    if SomeBeat(h, u, limit) {
      var i :| 0 <= i < |h| && h[i].Beat? && h[i].session == u && h[i].ts > limit;
      assert g[i] == h[i];
    }
    if SomeBeat(o, u, limit) {
      var i :| 0 <= i < |o| && o[i].Beat? && o[i].session == u && o[i].ts > limit;
      assert g[|h| + i] == o[i];
    }
    if SomeBeat(g, u, limit) {
      var i :| 0 <= i < |g| && g[i].Beat? && g[i].session == u && g[i].ts > limit;
      assert if i < |h| then h[i] == g[i] else o[i - |h|] == g[i];
    }
  }

  lemma PlayedStep(h: seq<Entry>, x: Entry, t: Track, u: Session, limit: real)
    ensures Played(h + [x], t, u, limit) <==> Played(h, t, u, limit) || (IsPlaying(x, t, u) && x.event.ts > limit)
  {
    var g := h + [x];
    assert g[|h|] == x && forall i | 0 <= i < |h| :: g[i] == h[i];
    if Played(h, t, u, limit) {
      var i :| 0 <= i < |h| && IsPlaying(h[i], t, u) && h[i].event.ts > limit;
      assert IsPlaying(g[i], t, u);
    }
  }

  /** A look leaves in the day set exactly the sessions with at least one `playing` event stamped within a day before
      the latest pruning of the track, whatever stop events occurred. */
  lemma DayExact(h: seq<Entry>, t: Track, now: int, u: Session)
    requires Steady(h)
    ensures u in DaySet(h + [Look(t, now)], t)
            <==> Played(h, t, u, Latest(DayOps(h, t), now as real) - 86400.0)
  {
    hide Latest, BeatsInOrder, Steady, SomeBeat, Played, IsPlaying, Fold;
    SteadyOps(h, t);
    PlayedIsBeat(h, t, u, Latest(DayOps(h, t), now as real) - DAY_WINDOW);
    LookCountsDistinct(DayOps(h, t), now as real, u, DAY_WINDOW);
    assert (h + [Look(t, now)])[..|h|] == h;
  }

  /** When no entry is later than the look, these are the sessions with a `playing` event in (now - 86400, now]. */
  lemma DayExactOnTime(h: seq<Entry>, t: Track, now: int, u: Session)
    requires Steady(h) && Until(h, now as real)
    ensures u in DaySet(h + [Look(t, now)], t)
            <==> exists i :: 0 <= i < |h| && IsPlaying(h[i], t, u)
                             && now as real - 86400.0 < h[i].event.ts <= now as real
  {
    LimitsWithinClock(h, t, now, now as real);
    DayExact(h, t, now, u);
    if u in DaySet(h + [Look(t, now)], t) {
      var i :| 0 <= i < |h| && IsPlaying(h[i], t, u) && h[i].event.ts > now as real - DAY_WINDOW;
      assert Timed(h[i]) && TimeOf(h[i]) <= now as real;
    }
  }

  function SetAt(sets: map<Track, ZSet>, t: Track): ZSet {
    if t in sets then sets[t] else map[]
  }

  /** The stored sets of track `t` are what the history makes of them. */
  predicate Matches(online: map<Track, ZSet>, day: map<Track, ZSet>, h: seq<Entry>, t: Track) {
    SetAt(online, t) == OnlineSet(h, t) && SetAt(day, t) == DaySet(h, t)
  }
}
