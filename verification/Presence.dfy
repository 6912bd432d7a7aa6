/** A sorted set of sessions that is pruned lazily: heartbeats stamp their session, and commands now and then drop the
    stamps that are a window old. What it holds is compared with the whole history of commands. */
module Presence {

  type Session = string
  type ZSet = map<Session, real>

  /** The commands that change the set: ZADD of one session, ZREM of one session, and ZREMRANGEBYSCORE up to the time
      of the command less the window. */
  datatype Op =
    | Beat(session: Session, ts: real)
    | Leave(session: Session)
    | Prune(now: real)
  {
    predicate Timed() {
      !Leave?
    }

    function Time(): real
      requires Timed()
    {
      if Beat? then ts else now
    }

    predicate About(u: Session) {
      (Beat? || Leave?) && session == u
    }
  }

  /** ZREMRANGEBYSCORE key -inf limit */
  function DropUpTo(z: ZSet, limit: real): ZSet {
    z - (set u | u in z && z[u] <= limit)
  }

  function Apply(z: ZSet, op: Op, window: real): ZSet {
    match op
    case Beat(u, ts) => z[u := ts]
    case Leave(u) => z - {u}
    case Prune(now) => DropUpTo(z, now - window)
  }

  /** The set after a history of commands. */
  function Fold(h: seq<Op>, window: real): ZSet {
    if h == [] then map[] else Apply(Fold(h[..|h| - 1], window), h[|h| - 1], window)
  }

  // ---------------------------------------------------------------- the history

  /** Command `i` is the last one about session `u`. */
  predicate IsLast(h: seq<Op>, u: Session, i: int) {
    0 <= i < |h| && h[i].About(u) && forall j | i < j < |h| :: !h[j].About(u)
  }

  /** Nothing after heartbeat `i` pruned at or after its stamp plus the window. */
  predicate Survives(h: seq<Op>, i: int, window: real)
    requires 0 <= i < |h| && h[i].Beat?
  {
    forall j | i < j < |h| && h[j].Prune? :: h[i].ts > h[j].now - window
  }

  predicate LiveAt(h: seq<Op>, u: Session, i: int, window: real) {
    IsLast(h, u, i) && h[i].Beat? && Survives(h, i, window)
  }

  /** For every history, in any order and with any stamps, the set holds exactly the sessions whose last command is a
      heartbeat that no command after it pruned, each with the stamp of that heartbeat. */
  lemma {:induction false} FoldExact(h: seq<Op>, u: Session, window: real)
    ensures u in Fold(h, window) <==> exists i :: LiveAt(h, u, i, window)
    ensures forall i | LiveAt(h, u, i, window) :: u in Fold(h, window) && Fold(h, window)[u] == h[i].ts
    decreases |h|
  {
    if h != [] {
      var n := |h| - 1;
      var h', op := h[..n], h[n];
      FoldExact(h', u, window);
      if op.About(u) {
        assert IsLast(h, u, n);
        assert op.Beat? ==> LiveAt(h, u, n, window);
        assert forall i | LiveAt(h, u, i, window) :: i == n && op.Beat?;
      } else {
        forall i: int ensures LiveAt(h, u, i, window)
                              <==> LiveAt(h', u, i, window) && (op.Prune? ==> h'[i].ts > op.now - window) {
          LiveExtends(h, u, i, window);
        }
        assert u in Fold(h', window) ==> exists i :: LiveAt(h', u, i, window);
      }
    }
  }

  lemma LiveExtends(h: seq<Op>, u: Session, i: int, window: real)
    requires h != [] && !h[|h| - 1].About(u)
    ensures LiveAt(h, u, i, window)
            <==> LiveAt(h[..|h| - 1], u, i, window)
                 && (h[|h| - 1].Prune? ==> h[..|h| - 1][i].ts > h[|h| - 1].now - window)
  {
    var n := |h| - 1;
    var h' := h[..n];
    assert forall j | 0 <= j < n :: h'[j] == h[j];
    if LiveAt(h, u, i, window) {
      assert i != n;
    }
  }

  // ---------------------------------------------------------------- heartbeats in order

  /** Every heartbeat is stamped no earlier than all heartbeats and pruning before it. */
  predicate BeatsInOrder(h: seq<Op>) {
    forall i, j | 0 <= i < j < |h| && h[i].Timed() && h[j].Beat? :: h[i].Time() <= h[j].ts
  }

  /** The latest time at which the history pruned. */
  function Latest(h: seq<Op>, floor: real): real {
    if h == [] then floor else
      var l := Latest(h[..|h| - 1], floor);
      var op := h[|h| - 1];
      if op.Prune? && op.now > l then op.now else l
  }

  lemma {:induction false} LatestBounds(h: seq<Op>, floor: real)
    ensures Latest(h, floor) >= floor
    ensures forall j | 0 <= j < |h| && h[j].Prune? :: h[j].now <= Latest(h, floor)
    ensures Latest(h, floor) == floor || exists j :: 0 <= j < |h| && h[j].Prune? && h[j].now == Latest(h, floor)
    decreases |h|
  {
    if h != [] {
      var h' := h[..|h| - 1];
      LatestBounds(h', floor);
      if exists j :: 0 <= j < |h'| && h'[j].Prune? && h'[j].now == Latest(h', floor) {
        var j :| 0 <= j < |h'| && h'[j].Prune? && h'[j].now == Latest(h', floor);
        assert h[j] == h'[j];
      }
      forall j | 0 <= j < |h| && h[j].Prune? ensures h[j].now <= Latest(h, floor) {
        assert j < |h'| ==> h'[j] == h[j];
      }
    }
  }

  /** The last command about `u` is a heartbeat stamped after `limit`. */
  ghost predicate BeatAfter(h: seq<Op>, u: Session, limit: real) {
    exists i :: IsLast(h, u, i) && h[i].Beat? && h[i].ts > limit
  }

  /** When heartbeats come in order, a look at time `now` shows exactly the sessions whose last command is a
      heartbeat within the window before the latest pruning so far, this look included. */
  lemma LookExact(h: seq<Op>, now: real, u: Session, window: real)
    requires window > 0.0 && BeatsInOrder(h)
    ensures u in Fold(h + [Prune(now)], window) <==> BeatAfter(h, u, Latest(h, now) - window)
  {
    var g := h + [Prune(now)];
    FoldExact(g, u, window);
    LatestBounds(h, now);
    forall i: int ensures IsLast(g, u, i) <==> IsLast(h, u, i) {
      assert forall j | 0 <= j < |h| :: g[j] == h[j];
      assert !g[|h|].About(u);
    }
    forall i | IsLast(h, u, i) && h[i].Beat?
      ensures Survives(g, i, window) <==> h[i].ts > Latest(h, now) - window
    {
      LookSurvives(h, now, i, window);
    }
  }

  lemma LookSurvives(h: seq<Op>, now: real, i: int, window: real)
    requires window > 0.0 && BeatsInOrder(h) && 0 <= i < |h| && h[i].Beat?
    ensures Survives(h + [Prune(now)], i, window) <==> h[i].ts > Latest(h, now) - window
  {
    var g := h + [Prune(now)];
    LatestBounds(h, now);
    assert g[|h|] == Prune(now);
    if Survives(g, i, window) && Latest(h, now) != now {
      var j :| 0 <= j < |h| && h[j].Prune? && h[j].now == Latest(h, now);
      assert g[j] == h[j];
      assert j < i ==> h[j].now <= h[i].ts;
    }
    if h[i].ts > Latest(h, now) - window {
      forall j | i <= j < |g| && g[j].Prune? ensures h[i].ts > g[j].now - window {
        assert j < |h| ==> g[j] == h[j];
      }
    }
  }

  /** The clock has not run back: the look is no earlier than any pruning before it. */
  predicate InTime(h: seq<Op>, now: real) {
    forall j | 0 <= j < |h| && h[j].Prune? :: h[j].now <= now
  }

  /** On one clock the look shows exactly the sessions whose last command is a heartbeat after now - window. */
  lemma LookOnOneClock(h: seq<Op>, now: real, u: Session, window: real)
    requires window > 0.0 && BeatsInOrder(h) && InTime(h, now)
    ensures u in Fold(h + [Prune(now)], window) <==> BeatAfter(h, u, now - window)
  {
    LookExact(h, now, u, window);
    LatestBounds(h, now);
  }

  /** The last command about `u` is a heartbeat stamped after `from` and no later than `to`. */
  ghost predicate BeatBetween(h: seq<Op>, u: Session, from: real, to: real) {
    exists i :: IsLast(h, u, i) && h[i].Beat? && from < h[i].ts <= to
  }

  lemma BetweenLimits(h: seq<Op>, u: Session, low: real, high: real)
    requires low <= high
    ensures (BeatAfter(h, u, high) <==> BeatAfter(h, u, low)) <==> !BeatBetween(h, u, low, high)
  {
  }

  /** A look at time `now` shows the session. */
  predicate Shown(h: seq<Op>, now: real, u: Session, window: real) {
    u in Fold(h + [Prune(now)], window)
  }

  /** The session's last command is a heartbeat within the window before `now`. */
  ghost predicate Promised(h: seq<Op>, now: real, u: Session, window: real) {
    BeatAfter(h, u, now - window)
  }

  /** The session's last heartbeat is in the window before `now`, but an earlier command pruned it away. */
  ghost predicate InGap(h: seq<Op>, now: real, u: Session, window: real) {
    BeatBetween(h, u, now - window, Latest(h, now) - window)
  }

  /** A look that reads a coarser clock than the stamps shows exactly the promised sessions if and only if no
      session's last heartbeat falls between the two limits. */
  lemma LookPromiseExact(h: seq<Op>, now: real, window: real)
    requires window > 0.0 && BeatsInOrder(h)
    ensures (forall u :: Shown(h, now, u, window) <==> Promised(h, now, u, window))
            <==> forall u :: !InGap(h, now, u, window)
  {
    forall u ensures (Shown(h, now, u, window) <==> Promised(h, now, u, window)) <==> !InGap(h, now, u, window) {
      LatestBounds(h, now);
      LookExact(h, now, u, window);
      BetweenLimits(h, u, now - window, Latest(h, now) - window);
    }
    hide Shown, Promised, InGap;
  }

  /** The history without its pruning. */
  function Unpruned(h: seq<Op>): seq<Op> {
    if h == [] then [] else Unpruned(h[..|h| - 1]) + (if h[|h| - 1].Prune? then [] else [h[|h| - 1]])
  }

  lemma {:induction false} UnprunedKeepsLast(h: seq<Op>, u: Session, limit: real)
    ensures BeatAfter(Unpruned(h), u, limit) <==> BeatAfter(h, u, limit)
    decreases |h|
  {
    if h != [] {
      var h', op := h[..|h| - 1], h[|h| - 1];
      UnprunedKeepsLast(h', u, limit);
      BeatAfterStep(h', op, u, limit);
      BeatAfterStep(Unpruned(h'), op, u, limit);
      assert h' + [op] == h;
      assert op.Prune? ==> Unpruned(h) == Unpruned(h');
    }
  }

  lemma BeatAfterStep(h: seq<Op>, op: Op, u: Session, limit: real)
    ensures BeatAfter(h + [op], u, limit)
            <==> if op.About(u) then op.Beat? && op.ts > limit else BeatAfter(h, u, limit)
  {
    var g := h + [op];
    assert forall j | 0 <= j < |h| :: g[j] == h[j];
    if op.About(u) {
      assert IsLast(g, u, |h|);
      assert forall i: int | IsLast(g, u, i) :: i == |h|;
    } else {
      assert g[|h|] == op;
      assert forall i: int :: IsLast(g, u, i) <==> IsLast(h, u, i);
      if BeatAfter(h, u, limit) {
        var i :| IsLast(h, u, i) && h[i].Beat? && h[i].ts > limit;
        assert IsLast(g, u, i) && g[i].Beat? && g[i].ts > limit;
      }
    }
  }

  lemma {:induction false} UnprunedInOrder(h: seq<Op>)
    requires BeatsInOrder(h)
    ensures BeatsInOrder(Unpruned(h))
    ensures forall x <- Unpruned(h) :: x in h && !x.Prune?
    decreases |h|
  {
    if h != [] {
      var h', op := h[..|h| - 1], h[|h| - 1];
      UnprunedInOrder(h');
      var g := Unpruned(h');
      if op.Beat? {
        forall i | 0 <= i < |g| && g[i].Timed() ensures g[i].Time() <= op.ts {
          assert g[i] in h';
          var j :| 0 <= j < |h'| && h'[j] == g[i];
          assert h[j] == g[i];
        }
      }
    }
  }

  /** On one clock, earlier pruning never changes a later answer. */
  lemma PruningDoesNotMatter(h: seq<Op>, now: real, u: Session, window: real)
    requires window > 0.0 && BeatsInOrder(h) && InTime(h, now)
    ensures u in Fold(h + [Prune(now)], window) <==> u in Fold(Unpruned(h) + [Prune(now)], window)
  {
    UnprunedInOrder(h);
    LookOnOneClock(h, now, u, window);
    LookOnOneClock(Unpruned(h), now, u, window);
    UnprunedKeepsLast(h, u, now - window);
  }

  // ---------------------------------------------------------------- sets nobody leaves

  ghost predicate SomeBeat(h: seq<Op>, u: Session, limit: real) {
    exists i :: 0 <= i < |h| && h[i].Beat? && h[i].session == u && h[i].ts > limit
  }

  /** When no command is a leave and heartbeats come in order, a look shows exactly the sessions with at least one
      heartbeat within the window before the latest pruning, although only the last stamp of each session is kept. */
  lemma LookCountsDistinct(h: seq<Op>, now: real, u: Session, window: real)
    requires window > 0.0 && BeatsInOrder(h)
    requires forall i | 0 <= i < |h| :: !h[i].Leave?
    ensures u in Fold(h + [Prune(now)], window) <==> SomeBeat(h, u, Latest(h, now) - window)
  {
    var limit := Latest(h, now) - window;
    LookExact(h, now, u, window);
    if SomeBeat(h, u, limit) {
      var i :| 0 <= i < |h| && h[i].Beat? && h[i].session == u && h[i].ts > limit;
      var k := LastAbout(h, u, i);
      assert h[i].Timed() && h[i].Time() <= h[k].ts;
    }
    if BeatAfter(h, u, limit) {
      var i :| IsLast(h, u, i) && h[i].Beat? && h[i].ts > limit;
      assert h[i].Beat? && h[i].session == u;
    }
  }

  lemma {:induction false} LastAbout(h: seq<Op>, u: Session, i: nat) returns (k: nat)
    requires i < |h| && h[i].About(u)
    ensures i <= k && IsLast(h, u, k)
    decreases |h| - i
  {
    if j :| i < j < |h| && h[j].About(u) {
      k := LastAbout(h, u, j);
    } else {
      k := i;
    }
  }

  /** Such a gap exists: with stamps in fractions of a second and a look at whole seconds, a session stamped 0.5 is
      promised at second 20 but was pruned along with a heartbeat stamped 20.7. */
  lemma WholeSecondsLeaveGap()
    ensures var h := [Beat("a", 0.5), Prune(0.5), Beat("b", 20.7), Prune(20.7)];
            BeatsInOrder(h) && Promised(h, 20.0, "a", 20.0) && !Shown(h, 20.0, "a", 20.0)
  {
    var h := [Beat("a", 0.5), Prune(0.5), Beat("b", 20.7), Prune(20.7)];
    assert IsLast(h, "a", 0) && h[0].Beat? && h[0].ts > 20.0 - 20.0;
    LookExact(h, 20.0, "a", 20.0);
    LatestBounds(h, 20.0);
    assert h[3].Prune? && h[3].now == 20.7;
    assert forall i: int | IsLast(h, "a", i) :: i == 0;
  }
}
