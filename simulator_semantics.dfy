/**
 * The virtual-time semantics of SignalSimulator, on values.  A world holds the frames of
 * every source with its cursor, what every sink has received and whether it is still
 * alive, and one slot per registered pipe: which source and sink it joins, its interval
 * and the virtual time at which it is next due.  The class in signal_simulator.dfy is
 * proved to change its objects exactly as these functions say.
 */
module SimulatorSemantics {
  import opened Wrappers
  import opened FrameCodec

  /** A registered pipe: source index, sink index, interval and next due time (ms). */
  datatype Slot = Slot(src: nat, snk: nat, interval: nat, due: nat)

  datatype World = World(
    now: nat,
    feeds: seq<seq<EegFrame>>,
    cursors: seq<nat>,
    outputs: seq<seq<EegFrame>>,
    alive: seq<bool>,
    slots: seq<Slot>)

  predicate WellFormed(w: World)
  {
    && |w.cursors| == |w.feeds|
    && |w.alive| == |w.outputs|
    && (forall s :: 0 <= s < |w.feeds| ==> w.cursors[s] <= |w.feeds[s]|)
    && (forall i :: 0 <= i < |w.slots| ==>
          w.slots[i].src < |w.feeds| && w.slots[i].snk < |w.outputs| && w.slots[i].interval > 0)
  }

  /** A pipe is active while its sink is alive and its source has a frame left, i.e. while
      it is neither broken nor depleted. */
  predicate Active(w: World, i: nat)
    requires WellFormed(w) && i < |w.slots|
  {
    var s := w.slots[i];
    w.alive[s.snk] && w.cursors[s.src] < |w.feeds[s.src]|
  }

  /** Two worlds with the same sources, sink liveness and pipes (dues aside). */
  predicate SameShape(a: World, b: World)
  {
    && a.feeds == b.feeds
    && a.alive == b.alive
    && |a.cursors| == |b.cursors|
    && |a.outputs| == |b.outputs|
    && |a.slots| == |b.slots|
    && (forall i :: 0 <= i < |a.slots| ==> a.slots[i].(due := 0) == b.slots[i].(due := 0))
  }

  /** Stepping pipe i: an active pipe moves its source's next frame to its sink, and
      either way the pipe's next due time moves on by its interval. */
  function Fire(w: World, i: nat): (r: World)
    requires WellFormed(w) && i < |w.slots|
    ensures WellFormed(r) && SameShape(w, r) && r.now == w.now
    ensures r.slots[i].due == w.slots[i].due + w.slots[i].interval
    ensures forall j :: 0 <= j < |w.slots| && j != i ==> r.slots[j] == w.slots[j]
    ensures var s := w.slots[i];
      if Active(w, i) then
        && r.cursors == w.cursors[s.src := w.cursors[s.src] + 1]
        && r.outputs == w.outputs[s.snk := w.outputs[s.snk] + [w.feeds[s.src][w.cursors[s.src]]]]
      else r.cursors == w.cursors && r.outputs == w.outputs
  {
    var s := w.slots[i];
    var moved :=
      if Active(w, i) then
        w.(cursors := w.cursors[s.src := w.cursors[s.src] + 1],
           outputs := w.outputs[s.snk := w.outputs[s.snk] + [w.feeds[s.src][w.cursors[s.src]]]])
      else w;
    moved.(slots := w.slots[i := s.(due := s.due + s.interval)])
  }

  /** Slot i goes before slot j: it is due earlier, or as early and registered first. */
  predicate Before(w: World, i: nat, j: nat)
    requires i < |w.slots| && j < |w.slots|
  {
    w.slots[i].due < w.slots[j].due || (w.slots[i].due == w.slots[j].due && i <= j)
  }

  predicate Eligible(w: World, onlyActive: bool, i: nat)
    requires WellFormed(w) && i < |w.slots|
  {
    !onlyActive || Active(w, i)
  }

  /** The first of the first n slots in (due, registration) order, among all of them or
      only among the active ones. */
  function EarliestAmong(w: World, onlyActive: bool, n: nat): (r: Option<nat>)
    requires WellFormed(w) && n <= |w.slots|
    ensures r.Some? ==>
      && r.value < n
      && Eligible(w, onlyActive, r.value)
      && forall j :: 0 <= j < n && Eligible(w, onlyActive, j) ==> Before(w, r.value, j)
    ensures r.None? ==> forall j :: 0 <= j < n ==> !Eligible(w, onlyActive, j)
  {
    if n == 0 then None
    else
      var r := EarliestAmong(w, onlyActive, n - 1);
      if !Eligible(w, onlyActive, n - 1) then r
      else if r.None? || w.slots[n - 1].due < w.slots[r.value].due then Some(n - 1)
      else r
  }

  lemma EarliestIsFirstDue(w: World)
    requires WellFormed(w)
    ensures var next := EarliestAmong(w, false, |w.slots|);
      forall j :: 0 <= j < |w.slots| ==> next.Some? && w.slots[next.value].due <= w.slots[j].due
  {
    var next := EarliestAmong(w, false, |w.slots|);
    forall j | 0 <= j < |w.slots|
      ensures next.Some? && w.slots[next.value].due <= w.slots[j].due
    {
      assert Eligible(w, false, j);
      assert Before(w, next.value, j);
    }
  }

  /** How far slot due times lag behind `target`; every step of a due slot lowers it. */
  function Backlog(slots: seq<Slot>, target: nat): nat
  {
    if slots == [] then 0
    else
      var last := slots[|slots| - 1];
      Backlog(slots[..|slots| - 1], target) + (if last.due <= target then target + 1 - last.due else 0)
  }

  lemma {:induction false} BacklogDrops(slots: seq<Slot>, i: nat, d: nat, target: nat)
    requires i < |slots| && slots[i].due <= target && d > slots[i].due
    ensures Backlog(slots[i := slots[i].(due := d)], target) < Backlog(slots, target)
    decreases |slots|
  {
    var n := |slots| - 1;
    var updated := slots[i := slots[i].(due := d)];
    if i < n {
      assert updated[..n] == slots[..n][i := slots[i].(due := d)];
      BacklogDrops(slots[..n], i, d, target);
    } else {
      assert updated[..n] == slots[..n];
    }
  }

  /** Frames not yet taken from the first n sources. */
  function Unsent(feeds: seq<seq<EegFrame>>, cursors: seq<nat>, n: nat): int
    requires n <= |feeds| && |cursors| == |feeds|
  {
    if n == 0 then 0 else Unsent(feeds, cursors, n - 1) + |feeds[n - 1]| - cursors[n - 1]
  }

  lemma {:induction false} UnsentNonNegative(w: World, n: nat)
    requires WellFormed(w) && n <= |w.feeds|
    ensures Unsent(w.feeds, w.cursors, n) >= 0
  {
    if n > 0 {
      UnsentNonNegative(w, n - 1);
    }
  }

  lemma {:induction false} UnsentDrops(feeds: seq<seq<EegFrame>>, cursors: seq<nat>, s: nat, n: nat)
    requires n <= |feeds| && |cursors| == |feeds| && s < |feeds|
    ensures Unsent(feeds, cursors[s := cursors[s] + 1], n) == Unsent(feeds, cursors, n) - (if s < n then 1 else 0)
  {
    if n > 0 {
      UnsentDrops(feeds, cursors, s, n - 1);
    }
  }

  /** pass_time(d) with a real duration: every due pipe is stepped, earliest first (all
      pipes, broken or depleted ones too, so each keeps its cadence) until none is due
      at or before `target`; then the clock reads `target`. */
  function Advance(w: World, target: nat): (r: World)
    requires WellFormed(w)
    ensures WellFormed(r) && SameShape(w, r) && r.now == target
    decreases Backlog(w.slots, target)
  {
    match NextDue(w, target)
    case Some(i) =>
      BacklogDrops(w.slots, i, w.slots[i].due + w.slots[i].interval, target);
      Advance(Fire(w, i), target)
    case None =>
      w.(now := target)
  }

  /** The pipe Advance steps next: the earliest of all, if it is due by `target`. */
  function NextDue(w: World, target: nat): (r: Option<nat>)
    requires WellFormed(w)
    ensures r.Some? ==> r.value < |w.slots| && w.slots[r.value].due <= target
    ensures r.Some? ==> forall j :: 0 <= j < |w.slots| ==> Before(w, r.value, j)
    ensures r.None? ==> forall j :: 0 <= j < |w.slots| ==> w.slots[j].due > target
  {
    var next := EarliestAmong(w, false, |w.slots|);
    EarliestIsFirstDue(w);
    if next.Some? && w.slots[next.value].due <= target then next else None
  }

  /** pass_time(0, 0): the active pipes are stepped in (due, registration) order until
      none is active; the clock does not move. */
  function Drain(w: World): (r: World)
    requires WellFormed(w)
    ensures WellFormed(r) && SameShape(w, r) && r.now == w.now
    decreases Unsent(w.feeds, w.cursors, |w.feeds|)
  {
    var next := EarliestAmong(w, true, |w.slots|);
    if next.Some? then
      var s := w.slots[next.value];
      UnsentDrops(w.feeds, w.cursors, s.src, |w.feeds|);
      UnsentNonNegative(Fire(w, next.value), |w.feeds|);
      Drain(Fire(w, next.value))
    else
      w
  }

  /** One step of a drain: the earliest active pipe is stepped and fewer frames remain. */
  lemma DrainStep(w: World, i: nat)
    requires WellFormed(w) && EarliestAmong(w, true, |w.slots|) == Some(i)
    ensures Drain(Fire(w, i)) == Drain(w)
  {
  }

  lemma DrainMeasure(w: World, i: nat)
    requires WellFormed(w) && i < |w.slots| && Active(w, i)
    ensures 0 <= Unsent(Fire(w, i).feeds, Fire(w, i).cursors, |w.feeds|) < Unsent(w.feeds, w.cursors, |w.feeds|)
  {
    UnsentDrops(w.feeds, w.cursors, w.slots[i].src, |w.feeds|);
    UnsentNonNegative(Fire(w, i), |w.feeds|);
  }

  /** One step of an advance: the earliest pipe, due by `target`, is stepped. */
  lemma AdvanceStep(w: World, target: nat, i: nat)
    requires WellFormed(w) && NextDue(w, target) == Some(i)
    ensures Advance(Fire(w, i), target) == Advance(w, target)
  {
  }

  /** Stepping a pipe due by `target` shrinks the backlog. */
  lemma AdvanceMeasure(w: World, target: nat, i: nat)
    requires WellFormed(w) && i < |w.slots| && w.slots[i].due <= target
    ensures Backlog(Fire(w, i).slots, target) < Backlog(w.slots, target)
  {
    BacklogDrops(w.slots, i, w.slots[i].due + w.slots[i].interval, target);
  }

  /** pass_time(duration, real_time_factor). */
  function PassTime(w: World, duration: nat, realTimeFactor: real): (r: World)
    requires WellFormed(w)
  {
    if duration == 0 && realTimeFactor == 0.0 then Drain(w) else Advance(w, w.now + duration)
  }

  // ---------------------------------------------------------------------------------
  // Cadence

  /** How often a pipe next due at `due` with period `interval` is stepped by the time
      the clock reaches `target`. */
  function Fires(due: nat, interval: nat, target: nat): nat
    requires interval > 0
  {
    if due > target then 0 else (target - due) / interval + 1
  }

  /** Fires counts exactly the steps due at or before the target: after that many the
      pipe is due past the target, after one fewer it is not. */
  lemma FiresIsLeast(due: nat, interval: nat, target: nat)
    requires interval > 0
    ensures var n := Fires(due, interval, target);
      due + n * interval > target && (n > 0 ==> due + (n - 1) * interval <= target)
  {
    if due <= target {
      var q := (target - due) / interval;
      assert target - due == q * interval + (target - due) % interval;
      assert (q + 1) * interval == q * interval + interval;
    }
  }

  lemma FiresStep(due: nat, interval: nat, target: nat)
    requires interval > 0 && due <= target
    ensures Fires(due + interval, interval, target) + 1 == Fires(due, interval, target)
  {
    if due + interval <= target {
      var x := target - due - interval;
      DivisionUnique(target - due, interval, x / interval + 1, x % interval);
    } else {
      DivisionUnique(target - due, interval, 0, target - due);
    }
  }

  /** x / d is the only q with x == q * d + r and 0 <= r < d. */
  lemma DivisionUnique(x: int, d: int, q: int, r: int)
    requires d > 0 && 0 <= r < d && x == q * d + r
    ensures x / d == q
  {
    var q0, r0 := x / d, x % d;
    var k := q - q0;
    assert q * d - q0 * d == k * d;
    assert k * d == r0 - r;
  }

  /** The time at which a pipe is next due once the clock has reached `target`. */
  function CatchUp(due: nat, interval: nat, target: nat): nat
    requires interval > 0
  {
    due + Fires(due, interval, target) * interval
  }

  lemma CatchUpStep(due: nat, interval: nat, target: nat)
    requires interval > 0 && due <= target
    ensures CatchUp(due + interval, interval, target) == CatchUp(due, interval, target)
  {
    FiresStep(due, interval, target);
    var f := Fires(due + interval, interval, target);
    assert (f + 1) * interval == f * interval + interval;
  }

  /** After advancing to `target` no pipe is due at or before it. */
  lemma AdvanceLeavesNothingDue(w: World, target: nat)
    requires WellFormed(w)
    ensures forall i :: 0 <= i < |w.slots| ==> Advance(w, target).slots[i].due > target
  {
    forall i | 0 <= i < |w.slots|
      ensures Advance(w, target).slots[i].due > target
    {
      AdvanceCadence(w, target, i);
      FiresIsLeast(w.slots[i].due, w.slots[i].interval, target);
    }
  }

  /** A pipe due N intervals within the advanced span is stepped N times: its next due
      time is its old one plus N intervals, the first past the target. */
  lemma {:induction false} AdvanceCadence(w: World, target: nat, i: nat)
    requires WellFormed(w) && i < |w.slots|
    ensures Advance(w, target).slots[i].due == CatchUp(w.slots[i].due, w.slots[i].interval, target)
    decreases Backlog(w.slots, target)
  {
    var next := NextDue(w, target);
    if next.Some? {
      var j := next.value;
      AdvanceMeasure(w, target, j);
      AdvanceCadence(Fire(w, j), target, i);
      AdvanceStep(w, target, j);
      CadenceAfterFire(w, target, i, j);
    }
  }

  /** Stepping a due pipe leaves every pipe's catch-up time where it was. */
  lemma CadenceAfterFire(w: World, target: nat, i: nat, j: nat)
    requires WellFormed(w) && i < |w.slots| && j < |w.slots| && w.slots[j].due <= target
    ensures var s := Fire(w, j).slots[i];
      CatchUp(s.due, s.interval, target) == CatchUp(w.slots[i].due, w.slots[i].interval, target)
  {
    assert Fire(w, j).slots[i].(due := 0) == w.slots[i].(due := 0);
    if j == i {
      CatchUpStep(w.slots[i].due, w.slots[i].interval, target);
    }
  }

  /** Advancing in one jump is the same as advancing in two. */
  lemma {:induction false} AdvanceSplit(w: World, t1: nat, t2: nat)
    requires WellFormed(w) && t1 <= t2
    ensures Advance(Advance(w, t1), t2) == Advance(w, t2)
    decreases Backlog(w.slots, t1)
  {
    var next := NextDue(w, t1);
    if next.Some? {
      var j := next.value;
      AdvanceMeasure(w, t1, j);
      AdvanceSplit(Fire(w, j), t1, t2);
      AdvanceStep(w, t1, j);
      NextDueLater(w, t1, t2);
      AdvanceStep(w, t2, j);
    } else {
      AdvanceIgnoresClock(w, t1, t2);
    }
  }

  /** A pipe due by t1 is the one Advance steps first on the way to any later target. */
  lemma NextDueLater(w: World, t1: nat, t2: nat)
    requires WellFormed(w) && t1 <= t2 && NextDue(w, t1).Some?
    ensures NextDue(w, t2) == NextDue(w, t1)
  {
  }

  /** The clock reading does not steer Advance. */
  lemma {:induction false} AdvanceIgnoresClock(w: World, t: nat, target: nat)
    requires WellFormed(w)
    ensures Advance(w.(now := t), target) == Advance(w, target)
    decreases Backlog(w.slots, target)
  {
    NextDueIgnoresClock(w, t, target);
    var next := NextDue(w, target);
    if next.Some? {
      var j := next.value;
      AdvanceMeasure(w, target, j);
      FireIgnoresClock(w, t, j);
      AdvanceIgnoresClock(Fire(w, j), t, target);
      AdvanceStep(w, target, j);
      AdvanceStep(w.(now := t), target, j);
    }
  }

  lemma NextDueIgnoresClock(w: World, t: nat, target: nat)
    requires WellFormed(w)
    ensures NextDue(w.(now := t), target) == NextDue(w, target)
  {
    EarliestIgnoresClock(w, t, |w.slots|);
  }

  lemma FireIgnoresClock(w: World, t: nat, i: nat)
    requires WellFormed(w) && i < |w.slots|
    ensures Fire(w.(now := t), i) == Fire(w, i).(now := t)
  {
  }

  lemma {:induction false} EarliestIgnoresClock(w: World, t: nat, n: nat)
    requires WellFormed(w) && n <= |w.slots|
    ensures EarliestAmong(w.(now := t), false, n) == EarliestAmong(w, false, n)
  {
    if n > 0 {
      EarliestIgnoresClock(w, t, n - 1);
    }
  }

  /** After a drain no pipe is active: each is broken or depleted. */
  lemma {:induction false} DrainLeavesNothingActive(w: World)
    requires WellFormed(w)
    ensures forall i :: 0 <= i < |w.slots| ==> !Active(Drain(w), i)
    decreases Unsent(w.feeds, w.cursors, |w.feeds|)
  {
    var next := EarliestAmong(w, true, |w.slots|);
    if next.Some? {
      var w' := Fire(w, next.value);
      DrainMeasure(w, next.value);
      DrainStep(w, next.value);
      DrainLeavesNothingActive(w');
      assert |w'.slots| == |w.slots|;
      forall i | 0 <= i < |w.slots|
        ensures !Active(Drain(w), i)
      {
        assert !Active(Drain(w'), i);
      }
    } else {
      assert Drain(w) == w;
      forall i | 0 <= i < |w.slots|
        ensures !Active(w, i)
      {
        assert !Eligible(w, true, i);
      }
    }
  }

  // ---------------------------------------------------------------------------------
  // Pipes with sources of their own

  /** No two pipes read the same source. */
  predicate Exclusive(w: World)
  {
    forall i, j :: 0 <= i < j < |w.slots| ==> w.slots[i].src != w.slots[j].src
  }

  /** The frames taken so far from the sources of the first n pipes feeding sink k. */
  function Intake(w: World, k: nat, n: nat): nat
    requires WellFormed(w) && n <= |w.slots|
  {
    if n == 0 then 0
    else
      var s := w.slots[n - 1];
      Intake(w, k, n - 1) + (if s.snk == k then w.cursors[s.src] else 0)
  }

  lemma {:induction false} IntakeFire(w: World, i: nat, k: nat, n: nat)
    requires WellFormed(w) && Exclusive(w) && i < |w.slots| && n <= |w.slots|
    ensures Intake(Fire(w, i), k, n)
         == Intake(w, k, n) + (if Active(w, i) && i < n && w.slots[i].snk == k then 1 else 0)
  {
    if n > 0 {
      IntakeFire(w, i, k, n - 1);
      assert Fire(w, i).slots[n - 1].(due := 0) == w.slots[n - 1].(due := 0);
      if n - 1 != i {
        assert w.slots[n - 1].src != w.slots[i].src;
      }
    }
  }

  /** With sources of their own, what a sink holds grows exactly with the frames taken
      from the sources of the pipes that feed it. */
  lemma FireKeepsBalance(w: World, i: nat, k: nat)
    requires WellFormed(w) && Exclusive(w) && i < |w.slots| && k < |w.outputs|
    ensures Exclusive(Fire(w, i))
    ensures |Fire(w, i).outputs[k]| - Intake(Fire(w, i), k, |w.slots|) == |w.outputs[k]| - Intake(w, k, |w.slots|)
  {
    IntakeFire(w, i, k, |w.slots|);
    FireKeepsExclusive(w, i);
  }

  lemma FireKeepsExclusive(w: World, i: nat)
    requires WellFormed(w) && Exclusive(w) && i < |w.slots|
    ensures Exclusive(Fire(w, i))
  {
    var r := Fire(w, i);
    forall a, b | 0 <= a < b < |r.slots|
      ensures r.slots[a].src != r.slots[b].src
    {
      assert r.slots[a].(due := 0) == w.slots[a].(due := 0);
      assert r.slots[b].(due := 0) == w.slots[b].(due := 0);
    }
  }

  lemma {:induction false} AdvanceKeepsBalance(w: World, target: nat, k: nat)
    requires WellFormed(w) && Exclusive(w) && k < |w.outputs|
    ensures Exclusive(Advance(w, target))
    ensures |Advance(w, target).outputs[k]| - Intake(Advance(w, target), k, |w.slots|)
         == |w.outputs[k]| - Intake(w, k, |w.slots|)
    decreases Backlog(w.slots, target)
  {
    var next := NextDue(w, target);
    if next.Some? {
      var j := next.value;
      AdvanceMeasure(w, target, j);
      FireKeepsBalance(w, j, k);
      AdvanceKeepsBalance(Fire(w, j), target, k);
      AdvanceStep(w, target, j);
    } else {
      IntakeIgnoresClock(w, target, k, |w.slots|);
    }
  }

  lemma {:induction false} IntakeIgnoresClock(w: World, t: nat, k: nat, n: nat)
    requires WellFormed(w) && n <= |w.slots|
    ensures Intake(w.(now := t), k, n) == Intake(w, k, n)
  {
    if n > 0 {
      IntakeIgnoresClock(w, t, k, n - 1);
    }
  }

  lemma {:induction false} DrainKeepsBalance(w: World, k: nat)
    requires WellFormed(w) && Exclusive(w) && k < |w.outputs|
    ensures Exclusive(Drain(w))
    ensures |Drain(w).outputs[k]| - Intake(Drain(w), k, |w.slots|) == |w.outputs[k]| - Intake(w, k, |w.slots|)
    decreases Unsent(w.feeds, w.cursors, |w.feeds|)
  {
    var next := EarliestAmong(w, true, |w.slots|);
    if next.Some? {
      DrainMeasure(w, next.value);
      FireKeepsBalance(w, next.value, k);
      DrainKeepsBalance(Fire(w, next.value), k);
      DrainStep(w, next.value);
    }
  }

  /** No two pipes feed the same sink. */
  predicate OwnSinks(w: World)
  {
    forall i, j :: 0 <= i < j < |w.slots| ==> w.slots[i].snk != w.slots[j].snk
  }

  /** Every sink holds exactly the frames its one pipe has taken from its source, in
      order and unchanged. */
  predicate InOrder(w: World)
    requires WellFormed(w)
  {
    forall i :: 0 <= i < |w.slots| ==>
      w.outputs[w.slots[i].snk] == w.feeds[w.slots[i].src][..w.cursors[w.slots[i].src]]
  }

  lemma FireKeepsOrder(w: World, j: nat)
    requires WellFormed(w) && Exclusive(w) && OwnSinks(w) && InOrder(w) && j < |w.slots|
    ensures Exclusive(Fire(w, j)) && OwnSinks(Fire(w, j)) && InOrder(Fire(w, j))
  {
    var r := Fire(w, j);
    FireKeepsExclusive(w, j);
    forall a, b | 0 <= a < b < |r.slots|
      ensures r.slots[a].snk != r.slots[b].snk
    {
      assert r.slots[a].(due := 0) == w.slots[a].(due := 0);
      assert r.slots[b].(due := 0) == w.slots[b].(due := 0);
    }
    forall i | 0 <= i < |r.slots|
      ensures r.outputs[r.slots[i].snk] == r.feeds[r.slots[i].src][..r.cursors[r.slots[i].src]]
    {
      var s := w.slots[i];
      assert r.slots[i].(due := 0) == s.(due := 0);
      if i == j && Active(w, i) {
        var f, c := w.feeds[s.src], w.cursors[s.src];
        assert f[..c] + [f[c]] == f[..c + 1];
      } else if i != j {
        assert w.slots[j].src != s.src && w.slots[j].snk != s.snk;
      }
    }
  }

  /** Advancing the clock keeps every sink equal to the frames its pipe has taken. */
  lemma {:induction false} AdvanceKeepsOrder(w: World, target: nat)
    requires WellFormed(w) && Exclusive(w) && OwnSinks(w) && InOrder(w)
    ensures InOrder(Advance(w, target))
    decreases Backlog(w.slots, target)
  {
    var next := NextDue(w, target);
    if next.Some? {
      var j := next.value;
      AdvanceMeasure(w, target, j);
      FireKeepsOrder(w, j);
      AdvanceKeepsOrder(Fire(w, j), target);
      AdvanceStep(w, target, j);
    }
  }

  /** Draining keeps every sink equal to the frames its pipe has taken. */
  lemma {:induction false} DrainKeepsOrder(w: World)
    requires WellFormed(w) && Exclusive(w) && OwnSinks(w) && InOrder(w)
    ensures InOrder(Drain(w))
    decreases Unsent(w.feeds, w.cursors, |w.feeds|)
  {
    var next := EarliestAmong(w, true, |w.slots|);
    if next.Some? {
      DrainMeasure(w, next.value);
      FireKeepsOrder(w, next.value);
      DrainKeepsOrder(Fire(w, next.value));
      DrainStep(w, next.value);
    }
  }

  function Min(a: int, b: int): int
  {
    if a <= b then a else b
  }

  /** A pipe with a source of its own and a live sink takes one frame per step it is due
      within the span, as long as frames remain; with a released sink it takes none. */
  lemma {:induction false} AdvanceTakes(w: World, target: nat, i: nat)
    requires WellFormed(w) && Exclusive(w) && i < |w.slots|
    ensures Taken(Advance(w, target), w, target, i)
    decreases Backlog(w.slots, target)
  {
    var next := NextDue(w, target);
    if next.Some? {
      var j := next.value;
      AdvanceMeasure(w, target, j);
      FireKeepsExclusive(w, j);
      AdvanceTakes(Fire(w, j), target, i);
      AdvanceStep(w, target, j);
      TakesAfterFire(Advance(w, target), w, target, i, j);
    }
  }

  /** What pipe i has taken from its own source in `after`, advanced from `w` to `target`:
      one frame per step due, as long as frames remain, and none once its sink is released. */
  predicate Taken(after: World, w: World, target: nat, i: nat)
    requires WellFormed(after) && WellFormed(w) && SameShape(w, after) && i < |w.slots|
  {
    var s := w.slots[i];
    after.cursors[s.src]
      == if w.alive[s.snk] then Min(|w.feeds[s.src]|, w.cursors[s.src] + Fires(s.due, s.interval, target))
         else w.cursors[s.src]
  }

  /** Stepping a due pipe first does not change what pipe i takes by `target`. */
  lemma TakesAfterFire(after: World, w: World, target: nat, i: nat, j: nat)
    requires WellFormed(w) && Exclusive(w) && i < |w.slots| && j < |w.slots| && w.slots[j].due <= target
    requires WellFormed(after) && SameShape(w, after)
    requires Taken(after, Fire(w, j), target, i)
    ensures Taken(after, w, target, i)
  {
    var s := w.slots[i];
    assert Fire(w, j).slots[i].(due := 0) == s.(due := 0);
    if j == i {
      FiresStep(s.due, s.interval, target);
    } else {
      assert w.slots[j].src != s.src;
    }
  }

}
