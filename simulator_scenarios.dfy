/**
 * The simulator scenarios of the streaming unit tests, on the value semantics.  The
 * default emission interval is not fixed here: each scenario takes it as a parameter,
 * with only the bounds the scenario's timing needs.
 */
module SimulatorScenarios {
  import opened Wrappers
  import opened FrameCodec
  import opened DataPorts
  import opened SimulatorSemantics
  import opened Arith

  /** Pipes added at clock 0 are first due one interval later. */
  function Fresh(src: nat, snk: nat, interval: nat): Slot
  {
    Slot(src, snk, interval, interval)
  }

  lemma FiresWithin(interval: nat, target: nat, n: nat)
    requires interval > 0 && n > 0 && n * interval <= target < (n + 1) * interval
    ensures Fires(interval, interval, target) == n
  {
    DivisionUnique(target - interval, interval, n - 1, target - n * interval);
  }

  // ---------------------------------------------------------------------------------
  // A single pipe, timed and then drained

  function SingleWorld(feed: seq<EegFrame>, interval: nat): (w: World)
    requires interval > 0
    ensures WellFormed(w)
  {
    World(0, [feed], [0], [[]], [true], [Fresh(0, 0, interval)])
  }

  /** One pipe over a 31-frame source, passed 1020 ms and then drained: by 1020 ms the
      sink holds the first frames of the source in order, at least 15 of them when 15
      intervals fit in 1020 ms, and after the drain it holds the whole source. */
  lemma SinglePipeScenario(feed: seq<EegFrame>, interval: nat)
    requires |feed| == 31 && interval > 0 && 15 * interval <= 1020
    ensures var a := PassTime(SingleWorld(feed, interval), 1020, 1.0);
      && 15 <= a.cursors[0]
      && a.outputs[0] == feed[..a.cursors[0]]
      && PassTime(a, 0, 0.0).outputs[0] == feed
  {
    var w := SingleWorld(feed, interval);
    var a := Advance(w, 1020);
    AdvanceTakes(w, 1020, 0);
    AdvanceKeepsOrder(w, 1020);
    var n := Fires(interval, interval, 1020);
    var q, r := (1020 - interval) / interval, (1020 - interval) % interval;
    if q < 14 {
      MulMonotone(q + 1, 14, interval);
      assert false;
    }
    assert n >= 15;
    var d := Drain(a);
    DrainLeavesNothingActive(a);
    DrainKeepsOrder(a);
    assert !Active(d, 0);
    assert feed[..31] == feed;
  }

  /** Which of two slots is stepped next. */
  lemma EarliestOfTwo(w: World, onlyActive: bool)
    requires WellFormed(w) && |w.slots| == 2
    ensures EarliestAmong(w, onlyActive, 2)
         == if Eligible(w, onlyActive, 0) && Eligible(w, onlyActive, 1) then
              (if w.slots[1].due < w.slots[0].due then Some(1) else Some(0))
            else if Eligible(w, onlyActive, 0) then Some(0)
            else if Eligible(w, onlyActive, 1) then Some(1)
            else None
  {
    assert EarliestAmong(w, onlyActive, 1) == if Eligible(w, onlyActive, 0) then Some(0) else None;
  }

  // ---------------------------------------------------------------------------------
  // Two pipes with sources of their own feeding one sink

  function TwoFeedWorld(feed1: seq<EegFrame>, feed2: seq<EegFrame>, interval: nat): (w: World)
    requires interval > 0
    ensures WellFormed(w) && Exclusive(w)
  {
    World(0, [feed1, feed2], [0, 0], [[]], [true], [Fresh(0, 0, interval), Fresh(1, 0, interval)])
  }

  /** What a sink fed by the two pipes of such a world has taken from their sources. */
  lemma IntakeOfTwo(w: World)
    requires WellFormed(w) && |w.slots| == 2 && |w.feeds| == 2 && |w.outputs| == 1
    requires w.slots[0].src == 0 && w.slots[1].src == 1 && w.slots[0].snk == 0 && w.slots[1].snk == 0
    ensures Intake(w, 0, 2) == w.cursors[0] + w.cursors[1]
  {
    assert Intake(w, 0, 1) == w.cursors[0];
  }

  /** Passing 1985 ms, when 31 intervals and not 32 fit in it, takes 31 frames from each
      source into the sink. */
  lemma TwoPipesTimed(feed1: seq<EegFrame>, feed2: seq<EegFrame>, interval: nat)
    requires |feed1| == 31 && |feed2| == 62 && interval > 0
    requires 31 * interval <= 1985 < 32 * interval
    ensures var a := Advance(TwoFeedWorld(feed1, feed2, interval), 1985);
      a.cursors == [31, 31] && |a.outputs[0]| == 62
  {
    var w := TwoFeedWorld(feed1, feed2, interval);
    var a := Advance(w, 1985);
    FiresWithin(interval, 1985, 31);
    AdvanceTakes(w, 1985, 0);
    AdvanceTakes(w, 1985, 1);
    AdvanceKeepsBalance(w, 1985, 0);
    IntakeOfTwo(w);
    IntakeOfTwo(a);
  }

  /** A drain then takes every frame left into the sink. */
  lemma TwoPipesDrained(a: World)
    requires WellFormed(a) && Exclusive(a) && |a.feeds| == 2 && |a.feeds[0]| == 31 && |a.feeds[1]| == 62
    requires |a.outputs| == 1 && a.alive == [true]
    requires |a.slots| == 2 && a.slots[0].src == 0 && a.slots[1].src == 1 && a.slots[0].snk == 0 && a.slots[1].snk == 0
    requires a.cursors == [31, 31] && |a.outputs[0]| == 62
    ensures var d := Drain(a); d.cursors == [31, 62] && |d.outputs[0]| == 93
  {
    var d := Drain(a);
    DrainLeavesNothingActive(a);
    DrainKeepsBalance(a, 0);
    IntakeOfTwo(a);
    IntakeOfTwo(d);
    assert !Active(d, 0) && !Active(d, 1);
  }

  /** Two pipes at the same interval over 31 and 62 frames into one sink.  When 31
      intervals, and not 32, fit in 1985 ms, passing 1985 ms takes 31 frames from each
      source (62 in the sink, the first source depleted, the second not); a drain then
      takes the rest (93 in the sink, both sources depleted). */
  lemma TwoPipesOneSinkScenario(feed1: seq<EegFrame>, feed2: seq<EegFrame>, interval: nat)
    requires |feed1| == 31 && |feed2| == 62 && interval > 0
    requires 31 * interval <= 1985 < 32 * interval
    ensures var a := PassTime(TwoFeedWorld(feed1, feed2, interval), 1985, 0.0);
      && a.cursors == [31, 31] && |a.outputs[0]| == 62
      && var d := PassTime(a, 0, 0.0);
         d.cursors == [31, 62] && |d.outputs[0]| == 93
  {
    TwoPipesTimed(feed1, feed2, interval);
    var a := Advance(TwoFeedWorld(feed1, feed2, interval), 1985);
    TwoPipesDrained(a);
  }

  // ---------------------------------------------------------------------------------
  // Two pipes sharing one source, at half an interval and a whole one

  /** What the half-interval pipe has after r rounds: frames 3m and 3m + 1 for m < r. */
  function HalfShare(feed: seq<EegFrame>, r: nat): (out: seq<EegFrame>)
    requires 3 * r <= |feed|
    ensures |out| == 2 * r
  {
    if r == 0 then [] else HalfShare(feed, r - 1) + [feed[3 * r - 3], feed[3 * r - 2]]
  }

  /** What the whole-interval pipe has after r rounds: frame 3m + 2 for m < r. */
  function WholeShare(feed: seq<EegFrame>, r: nat): (out: seq<EegFrame>)
    requires 3 * r <= |feed|
    ensures |out| == r
  {
    if r == 0 then [] else WholeShare(feed, r - 1) + [feed[3 * r - 1]]
  }

  lemma {:induction false} WholeShareFrames(feed: seq<EegFrame>, r: nat)
    requires 3 * r <= |feed|
    ensures forall m :: 0 <= m < r ==> WholeShare(feed, r)[m] == feed[3 * m + 2]
  {
    if r > 0 {
      WholeShareFrames(feed, r - 1);
    }
  }

  /** A world of the shared-source scenario: the half-interval pipe next due at `due`,
      the other at `due2`. */
  function ShareWorld(feed: seq<EegFrame>, half: nat, cursor: nat, out0: seq<EegFrame>, out1: seq<EegFrame>,
                      due: nat, due2: nat): (w: World)
    requires half > 0 && cursor <= |feed|
    ensures WellFormed(w) && |w.slots| == 2
  {
    World(0, [feed], [cursor], [out0, out1], [true, true], [Slot(0, 0, half, due), Slot(0, 1, 2 * half, due2)])
  }

  /** The world after r rounds of three steps. */
  function AfterRounds(feed: seq<EegFrame>, half: nat, due: nat, r: nat): (w: World)
    requires half > 0 && 3 * r <= |feed|
    ensures WellFormed(w)
  {
    ShareWorld(feed, half, 3 * r, HalfShare(feed, r), WholeShare(feed, r), due, due + half)
  }

  /** Stepping the active pipe 0 of a shared-source world. */
  lemma ShareFireFirst(feed: seq<EegFrame>, half: nat, cursor: nat, out0: seq<EegFrame>, out1: seq<EegFrame>,
                       due: nat, due2: nat)
    requires half > 0 && cursor < |feed|
    ensures Fire(ShareWorld(feed, half, cursor, out0, out1, due, due2), 0)
         == ShareWorld(feed, half, cursor + 1, out0 + [feed[cursor]], out1, due + half, due2)
  {
    var w := ShareWorld(feed, half, cursor, out0, out1, due, due2);
    var r := Fire(w, 0);
    assert Active(w, 0);
    assert r.slots == [Slot(0, 0, half, due + half), Slot(0, 1, 2 * half, due2)];
  }

  /** Stepping the active pipe 1 of a shared-source world. */
  lemma ShareFireSecond(feed: seq<EegFrame>, half: nat, cursor: nat, out0: seq<EegFrame>, out1: seq<EegFrame>,
                        due: nat, due2: nat)
    requires half > 0 && cursor < |feed|
    ensures Fire(ShareWorld(feed, half, cursor, out0, out1, due, due2), 1)
         == ShareWorld(feed, half, cursor + 1, out0, out1 + [feed[cursor]], due, due2 + 2 * half)
  {
    var w := ShareWorld(feed, half, cursor, out0, out1, due, due2);
    var r := Fire(w, 1);
    assert Active(w, 1);
    assert r.slots == [Slot(0, 0, half, due), Slot(0, 1, 2 * half, due2 + 2 * half)];
  }

  /** With a frame left, pipe 0 of a shared-source world is stepped first when it is due
      no later than pipe 1 (it was registered first), and pipe 1 otherwise. */
  lemma ShareEarliest(feed: seq<EegFrame>, half: nat, cursor: nat, out0: seq<EegFrame>, out1: seq<EegFrame>,
                      due: nat, due2: nat)
    requires half > 0 && cursor < |feed|
    ensures EarliestAmong(ShareWorld(feed, half, cursor, out0, out1, due, due2), true, 2)
         == Some(if due <= due2 then 0 else 1)
  {
    var w := ShareWorld(feed, half, cursor, out0, out1, due, due2);
    assert Active(w, 0) && Active(w, 1);
    EarliestOfTwo(w, true);
  }

  /** A drain goes on from the world its first step leads to. */
  lemma DrainVia(w: World, i: nat, v: World)
    requires WellFormed(w) && EarliestAmong(w, true, |w.slots|) == Some(i) && Fire(w, i) == v
    ensures Drain(w) == Drain(v)
  {
    DrainStep(w, i);
  }

  /** A round: the half-interval pipe steps, then steps again on a tie with the other
      pipe (registered later), then the other pipe steps. */
  lemma ShareRound(feed: seq<EegFrame>, half: nat, due: nat, r: nat)
    requires |feed| == 31 && half > 0 && r < 10
    ensures Drain(AfterRounds(feed, half, due, r)) == Drain(AfterRounds(feed, half, due + 2 * half, r + 1))
  {
    RoundFirst(feed, half, due, r);
    RoundSecond(feed, half, due, r);
    RoundThird(feed, half, due, r);
  }

  /** The round's first step: the half-interval pipe is due first. */
  lemma RoundFirst(feed: seq<EegFrame>, half: nat, due: nat, r: nat)
    requires |feed| == 31 && half > 0 && r < 10
    ensures Drain(AfterRounds(feed, half, due, r))
         == Drain(ShareWorld(feed, half, 3 * r + 1, HalfShare(feed, r) + [feed[3 * r]], WholeShare(feed, r),
                             due + half, due + half))
  {
    var w0 := ShareWorld(feed, half, 3 * r, HalfShare(feed, r), WholeShare(feed, r), due, due + half);
    assert AfterRounds(feed, half, due, r) == w0;
    ShareEarliest(feed, half, 3 * r, HalfShare(feed, r), WholeShare(feed, r), due, due + half);
    ShareFireFirst(feed, half, 3 * r, HalfShare(feed, r), WholeShare(feed, r), due, due + half);
    DrainVia(w0, 0, ShareWorld(feed, half, 3 * r + 1, HalfShare(feed, r) + [feed[3 * r]], WholeShare(feed, r),
                               due + half, due + half));
  }

  /** The round's second step: a tie, which the pipe registered first wins. */
  lemma RoundSecond(feed: seq<EegFrame>, half: nat, due: nat, r: nat)
    requires |feed| == 31 && half > 0 && r < 10
    ensures Drain(ShareWorld(feed, half, 3 * r + 1, HalfShare(feed, r) + [feed[3 * r]], WholeShare(feed, r),
                             due + half, due + half))
         == Drain(ShareWorld(feed, half, 3 * r + 2, HalfShare(feed, r + 1), WholeShare(feed, r),
                             due + 2 * half, due + half))
  {
    var h := HalfShare(feed, r) + [feed[3 * r]];
    ShareEarliest(feed, half, 3 * r + 1, h, WholeShare(feed, r), due + half, due + half);
    ShareFireFirst(feed, half, 3 * r + 1, h, WholeShare(feed, r), due + half, due + half);
    assert h + [feed[3 * r + 1]] == HalfShare(feed, r + 1);
    DrainVia(ShareWorld(feed, half, 3 * r + 1, h, WholeShare(feed, r), due + half, due + half), 0,
             ShareWorld(feed, half, 3 * r + 2, HalfShare(feed, r + 1), WholeShare(feed, r), due + 2 * half, due + half));
  }

  /** The round's third step: the whole-interval pipe is due first. */
  lemma RoundThird(feed: seq<EegFrame>, half: nat, due: nat, r: nat)
    requires |feed| == 31 && half > 0 && r < 10
    ensures Drain(ShareWorld(feed, half, 3 * r + 2, HalfShare(feed, r + 1), WholeShare(feed, r),
                             due + 2 * half, due + half))
         == Drain(AfterRounds(feed, half, due + 2 * half, r + 1))
  {
    var h, o := HalfShare(feed, r + 1), WholeShare(feed, r);
    ShareEarliest(feed, half, 3 * r + 2, h, o, due + 2 * half, due + half);
    ShareFireSecond(feed, half, 3 * r + 2, h, o, due + 2 * half, due + half);
    DrainVia(ShareWorld(feed, half, 3 * r + 2, h, o, due + 2 * half, due + half), 1,
             AfterRounds(feed, half, due + 2 * half, r + 1));
  }

  /** What the two sinks hold at the end: the half-interval pipe frames 3m, 3m + 1 and
      the last frame, the other frames 3m + 2. */
  function SharedOutputs(feed: seq<EegFrame>): seq<seq<EegFrame>>
    requires |feed| == 31
  {
    [HalfShare(feed, 10) + [feed[30]], WholeShare(feed, 10)]
  }

  /** The last frame goes to the half-interval pipe, and then no pipe is active. */
  lemma ShareLast(feed: seq<EegFrame>, half: nat, due: nat)
    requires |feed| == 31 && half > 0
    ensures var d := Drain(AfterRounds(feed, half, due, 10));
      d.cursors == [31] && d.outputs == SharedOutputs(feed)
  {
    var h, o := HalfShare(feed, 10), WholeShare(feed, 10);
    var w0 := ShareWorld(feed, half, 30, h, o, due, due + half);
    var w := ShareWorld(feed, half, 31, h + [feed[30]], o, due + half, due + half);
    assert AfterRounds(feed, half, due, 10) == w0;
    ShareEarliest(feed, half, 30, h, o, due, due + half);
    ShareFireFirst(feed, half, 30, h, o, due, due + half);
    LastStep(w0, w);
  }

  /** A drain whose first step leads to a world with no pipe active ends there. */
  lemma LastStep(w0: World, w: World)
    requires WellFormed(w0) && EarliestAmong(w0, true, |w0.slots|) == Some(0) && Fire(w0, 0) == w
    requires forall i :: 0 <= i < |w.slots| ==> !Active(w, i)
    ensures Drain(w0) == w
  {
    DrainVia(w0, 0, w);
    DrainDone(w);
  }

  /** A drain with no pipe active changes nothing. */
  lemma DrainDone(w: World)
    requires WellFormed(w) && forall i :: 0 <= i < |w.slots| ==> !Active(w, i)
    ensures Drain(w) == w
  {
    assert EarliestAmong(w, true, |w.slots|).None?;
  }

  /** From round r on, the drain ends with all 31 frames taken: 21 at the half-interval
      pipe's sink and frames 2, 5, ..., 29 at the other. */
  lemma {:induction false} ShareFrom(feed: seq<EegFrame>, half: nat, due: nat, r: nat)
    requires |feed| == 31 && half > 0 && r <= 10
    ensures var d := Drain(AfterRounds(feed, half, due, r));
      d.cursors == [31] && d.outputs == SharedOutputs(feed)
    decreases 10 - r
  {
    if r < 10 {
      ShareFrom(feed, half, due + 2 * half, r + 1);
      ShareBack(feed, half, due, r);
    } else {
      ShareEnd(feed, half, due, r);
    }
  }

  lemma ShareEnd(feed: seq<EegFrame>, half: nat, due: nat, r: nat)
    requires |feed| == 31 && half > 0 && r == 10
    ensures var d := Drain(AfterRounds(feed, half, due, r));
      d.cursors == [31] && d.outputs == SharedOutputs(feed)
  {
    ShareLast(feed, half, due);
  }

  /** What a drain ends with after round r + 1 it ends with after round r. */
  lemma ShareBack(feed: seq<EegFrame>, half: nat, due: nat, r: nat)
    requires |feed| == 31 && half > 0 && r < 10
    requires var d := Drain(AfterRounds(feed, half, due + 2 * half, r + 1));
      d.cursors == [31] && d.outputs == SharedOutputs(feed)
    ensures var d := Drain(AfterRounds(feed, half, due, r));
      d.cursors == [31] && d.outputs == SharedOutputs(feed)
  {
    ShareRound(feed, half, due, r);
  }

  /** One source read by two pipes into two sinks, every `half` and every 2 * half ms. */
  function SharedWorld(feed: seq<EegFrame>, half: nat): World
  {
    World(0, [feed], [0], [[], []], [true, true], [Fresh(0, 0, half), Fresh(0, 1, 2 * half)])
  }

  /** Two pipes over one 31-frame source, added at half an interval and a whole one, each
      into a sink of its own, drained: the source ends depleted, the half-interval pipe's
      sink holds 21 frames and the other sink frames 2, 5, ..., 29. */
  lemma SharedSourceScenario(feed: seq<EegFrame>, half: nat)
    requires |feed| == 31 && half > 0
    ensures var w := SharedWorld(feed, half);
      && WellFormed(w)
      && var d := PassTime(w, 0, 0.0);
         && d.cursors == [31] && |d.outputs[0]| == 21
         && d.outputs[1] == WholeShare(feed, 10)
  {
    assert AfterRounds(feed, half, half, 0)
        == SharedWorld(feed, half);
    ShareFrom(feed, half, half, 0);
  }

  // ---------------------------------------------------------------------------------
  // Sums of samples

  /** The sum of the eight samples of a frame. */
  function FrameSum(f: EegFrame): int
  {
    f.signal[0] as int + f.signal[1] + f.signal[2] + f.signal[3]
      + f.signal[4] + f.signal[5] + f.signal[6] + f.signal[7]
  }

  function SamplesSum(frames: seq<EegFrame>): int
  {
    if frames == [] then 0 else SamplesSum(frames[..|frames| - 1]) + FrameSum(frames[|frames| - 1])
  }

  /** Frame k of a column 0, 1, ... holds 8k .. 8k + 7, which sum to 64k + 28. */
  lemma SampleFrameSum(column: seq<int16>, k: nat)
    requires |column| == 250 && forall i :: 0 <= i < 250 ==> column[i] == i
    requires k < 31
    ensures FrameSum(EegFrames(column)[k]) == 64 * k + 28
  {
    var f := EegFrames(column)[k];
    assert f.signal == column[8 * k..8 * k + 8];
    assert forall j :: 0 <= j < 8 ==> f.signal[j] == 8 * k + j;
  }

  /** The whole-interval pipe's frames after r rounds, over frames summing to 64k + 28. */
  lemma {:induction false} WholeShareSum(feed: seq<EegFrame>, r: nat)
    requires |feed| == 31 && r <= 10
    requires forall k :: 0 <= k < 31 ==> FrameSum(feed[k]) == 64 * k + 28
    ensures SamplesSum(WholeShare(feed, r)) == 96 * r * (r - 1) + 156 * r
  {
    if r > 0 {
      WholeShareSum(feed, r - 1);
      assert WholeShare(feed, r)[..r - 1] == WholeShare(feed, r - 1);
      assert FrameSum(feed[3 * r - 1]) == 192 * r - 36;
      SumClosedForm(r);
    }
  }

  lemma SumClosedForm(r: nat)
    requires r > 0
    ensures 96 * r * (r - 1) + 156 * r == 96 * (r - 1) * (r - 2) + 156 * (r - 1) + 192 * r - 36
  {
    var m := r - 1;
    assert r * (r - 1) == m * m + m;
    assert (r - 1) * (r - 2) == m * m - m;
  }

  /** With the first sample file (the column 0 .. 249) as the shared source, the
      whole-interval pipe's sink receives samples summing to 10200. */
  lemma SharedSourceSum(column: seq<int16>)
    requires |column| == 250 && forall i :: 0 <= i < 250 ==> column[i] == i
    ensures SamplesSum(WholeShare(EegFrames(column), 10)) == 10200
  {
    var feed := EegFrames(column);
    CountingFrameSums(column, feed);
    WholeShareSum(feed, 10);
  }

  lemma CountingFrameSums(column: seq<int16>, feed: seq<EegFrame>)
    requires |column| == 250 && (forall i :: 0 <= i < 250 ==> column[i] == i) && feed == EegFrames(column)
    ensures |feed| == 31 && forall k :: 0 <= k < 31 ==> FrameSum(feed[k]) == 64 * k + 28
  {
    forall k | 0 <= k < 31
      ensures FrameSum(feed[k]) == 64 * k + 28
    {
      SampleFrameSum(column, k);
    }
  }
}
