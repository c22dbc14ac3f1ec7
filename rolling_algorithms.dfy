/**
 * The rolling-window reducers of RollingAlgorithms.cpp.  A reducer is stepped with the
 * current window `v` and the window's place in the enclosing scan (START for the first
 * window, STEP inside, END for the last).  Samples are integers here.
 */
module RollingAlgorithms {

  datatype StepType = Start | Step | End

  /** Sum of a window, accumulated from the front as `std::accumulate` does. */
  function Sum(s: seq<int>): int
  {
    if s == [] then 0 else Sum(s[..|s| - 1]) + s[|s| - 1]
  }

  /** Splitting off the first element instead of the last gives the same sum. */
  lemma {:induction false} SumFront(s: seq<int>)
    requires |s| > 0
    ensures Sum(s) == s[0] + Sum(s[1..])
  {
    if |s| > 1 {
      SumFront(s[..|s| - 1]);
      assert s[..|s| - 1][1..] == s[1..][..|s[1..]| - 1];
    }
  }

  /** The least element of a non-empty window. */
  function Least(s: seq<int>): (m: int)
    requires |s| > 0
    ensures m in s && forall x :: x in s ==> m <= x
  {
    if |s| == 1 then s[0]
    else
      var rest := Least(s[1..]);
      assert forall x :: x in s ==> x == s[0] || x in s[1..];
      if s[0] <= rest then s[0] else rest
  }

  // ---------------------------------------------------------------------------
  // RollingApply: applies the caller's function to the whole window

  /** RollingApply::step; RollingApply::init does nothing, so the reducer has no state. */
  function ApplyStep(applyFun: seq<int> -> real, v: seq<int>, stepType: StepType): real
  {
    applyFun(v)
  }

  /** The result is the function of the current window whatever the step type. */
  lemma ApplyStepIgnoresStepType(applyFun: seq<int> -> real, v: seq<int>, s: StepType, t: StepType)
    ensures ApplyStep(applyFun, v, s) == ApplyStep(applyFun, v, t) == applyFun(v)
  {
  }

  // ---------------------------------------------------------------------------
  // RollingSumOrMean: a running sum, O(1) per step

  datatype Aggregate = SumOf | MeanOf

  /** `_sum`, `_prev_last` and `_prev_win_length`. */
  datatype SumState = SumState(sum: int, prevLast: int, prevWinLength: nat)

  /** The state after RollingSumOrMean::step.  START sums the whole window; STEP and END
      add the new last element when the window did not shrink and subtract the old first
      element when it did not grow. */
  function SumStep(st: SumState, v: seq<int>, stepType: StepType): SumState
    requires |v| > 0
  {
    match stepType
    case Start => SumState(Sum(v), v[0], |v|)
    case _ =>
      var added := if |v| - st.prevWinLength >= 0 then st.sum + v[|v| - 1] else st.sum;
      var removed := if |v| - st.prevWinLength <= 0 then added - st.prevLast else added;
      SumState(removed, v[0], |v|)
  }

  /** What RollingSumOrMean::step returns for a window of `length` elements. */
  function SumOutput(aggregate: Aggregate, sum: int, length: nat): (r: real)
    requires length > 0
    ensures aggregate == MeanOf ==> r * length as real == sum as real
    ensures aggregate == SumOf ==> r == sum as real
  {
    if aggregate == MeanOf then sum as real / length as real else sum as real
  }

  /** `v` follows `w` in a contiguous scan: it grows at the back, slides by one, or drops
      the front. */
  predicate Successor(w: seq<int>, v: seq<int>)
  {
    || (|v| == |w| + 1 && v[..|w|] == w)
    || (|w| > 0 && |v| == |w| && v[..|v| - 1] == w[1..])
    || (|w| > 1 && v == w[1..])
  }

  /** The state describes window `w`: its sum, its first element and its length. */
  predicate Tracks(st: SumState, w: seq<int>)
  {
    |w| > 0 && st.sum == Sum(w) && st.prevLast == w[0] && st.prevWinLength == |w|
  }

  /** One incremental step keeps the running sum equal to the sum of the window. */
  lemma SumStepTracksSuccessor(st: SumState, w: seq<int>, v: seq<int>, stepType: StepType)
    requires Tracks(st, w) && Successor(w, v) && |v| > 0
    ensures Tracks(SumStep(st, v, stepType), v)
  {
    if stepType != Start {
      if |v| == |w| + 1 && v[..|w|] == w {
        assert v[..|v| - 1] == w;
      } else if |w| > 0 && |v| == |w| && v[..|v| - 1] == w[1..] {
        SumFront(w);
        assert v[..|v| - 1] == w[1..];
      } else {
        SumFront(w);
      }
    }
  }

  predicate ContiguousScan(ws: seq<seq<int>>)
  {
    && (forall k :: 0 <= k < |ws| ==> |ws[k]| > 0)
    && (forall k :: 0 < k < |ws| ==> Successor(ws[k - 1], ws[k]))
  }

  /** The states after stepping the windows of a scan in turn, the first one as START. */
  function SumScan(st: SumState, ws: seq<seq<int>>): (states: seq<SumState>)
    requires forall k :: 0 <= k < |ws| ==> |ws[k]| > 0
    ensures |states| == |ws|
  {
    if ws == [] then []
    else
      var before := SumScan(st, ws[..|ws| - 1]);
      var prev := if before == [] then st else before[|before| - 1];
      before + [SumStep(prev, ws[|ws| - 1], if before == [] then Start else Step)]
  }

  /** The incremental sum equals the naive sum of the current window at every step of a
      contiguous scan, whatever state the reducer started in. */
  lemma {:induction false} SumScanMatchesNaive(st: SumState, ws: seq<seq<int>>)
    requires ContiguousScan(ws)
    ensures forall k :: 0 <= k < |ws| ==> Tracks(SumScan(st, ws)[k], ws[k])
  {
    if ws != [] {
      var init := ws[..|ws| - 1];
      assert ContiguousScan(init);
      SumScanMatchesNaive(st, init);
      var before, states := SumScan(st, init), SumScan(st, ws);
      if before != [] {
        SumStepTracksSuccessor(before[|before| - 1], ws[|ws| - 2], ws[|ws| - 1], Step);
      }
      forall k | 0 <= k < |ws|
        ensures Tracks(states[k], ws[k])
      {
        if k < |init| {
          assert states[k] == before[k] && ws[k] == init[k];
        }
      }
    }
  }

  /** So the mean a scan reports is the naive mean of the current window. */
  lemma MeanOfTracked(st: SumState, w: seq<int>)
    requires Tracks(st, w)
    ensures SumOutput(MeanOf, st.sum, |w|) == Sum(w) as real / |w| as real
  {
  }

  /** RollingSumOrMean, with `_type` fixed at construction. */
  class RollingSumOrMean {
    const aggregate: Aggregate
    var sum: int
    var prevLast: int
    var prevWinLength: nat

    function State(): SumState
      reads this
    {
      SumState(sum, prevLast, prevWinLength)
    }

    constructor (aggregate: Aggregate)
      ensures this.aggregate == aggregate && State() == SumState(0, 0, 0)
    {
      this.aggregate := aggregate;
      sum, prevLast, prevWinLength := 0, 0, 0;
    }

    method Step(v: seq<int>, stepType: StepType) returns (r: real)
      requires |v| > 0
      modifies this
      ensures State() == SumStep(old(State()), v, stepType)
      ensures r == SumOutput(aggregate, sum, |v|)
    {
      match stepType {
        case Start =>
          sum := Sum(v);
          prevLast := v[0];
        case _ =>
          if |v| - prevWinLength >= 0 {
            sum := sum + v[|v| - 1];
          }
          if |v| - prevWinLength <= 0 {
            sum := sum - prevLast;
          }
          prevLast := v[0];
      }
      prevWinLength := |v|;
      r := if aggregate == MeanOf then sum as real / |v| as real else sum as real;
    }
  }

  // ---------------------------------------------------------------------------
  // RollingPriority: the least value of the window, kept in an ordered multiset

  predicate Ascending(s: seq<int>)
  {
    forall i, j :: 0 <= i < j < |s| ==> s[i] <= s[j]
  }

  /** Inserting one value into the ordered multiset. */
  function InsertOrdered(s: seq<int>, x: int): (r: seq<int>)
    requires Ascending(s)
    ensures Ascending(r) && multiset(r) == multiset(s) + multiset{x}
    ensures |r| > 0 && (r[0] == x || (|s| > 0 && r[0] == s[0]))
  {
    if s == [] || x <= s[0] then [x] + s
    else
      var rest := InsertOrdered(s[1..], x);
      assert s == [s[0]] + s[1..];
      assert s[0] <= rest[0];
      [s[0]] + rest
  }

  /** Inserting every value of `v`, as `_set.insert(v.begin(), v.end())`. */
  function InsertAll(s: seq<int>, v: seq<int>): (r: seq<int>)
    requires Ascending(s)
    ensures Ascending(r) && multiset(r) == multiset(s) + multiset(v)
    decreases |v|
  {
    if v == [] then s
    else
      assert v == [v[0]] + v[1..];
      InsertAll(InsertOrdered(s, v[0]), v[1..])
  }

  lemma AscendingTail(s: seq<int>)
    requires Ascending(s) && |s| > 0
    ensures Ascending(s[1..]) && (|s| > 1 ==> s[0] <= s[1])
  {
  }

  lemma AscendingCons(x: int, r: seq<int>)
    requires Ascending(r) && (|r| > 0 ==> x <= r[0])
    ensures Ascending([x] + r)
  {
    var s := [x] + r;
    forall i, j | 0 <= i < j < |s|
      ensures s[i] <= s[j]
    {
      if i > 0 {
        assert s[i] == r[i - 1] && s[j] == r[j - 1];
      } else if j > 1 {
        assert r[0] <= r[j - 1];
      }
    }
  }

  lemma MultisetCons(s: seq<int>)
    requires |s| > 0
    ensures multiset(s) == multiset{s[0]} + multiset(s[1..])
  {
    assert s == [s[0]] + s[1..];
  }

  /** Erasing by key, as `_set.erase(key)`: every element equal to `x` goes. */
  function EraseAll(s: seq<int>, x: int): (r: seq<int>)
    requires Ascending(s)
    ensures Ascending(r) && multiset(r) == multiset(s)[x := 0]
    ensures |r| > 0 ==> |s| > 0 && s[0] <= r[0]
  {
    if s == [] then []
    else
      AscendingTail(s);
      var rest := EraseAll(s[1..], x);
      EraseCons(s, x, rest);
      if s[0] == x then rest else [s[0]] + rest
  }

  /** Erasing from a non-empty sequence, given the erasure of its tail. */
  lemma EraseCons(s: seq<int>, x: int, rest: seq<int>)
    requires Ascending(s) && |s| > 0
    requires Ascending(rest) && multiset(rest) == multiset(s[1..])[x := 0]
    requires |rest| > 0 ==> |s| > 1 && s[1] <= rest[0]
    ensures s[0] == x ==> multiset(rest) == multiset(s)[x := 0] && (|rest| > 0 ==> s[0] <= rest[0])
    ensures s[0] != x ==> Ascending([s[0]] + rest) && multiset([s[0]] + rest) == multiset(s)[x := 0]
  {
    AscendingTail(s);
    MultisetCons(s);
    if s[0] != x {
      AscendingCons(s[0], rest);
      MultisetCons([s[0]] + rest);
      assert ([s[0]] + rest)[1..] == rest;
      EraseKeeps(multiset{s[0]}, multiset(s[1..]), x);
    } else {
      EraseKeeps(multiset{x}, multiset(s[1..]), x);
    }
  }

  /** Erasing a key from a union erases it from both parts. */
  lemma EraseKeeps(a: multiset<int>, b: multiset<int>, x: int)
    ensures (a + b)[x := 0] == a[x := 0] + b[x := 0]
  {
  }

  /** `_set` as an ascending sequence, and `_prev_last`. */
  datatype PriorityState = PriorityState(tracked: seq<int>, prevLast: int)

  /** The state after RollingPriority::step with capacity `windowLength`. */
  function PriorityStep(st: PriorityState, windowLength: nat, v: seq<int>, stepType: StepType): PriorityState
    requires Ascending(st.tracked) && |v| > 0
  {
    match stepType
    case Start => PriorityState(InsertAll(st.tracked, v), v[0])
    case _ =>
      var evicted :=
        if |st.tracked| == windowLength then PriorityState(EraseAll(st.tracked, st.prevLast), v[0])
        else st;
      PriorityState(InsertOrdered(evicted.tracked, v[|v| - 1]), evicted.prevLast)
  }

  /** START adds the whole window and remembers its first element.  STEP and END evict
      every copy of the remembered element and remember the new first element only when
      the multiset is at capacity; below capacity nothing leaves.  The last element of
      the window always enters. */
  lemma PriorityEvictionRule(st: PriorityState, windowLength: nat, v: seq<int>, stepType: StepType)
    requires Ascending(st.tracked) && |v| > 0
    ensures var next := PriorityStep(st, windowLength, v, stepType);
      && Ascending(next.tracked)
      && (stepType == Start ==>
            multiset(next.tracked) == multiset(st.tracked) + multiset(v) && next.prevLast == v[0])
      && (stepType != Start && |st.tracked| == windowLength ==>
            && multiset(next.tracked) == multiset(st.tracked)[st.prevLast := 0] + multiset{v[|v| - 1]}
            && next.prevLast == v[0])
      && (stepType != Start && |st.tracked| != windowLength ==>
            multiset(next.tracked) == multiset(st.tracked) + multiset{v[|v| - 1]}
            && next.prevLast == st.prevLast)
  {
  }

  /** What RollingPriority::step returns: the least tracked value, no larger than the
      window's last element once the step is not START. */
  lemma PriorityStepReturnsLeast(st: PriorityState, windowLength: nat, v: seq<int>, stepType: StepType)
    requires Ascending(st.tracked) && |v| > 0
    ensures var next := PriorityStep(st, windowLength, v, stepType);
      && |next.tracked| > 0
      && (forall x :: x in next.tracked ==> next.tracked[0] <= x)
      && (stepType != Start ==> next.tracked[0] <= v[|v| - 1])
      && (stepType == Start ==> forall x :: x in v ==> next.tracked[0] <= x)
  {
    var next := PriorityStep(st, windowLength, v, stepType);
    assert |multiset(next.tracked)| > 0 by {
      if stepType == Start {
        assert v[0] in multiset(v);
      } else {
        assert v[|v| - 1] in multiset(next.tracked);
      }
    }
    if stepType != Start {
      assert v[|v| - 1] in multiset(next.tracked);
    } else {
      forall x | x in v
        ensures next.tracked[0] <= x
      {
        assert x in multiset(next.tracked);
      }
    }
  }

  predicate Distinct(s: seq<int>)
  {
    forall i, j :: 0 <= i < j < |s| ==> s[i] != s[j]
  }

  /** The state holds exactly the window s[k..k+W], remembering s[k] as the next to leave. */
  predicate HoldsWindow(st: PriorityState, s: seq<int>, k: nat, windowLength: nat)
    requires 0 < windowLength && k + windowLength <= |s|
  {
    && Ascending(st.tracked)
    && multiset(st.tracked) == multiset(s[k..k + windowLength])
    && st.prevLast == s[k]
  }

  /** The least element of an ascending sequence holding the same values as `w` is the
      least element of `w`. */
  lemma FirstIsLeast(sorted: seq<int>, w: seq<int>)
    requires Ascending(sorted) && |w| > 0 && multiset(sorted) == multiset(w)
    ensures |sorted| > 0 && sorted[0] == Least(w)
  {
    assert |sorted| == |multiset(w)| == |w|;
    assert Least(w) in multiset(sorted);
    var i :| 0 <= i < |sorted| && sorted[i] == Least(w);
    assert sorted[0] <= Least(w);
    assert sorted[0] in multiset(w);
    assert sorted[0] in w;
  }

  /** START on the first window of a fresh reducer holds that window. */
  lemma PriorityStartHoldsWindow(s: seq<int>, windowLength: nat)
    requires 0 < windowLength <= |s|
    ensures HoldsWindow(PriorityStep(PriorityState([], 0), windowLength, s[..windowLength], Start), s, 0, windowLength)
  {
  }

  /** For windows of distinct values sliding by one, a STEP keeps the multiset equal to
      the window, so the reducer returns the window's least element. */
  lemma PrioritySlideHoldsWindow(st: PriorityState, s: seq<int>, k: nat, windowLength: nat)
    requires Distinct(s) && windowLength > 0 && k + windowLength < |s|
    requires HoldsWindow(st, s, k, windowLength)
    ensures var next := PriorityStep(st, windowLength, s[k + 1..k + 1 + windowLength], Step);
      && HoldsWindow(next, s, k + 1, windowLength)
      && next.tracked[0] == Least(s[k + 1..k + 1 + windowLength])
  {
    var w := s[k..k + windowLength];
    var v := s[k + 1..k + 1 + windowLength];
    var rest := s[k + 1..k + windowLength];
    assert |st.tracked| == |multiset(w)| == windowLength;
    assert w == [s[k]] + rest;
    assert v == rest + [s[k + windowLength]];
    assert s[k] !in rest by {
      forall i | 0 <= i < |rest|
        ensures rest[i] != s[k]
      {
        assert rest[i] == s[k + 1 + i];
      }
    }
    assert multiset(w)[s[k] := 0] == multiset(rest) by {
      assert multiset(w) == multiset{s[k]} + multiset(rest);
      assert multiset(rest)[s[k]] == 0;
    }
    var next := PriorityStep(st, windowLength, v, Step);
    assert multiset(next.tracked) == multiset(v);
    FirstIsLeast(next.tracked, v);
  }

  /** While the window grows at its back below capacity, a STEP evicts nothing: the
      multiset gains the new back, the remembered front stays, and the reducer returns
      the grown window's least element, repeated values or not. */
  lemma PriorityGrowHoldsWindow(st: PriorityState, s: seq<int>, k: nat, m: nat, windowLength: nat)
    requires 0 < m < windowLength && k + m < |s|
    requires Ascending(st.tracked) && multiset(st.tracked) == multiset(s[k..k + m])
    requires st.prevLast == s[k]
    ensures var next := PriorityStep(st, windowLength, s[k..k + m + 1], Step);
      && Ascending(next.tracked)
      && multiset(next.tracked) == multiset(s[k..k + m + 1])
      && next.prevLast == s[k]
      && next.tracked[0] == Least(s[k..k + m + 1])
  {
    var v := s[k..k + m + 1];
    assert |st.tracked| == |multiset(s[k..k + m])| == m;
    assert v == s[k..k + m] + [s[k + m]];
    var next := PriorityStep(st, windowLength, v, Step);
    assert multiset(next.tracked) == multiset(v);
    FirstIsLeast(next.tracked, v);
  }

  /** With a repeated value the multiset loses the minimum: the windows [1, 1] and then
      [1, 5] with capacity 2 return 5, while the least element of [1, 5] is 1. */
  lemma PriorityDuplicateLosesMinimum()
    ensures var first := PriorityStep(PriorityState([], 0), 2, [1, 1], Start);
      var second := PriorityStep(first, 2, [1, 5], Step);
      second.tracked == [5] && Least([1, 5]) == 1
  {
    assert InsertOrdered([], 1) == [1];
    assert InsertOrdered([1], 1) == [1, 1];
    assert InsertAll([], [1, 1]) == InsertAll([1], [1]) == InsertAll([1, 1], []) == [1, 1];
    assert EraseAll([1, 1], 1) == [];
  }

  /** RollingPriority: `_set`, `_prev_last` and the capacity `_windows_length`. */
  class RollingPriority {
    var tracked: seq<int>
    var prevLast: int
    var windowLength: nat

    ghost predicate Valid()
      reads this
    {
      Ascending(tracked)
    }

    function State(): PriorityState
      reads this
    {
      PriorityState(tracked, prevLast)
    }

    constructor ()
      ensures Valid() && tracked == [] && prevLast == 0 && windowLength == 0
    {
      tracked, prevLast, windowLength := [], 0, 0;
    }

    /** RollingPriority::init: the capacity is the window's length. */
    method Init(windowLength: nat)
      modifies this
      ensures this.windowLength == windowLength && State() == old(State())
    {
      this.windowLength := windowLength;
    }

    method Step(v: seq<int>, stepType: StepType) returns (r: int)
      requires Valid() && |v| > 0
      modifies this
      ensures Valid() && windowLength == old(windowLength)
      ensures State() == PriorityStep(old(State()), windowLength, v, stepType)
      ensures r in tracked && forall x :: x in tracked ==> r <= x
    {
      match stepType {
        case Start =>
          tracked := InsertAll(tracked, v);
          prevLast := v[0];
        case _ =>
          if |tracked| == windowLength {
            tracked := EraseAll(tracked, prevLast);
            prevLast := v[0];
          }
          tracked := InsertOrdered(tracked, v[|v| - 1]);
      }
      PriorityStepReturnsLeast(old(State()), windowLength, v, stepType);
      r := tracked[0];
    }
  }
}
