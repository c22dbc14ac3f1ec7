/**
 * Data sources and sinks.  A source is a finite, restartable producer with a cursor that
 * `reset` rewinds; a sink takes values one at a time.  Sources built over a column of
 * values are given here as in-memory sequences.
 */
module DataPorts {
  import opened Wrappers
  import opened FrameCodec

  /** A source over `items`: `next` hands out items[cursor] and moves on. */
  class Source<T> {
    const items: seq<T>
    var cursor: nat

    ghost predicate Valid()
      reads this
    {
      cursor <= |items|
    }

    /** Nothing is left to produce. */
    predicate Exhausted()
      reads this
    {
      cursor >= |items|
    }

    constructor (items: seq<T>)
      ensures Valid() && this.items == items && cursor == 0
    {
      this.items := items;
      cursor := 0;
    }

    /** Rewinds to the first value. */
    method Reset()
      modifies this
      ensures Valid() && cursor == 0
    {
      cursor := 0;
    }

    /** The next value, or None once the source is exhausted. */
    method Next() returns (r: Option<T>)
      requires Valid()
      modifies this
      ensures Valid()
      ensures old(cursor) < |items| ==> r == Some(items[old(cursor)]) && cursor == old(cursor) + 1
      ensures old(cursor) >= |items| ==> r == None && cursor == old(cursor)
    {
      if cursor < |items| {
        r := Some(items[cursor]);
        cursor := cursor + 1;
      } else {
        r := None;
      }
    }

    /** `getValues`: every value from the cursor on, in order; the source ends exhausted. */
    method GetValues() returns (values: seq<T>)
      requires Valid()
      modifies this
      ensures Valid() && Exhausted()
      ensures values == old(items[cursor..])
    {
      values := [];
      var next := Next();
      while next.Some?
        invariant Valid()
        invariant old(cursor) <= cursor
        invariant next.Some? ==> cursor > old(cursor) && next.value == items[cursor - 1]
        invariant next.Some? ==> values == items[old(cursor)..cursor - 1]
        invariant next.None? ==> Exhausted() && values == items[old(cursor)..cursor]
        decreases |items| - cursor, next.Some?
      {
        values := values + [next.value];
        next := Next();
      }
    }
  }

  /** A sink that records what it consumes.  `alive` is false once its last owner has
      released it; a pipe observes that without keeping the sink alive. */
  class Sink<T> {
    var received: seq<T>
    var alive: bool

    constructor ()
      ensures received == [] && alive
    {
      received, alive := [], true;
    }

    /** LambdaSignalFrameDataSink::consume: values arrive in call order. */
    method Consume(x: T)
      modifies this
      ensures received == old(received) + [x] && alive == old(alive)
    {
      received := received + [x];
    }

    /** The last owner drops its reference. */
    method Release()
      modifies this
      ensures !alive && received == old(received)
    {
      alive := false;
    }
  }

  /** SignalSource::generation_from_index(f, n): f(0), ..., f(n - 1). */
  function GenerateFromIndex<T>(f: nat -> T, n: nat): (values: seq<T>)
    ensures |values| == n && forall i :: 0 <= i < n ==> values[i] == f(i)
  {
    if n == 0 then [] else GenerateFromIndex(f, n - 1) + [f(n - 1)]
  }

  /** SignalSource::zeros(n). */
  function Zeros(n: nat): (values: seq<int>)
    ensures |values| == n && forall i :: 0 <= i < n ==> values[i] == 0
  {
    GenerateFromIndex(_ => 0, n)
  }

  /** The frames of EegFramesSource over a column: only full frames of EEG_FRAME_LENGTH
      values, frame k holding values 8k .. 8k+7.  The column gives no timestamp;
      every frame carries the placeholder 0. */
  function EegFrames(column: seq<int16>): (frames: seq<EegFrame>)
    ensures |frames| == |column| / 8
    ensures forall k :: 0 <= k < |frames| ==> frames[k].signal == column[8 * k..8 * k + 8]
  {
    if |column| < 8 then []
    else
      var rest := EegFrames(column[8..]);
      assert forall k :: 0 <= k < |rest| ==> column[8..][8 * k..8 * k + 8] == column[8 * (k + 1)..8 * (k + 1) + 8];
      [EegFrame(0, column[..8])] + rest
  }

  /** The frames of PatFramesSource over a column: one frame per value, carrying it as
      the IR reading; the other fields are zero. */
  function PatFrames(column: seq<int32>): (frames: seq<PatFrame>)
    ensures |frames| == |column|
    ensures forall k :: 0 <= k < |frames| ==> frames[k].irLed == column[k]
  {
    if column == [] then []
    else [PatFrame(0, column[0], [0, 0, 0, 0], AccelAxes(0, 0, 0), [0, 0])] + PatFrames(column[1..])
  }
}
