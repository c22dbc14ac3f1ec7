/**
 * The streaming pipeline unit tests as proved scenarios: the codec's byte vectors, the
 * framing of the sample columns, the vector sink, a single pipe, and the simulator runs.
 * The sample files are given by their columns (the values 0 .. 249 and 0 .. 499); the
 * default emission interval is a parameter bounded as each timing needs.
 */
module StreamingTests {
  import opened Wrappers
  import opened FrameCodec
  import opened DataPorts
  import opened StreamPipe
  import opened SimulatorSemantics
  import opened SignalSimulator
  import opened SimulatorScenarios

  /** The 20 bytes every codec test decodes. */
  const TEST_BYTES: seq<uint8> :=
    [0x01, 0x23, 0x45, 0x67, 0x89, 0xAB, 0xAB, 0x89, 0xCD, 0xEF,
     0xEF, 0xCD, 0x01, 0x23, 0x45, 0x67, 0x89, 0xAB, 0xAB, 0x89]

  // ---------------------------------------------------------------------------------
  // Codec vectors

  /** Big-endian EEG decoding of the test bytes. */
  lemma EegBigEndianVector()
    ensures EegFromBytes(TEST_BYTES, BigEndian)
         == Some(EegFrame(19088743, [-30293, -21623, -12817, -4147, 291, 17767, -30293, -21623]))
  {
    var f := EegFromBytes(TEST_BYTES, BigEndian).value;
    assert f.signal == [-30293, -21623, -12817, -4147, 291, 17767, -30293, -21623];
  }

  /** Little-endian EEG decoding of the same bytes: each field's own bytes read backwards. */
  lemma EegLittleEndianVector()
    ensures EegFromBytes(TEST_BYTES, LittleEndian)
         == Some(EegFrame(1732584193, [-21623, -30293, -4147, -12817, 8961, 26437, -21623, -30293]))
  {
    var f := EegFromBytes(TEST_BYTES, LittleEndian).value;
    assert f.signal == [-21623, -30293, -4147, -12817, 8961, 26437, -21623, -30293];
  }

  /** Big-endian PAT decoding of the test bytes. */
  lemma PatBigEndianVector()
    ensures var r := PatFromBytes(TEST_BYTES, BigEndian);
      && r.Some? && r.value.timestamp == 19088743 && r.value.irLed == -1985238135
      && r.value.accelAxes == AccelAxes(291, 17767, -30293)
      && r.value.temperature == [-85, -119]
  {
  }

  /** Little-endian PAT decoding: the IR span reads the same both ways and the
      single-byte temperatures do not depend on the order. */
  lemma PatLittleEndianVector()
    ensures var r := PatFromBytes(TEST_BYTES, LittleEndian);
      && r.Some? && r.value.timestamp == 1732584193 && r.value.irLed == -1985238135
      && r.value.accelAxes == AccelAxes(8961, 26437, -21623)
      && r.value.temperature == [-85, -119]
  {
  }

  /** Decoding in the default order and writing back gives the test bytes again. */
  lemma DefaultOrderRoundTrips()
    ensures EegToBytes(EegFromBytes(TEST_BYTES, DEFAULT_ORDER).value, DEFAULT_ORDER) == TEST_BYTES
    ensures PatToBytes(PatFromBytes(TEST_BYTES, DEFAULT_ORDER).value, DEFAULT_ORDER) == TEST_BYTES
  {
    EegDecodeEncode(TEST_BYTES, DEFAULT_ORDER);
    PatDecodeEncode(TEST_BYTES, DEFAULT_ORDER);
  }

  // ---------------------------------------------------------------------------------
  // Sources and sinks

  /** The first sample file's column, framed and read out: only full frames, frame k
      holding 8k .. 8k + 7. */
  method EegSourceOfSample1(column: seq<int16>) returns (frames: seq<EegFrame>)
    requires |column| == 250 && forall i :: 0 <= i < 250 ==> column[i] == i
    ensures |frames| == 31
    ensures forall k, j :: 0 <= k < 31 && 0 <= j < 8 ==> frames[k].signal[j] == 8 * k + j
  {
    var source := new Source(EegFrames(column));
    source.Reset();
    frames := source.GetValues();
    forall k, j | 0 <= k < 31 && 0 <= j < 8
      ensures frames[k].signal[j] == 8 * k + j
    {
      assert frames[k].signal == column[8 * k..8 * k + 8];
    }
  }

  /** The second sample file's column as PAT frames: one frame per value, 500 of them,
      frame i carrying i as its IR reading. */
  method PatSourceOfSample2(column: seq<int32>) returns (frames: seq<PatFrame>)
    requires |column| == 500 && forall i :: 0 <= i < 500 ==> column[i] == i
    ensures |frames| == 500 && forall i :: 0 <= i < 500 ==> frames[i].irLed == i
  {
    var source := new Source(PatFrames(column));
    frames := source.GetValues();
  }

  /** zeros(5), generation_from_index(i -> "0", 3) and the second sample file's column,
      each read out in order. */
  method GeneratedSources(column: seq<int>) returns (zeros: seq<int>, strings: seq<string>, values: seq<int>)
    requires |column| == 500 && forall i :: 0 <= i < 500 ==> column[i] == i
    ensures zeros == [0, 0, 0, 0, 0]
    ensures strings == ["0", "0", "0"]
    ensures |values| == 500 && forall i :: 0 <= i < 500 ==> values[i] == i
  {
    var zeroSource := new Source(Zeros(5));
    zeros := zeroSource.GetValues();
    var stringSource := new Source(GenerateFromIndex(_ => "0", 3));
    strings := stringSource.GetValues();
    var columnSource := new Source(column);
    values := columnSource.GetValues();
  }

  /** A vector sink fed 0 .. 4 holds them in call order. */
  method VectorSink() returns (received: seq<int>)
    ensures received == [0, 1, 2, 3, 4]
  {
    var sink := new Sink<int>();
    for i := 0 to 5
      invariant |sink.received| == i
      invariant forall j :: 0 <= j < i ==> sink.received[j] == j
    {
      sink.Consume(i);
    }
    received := sink.received;
  }

  // ---------------------------------------------------------------------------------
  // A single pipe

  /** A pipe over the first sample file passes its 31 frames one by one, frame i stamped
      i with its samples unchanged; it is then depleted, and broken once the sink's last
      owner lets it go. */
  method SimpleFrameStreamPipe(column: seq<int16>)
      returns (frames: seq<EegFrame>, received: seq<EegFrame>, depleted: bool, broken: bool)
    requires |column| == 250
    ensures |frames| == 31 && |received| == 31
    ensures forall i :: 0 <= i < 31 ==> received[i].timestamp == i && received[i].signal == frames[i].signal
    ensures depleted && broken
  {
    var source := new Source(EegFrames(column));
    frames := source.GetValues();
    source.Reset();
    var sink := new Sink<EegFrame>();
    var pipe := new Pipe(source, sink);
    for i := 0 to 250 / 8
      invariant source.Valid() && source.cursor == i && source.items == frames
      invariant sink.alive && |sink.received| == i
      invariant forall k :: 0 <= k < i ==> sink.received[k] == frames[k].(timestamp := k)
    {
      if 250 - i * 8 >= 8 {
        var passed := pipe.PassNextFrameWithTimestamp(i);
      }
    }
    depleted := pipe.IsDepleted();
    sink.Release();
    broken := pipe.IsBroken();
    received := sink.received;
  }

  // ---------------------------------------------------------------------------------
  // The simulator

  /** One pipe over the first sample file at the default interval, passed 1020 ms and
      then drained: by 1020 ms the sink holds the source's first frames in order, at
      least 15 when 15 intervals fit in 1020 ms, and after the drain all 31. */
  method SingleEegPipe(column: seq<int16>, interval: nat) returns (frames: seq<EegFrame>, timed: seq<EegFrame>, all: seq<EegFrame>)
    requires |column| == 250 && interval > 0 && 15 * interval <= 1020
    ensures |frames| == 31 && 15 <= |timed| <= 31 && timed == frames[..|timed|]
    ensures all == frames
  {
    var sim, sink;
    frames, sim, sink := SinglePipeSetUp(column, interval);
    SinglePipeScenario(frames, interval);
    timed := PassAndCollect(sim, sink, 1020, 1.0);
    all := PassAndCollect(sim, sink, 0, 0.0);
  }

  /** Two pipes over the two sample files into one sink at the default interval.  When 31
      intervals, and not 32, fit in 1985 ms, passing 1985 ms leaves 62 frames in the sink,
      the first pipe depleted and the second not; a drain then brings the sink to 93 and
      depletes the second pipe. */
  method TwoEegPipesSingleSink(column1: seq<int16>, column2: seq<int16>, interval: nat)
      returns (depleted1: bool, depleted2: bool, count: nat, depleted2After: bool, countAfter: nat)
    requires |column1| == 250 && |column2| == 500
    requires interval > 0 && 31 * interval <= 1985 < 32 * interval
    ensures depleted1 && !depleted2 && count == 62
    ensures depleted2After && countAfter == 93
  {
    var sim, pipe1, pipe2, sink := TwoSourcesSetUp(EegFrames(column1), EegFrames(column2), interval);
    TwoPipesOneSinkScenario(EegFrames(column1), EegFrames(column2), interval);
    depleted1, depleted2, count := PassAndRead(sim, pipe1, pipe2, sink, 1985);
    var depleted1After;
    depleted1After, depleted2After, countAfter := PassAndRead(sim, pipe1, pipe2, sink, 0);
  }

  /** Two pipes over one source, the first (counting) at half the default interval, the
      second (summing) at the whole one, drained: the first sink counts 21 frames, the
      second sums its samples to 10200, and both pipes are depleted. */
  method TwoEegPipesSingleSource(column: seq<int16>, interval: nat)
      returns (frameCount: nat, frameSum: int, depleted1: bool, depleted2: bool)
    requires |column| == 250 && forall i :: 0 <= i < 250 ==> column[i] == i
    requires interval >= 2 && interval % 2 == 0
    ensures frameCount == 21 && frameSum == 10200
    ensures depleted1 && depleted2
  {
    var half := interval / 2;
    var sim, pipe1, pipe2 := SharedSourceSetUp(EegFrames(column), half);
    SharedSourceScenario(EegFrames(column), half);
    SharedSourceSum(column);
    var received;
    received, depleted1, depleted2 := DrainShared(sim, pipe1, pipe2);
    frameCount := |received|;
    frameSum := SamplesSum(pipe2.sink.received);
  }

  /** The single-pipe set-up: the frames of the first sample file, read once and rewound,
      and a simulator with one pipe from them into a fresh sink. */
  method SinglePipeSetUp(column: seq<int16>, interval: nat)
      returns (frames: seq<EegFrame>, sim: Simulator, sink: Sink<EegFrame>)
    requires |column| == 250 && interval > 0
    ensures fresh(sim) && fresh(sink) && sim.sinks == [sink] && |sim.sources| == 1 && fresh(sim.sources[0])
    ensures frames == EegFrames(column)
    ensures sim.Valid() && sim.model == SingleWorld(frames, interval)
  {
    var source := new Source(EegFrames(column));
    frames := source.GetValues();
    source.Reset();
    sink := new Sink<EegFrame>();
    var pipe := new Pipe(source, sink);
    sim := new Simulator();
    RegisterFirst(sim, pipe, interval);
  }

  /** The two-source set-up: a simulator with a pipe from each of two fresh sources into
      one fresh sink. */
  method TwoSourcesSetUp(frames1: seq<EegFrame>, frames2: seq<EegFrame>, interval: nat)
      returns (sim: Simulator, pipe1: Pipe, pipe2: Pipe, sink: Sink<EegFrame>)
    requires interval > 0
    ensures fresh(sim) && fresh(pipe1.source) && fresh(pipe2.source) && fresh(sink)
    ensures sim.Valid() && sim.model == TwoFeedWorld(frames1, frames2, interval)
    ensures sim.sources == [pipe1.source, pipe2.source] && sim.sinks == [sink]
  {
    var source1 := new Source(frames1);
    var source2 := new Source(frames2);
    sink := new Sink<EegFrame>();
    pipe1 := new Pipe(source1, sink);
    pipe2 := new Pipe(source2, sink);
    sim := new Simulator();
    RegisterFirst(sim, pipe1, interval);
    RegisterOnNewSource(sim, pipe2, interval, Slot(0, 0, interval, interval));
  }

  /** The shared-source set-up: a simulator with two pipes from one fresh source, the
      first into a fresh counting sink every `half` ms, the second into a fresh summing
      sink every 2 * half ms. */
  method SharedSourceSetUp(frames: seq<EegFrame>, half: nat) returns (sim: Simulator, pipe1: Pipe, pipe2: Pipe)
    requires half > 0
    ensures fresh(sim) && fresh(pipe1.source) && fresh(pipe1.sink) && fresh(pipe2.sink)
    ensures sim.Valid() && sim.sources == [pipe1.source] && pipe2.source == pipe1.source
    ensures sim.sinks == [pipe1.sink, pipe2.sink]
    ensures sim.model == SharedWorld(frames, half)
  {
    var source := new Source(frames);
    var counting := new Sink<EegFrame>();
    var summing := new Sink<EegFrame>();
    pipe1 := new Pipe(source, counting);
    pipe2 := new Pipe(source, summing);
    sim := new Simulator();
    RegisterFirst(sim, pipe1, half);
    RegisterOnNewSink(sim, pipe2, 2 * half, Slot(0, 0, half, half));
  }

  /** Registers the first pipe of a simulator: its source and sink become the first ones
      and its slot is first due one interval from the start. */
  method RegisterFirst(sim: Simulator, pipe: Pipe, interval: nat)
    requires interval > 0 && pipe.source.Valid()
    requires sim.Valid() && sim.sources == [] && sim.sinks == [] && sim.now == 0
    requires sim.model == World(0, [], [], [], [], [])
    modifies sim
    ensures sim.Valid() && sim.sources == [pipe.source] && sim.sinks == [pipe.sink] && sim.now == 0
    ensures sim.model == World(0, [pipe.source.items], [pipe.source.cursor], [pipe.sink.received],
                               [pipe.sink.alive], [Slot(0, 0, interval, interval)])
  {
    sim.AddStreamingPipe(pipe, interval);
  }

  /** Registers a second pipe from a new source into the sink the first pipe feeds. */
  method RegisterOnNewSource(sim: Simulator, pipe: Pipe, interval: nat, ghost first: Slot)
    requires interval > 0 && pipe.source.Valid()
    requires sim.Valid() && |sim.sources| == 1 && sim.sinks == [pipe.sink] && sim.now == 0
    requires sim.sources[0] != pipe.source
    requires sim.model == World(0, [sim.sources[0].items], [sim.sources[0].cursor], [pipe.sink.received],
                                [pipe.sink.alive], [first])
    modifies sim
    ensures sim.Valid() && sim.sources == old(sim.sources) + [pipe.source] && sim.sinks == [pipe.sink]
    ensures sim.model == World(0, [sim.sources[0].items, pipe.source.items], [sim.sources[0].cursor, pipe.source.cursor],
                               [pipe.sink.received], [pipe.sink.alive], [first, Slot(1, 0, interval, interval)])
  {
    sim.AddStreamingPipe(pipe, interval);
  }

  /** Registers a second pipe from the source the first pipe reads into a new sink. */
  method RegisterOnNewSink(sim: Simulator, pipe: Pipe, interval: nat, ghost first: Slot)
    requires interval > 0 && pipe.source.Valid()
    requires sim.Valid() && sim.sources == [pipe.source] && |sim.sinks| == 1 && sim.now == 0
    requires sim.sinks[0] != pipe.sink
    requires sim.model == World(0, [pipe.source.items], [pipe.source.cursor], [sim.sinks[0].received],
                                [sim.sinks[0].alive], [first])
    modifies sim
    ensures sim.Valid() && sim.sources == [pipe.source] && sim.sinks == old(sim.sinks) + [pipe.sink]
    ensures sim.model == World(0, [pipe.source.items], [pipe.source.cursor], [sim.sinks[0].received, pipe.sink.received],
                               [sim.sinks[0].alive, pipe.sink.alive], [first, Slot(0, 1, interval, interval)])
  {
    sim.AddStreamingPipe(pipe, interval);
  }

  /** Passes time on a simulator whose one sink is `sink`; returns what the sink holds. */
  method PassAndCollect(sim: Simulator, sink: Sink<EegFrame>, duration: nat, realTimeFactor: real)
      returns (received: seq<EegFrame>)
    requires sim.Valid() && sim.sinks == [sink]
    modifies sim, sim.sources, sink
    ensures sim.Valid() && sim.sources == old(sim.sources) && sim.sinks == old(sim.sinks)
    ensures sim.model == SimulatorSemantics.PassTime(old(sim.model), duration, realTimeFactor)
    ensures received == sim.model.outputs[0]
  {
    sim.PassTime(duration, realTimeFactor);
    received := sink.received;
  }

  /** Passes time on a simulator of two pipes from two sources into one sink; returns
      whether each pipe is depleted and how many frames the sink holds. */
  method PassAndRead(sim: Simulator, pipe1: Pipe, pipe2: Pipe, sink: Sink<EegFrame>, duration: nat)
      returns (depleted1: bool, depleted2: bool, count: nat)
    requires sim.Valid() && sim.sources == [pipe1.source, pipe2.source] && sim.sinks == [sink]
    modifies sim, pipe1.source, pipe2.source, sink
    ensures sim.Valid() && sim.sources == old(sim.sources) && sim.sinks == old(sim.sinks)
    ensures sim.model == SimulatorSemantics.PassTime(old(sim.model), duration, 0.0)
    ensures depleted1 <==> sim.model.cursors[0] >= |sim.model.feeds[0]|
    ensures depleted2 <==> sim.model.cursors[1] >= |sim.model.feeds[1]|
    ensures count == |sim.model.outputs[0]|
  {
    sim.PassTime(duration, 0.0);
    depleted1 := pipe1.IsDepleted();
    depleted2 := pipe2.IsDepleted();
    count := |sink.received|;
  }

  /** Drains a simulator of two pipes from one source into two sinks; returns what the
      first sink holds and whether each pipe is depleted. */
  method DrainShared(sim: Simulator, pipe1: Pipe, pipe2: Pipe)
      returns (received: seq<EegFrame>, depleted1: bool, depleted2: bool)
    requires sim.Valid() && sim.sources == [pipe1.source] && pipe2.source == pipe1.source
    requires sim.sinks == [pipe1.sink, pipe2.sink]
    modifies sim, pipe1.source, pipe1.sink, pipe2.sink
    ensures sim.Valid() && sim.sources == old(sim.sources) && sim.sinks == old(sim.sinks)
    ensures sim.model == SimulatorSemantics.PassTime(old(sim.model), 0, 0.0)
    ensures received == sim.model.outputs[0] && pipe2.sink.received == sim.model.outputs[1]
    ensures depleted1 == depleted2 == (sim.model.cursors[0] >= |sim.model.feeds[0]|)
  {
    sim.PassTime(0, 0.0);
    received := pipe1.sink.received;
    depleted1 := pipe1.IsDepleted();
    depleted2 := pipe2.IsDepleted();
  }
}
