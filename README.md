# NeuroonOpenCore streaming core in Dafny

This project models the streaming pipeline of the Neuroon mask's algorithm core, along with the small pieces of signal bookkeeping around it.

- **Frame codec.** Fixed 20-byte sensor frames:
  - `EegFrame`: a timestamp and eight signed 16-bit samples.
  - `PatFrame`: a timestamp, a 32-bit IR reading, four reserved bytes, three accelerometer axes and two temperature bytes.
  - Frames are read in either byte order and written in the default order, which the model generalises to both (`frame_codec.dfy`).
- **Data sources and sinks.**
  - A source is a restartable producer with a cursor: EEG frames cut from a column of values, PAT frames, `zeros` and `generation_from_index`.
  - A sink records what it consumes and can be released by its last owner (`data_ports.dfy`).
- **FrameStreamPipe.** Moves one frame per step from a source to a sink. It reports `isDepleted` when its source is exhausted and `isBroken` when its sink has been released (`frame_stream_pipe.dfy`).
- **SignalSimulator.** A virtual clock with registered pipes, each with its own interval and next due time.
  - `pass_time(d)` steps every due pipe, earliest first, with ties going to the pipe registered first, and then moves the clock on.
  - `pass_time(0, 0)` drains: it steps the active pipes in the same order until none is left, and the clock stays where it was.
  - `simulator_semantics.dfy` states this on values: a `World` of feeds, cursors, sink contents and slots.
  - `signal_simulator.dfy` is the class. Its methods are proved to change the sources, sinks and due times exactly as the value semantics says.
- **The unit-test scenarios** (`simulator_scenarios.dfy`, `streaming_tests.dfy`): the codec vectors, source framing, the vector sink, a single pipe, and the three simulator runs. Each is a method or lemma whose postcondition is the test's expectation.
- **Rolling-window reducers** (`rolling_algorithms.dfy`):
  - `RollingApply` applies a function to the window.
  - `RollingPriority` keeps the window in an ordered multiset and returns its least element.
  - `RollingSumOrMean` keeps an O(1) running sum.
- **`SignalSpec` and `SignalOrigin`** (`signal_types.dfy`), and **`SleepStagingResult`** together with the window constants of online staging (`online_staging.dfy`).

The default emission interval of EEG frames is not fixed anywhere in the model. Each simulator scenario takes it as a parameter and states only the bounds its timing needs. For example, the two-pipe run needs 31 intervals, but not 32, to fit into 1985 ms.

## Model

| member | source | states |
|---|---|---|
| FrameCodec.EegFromBytes | test/unit/streaming_pipeline_and_csvsimulator_tests.cpp:59-68 | a frame is decoded exactly when at least 20 bytes are given |
| FrameCodec.PatFromBytes | test/unit/streaming_pipeline_and_csvsimulator_tests.cpp:70-78 | a frame is decoded exactly when at least 20 bytes are given |
| FrameCodec.EegToBytes | test/unit/streaming_pipeline_and_csvsimulator_tests.cpp:104-108 | to_bytes writes exactly 20 bytes |
| FrameCodec.PatToBytes | test/unit/streaming_pipeline_and_csvsimulator_tests.cpp:109-112 | to_bytes writes exactly 20 bytes |
| FrameCodec.Unsigned16 | test/unit/streaming_pipeline_and_csvsimulator_tests.cpp:63-67 | the 16-bit pattern whose two's complement reading is the sample |
| FrameCodec.Unsigned32 | test/unit/streaming_pipeline_and_csvsimulator_tests.cpp:73 | the 32-bit pattern whose two's complement reading is the IR value |
| FrameCodec.Unsigned8 | test/unit/streaming_pipeline_and_csvsimulator_tests.cpp:77-78 | the byte whose signed reading is the temperature |
| FrameCodec.SignedInverse16 | test/unit/streaming_pipeline_and_csvsimulator_tests.cpp:100-108 | reading a 16-bit pattern as signed and writing it back gives the pattern |
| FrameCodec.SignedInverse32 | test/unit/streaming_pipeline_and_csvsimulator_tests.cpp:109-112 | the same for 32-bit patterns |
| FrameCodec.Word16Bytes | test/unit/streaming_pipeline_and_csvsimulator_tests.cpp:104-108 | two bytes that read back as the value in the same order |
| FrameCodec.Word32Bytes | test/unit/streaming_pipeline_and_csvsimulator_tests.cpp:104-108 | four bytes that read back as the value in the same order |
| FrameCodec.Word16BytesOfRead | test/unit/streaming_pipeline_and_csvsimulator_tests.cpp:100-112 | writing back a 16-bit field that was read reproduces its bytes |
| FrameCodec.Word32BytesOfRead | test/unit/streaming_pipeline_and_csvsimulator_tests.cpp:100-112 | writing back a 32-bit field that was read reproduces its bytes |
| FrameCodec.EegEncodeDecode | test/unit/streaming_pipeline_and_csvsimulator_tests.cpp:100-108 | decoding what to_bytes wrote gives back the same EEG frame, in either order |
| FrameCodec.EegTimestampRoundTrip | test/unit/streaming_pipeline_and_csvsimulator_tests.cpp:100-108 | the timestamp survives to_bytes and reading |
| FrameCodec.EegSampleRoundTrip | test/unit/streaming_pipeline_and_csvsimulator_tests.cpp:100-108 | each sample survives to_bytes and reading |
| FrameCodec.EegDecodeEncode | test/unit/streaming_pipeline_and_csvsimulator_tests.cpp:100-108 | any 20 bytes decoded as EEG and written back are reproduced, in either order |
| FrameCodec.PatToBytesFields | test/unit/streaming_pipeline_and_csvsimulator_tests.cpp:70-78 | where to_bytes puts each PAT field: timestamp 0-3, IR 4-7, reserved 8-11, axes 12-17, temperatures 18-19 |
| FrameCodec.PatEncodeDecode | test/unit/streaming_pipeline_and_csvsimulator_tests.cpp:109-112 | decoding what to_bytes wrote gives back the same PAT frame, in either order |
| FrameCodec.PatDecodeEncode | test/unit/streaming_pipeline_and_csvsimulator_tests.cpp:109-112 | any 20 bytes decoded as PAT (reserved bytes included) and written back are reproduced |
| FrameCodec.EegLittleEndianIsFieldwiseReversal | test/unit/streaming_pipeline_and_csvsimulator_tests.cpp:80-88 | little-endian EEG decoding is big-endian decoding with each field's own bytes reversed; no field moves |
| FrameCodec.PatLittleEndianIsFieldwiseReversal | test/unit/streaming_pipeline_and_csvsimulator_tests.cpp:90-98 | the same for PAT; the reserved bytes and the single-byte temperatures are unaffected |
| StreamingTests.EegBigEndianVector | test/unit/streaming_pipeline_and_csvsimulator_tests.cpp:59-68 | the test bytes decode to timestamp 19088743 and the eight listed samples |
| StreamingTests.PatBigEndianVector | test/unit/streaming_pipeline_and_csvsimulator_tests.cpp:70-78 | the test bytes decode to the listed timestamp, IR reading, axes and temperatures |
| StreamingTests.EegLittleEndianVector | test/unit/streaming_pipeline_and_csvsimulator_tests.cpp:80-88 | little-endian decoding gives 1732584193 and the eight listed samples |
| StreamingTests.PatLittleEndianVector | test/unit/streaming_pipeline_and_csvsimulator_tests.cpp:90-98 | little-endian PAT decoding gives the listed fields; IR and temperatures equal the big-endian ones |
| StreamingTests.DefaultOrderRoundTrips | test/unit/streaming_pipeline_and_csvsimulator_tests.cpp:100-112 | decoding the test bytes in the default order and writing them back gives all 20 bytes, EEG and PAT |
| DataPorts.Source.constructor | test/unit/streaming_pipeline_and_csvsimulator_tests.cpp:40-47 | a new source holds the given values with its cursor at the first |
| DataPorts.Source.Reset | test/unit/streaming_pipeline_and_csvsimulator_tests.cpp:117 | reset rewinds the cursor to the first value |
| DataPorts.Source.Next | test/unit/streaming_pipeline_and_csvsimulator_tests.cpp:198 | the next value and an advanced cursor, or nothing once exhausted |
| DataPorts.Source.GetValues | test/unit/streaming_pipeline_and_csvsimulator_tests.cpp:118 | every value from the cursor on, in order, leaving the source exhausted |
| DataPorts.Sink.constructor | test/unit/streaming_pipeline_and_csvsimulator_tests.cpp:172-173 | a new sink has received nothing and is alive |
| DataPorts.Sink.Consume | test/unit/streaming_pipeline_and_csvsimulator_tests.cpp:174-176 | consume appends the value; liveness is unchanged |
| DataPorts.Sink.Release | test/unit/streaming_pipeline_and_csvsimulator_tests.cpp:210 | releasing the last owner leaves the sink dead, its contents unchanged |
| DataPorts.GenerateFromIndex | test/unit/streaming_pipeline_and_csvsimulator_tests.cpp:155-159 | n values, value i being f(i) |
| DataPorts.Zeros | test/unit/streaming_pipeline_and_csvsimulator_tests.cpp:149-153 | n zeros |
| DataPorts.EegFrames | test/unit/streaming_pipeline_and_csvsimulator_tests.cpp:123-129 | only full frames (\|column\| / 8 of them); frame k holds values 8k .. 8k+7 |
| DataPorts.PatFrames | test/unit/streaming_pipeline_and_csvsimulator_tests.cpp:139-145 | one PAT frame per value, carrying it as the IR reading |
| StreamingTests.EegSourceOfSample1 | test/unit/streaming_pipeline_and_csvsimulator_tests.cpp:115-130 | the first sample file yields 31 frames, frame k holding 8k .. 8k+7 |
| StreamingTests.PatSourceOfSample2 | test/unit/streaming_pipeline_and_csvsimulator_tests.cpp:132-146 | the second sample file yields 500 PAT frames, frame i with IR reading i |
| StreamingTests.GeneratedSources | test/unit/streaming_pipeline_and_csvsimulator_tests.cpp:148-168 | zeros(5), generation_from_index(i -> "0", 3) and the 0 .. 499 column read out in order |
| StreamingTests.VectorSink | test/unit/streaming_pipeline_and_csvsimulator_tests.cpp:170-180 | a vector sink fed 0 .. 4 holds [0, 1, 2, 3, 4] |
| StreamPipe.Pipe.constructor | test/unit/streaming_pipeline_and_csvsimulator_tests.cpp:193 | the pipe joins the given source and sink |
| StreamPipe.Pipe.PassNextFrame | test/unit/streaming_pipeline_and_csvsimulator_tests.cpp:303-312 | a step passes exactly when the pipe is neither broken nor depleted; then one frame moves unchanged and the cursor advances, otherwise nothing changes |
| StreamPipe.Pipe.PassNextFrameWithTimestamp | test/unit/streaming_pipeline_and_csvsimulator_tests.cpp:195-205 | as PassNextFrame, with the frame that reaches the sink stamped t and its samples unchanged |
| StreamingTests.SimpleFrameStreamPipe | test/unit/streaming_pipeline_and_csvsimulator_tests.cpp:182-212 | 31 frames pass, frame i stamped i with the source's samples; the pipe is then depleted, and broken once the sink is released |
| SimulatorSemantics.Fire | test/unit/streaming_pipeline_and_csvsimulator_tests.cpp:303-312 | stepping a pipe moves its source's next frame to its sink iff the pipe is active; its next due time moves on by its interval; every other pipe is unchanged |
| SimulatorSemantics.EarliestAmong | test/unit/streaming_pipeline_and_csvsimulator_tests.cpp:344-350 | the next pipe is eligible and comes first in (due, registration) order; none means no pipe is eligible |
| SimulatorSemantics.EarliestIsFirstDue | test/unit/streaming_pipeline_and_csvsimulator_tests.cpp:297-305 | the earliest pipe of all is due no later than any other |
| SimulatorSemantics.NextDue | test/unit/streaming_pipeline_and_csvsimulator_tests.cpp:303-305 | the pipe stepped next is due by the target and first in order; none means nothing is due |
| SimulatorSemantics.Advance | test/unit/streaming_pipeline_and_csvsimulator_tests.cpp:238 | a timed pass keeps sources, sinks and pipes in place and sets the clock to the target |
| SimulatorSemantics.Drain | test/unit/streaming_pipeline_and_csvsimulator_tests.cpp:262 | a drain keeps sources, sinks and pipes in place and leaves the clock alone |
| SimulatorSemantics.DrainStep | test/unit/streaming_pipeline_and_csvsimulator_tests.cpp:350 | a drain goes on from the step of the earliest active pipe |
| SimulatorSemantics.AdvanceStep | test/unit/streaming_pipeline_and_csvsimulator_tests.cpp:305 | a timed pass goes on from the step of the earliest due pipe |
| SimulatorSemantics.AdvanceMeasure | test/unit/streaming_pipeline_and_csvsimulator_tests.cpp:305 | stepping a due pipe lowers the backlog, so a timed pass ends |
| SimulatorSemantics.FiresIsLeast | test/unit/streaming_pipeline_and_csvsimulator_tests.cpp:303-309 | the count of steps due by the target is exact: one more would be past it, one fewer would not |
| SimulatorSemantics.AdvanceLeavesNothingDue | test/unit/streaming_pipeline_and_csvsimulator_tests.cpp:238 | after a timed pass no pipe is due at or before the new clock |
| SimulatorSemantics.AdvanceCadence | test/unit/streaming_pipeline_and_csvsimulator_tests.cpp:303-309 | a timed pass steps every pipe once per interval due in the span, including broken and depleted ones, so each keeps its cadence |
| SimulatorSemantics.CadenceAfterFire | test/unit/streaming_pipeline_and_csvsimulator_tests.cpp:303-309 | stepping a due pipe does not change any pipe's catch-up time |
| SimulatorSemantics.AdvanceSplit | test/unit/streaming_pipeline_and_csvsimulator_tests.cpp:238 | passing t1 and then up to t2 is the same as passing up to t2 at once |
| SimulatorSemantics.NextDueLater | test/unit/streaming_pipeline_and_csvsimulator_tests.cpp:238 | a pipe due by t1 is stepped first on the way to any later target |
| SimulatorSemantics.AdvanceIgnoresClock | test/unit/streaming_pipeline_and_csvsimulator_tests.cpp:238 | which pipes a timed pass steps does not depend on the clock reading |
| SimulatorSemantics.DrainLeavesNothingActive | test/unit/streaming_pipeline_and_csvsimulator_tests.cpp:310-312 | after a drain every pipe is broken or depleted |
| SimulatorSemantics.FireKeepsBalance | test/unit/streaming_pipeline_and_csvsimulator_tests.cpp:309 | with sources of their own, a sink grows exactly by the frames taken from its pipes' sources |
| SimulatorSemantics.AdvanceKeepsBalance | test/unit/streaming_pipeline_and_csvsimulator_tests.cpp:303-309 | the same across a timed pass |
| SimulatorSemantics.DrainKeepsBalance | test/unit/streaming_pipeline_and_csvsimulator_tests.cpp:310-312 | the same across a drain |
| SimulatorSemantics.FireKeepsOrder | test/unit/streaming_pipeline_and_csvsimulator_tests.cpp:249-273 | with one pipe per source and sink, each sink holds exactly the frames taken so far, in order and unchanged |
| SimulatorSemantics.AdvanceKeepsOrder | test/unit/streaming_pipeline_and_csvsimulator_tests.cpp:249-259 | the same across a timed pass |
| SimulatorSemantics.DrainKeepsOrder | test/unit/streaming_pipeline_and_csvsimulator_tests.cpp:262-273 | the same across a drain |
| SimulatorSemantics.AdvanceTakes | test/unit/streaming_pipeline_and_csvsimulator_tests.cpp:303-309 | a pipe with its own source and a live sink takes one frame per step due, while frames remain; with a dead sink it takes none |
| SimulatorSemantics.TakesAfterFire | test/unit/streaming_pipeline_and_csvsimulator_tests.cpp:303-309 | stepping another due pipe first does not change what a pipe takes |
| SignalSimulator.Simulator.constructor | test/unit/streaming_pipeline_and_csvsimulator_tests.cpp:232 | a new simulator has no pipes and its clock at 0 |
| SignalSimulator.Simulator.AddStreamingPipe | test/unit/streaming_pipeline_and_csvsimulator_tests.cpp:233-234 | the pipe is appended, first due one interval from now; its source and sink join the known ones unless already known |
| SignalSimulator.Simulator.ActiveIsLive | test/unit/streaming_pipeline_and_csvsimulator_tests.cpp:306-307 | a pipe is active in the model iff it is neither broken nor depleted |
| SignalSimulator.Simulator.Earliest | test/unit/streaming_pipeline_and_csvsimulator_tests.cpp:344-350 | the loop over the pipes finds the model's earliest pipe, among all or only the active ones |
| SignalSimulator.Simulator.FireSlot | test/unit/streaming_pipeline_and_csvsimulator_tests.cpp:303-312 | stepping a pipe changes sources, sinks and due times as Fire says |
| SignalSimulator.Simulator.PassTime | test/unit/streaming_pipeline_and_csvsimulator_tests.cpp:238 | pass_time changes the objects exactly as the value semantics' PassTime says |
| SignalSimulator.Simulator.DrainAll | test/unit/streaming_pipeline_and_csvsimulator_tests.cpp:262 | the drain loop ends in Drain of the old state |
| SignalSimulator.Simulator.StepEarliestActive | test/unit/streaming_pipeline_and_csvsimulator_tests.cpp:350 | one drain step: the same final drain, and fewer frames left when a pipe was stepped |
| SignalSimulator.Simulator.AdvanceTo | test/unit/streaming_pipeline_and_csvsimulator_tests.cpp:238 | the timed loop ends in Advance of the old state to the target |
| SignalSimulator.Simulator.StepEarliestDue | test/unit/streaming_pipeline_and_csvsimulator_tests.cpp:305 | one timed step: the same final state, with a lower backlog when a pipe was stepped |
| SimulatorScenarios.SingleWorld | test/unit/streaming_pipeline_and_csvsimulator_tests.cpp:225-234 | one pipe over one source into one sink is a well-formed world |
| SimulatorScenarios.SinglePipeScenario | test/unit/streaming_pipeline_and_csvsimulator_tests.cpp:214-279 | after 1020 ms the sink holds the source's first frames in order, at least 15 when 15 intervals fit; after the drain it holds all of them |
| SimulatorScenarios.EarliestOfTwo | test/unit/streaming_pipeline_and_csvsimulator_tests.cpp:297-301 | with two pipes, the earlier due one goes next, the first registered on a tie |
| SimulatorScenarios.TwoFeedWorld | test/unit/streaming_pipeline_and_csvsimulator_tests.cpp:289-301 | two pipes from two sources into one sink form a well-formed world in which no source is shared |
| SimulatorScenarios.IntakeOfTwo | test/unit/streaming_pipeline_and_csvsimulator_tests.cpp:309 | what the shared sink has taken is the sum of both cursors |
| SimulatorScenarios.TwoPipesTimed | test/unit/streaming_pipeline_and_csvsimulator_tests.cpp:303-309 | passing 1985 ms takes 31 frames from each source and puts 62 in the sink |
| SimulatorScenarios.TwoPipesDrained | test/unit/streaming_pipeline_and_csvsimulator_tests.cpp:310-312 | the drain then empties the second source and brings the sink to 93 |
| SimulatorScenarios.TwoPipesOneSinkScenario | test/unit/streaming_pipeline_and_csvsimulator_tests.cpp:281-313 | the whole two-pipe run: cursors [31, 31] and 62 frames, then [31, 62] and 93 frames |
| SimulatorScenarios.HalfShare | test/unit/streaming_pipeline_and_csvsimulator_tests.cpp:345-346 | the half-interval pipe takes two frames per round |
| SimulatorScenarios.WholeShare | test/unit/streaming_pipeline_and_csvsimulator_tests.cpp:347-348 | the whole-interval pipe takes one frame per round |
| SimulatorScenarios.WholeShareFrames | test/unit/streaming_pipeline_and_csvsimulator_tests.cpp:327-333 | the whole-interval pipe's m-th frame is the source's frame 3m + 2 |
| SimulatorScenarios.ShareRound | test/unit/streaming_pipeline_and_csvsimulator_tests.cpp:344-350 | one round of the drain: the half pipe, the whole pipe and then the half pipe again, in virtual-time and registration order |
| SimulatorScenarios.ShareFrom | test/unit/streaming_pipeline_and_csvsimulator_tests.cpp:350 | from any round on, the drain ends with the source empty and the frames split as SharedOutputs says |
| SimulatorScenarios.SharedSourceScenario | test/unit/streaming_pipeline_and_csvsimulator_tests.cpp:315-356 | the drain empties the shared source; the half-interval sink gets 21 frames and the other gets frames 2, 5, ..., 29 |
| SimulatorScenarios.SampleFrameSum | test/unit/streaming_pipeline_and_csvsimulator_tests.cpp:22 | frame k of the column 0 .. 249 sums to 64k + 28 |
| SimulatorScenarios.WholeShareSum | test/unit/streaming_pipeline_and_csvsimulator_tests.cpp:329-333 | the whole-interval pipe's first r frames sum to 96r(r-1) + 156r |
| SimulatorScenarios.SharedSourceSum | test/unit/streaming_pipeline_and_csvsimulator_tests.cpp:353 | the summing sink's samples add up to 10200 |
| StreamingTests.SingleEegPipe | test/unit/streaming_pipeline_and_csvsimulator_tests.cpp:214-279 | through the simulator object: after 1020 ms the sink holds at least 15 frames, in order; after the drain it holds all 31 |
| StreamingTests.TwoEegPipesSingleSink | test/unit/streaming_pipeline_and_csvsimulator_tests.cpp:281-313 | through the simulator object: pipe 1 depleted, pipe 2 not and 62 frames; then pipe 2 depleted and 93 frames |
| StreamingTests.TwoEegPipesSingleSource | test/unit/streaming_pipeline_and_csvsimulator_tests.cpp:315-356 | through the simulator object: 21 frames counted, samples summing to 10200, both pipes depleted |
| StreamingTests.SinglePipeSetUp | test/unit/streaming_pipeline_and_csvsimulator_tests.cpp:219-234 | the single-pipe simulator is in SingleWorld over the file's frames |
| StreamingTests.TwoSourcesSetUp | test/unit/streaming_pipeline_and_csvsimulator_tests.cpp:284-301 | the two-source simulator is in TwoFeedWorld |
| StreamingTests.SharedSourceSetUp | test/unit/streaming_pipeline_and_csvsimulator_tests.cpp:318-348 | the shared-source simulator is in SharedWorld |
| StreamingTests.RegisterFirst | test/unit/streaming_pipeline_and_csvsimulator_tests.cpp:233-234 | the first pipe's source and sink become the first ones, due one interval from 0 |
| StreamingTests.RegisterOnNewSource | test/unit/streaming_pipeline_and_csvsimulator_tests.cpp:300-301 | a second pipe from a new source into a known sink adds a source and a slot but no sink |
| StreamingTests.RegisterOnNewSink | test/unit/streaming_pipeline_and_csvsimulator_tests.cpp:347-348 | a second pipe from a known source into a new sink adds a sink and a slot but no source |
| StreamingTests.PassAndCollect | test/unit/streaming_pipeline_and_csvsimulator_tests.cpp:238 | the sink's contents after a pass are the model's output |
| StreamingTests.PassAndRead | test/unit/streaming_pipeline_and_csvsimulator_tests.cpp:305-312 | isDepleted of each pipe and the sink size after a pass, read through the model |
| StreamingTests.DrainShared | test/unit/streaming_pipeline_and_csvsimulator_tests.cpp:350-355 | the counting sink's contents and both pipes' isDepleted after the drain, read through the model |
| RollingAlgorithms.Least | src/RollingAlgorithms.cpp:34 | the reference minimum: an element of the window no larger than any other |
| RollingAlgorithms.SumFront | src/RollingAlgorithms.cpp:42 | summing from the front or from the back gives the same |
| RollingAlgorithms.ApplyStepIgnoresStepType | src/RollingAlgorithms.cpp:7-11 | RollingApply returns the function of the current window whatever the step type, and keeps no state |
| RollingAlgorithms.SumOutput | src/RollingAlgorithms.cpp:58 | SUM returns the running sum; MEAN returns the sum divided by the window length |
| RollingAlgorithms.SumStepTracksSuccessor | src/RollingAlgorithms.cpp:45-56 | when the window grows at the back, slides by one or drops its front, one step keeps the running sum equal to the window's sum |
| RollingAlgorithms.SumScan | src/RollingAlgorithms.cpp:39-56 | one state per window of a scan |
| RollingAlgorithms.SumScanMatchesNaive | src/RollingAlgorithms.cpp:39-56 | across a whole contiguous scan, the incremental sum equals the naive sum of the current window at every step |
| RollingAlgorithms.MeanOfTracked | src/RollingAlgorithms.cpp:58 | the reported mean is therefore the naive mean of the current window |
| RollingAlgorithms.RollingSumOrMean.constructor | src/RollingAlgorithms.cpp:37 | the aggregate is fixed and the state starts at zero; init, with its empty body, adds nothing to it |
| RollingAlgorithms.RollingSumOrMean.Step | src/RollingAlgorithms.cpp:39-58 | the fields change as SumStep says; the result is the sum or the mean of the new running sum |
| RollingAlgorithms.InsertOrdered | src/RollingAlgorithms.cpp:31 | inserting keeps the multiset ordered and adds exactly one copy |
| RollingAlgorithms.InsertAll | src/RollingAlgorithms.cpp:22 | inserting a whole window keeps it ordered and adds every value |
| RollingAlgorithms.EraseAll | src/RollingAlgorithms.cpp:28 | erasing by key removes every copy of the key and nothing else |
| RollingAlgorithms.PriorityEvictionRule | src/RollingAlgorithms.cpp:19-33 | START inserts the window and remembers its front; STEP/END evict the remembered value (every copy) and remember the new front only at capacity; the back always enters |
| RollingAlgorithms.PriorityStepReturnsLeast | src/RollingAlgorithms.cpp:34 | the result is the least tracked value; it is at most the window's back after STEP/END, and at most every window value after START |
| RollingAlgorithms.FirstIsLeast | src/RollingAlgorithms.cpp:34 | the first element of an ordered copy of a window is the window's least element |
| RollingAlgorithms.PriorityStartHoldsWindow | src/RollingAlgorithms.cpp:21-24 | START on a fresh reducer holds exactly the first window |
| RollingAlgorithms.PrioritySlideHoldsWindow | src/RollingAlgorithms.cpp:25-34 | for distinct values sliding by one, STEP keeps exactly the window and returns its least element |
| RollingAlgorithms.PriorityGrowHoldsWindow | src/RollingAlgorithms.cpp:25-31 | below capacity a STEP evicts nothing: the multiset becomes the grown window, the remembered front stays, and the least element of the grown window is returned, repeated values or not |
| RollingAlgorithms.PriorityDuplicateLosesMinimum | src/RollingAlgorithms.cpp:28 | with a repeated value, erasing by key loses the minimum: windows [1, 1] then [1, 5] return 5, not 1 |
| RollingAlgorithms.RollingPriority.constructor | src/RollingAlgorithms.cpp:19-22 | the tracked multiset starts empty, so the first START holds exactly its window |
| RollingAlgorithms.RollingPriority.Init | src/RollingAlgorithms.cpp:14-16 | init stores the window's length as the capacity and changes nothing else |
| RollingAlgorithms.RollingPriority.Step | src/RollingAlgorithms.cpp:19-35 | the state changes as PriorityStep says; the result is the least tracked value |
| SignalTypes.Ordinal | src/SignalTypes.h:8 | each origin's enumerator value indexes it in declaration order |
| SignalTypes.FiveDistinctOrigins | src/SignalTypes.h:8 | exactly five pairwise distinct origins, and every origin is among them |
| SignalTypes.OrdinalInjective | src/SignalTypes.h:8 | two origins are equal iff their enumerator values are |
| SignalTypes.SignalSpec.SignalOrigin | src/SignalTypes.h:26-29 | signal_origin() is the constructor's origin |
| SignalTypes.SignalSpec.SamplingRate | src/SignalTypes.h:26-32 | sampling_rate() is the constructor's rate |
| SignalTypes.SignalSpec.MsPerSample | src/SignalTypes.h:35 | for rate > 0, ms * rate <= 1000 < (ms + 1) * rate, i.e. 1000 / rate cut toward zero; mirrored for negative rates |
| SignalTypes.TruncatedQuotient | src/SignalTypes.h:35 | the quotient cut toward zero, as the cast to int does |
| SignalTypes.SlowRatesAtLeastOneMs | src/SignalTypes.h:35 | rates from 1 to 1000 Hz give at least 1 ms per sample |
| SignalTypes.FastRatesZeroMs | src/SignalTypes.h:35 | rates above 1000 Hz give 0 ms per sample |
| SignalTypes.MsPerSampleNonIncreasing | src/SignalTypes.h:35 | a higher positive rate never gives more milliseconds per sample |
| OnlineStaging.SleepStagingResult.Empty | src/sleep_staging/online/OnlineStagingAlgorithm.h:26 | the default result holds no stages |
| OnlineStaging.SleepStagingResult.Zip | src/sleep_staging/online/OnlineStagingAlgorithm.h:28-36 | one element per stage code; element i has stage codes[i] and timestamp timestamps[i]; later timestamps are ignored |
| OnlineStaging.StagingWindows | src/sleep_staging/online/OnlineStagingAlgorithm.h:43-47 | EEG window 10240 and IR window 2048 (a fifth); intervals 2560 and 512, each a quarter of its window |

## Left out

- Loading the CSV sample files is file I/O. Sources are built over in-memory columns with the stated contents: 0 .. 249 for the first file and 0 .. 499 for the second.
- The wall-clock side of `pass_time` is left out: pacing by `real_time_factor` and the test's check that 1020 ms really elapsed. Only the virtual clock is modelled, and the factor only selects the drain when both arguments are 0.
- `shared_ptr`/`weak_ptr`/`unique_ptr` ownership is left out. A sink's liveness is a boolean that `Release` clears; there is no reference counting.
- The value of `EegFrame::DefaultEmissionInterval_ms` is not part of this model. Each scenario takes the interval as a parameter with the bounds its timing needs.
- StreamingTests.TwoEegPipesSingleSource requires an even interval, so that half of it is exact. For odd intervals, C++ integer division would give the counting pipe a slightly shorter period. That case is not covered.
- The simulator carries EEG pipes only, which is what every simulator test registers. PAT pipes are not modelled.
- The timestamps `EegFramesSource` gives its frames are not modelled: DataPorts.EegFrames stamps every frame 0. The tests compare only the samples of source frames; the model's whole-frame equalities carry this placeholder.
- The timestamps the simulator writes into passed frames are not asserted by the tests. The simulator model moves frames unchanged; timestamps are modelled only for `passNextFrameWithTimestamp`.
- The default byte order of `from_bytes_array` and `to_bytes` is modelled as big-endian (`DEFAULT_ORDER`).
- FrameCodec.EegToBytes and FrameCodec.PatToBytes take a byte-order parameter. This goes beyond the source, whose `to_bytes` calls show only the default order. The round trips are proved for both orders.
- A frame decode given fewer than 20 bytes returns `None`. The decoder's own handling of short buffers is not part of this model.
- IEEE double arithmetic is not modelled. Samples are integers, the mean is an exact real division, and `ms_per_sample` is computed exactly from an integer rate.
- SignalTypes.SignalSpec.MsPerSample requires a non-zero rate. With rate 0, the source divides by zero before an undefined cast to int.
- The declaration of `_set` (RollingAlgorithms.h) is not part of this model. It is taken to be a `std::multiset<double>`: `InsertOrdered` keeps repeated values and `EraseAll` removes every copy of a key. With a `std::set`, the windows [1, 1] then [1, 5] would return 1, and PriorityDuplicateLosesMinimum holds only under the multiset reading.
- RollingAlgorithms.PrioritySlideHoldsWindow is proved only for windows of distinct values. `_set.erase(key)` removes every copy of the key, so with repeated values the tracked multiset loses elements; PriorityDuplicateLosesMinimum exhibits this.
- RollingAlgorithms.PrioritySlideHoldsWindow and PriorityGrowHoldsWindow cover a STEP that slides the window at capacity and a STEP that grows it below capacity. The END step that drops the front is covered only by PriorityEvictionRule and PriorityStepReturnsLeast. There, line 31 inserts a back that is already tracked, so the multiset gains a copy and no longer equals the window.
- `RollingApply::init` and `RollingSumOrMean::init` have empty bodies and no member here. `RollingApply` has no state, so its step is a function.
- `RollingSumOrMean` and `RollingPriority` take the window as an integer sequence. `std::accumulate` seeded with int 0 truncates partial sums, which is exact for integer samples.
- OnlineStagingAlgorithm's `reset_state`, `process_input` and `end_streaming`, and its classifier, are not part of this model. Their code is not available.
- The SLEEP_STAGE enumeration is not part of this model. A stage is kept as the int it was cast from.
- The daemon (`AlgCoreDaemon.h`), the C API shim (`NeuroonSignalStreamApi.cpp`) and the micro-scenario library are not part of this model. Their logic is declarations, foreign callbacks or not available.
- A pipe can be both depleted and broken. The test releases the sink of a depleted pipe and expects `isBroken()` while `isDepleted()` still holds (test/unit/streaming_pipeline_and_csvsimulator_tests.cpp:208-211). Both are independent queries here.
