/**
 * FrameStreamPipe: moves one EEG frame per step from a frame source to a sink.  The pipe
 * owns its source and only observes its sink, so the sink can be released under it.
 */
module StreamPipe {
  import opened Wrappers
  import opened FrameCodec
  import opened DataPorts

  class Pipe {
    const source: Source<EegFrame>
    const sink: Sink<EegFrame>

    constructor (source: Source<EegFrame>, sink: Sink<EegFrame>)
      ensures this.source == source && this.sink == sink
    {
      this.source, this.sink := source, sink;
    }

    /** isDepleted: the source has no frame left. */
    predicate IsDepleted()
      reads source
    {
      source.Exhausted()
    }

    /** isBroken: the sink's last owner has released it. */
    predicate IsBroken()
      reads sink
    {
      !sink.alive
    }

    /** A step of the pipe: when the sink is still there and the source has a frame, that
        frame goes to the sink unchanged; otherwise nothing happens. */
    method PassNextFrame() returns (passed: bool)
      requires source.Valid()
      modifies source, sink
      ensures source.Valid()
      ensures passed <==> old(!IsBroken() && !IsDepleted())
      ensures passed ==>
                source.cursor == old(source.cursor) + 1 &&
                sink.received == old(sink.received) + [old(source.items[source.cursor])]
      ensures !passed ==> source.cursor == old(source.cursor) && sink.received == old(sink.received)
      ensures sink.alive == old(sink.alive)
    {
      passed := false;
      if !IsBroken() {
        var next := source.Next();
        if next.Some? {
          sink.Consume(next.value);
          passed := true;
        }
      }
    }

    /** passNextFrameWithTimestamp(t): as PassNextFrame, with the passed frame stamped t. */
    method PassNextFrameWithTimestamp(t: uint32) returns (passed: bool)
      requires source.Valid()
      modifies source, sink
      ensures source.Valid()
      ensures passed <==> old(!IsBroken() && !IsDepleted())
      ensures passed ==>
                source.cursor == old(source.cursor) + 1 &&
                sink.received == old(sink.received) + [old(source.items[source.cursor]).(timestamp := t)]
      ensures !passed ==> source.cursor == old(source.cursor) && sink.received == old(sink.received)
      ensures sink.alive == old(sink.alive)
    {
      passed := false;
      if !IsBroken() {
        var next := source.Next();
        if next.Some? {
          sink.Consume(next.value.(timestamp := t));
          passed := true;
        }
      }
    }
  }
}
