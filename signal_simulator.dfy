/**
 * SignalSimulator: steps registered pipes on one virtual clock, each at its own interval.
 * The simulator keeps the pipes, their intervals, their next due times and the clock;
 * the ghost fields name the distinct sources and sinks the pipes join, so that the state
 * can be read as a World of the value semantics, which every method is proved to follow.
 */
module SignalSimulator {
  import opened Wrappers
  import opened FrameCodec
  import opened DataPorts
  import opened StreamPipe
  import opened SimulatorSemantics

  class Simulator {
    var pipes: seq<Pipe>
    var intervals: seq<nat>
    var dues: seq<nat>
    var now: nat
    /** The distinct sources and sinks the pipes join, and the state read as a World. */
    ghost var sources: seq<Source<EegFrame>>
    ghost var sinks: seq<Sink<EegFrame>>
    ghost var model: World

    ghost predicate Valid()
      reads this, sources, sinks
    {
      && model.now == now
      && PipesAre(pipes, intervals, dues, sources, sinks, model.slots)
      && SourcesAre(sources, model.feeds, model.cursors)
      && SinksAre(sinks, model.outputs, model.alive)
      && Distinct(sources) && Distinct(sinks)
    }

    /** Pipe i joins the source and the sink slot i names, at its interval and due time. */
    static ghost predicate PipesAre(pipes: seq<Pipe>, intervals: seq<nat>, dues: seq<nat>,
                                    sources: seq<Source<EegFrame>>, sinks: seq<Sink<EegFrame>>, slots: seq<Slot>)
    {
      && |intervals| == |pipes| && |dues| == |pipes| && |slots| == |pipes|
      && forall i :: 0 <= i < |pipes| ==>
           && slots[i].src < |sources| && slots[i].snk < |sinks|
           && slots[i].interval == intervals[i] && slots[i].due == dues[i] && intervals[i] > 0
           && pipes[i].source == sources[slots[i].src] && pipes[i].sink == sinks[slots[i].snk]
    }

    /** Source s holds feed s, its cursor at cursor s. */
    static ghost predicate SourcesAre(sources: seq<Source<EegFrame>>, feeds: seq<seq<EegFrame>>, cursors: seq<nat>)
      reads sources
    {
      && |feeds| == |sources| && |cursors| == |sources|
      && forall s :: 0 <= s < |sources| ==>
           sources[s].Valid() && feeds[s] == sources[s].items && cursors[s] == sources[s].cursor
    }

    /** Sink k has received output k and is alive as alive k says. */
    static ghost predicate SinksAre(sinks: seq<Sink<EegFrame>>, outputs: seq<seq<EegFrame>>, alive: seq<bool>)
      reads sinks
    {
      && |outputs| == |sinks| && |alive| == |sinks|
      && forall k :: 0 <= k < |sinks| ==> outputs[k] == sinks[k].received && alive[k] == sinks[k].alive
    }

    static ghost predicate Distinct<T>(xs: seq<T>)
    {
      forall a, b :: 0 <= a < b < |xs| ==> xs[a] != xs[b]
    }

    lemma ModelWellFormed()
      requires Valid()
      ensures WellFormed(model)
    {
    }

    constructor ()
      ensures Valid() && pipes == [] && sources == [] && sinks == [] && now == 0
      ensures model == World(0, [], [], [], [], [])
    {
      pipes, intervals, dues, now := [], [], [], 0;
      sources, sinks := [], [];
      model := World(0, [], [], [], [], []);
    }

    /** add_streaming_pipe(pipe, interval): the pipe is first due one interval from now. */
    method AddStreamingPipe(p: Pipe, interval: nat)
      requires Valid() && interval > 0 && p.source.Valid()
      modifies this`pipes, this`intervals, this`dues, this`sources, this`sinks, this`model
      ensures Valid()
      ensures pipes == old(pipes) + [p] && intervals == old(intervals) + [interval]
      ensures dues == old(dues) + [now + interval]
      ensures sources == if p.source in old(sources) then old(sources) else old(sources) + [p.source]
      ensures sinks == if p.sink in old(sinks) then old(sinks) else old(sinks) + [p.sink]
      ensures model.now == old(model.now)
      ensures model.feeds == if p.source in old(sources) then old(model.feeds) else old(model.feeds) + [p.source.items]
      ensures model.cursors == if p.source in old(sources) then old(model.cursors) else old(model.cursors) + [p.source.cursor]
      ensures model.outputs == if p.sink in old(sinks) then old(model.outputs) else old(model.outputs) + [p.sink.received]
      ensures model.alive == if p.sink in old(sinks) then old(model.alive) else old(model.alive) + [p.sink.alive]
      ensures model.slots == old(model.slots) + [Slot(IndexOf(old(sources), p.source), IndexOf(old(sinks), p.sink), interval, now + interval)]
    {
      ghost var s := JoinSource(p.source);
      ghost var k := JoinSink(p.sink);
      AppendPipe(p, interval, s, k);
    }

    /** Registers `p` as joining source s and sink k. */
    method AppendPipe(p: Pipe, interval: nat, ghost s: nat, ghost k: nat)
      requires Valid() && interval > 0
      requires s < |sources| && sources[s] == p.source && k < |sinks| && sinks[k] == p.sink
      modifies this`pipes, this`intervals, this`dues, this`model
      ensures Valid()
      ensures pipes == old(pipes) + [p] && intervals == old(intervals) + [interval]
      ensures dues == old(dues) + [now + interval]
      ensures model == old(model).(slots := old(model.slots) + [Slot(s, k, interval, now + interval)])
    {
      pipes, intervals, dues := pipes + [p], intervals + [interval], dues + [now + interval];
      model := model.(slots := model.slots + [Slot(s, k, interval, now + interval)]);
    }

    /** Adds `src` to the distinct sources unless it is there already; returns its index. */
    ghost method JoinSource(src: Source<EegFrame>) returns (s: nat)
      requires Valid() && src.Valid()
      modifies this`sources, this`model
      ensures Valid() && s < |sources| && sources[s] == src && s == IndexOf(old(sources), src)
      ensures sources == if src in old(sources) then old(sources) else old(sources) + [src]
      ensures model.feeds == if src in old(sources) then old(model.feeds) else old(model.feeds) + [src.items]
      ensures model.cursors == if src in old(sources) then old(model.cursors) else old(model.cursors) + [src.cursor]
      ensures model.slots == old(model.slots) && model.outputs == old(model.outputs)
      ensures model.alive == old(model.alive) && model.now == old(model.now)
    {
      s := IndexOf(sources, src);
      if s == |sources| {
        sources := sources + [src];
        model := model.(feeds := model.feeds + [src.items], cursors := model.cursors + [src.cursor]);
        forall a, b | 0 <= a < b < |sources|
          ensures sources[a] != sources[b]
        {
          if b == s {
            assert sources[a] == old(sources)[a];
          }
        }
      }
    }

    /** Adds `snk` to the distinct sinks unless it is there already; returns its index. */
    ghost method JoinSink(snk: Sink<EegFrame>) returns (k: nat)
      requires Valid()
      modifies this`sinks, this`model
      ensures Valid() && k < |sinks| && sinks[k] == snk && k == IndexOf(old(sinks), snk)
      ensures sinks == if snk in old(sinks) then old(sinks) else old(sinks) + [snk]
      ensures model.outputs == if snk in old(sinks) then old(model.outputs) else old(model.outputs) + [snk.received]
      ensures model.alive == if snk in old(sinks) then old(model.alive) else old(model.alive) + [snk.alive]
      ensures sources == old(sources) && model.slots == old(model.slots)
      ensures model.feeds == old(model.feeds) && model.cursors == old(model.cursors)
      ensures model.now == old(model.now)
    {
      k := IndexOf(sinks, snk);
      if k == |sinks| {
        sinks := sinks + [snk];
        model := model.(outputs := model.outputs + [snk.received], alive := model.alive + [snk.alive]);
        forall a, b | 0 <= a < b < |sinks|
          ensures sinks[a] != sinks[b]
        {
          if b == k {
            assert sinks[a] == old(sinks)[a];
          }
        }
      }
    }

    /** Where x sits in xs, or |xs| when it is absent. */
    static ghost function IndexOf<T>(xs: seq<T>, x: T): (r: nat)
      ensures r <= |xs| && (r < |xs| ==> xs[r] == x) && (r == |xs| <==> x !in xs)
    {
      if xs == [] then 0
      else if xs[0] == x then 0
      else 1 + IndexOf(xs[1..], x)
    }

    /** Pipe i is active exactly when it is neither broken nor depleted. */
    lemma ActiveIsLive(i: nat)
      requires Valid() && i < |pipes|
      ensures WellFormed(model)
      ensures Active(model, i) <==> !pipes[i].IsBroken() && !pipes[i].IsDepleted()
    {
    }

    /** The next pipe to step, in (due, registration) order, among all pipes or only
        among the active ones. */
    method Earliest(onlyActive: bool) returns (r: Option<nat>)
      requires Valid()
      ensures WellFormed(model) && r == EarliestAmong(model, onlyActive, |pipes|)
    {
      ModelWellFormed();
      ghost var w := model;
      LiveAsModel(onlyActive);
      r := None;
      for i := 0 to |pipes|
        invariant r == EarliestAmong(w, onlyActive, i)
      {
        var eligible := !onlyActive || (!pipes[i].IsBroken() && !pipes[i].IsDepleted());
        if eligible && (r.None? || dues[i] < dues[r.value]) {
          r := Some(i);
        }
      }
    }

    /** What Earliest reads of the pipes is what the model says of the slots. */
    lemma LiveAsModel(onlyActive: bool)
      requires Valid()
      ensures WellFormed(model) && |dues| == |pipes| == |model.slots|
      ensures forall i :: 0 <= i < |pipes| ==>
        (Eligible(model, onlyActive, i) <==> !onlyActive || (!pipes[i].IsBroken() && !pipes[i].IsDepleted()))
      ensures forall i :: 0 <= i < |pipes| ==> dues[i] == model.slots[i].due
    {
    }

    /** One step of pipe i, which then is next due one interval later. */
    method FireSlot(i: nat)
      requires Valid() && i < |pipes|
      modifies this`dues, this`model, sources, sinks
      ensures Valid() && WellFormed(old(model))
      ensures model == Fire(old(model), i)
    {
      ModelWellFormed();
      ghost var after := Fire(model, i);
      ghost var src, snk := model.slots[i].src, model.slots[i].snk;
      ActiveIsLive(i);
      var passed := pipes[i].PassNextFrame();
      dues := dues[i := dues[i] + intervals[i]];
      model := after;
      forall s | 0 <= s < |sources| && s != src
        ensures sources[s] != sources[src]
      {
      }
      forall k | 0 <= k < |sinks| && k != snk
        ensures sinks[k] != sinks[snk]
      {
      }
    }

    /** pass_time(duration, real_time_factor) on the virtual clock.  A zero duration with
        a zero factor steps the active pipes until none is left and keeps the clock;
        otherwise every due pipe is stepped, earliest first, and the clock moves on by
        `duration`.  The factor otherwise only paces the caller against the wall clock. */
    method PassTime(duration: nat, realTimeFactor: real)
      requires Valid()
      modifies this`dues, this`now, this`model, sources, sinks
      ensures Valid() && WellFormed(old(model))
      ensures model == SimulatorSemantics.PassTime(old(model), duration, realTimeFactor)
    {
      if duration == 0 && realTimeFactor == 0.0 {
        DrainAll();
      } else {
        AdvanceTo(now + duration);
      }
    }

    /** Steps the active pipes, earliest first, until none is active. */
    method DrainAll()
      requires Valid()
      modifies this`dues, this`model, sources, sinks
      ensures Valid() && WellFormed(old(model))
      ensures model == Drain(old(model))
    {
      ModelWellFormed();
      UnsentNonNegative(model, |model.feeds|);
      var stepped := true;
      while stepped
        invariant Valid() && WellFormed(model)
        invariant Drain(model) == Drain(old(model))
        invariant !stepped ==> Drain(model) == model
        invariant Unsent(model.feeds, model.cursors, |model.feeds|) >= 0
        decreases if stepped then Unsent(model.feeds, model.cursors, |model.feeds|) + 1 else 0
      {
        stepped := StepEarliestActive();
      }
    }

    /** Steps the earliest active pipe, if there is one. */
    method StepEarliestActive() returns (stepped: bool)
      requires Valid()
      modifies this`dues, this`model, sources, sinks
      ensures Valid() && WellFormed(old(model)) && WellFormed(model)
      ensures Drain(model) == Drain(old(model))
      ensures 0 <= Unsent(model.feeds, model.cursors, |model.feeds|)
      ensures stepped ==> Unsent(model.feeds, model.cursors, |model.feeds|)
                          < Unsent(old(model).feeds, old(model).cursors, |old(model).feeds|)
      ensures !stepped ==> Drain(model) == model
    {
      ModelWellFormed();
      UnsentNonNegative(model, |model.feeds|);
      var next := Earliest(true);
      if next.None? {
        return false;
      }
      ghost var before := model;
      DrainMeasure(before, next.value);
      FireSlot(next.value);
      DrainStep(before, next.value);
      return true;
    }

    /** Steps every pipe due by `target`, earliest first, then sets the clock to it. */
    method AdvanceTo(target: nat)
      requires Valid()
      modifies this`dues, this`now, this`model, sources, sinks
      ensures Valid() && WellFormed(old(model))
      ensures model == Advance(old(model), target)
    {
      ModelWellFormed();
      var stepped := true;
      while stepped
        invariant Valid() && WellFormed(model)
        invariant Advance(model, target) == Advance(old(model), target)
        invariant !stepped ==> Advance(model, target) == model.(now := target)
        decreases if stepped then Backlog(model.slots, target) + 1 else 0
      {
        stepped := StepEarliestDue(target);
      }
      now := target;
      model := model.(now := target);
    }

    /** Steps the earliest pipe if it is due by `target`. */
    method StepEarliestDue(target: nat) returns (stepped: bool)
      requires Valid()
      modifies this`dues, this`model, sources, sinks
      ensures Valid() && WellFormed(old(model)) && WellFormed(model)
      ensures Advance(model, target) == Advance(old(model), target)
      ensures stepped ==> Backlog(model.slots, target) < Backlog(old(model).slots, target)
      ensures !stepped ==> Advance(model, target) == model.(now := target)
    {
      ModelWellFormed();
      var next := Earliest(false);
      if next.None? || dues[next.value] > target {
        assert NextDue(model, target).None?;
        return false;
      }
      ghost var before := model;
      assert NextDue(before, target) == next;
      AdvanceMeasure(before, target, next.value);
      FireSlot(next.value);
      AdvanceStep(before, target, next.value);
      return true;
    }
  }
}
