/** The shadow's consumer loop as an object around its own patched engine. */
module EngineShadows {
  import opened Types
  import opened BookModel
  import EngineSpec
  import opened Invariants
  import opened Runs
  import opened Replay
  import opened Shadow
  import opened SpotEngines

  /** The queue completes only commands that are admissible in the state the replica has reached. */
  ghost predicate Replayable(s: Replica, interval: nat, queue: seq<StreamEvent>) {
    forall i :: 0 <= i < |queue| ==> StepReplayable(ConsumeAll(s, interval, queue[..i]), queue[i])
  }

  ghost predicate StepReplayable(r: Result<Replica>, ev: StreamEvent) {
    r.Ok? && ev.CommandProcessed? && r.value.pending.Some? && r.value.pending.value.id == ev.id ==>
      Inv(r.value.core) && CmdOk(r.value.core, r.value.pending.value.command)
  }

  class EngineShadow {
    const engine: SpotEngine
    const interval: nat
    var cmd: Option<Pending>
    var batch: seq<Event>
    var commandCount: nat
    ghost var snapshots: seq<Snapshot>

    ghost predicate Valid()
      reads this, engine, engine.book
    {
      engine.Valid()
    }

    ghost function State(): Replica
      reads this, engine, engine.book
    {
      Replica(engine.Core(), cmd, batch, commandCount, snapshots)
    }

    ghost predicate Did(spec: Result<Replica>, r: Result<()>)
      reads this, engine, engine.book
    {
      match spec
      case Ok(s) => r.Ok? && State() == s
      case Raised(x) => r == Raised(x)
    }

    constructor (engine: SpotEngine, interval: nat)
      requires engine.Valid()
      ensures this.engine == engine && this.interval == interval && Valid()
      ensures State() == Replica(engine.Core(), None, [], 0, [])
    {
      this.engine, this.interval := engine, interval;
      cmd, batch, commandCount, snapshots := None, [], 0, [];
    }

    /** The main loop: consume the queue up to the sentinel. */
    method Run(queue: seq<StreamEvent>) returns (r: Result<()>)
      requires Valid() && Replayable(State(), interval, queue)
      modifies this, engine, engine.book
      ensures Valid() && Did(ConsumeAll(old(State()), interval, queue), r)
    {
      ghost var start := State();
      r := Ok(());
      var i := 0;
      while i < |queue|
        invariant 0 <= i <= |queue| && r.Ok? && Valid() && ConsumeAll(start, interval, queue[..i]) == Ok(State())
      {
        ghost var s := State();
        assert StepReplayable(Ok(s), queue[i]);
        r := Step(queue[i]);
        NextStep(start, s, interval, queue, i);
        if r.Raised? {
          RaiseStays(start, interval, queue[..i + 1], queue[i + 1..]);
          assert queue[..i + 1] + queue[i + 1..] == queue;
          return;
        }
        i := i + 1;
      }
      assert queue[..i] == queue;
    }

    method Step(ev: StreamEvent) returns (r: Result<()>)
      requires Valid() && StepReplayable(Ok(State()), ev)
      modifies this, engine, engine.book
      ensures Valid() && Did(Consume(old(State()), interval, ev), r)
    {
      r := Ok(());
      match ev {
        case CommandReceived(id, command, offset) =>
          cmd := Some(Pending(id, command, offset));
        case CommandProcessed(id) =>
          if cmd.None? {
            return Raised(TypeError);
          }
          if cmd.value.id != id {
            return Raised(ValueError);
          }
          r := Replay();
        case Logged(event) =>
          if cmd.Some? {
            batch := batch + [event];
          }
      }
    }

    /** A processed command: run it through the patched engine, reset the batch, count towards a snapshot. */
    method Replay() returns (r: Result<()>)
      requires Valid() && cmd.Some? && Inv(engine.Core()) && CmdOk(engine.Core(), cmd.value.command)
      modifies this, engine, engine.book
      ensures Valid() && Did(Replayed(old(State()), interval, old(cmd).value), r)
    {
      engine.wiring, engine.log, engine.answers := EngineSpec.Patched(batch, 0), [], [];
      assert engine.State() == Stub(old(engine.Core()), batch);
      r := engine.HandleCommand(cmd.value.command);
      if r.Raised? { return; }
      batch := [];
      commandCount := commandCount + 1;
      if commandCount >= interval {
        r := TakeSnapshot(cmd.value.offset);
        if r.Raised? { return; }
        commandCount := 0;
      }
      cmd := None;
    }

    /** `_snapshot`: the context is stored with the offset, unless a linked order cannot be encoded. */
    method TakeSnapshot(offset: int) returns (r: Result<()>)
      requires Valid()
      modifies this
      ensures Valid() && r == (if Storable(engine.Core()) then Ok(()) else Raised(TypeError))
      ensures r.Ok? ==> State() == old(State()).(snapshots := old(snapshots) + [Snapshot(engine.Core(), offset)])
    {
      if exists id :: id in engine.store && !engine.Get(id).strategy.Single? {
        return Raised(TypeError);
      }
      snapshots := snapshots + [Snapshot(engine.Core(), offset)];
      r := Ok(());
    }
  }

  lemma NextStep(start: Replica, s: Replica, interval: nat, queue: seq<StreamEvent>, i: nat)
    requires i < |queue| && ConsumeAll(start, interval, queue[..i]) == Ok(s)
    ensures ConsumeAll(start, interval, queue[..i + 1]) == Consume(s, interval, queue[i])
  {
    assert queue[..i + 1][..i] == queue[..i];
  }

  // ---- The queue of the main engine is replayable ----

  lemma {:induction false} ReplayableConcat(s: Replica, interval: nat, a: seq<StreamEvent>, b: seq<StreamEvent>)
    requires Replayable(s, interval, a)
    requires var r := ConsumeAll(s, interval, a); r.Ok? ==> Replayable(r.value, interval, b)
    ensures Replayable(s, interval, a + b)
  {
    var r := ConsumeAll(s, interval, a);
    forall i | 0 <= i < |a + b|
      ensures StepReplayable(ConsumeAll(s, interval, (a + b)[..i]), (a + b)[i])
    {
      if i < |a| {
        assert (a + b)[..i] == a[..i];
      } else {
        assert (a + b)[..i] == a + b[..i - |a|] && (a + b)[i] == b[i - |a|];
        if r.Ok? {
          ConsumeConcat(s, interval, a, b[..i - |a|]);
          assert StepReplayable(ConsumeAll(r.value, interval, b[..i - |a|]), b[i - |a|]);
        } else {
          RaiseStays(s, interval, a, b[..i - |a|]);
        }
      }
    }
  }

  lemma {:induction false} CommandReplayable(s: Replica, interval: nat, cmd: Pending, events: seq<Event>)
    requires s.pending.None? && s.batch == [] && Inv(s.core) && CmdOk(s.core, cmd.command)
    ensures Replayable(s, interval, CommandStream(cmd, events))
  {
    var stream := CommandStream(cmd, events);
    var received := CommandReceived(cmd.id, cmd.command, cmd.offset);
    var s1 := s.(pending := Some(cmd));
    forall i | 0 <= i < |stream|
      ensures StepReplayable(ConsumeAll(s, interval, stream[..i]), stream[i])
    {
      if i == |events| + 1 {
        assert stream[..i] == [received] + Wrapped(events);
        ConsumeOne(s, interval, received);
        BatchFills(s1, interval, events);
        ConsumeConcat(s, interval, [received], Wrapped(events));
      } else {
        assert !stream[i].CommandProcessed?;
      }
    }
  }

  /** The stream of a passing run asks the replica for admissible commands only. */
  lemma {:induction false} PassingIsReplayable(e: EngineSpec.Engine, cmds: seq<Command>, offsets: seq<int>,
                                               interval: nat)
    requires |offsets| == |cmds| && PassingRun(e, cmds)
    ensures Replayable(Replica(e.core, None, [], 0, []), interval, MainStream(e, cmds, offsets))
  {
    if cmds != [] {
      var n := |cmds| - 1;
      PassSplits(e, cmds);
      PassingIsReplayable(e, cmds[..n], offsets[..n], interval);
      ShadowFollows(e, cmds[..n], offsets[..n], interval);
      RunKeeps(e, cmds[..n]);
      var r := Shadowed(e, cmds[..n], offsets[..n], interval);
      var cmd := Pending(n, cmds[n], offsets[n]);
      var events := NewEvents(EngineSpec.Run(e, cmds[..n]).value, EngineSpec.Run(e, cmds).value);
      if r.Ok? { CommandReplayable(r.value, interval, cmd, events); }
      ReplayableConcat(Replica(e.core, None, [], 0, []), interval, MainStream(e, cmds[..n], offsets[..n]),
                       CommandStream(cmd, events));
    }
  }

  /** A new shadow fed the queue of a passing run of SINGLE commands ends with the main engine's core. */
  method Follow(shadow: EngineShadow, queue: seq<StreamEvent>,
                ghost e: EngineSpec.Engine, ghost cmds: seq<Command>, ghost offsets: seq<int>)
    returns (r: Result<()>)
    requires shadow.Valid() && shadow.State() == Replica(e.core, None, [], 0, [])
    requires |offsets| == |cmds| && PassingRun(e, cmds) && AllSingle(e.core)
    requires forall i :: 0 <= i < |cmds| ==> SingleCmd(cmds[i])
    requires queue == MainStream(e, cmds, offsets)
    modifies shadow, shadow.engine, shadow.engine.book
    ensures shadow.Valid() && r.Ok? && shadow.engine.Core() == EngineSpec.Run(e, cmds).value.core
  {
    PassingIsReplayable(e, cmds, offsets, shadow.interval);
    ShadowFollowsSingles(e, cmds, offsets, shadow.interval);
    r := shadow.Run(queue);
  }
}
