/** The shadow process: it replays the main engine's commands from the event stream and takes snapshots. */
module Shadow {
  import opened Types
  import opened Collections
  import opened BookModel
  import opened EngineSpec
  import opened Invariants
  import opened Matching
  import opened Runs
  import opened Safety
  import opened PlainRuns
  import opened Replay
  import opened Conservation
  import opened Escrow
  import opened Accounting

  datatype StreamEvent =
    | CommandReceived(id: int, command: Command, offset: int)
    | Logged(event: Event)
    | CommandProcessed(id: int)

  datatype Pending = Pending(id: int, command: Command, offset: int)

  datatype Snapshot = Snapshot(core: Core, offset: int)

  /** The state of the consumer loop. */
  datatype Replica = Replica(
    core: Core, pending: Option<Pending>, batch: seq<Event>, count: nat, snapshots: seq<Snapshot>)

  /** The patched engine about to replay a command: nothing logged yet, so it looks at the batch from its start. */
  function Stub(core: Core, batch: seq<Event>): Engine { Engine(core, Patched(batch, 0), [], []) }

  /**
   * A snapshot can be stored if no order in it belongs to a group: a linked order keeps the order object it
   * is linked to among its fields, and that has no JSON form. Every resting order is in the store.
   */
  predicate Storable(c: Core) { forall id :: id in c.store ==> c.Get(id).strategy.Single? }

  /** A command is complete: replay it, clear the batch, and if one is due take a snapshot. */
  ghost function Replayed(s: Replica, interval: nat, cmd: Pending): Result<Replica> {
    var e :- Handle(Stub(s.core, s.batch), cmd.command);
    if s.count + 1 < interval then Ok(Replica(e.core, None, [], s.count + 1, s.snapshots))
    else if Storable(e.core) then Ok(Replica(e.core, None, [], 0, s.snapshots + [Snapshot(e.core, cmd.offset)]))
    else Raised(TypeError)
  }

  ghost function Consume(s: Replica, interval: nat, ev: StreamEvent): Result<Replica> {
    match ev
    case CommandReceived(id, command, offset) => Ok(s.(pending := Some(Pending(id, command, offset))))
    case CommandProcessed(id) =>
      if s.pending.None? then Raised(TypeError)
      else if s.pending.value.id != id then Raised(ValueError)
      else Replayed(s, interval, s.pending.value)
    case Logged(event) => Ok(if s.pending.Some? then s.(batch := s.batch + [event]) else s)
  }

  ghost function ConsumeAll(s: Replica, interval: nat, stream: seq<StreamEvent>): Result<Replica> {
    if stream == [] then Ok(s)
    else
      var s' :- ConsumeAll(s, interval, stream[..|stream| - 1]);
      Consume(s', interval, stream[|stream| - 1])
  }

  // ---- What the main engine puts on the queue ----

  function Wrapped(events: seq<Event>): seq<StreamEvent> {
    seq(|events|, i requires 0 <= i < |events| => Logged(events[i]))
  }

  /** The events of one command, between its received and processed marks. */
  function CommandStream(cmd: Pending, events: seq<Event>): seq<StreamEvent> {
    [CommandReceived(cmd.id, cmd.command, cmd.offset)] + Wrapped(events) + [CommandProcessed(cmd.id)]
  }

  lemma {:induction false} ConsumeConcat(s: Replica, interval: nat, a: seq<StreamEvent>, b: seq<StreamEvent>)
    requires ConsumeAll(s, interval, a).Ok?
    ensures ConsumeAll(s, interval, a + b) == ConsumeAll(ConsumeAll(s, interval, a).value, interval, b)
  {
    if b == [] {
      assert a + b == a;
    } else {
      var n := |b| - 1;
      assert (a + b)[..|a + b| - 1] == a + b[..n];
      ConsumeConcat(s, interval, a, b[..n]);
    }
  }

  /** Nothing is consumed after an exception. */
  lemma {:induction false} RaiseStays(s: Replica, interval: nat, a: seq<StreamEvent>, b: seq<StreamEvent>)
    requires ConsumeAll(s, interval, a).Raised?
    ensures ConsumeAll(s, interval, a + b) == Raised(ConsumeAll(s, interval, a).error)
  {
    if b == [] {
      assert a + b == a;
    } else {
      var n := |b| - 1;
      assert (a + b)[..|a + b| - 1] == a + b[..n];
      RaiseStays(s, interval, a, b[..n]);
    }
  }

  /** Logged events of a pending command pile up in the batch. */
  lemma {:induction false} BatchFills(s: Replica, interval: nat, events: seq<Event>)
    requires s.pending.Some?
    ensures ConsumeAll(s, interval, Wrapped(events)) == Ok(s.(batch := s.batch + events))
  {
    if events == [] {
      assert s.batch + events == s.batch;
    } else {
      var n := |events| - 1;
      BatchFills(s, interval, events[..n]);
      assert Wrapped(events)[..n] == Wrapped(events[..n]);
      assert s.batch + events[..n] + [events[n]] == s.batch + events;
    }
  }

  lemma {:induction false} ConsumeOne(s: Replica, interval: nat, ev: StreamEvent)
    ensures ConsumeAll(s, interval, [ev]) == Consume(s, interval, ev)
  {
    assert [ev][..0] == [];
  }

  /** Consuming the stream of one command replays that command against its own events. */
  lemma {:induction false} CommandConsumed(s: Replica, interval: nat, cmd: Pending, events: seq<Event>)
    requires s.pending.None? && s.batch == []
    ensures ConsumeAll(s, interval, CommandStream(cmd, events))
         == Replayed(s.(batch := events, pending := Some(cmd)), interval, cmd)
  {
    var received := CommandReceived(cmd.id, cmd.command, cmd.offset);
    var s1 := s.(pending := Some(cmd));
    ConsumeOne(s, interval, received);
    BatchFills(s1, interval, events);
    assert s1.batch + events == events;
    ConsumeConcat(s, interval, [received], Wrapped(events));
    ConsumeConcat(s, interval, [received] + Wrapped(events), [CommandProcessed(cmd.id)]);
    ConsumeOne(s1.(batch := events), interval, CommandProcessed(cmd.id));
  }

  // ---- The replica follows ----

  lemma {:induction false} SubmitKeys(e: Engine, id: OrderId, stored: set<OrderId>)
    requires Inv(e.core) && Entering(e.core, id) && Submit(e, id, stored).Ok?
    ensures Submit(e, id, stored).value.core.orders.Keys == e.core.orders.Keys
  {
    var o := e.core.orders[id];
    SubmitOrders(e, id, stored);
    if Crossable(e.core.book, o) && Answer(e, o, o.quantity, o.price) {
      SweepKeeps(Checked(e, o, o.quantity, o.price), id);
    }
  }

  lemma {:induction false} PlaceNoOco(c: Core, id: OrderId)
    requires Inv(c) && Entering(c, id) && NoOco(c)
    ensures Enbook(c, id).Ok? && NoOco(Enbook(c, id).value)
  {
    EnbookEffect(c, id);
  }

  lemma {:induction false} PlacedNoOco(e: Engine, id: OrderId, stored: set<OrderId>)
    requires Inv(e.core) && Entering(e.core, id) && NoOco(e.core) && Place(e, id, stored).Ok?
    ensures NoOco(Place(e, id, stored).value.core)
  {
    PlaceNoOco(e.core, id);
    var c, c' := Enbook(e.core, id).value, Place(e, id, stored).value.core;
    assert c' == c.(store := c'.store);
    assert forall x :: c'.Resting(x) == c.Resting(x);
  }

  lemma {:induction false} MatchOrRestNoOco(e: Engine, id: OrderId, stored: set<OrderId>)
    requires Inv(e.core) && Entering(e.core, id) && NoOco(e.core) && MatchOrRest(e, id, stored).Ok?
    ensures NoOco(MatchOrRest(e, id, stored).value.core)
  {
    SweepKeeps(e, id);
    var e2 := Sweep(e, id).value;
    StaysNoOco(e.core, e2.core);
    if !e2.core.Get(id).Complete() { PlacedNoOco(e2, id, stored); }
  }

  lemma {:induction false} SubmitNoOco(e: Engine, id: OrderId, stored: set<OrderId>)
    requires Inv(e.core) && Entering(e.core, id) && NoOco(e.core) && Submit(e, id, stored).Ok?
    ensures NoOco(Submit(e, id, stored).value.core)
  {
    var o := e.core.orders[id];
    var e1 := Checked(e, o, o.quantity, o.price);
    SubmitCases(e, id, stored);
    if !Crossable(e.core.book, o) {
      PlacedNoOco(e, id, stored);
    } else if Answer(e, o, o.quantity, o.price) {
      MatchOrRestNoOco(e1, id, stored);
    } else {
      RejectNoOco(e1, id);
    }
  }

  lemma {:induction false} RejectNoOco(e: Engine, id: OrderId)
    requires Inv(e.core) && NoOco(e.core) && Entering(e.core, id) && Reject(e, id).Ok?
    ensures NoOco(Reject(e, id).value.core)
  {
    CancelProjects(e, id);
    CancelNoOco(e.core, id);
  }

  /** Cancelling brings nobody into the book. */
  lemma {:induction false} CancelNoOco(c: Core, id: OrderId)
    requires Inv(c) && NoOco(c) && CancelCore(c, id).Ok?
    ensures NoOco(CancelCore(c, id).value)
  {
    UnbookAllEffect(c, CancelTargets(c.Get(id)));
  }

  /** SINGLE and OTO commands bring no OCO legs. */
  lemma {:induction false} HandleNoOco(e: Engine, cmd: Command)
    requires Inv(e.core) && NoOco(e.core) && CmdOk(e.core, cmd) && SingleOrOto(cmd) && Handle(e, cmd).Ok?
    ensures NoOco(Handle(e, cmd).value.core)
  {
    IntakeKeeps(e.core, cmd);
    var e0 := e.(core := Intake(e.core, cmd));
    assert NoOco(e0.core);
    match cmd
    case NewSingle(s) => SubmitNoOco(e0, s.id, {s.id});
    case NewOto(p, ch) => SubmitNoOco(e0, p.id, {p.id, ch.id});
    case Cancel(id) =>
      if id in e.core.store {
        CancelProjects(e, id);
        CancelNoOco(e.core, id);
      }
  }

  /** One command whose checks all passed in the main engine is repeated exactly by the replica. */
  lemma {:induction false} CommandFollowed(e: Engine, cmd: Command)
    requires Inv(e.core) && NoOco(e.core) && CmdOk(e.core, cmd) && SingleOrOto(cmd)
    requires Handle(e, cmd).Ok? && AllPass(e, Handle(e, cmd).value)
    ensures e.log <= Handle(e, cmd).value.log
    ensures var stub := Stub(e.core, Handle(e, cmd).value.log[|e.log|..]);
      Handle(stub, cmd).Ok? && Handle(stub, cmd).value.core == Handle(e, cmd).value.core
  {
    if cmd.Cancel? {
      if cmd.orderId in e.core.store { CancelGrows(e, cmd.orderId); }
    } else {
      HandleClean(e, cmd);
    }
    HandleMirrors(e, Stub(e.core, Handle(e, cmd).value.log[|e.log|..]), cmd);
  }

  /** What was logged between two states of the main engine. */
  function NewEvents(e: Engine, e': Engine): seq<Event> { if e.log <= e'.log then e'.log[|e.log|..] else [] }

  /** The queue a run of the main engine produces; command `n` has id `n` and offset `offsets[n]`. */
  ghost function MainStream(e: Engine, cmds: seq<Command>, offsets: seq<int>): seq<StreamEvent>
    requires |offsets| == |cmds|
  {
    if cmds == [] || Run(e, cmds).Raised? then []
    else
      var n := |cmds| - 1;
      MainStream(e, cmds[..n], offsets[..n])
      + CommandStream(Pending(n, cmds[n], offsets[n]), NewEvents(Run(e, cmds[..n]).value, Run(e, cmds).value))
  }

  /** The snapshot is the main engine's core, storable, right after the command whose offset it carries. */
  ghost predicate TrueSnapshot(e: Engine, cmds: seq<Command>, offsets: seq<int>, s: Snapshot)
    requires |offsets| == |cmds|
  {
    && Storable(s.core)
    && exists k :: 0 <= k < |cmds| && s.offset == offsets[k] && Run(e, cmds[..k + 1]).Ok?
                   && s.core == Run(e, cmds[..k + 1]).value.core
  }

  /** How many commands the replica has counted since its last snapshot, after `n` commands. */
  ghost function CountAfter(n: nat, interval: nat): nat {
    if n == 0 || CountAfter(n - 1, interval) + 1 >= interval then 0 else CountAfter(n - 1, interval) + 1
  }

  /** A snapshot is due after command number `n`, counted from one. */
  ghost predicate Due(n: nat, interval: nat) { n > 0 && CountAfter(n - 1, interval) + 1 >= interval }

  /** No order of a group is open whenever a snapshot is due. */
  ghost predicate SnapshotsStorable(e: Engine, cmds: seq<Command>, interval: nat) {
    cmds == [] ||
    (&& SnapshotsStorable(e, cmds[..|cmds| - 1], interval)
     && (Due(|cmds|, interval) && Run(e, cmds).Ok? ==> Storable(Run(e, cmds).value.core)))
  }

  ghost predicate InSync(e: Engine, cmds: seq<Command>, offsets: seq<int>, interval: nat, s: Replica)
    requires |offsets| == |cmds|
  {
    && Run(e, cmds).Ok? && s.core == Run(e, cmds).value.core && s.pending.None? && s.batch == []
    && s.count == CountAfter(|cmds|, interval)
    && forall i :: 0 <= i < |s.snapshots| ==> TrueSnapshot(e, cmds, offsets, s.snapshots[i])
  }

  ghost predicate PassingRun(e: Engine, cmds: seq<Command>) {
    && Inv(e.core) && NoOco(e.core) && Admissible(e, cmds) && Run(e, cmds).Ok? && AllPass(e, Run(e, cmds).value)
    && forall i :: 0 <= i < |cmds| ==> SingleOrOto(cmds[i])
  }

  lemma {:induction false} PassingNoOco(e: Engine, cmds: seq<Command>)
    requires PassingRun(e, cmds)
    ensures NoOco(Run(e, cmds).value.core)
  {
    if cmds != [] {
      var n := |cmds| - 1;
      PassSplits(e, cmds);
      PassingNoOco(e, cmds[..n]);
      RunKeeps(e, cmds[..n]);
      HandleNoOco(Run(e, cmds[..n]).value, cmds[n]);
    }
  }

  lemma {:induction false} OlderSnapshots(e: Engine, cmds: seq<Command>, offsets: seq<int>, s: Snapshot)
    requires |offsets| == |cmds| && cmds != []
    requires TrueSnapshot(e, cmds[..|cmds| - 1], offsets[..|cmds| - 1], s)
    ensures TrueSnapshot(e, cmds, offsets, s)
  {
    var n := |cmds| - 1;
    var k :| 0 <= k < n && s.offset == offsets[..n][k] && Run(e, cmds[..n][..k + 1]).Ok?
          && s.core == Run(e, cmds[..n][..k + 1]).value.core;
    assert cmds[..n][..k + 1] == cmds[..k + 1];
    assert offsets[..n][k] == offsets[k];
  }

  /** What the replica makes of the main engine's queue. */
  ghost function Shadowed(e: Engine, cmds: seq<Command>, offsets: seq<int>, interval: nat): Result<Replica>
    requires |offsets| == |cmds|
  {
    ConsumeAll(Replica(e.core, None, [], 0, []), interval, MainStream(e, cmds, offsets))
  }

  /** The queue of one command more. */
  lemma {:induction false} ShadowedMore(e: Engine, cmds: seq<Command>, offsets: seq<int>, interval: nat)
    requires |offsets| == |cmds| && cmds != [] && Run(e, cmds).Ok?
    ensures var n := |cmds| - 1;
      var older := Shadowed(e, cmds[..n], offsets[..n], interval);
      var cmd, events := Pending(n, cmds[n], offsets[n]), NewEvents(Run(e, cmds[..n]).value, Run(e, cmds).value);
      && (older.Raised? ==> Shadowed(e, cmds, offsets, interval).Raised?)
      && (older.Ok? && older.value.pending.None? && older.value.batch == [] ==>
            Shadowed(e, cmds, offsets, interval)
            == Replayed(older.value.(batch := events, pending := Some(cmd)), interval, cmd))
  {
    var n := |cmds| - 1;
    var s0 := Replica(e.core, None, [], 0, []);
    var older := MainStream(e, cmds[..n], offsets[..n]);
    var cmd, events := Pending(n, cmds[n], offsets[n]), NewEvents(Run(e, cmds[..n]).value, Run(e, cmds).value);
    var r := ConsumeAll(s0, interval, older);
    if r.Raised? {
      RaiseStays(s0, interval, older, CommandStream(cmd, events));
    } else {
      ConsumeConcat(s0, interval, older, CommandStream(cmd, events));
      if r.value.pending.None? && r.value.batch == [] { CommandConsumed(r.value, interval, cmd, events); }
    }
  }

  /**
   * For every SINGLE/OTO run whose balance checks all pass: the replica that consumes the main engine's
   * queue raises exactly if a snapshot comes due while an order of a group is open. Otherwise it ends with
   * the same book, orders and store, and every snapshot it took on the way is the main engine's core right
   * after the command whose offset the snapshot carries.
   */
  lemma {:induction false} ShadowFollows(e: Engine, cmds: seq<Command>, offsets: seq<int>, interval: nat)
    requires |offsets| == |cmds| && PassingRun(e, cmds)
    ensures var r := Shadowed(e, cmds, offsets, interval);
      && (r.Ok? <==> SnapshotsStorable(e, cmds, interval))
      && (r.Ok? ==> InSync(e, cmds, offsets, interval, r.value))
  {
    if cmds == [] {
      assert MainStream(e, cmds, offsets) == [];
    } else {
      var n := |cmds| - 1;
      PassSplits(e, cmds);
      ShadowFollows(e, cmds[..n], offsets[..n], interval);
      RunKeeps(e, cmds[..n]);
      PassingNoOco(e, cmds[..n]);
      CommandFollowed(Run(e, cmds[..n]).value, cmds[n]);
      ShadowedMore(e, cmds, offsets, interval);
      var older := Shadowed(e, cmds[..n], offsets[..n], interval);
      if older.Ok? {
        StaysInSync(e, cmds, offsets, older.value, interval,
                    NewEvents(Run(e, cmds[..n]).value, Run(e, cmds).value));
      }
    }
  }

  lemma {:induction false} StaysInSync(e: Engine, cmds: seq<Command>, offsets: seq<int>, s: Replica, interval: nat,
                                       events: seq<Event>)
    requires |offsets| == |cmds| && cmds != [] && Run(e, cmds).Ok?
    requires InSync(e, cmds[..|cmds| - 1], offsets[..|cmds| - 1], interval, s)
    requires var mid := Run(e, cmds[..|cmds| - 1]).value;
      var r := Handle(Stub(mid.core, events), cmds[|cmds| - 1]);
      r.Ok? && r.value.core == Run(e, cmds).value.core
    ensures var n := |cmds| - 1;
      var cmd := Pending(n, cmds[n], offsets[n]);
      var r := Replayed(s.(batch := events, pending := Some(cmd)), interval, cmd);
      && (r.Ok? <==> (Due(|cmds|, interval) ==> Storable(Run(e, cmds).value.core)))
      && (r.Ok? ==> InSync(e, cmds, offsets, interval, r.value))
  {
    var n := |cmds| - 1;
    var cmd := Pending(n, cmds[n], offsets[n]);
    var r := Replayed(s.(batch := events, pending := Some(cmd)), interval, cmd);
    assert cmds[..n + 1] == cmds;
    if r.Ok? {
      forall i | 0 <= i < |r.value.snapshots|
        ensures TrueSnapshot(e, cmds, offsets, r.value.snapshots[i])
      {
        if i < |s.snapshots| { OlderSnapshots(e, cmds, offsets, s.snapshots[i]); }
      }
    }
  }

  // ---- SINGLE runs ----

  ghost predicate SingleCmd(cmd: Command) { cmd.NewSingle? || cmd.Cancel? }

  ghost predicate AllSingle(c: Core) { forall id :: id in c.orders ==> c.orders[id].strategy.Single? }

  lemma {:induction false} HandleAllSingle(e: Engine, cmd: Command)
    requires Inv(e.core) && AllSingle(e.core) && CmdOk(e.core, cmd) && SingleCmd(cmd) && Handle(e, cmd).Ok?
    ensures AllSingle(Handle(e, cmd).value.core)
  {
    var c' := Handle(e, cmd).value.core;
    IntakeKeeps(e.core, cmd);
    match cmd
    case NewSingle(s) =>
      var e0 := e.(core := Intake(e.core, cmd));
      SubmitKeys(e0, s.id, {s.id});
      SubmitKeeps(e0, s.id, {s.id});
      assert forall id :: id in c'.orders ==> Terms(c'.orders[id]) == Terms(e0.core.orders[id]);
    case Cancel(id) =>
      if id in e.core.store {
        CancelProjects(e, id);
        UnbookAllOrders(e.core, CancelTargets(e.core.Get(id)));
      }
  }

  lemma {:induction false} RunAllSingle(e: Engine, cmds: seq<Command>)
    requires Inv(e.core) && AllSingle(e.core) && Admissible(e, cmds) && Run(e, cmds).Ok?
    requires forall i :: 0 <= i < |cmds| ==> SingleCmd(cmds[i])
    ensures AllSingle(Run(e, cmds).value.core)
  {
    if cmds != [] {
      var n := |cmds| - 1;
      RunAllSingle(e, cmds[..n]);
      RunKeeps(e, cmds[..n]);
      HandleAllSingle(Run(e, cmds[..n]).value, cmds[n]);
    }
  }

  lemma {:induction false} SinglesAreStorable(e: Engine, cmds: seq<Command>, interval: nat)
    requires Inv(e.core) && AllSingle(e.core) && Admissible(e, cmds) && Run(e, cmds).Ok?
    requires forall i :: 0 <= i < |cmds| ==> SingleCmd(cmds[i])
    ensures SnapshotsStorable(e, cmds, interval)
  {
    if cmds != [] {
      var n := |cmds| - 1;
      SinglesAreStorable(e, cmds[..n], interval);
      RunAllSingle(e, cmds);
      RunKeeps(e, cmds);
      AllSingleIsStorable(Run(e, cmds).value.core);
    }
  }

  lemma {:induction false} AllSingleIsStorable(c: Core)
    requires Inv(c) && AllSingle(c)
    ensures Storable(c)
  {
  }

  /** A run of SINGLE commands whose checks all pass is followed to the end. */
  lemma {:induction false} ShadowFollowsSingles(e: Engine, cmds: seq<Command>, offsets: seq<int>, interval: nat)
    requires |offsets| == |cmds| && PassingRun(e, cmds) && AllSingle(e.core)
    requires forall i :: 0 <= i < |cmds| ==> SingleCmd(cmds[i])
    ensures var r := Shadowed(e, cmds, offsets, interval); r.Ok? && InSync(e, cmds, offsets, interval, r.value)
  {
    SinglesAreStorable(e, cmds, interval);
    ShadowFollows(e, cmds, offsets, interval);
  }
}
