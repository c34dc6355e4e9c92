/**
 * Restarting from a snapshot. `EngineLoader` rebuilds the context from its dictionary but never gives it
 * its engine, so a loaded engine raises as soon as a handler needs one. This module says exactly when, and
 * what recovery achieves for a context that has its engine.
 */
module Recovery {
  import opened Types
  import opened BookModel
  import opened Ledgers
  import opened EngineSpec
  import opened Invariants
  import opened Matching
  import opened Runs
  import opened Replay
  import opened Raising
  import opened Accounting
  import opened Conservation
  import opened Escrow
  import opened Snapshots
  import opened Restoring
  import opened Determinism
  import opened Shadow
  import opened Orchestrator
  import opened Releases
  import PlainRuns

  /**
   * An engine built from a snapshot. Book and store are read back separately, so that the store has its own
   * `copies` of the order objects in the book; `attached` says whether the context knows its engine.
   */
  datatype Loaded = Loaded(engine: Engine, copies: map<OrderId, Order>, attached: bool)

  /** `ExecutionContext.from_dict`; the loader leaves `attached` false, the shadow's start-up sets it. */
  ghost function Load(s: Snapshot, wiring: Wiring, attached: bool): Loaded {
    var copies := map id | id in s.core.store :: Restored(s.core.Get(id));
    Loaded(Engine(RestoredCore(s.core), wiring, [], []), copies, attached)
  }

  /** A cancel reads the order from the store; only then does it turn to the engine to release escrow. */
  ghost function CancelLoaded(x: Loaded, id: OrderId): Result<Loaded> {
    var c :- CancelCore(x.engine.core, id);
    if !x.attached then Raised(AttributeError)
    else if id in x.copies then
      var o := x.copies[id];
      Ok(x.(engine := Release(Emit(x.engine.(core := c), o.user, [OrderCancelled(id)]), o)))
    else
      var e :- CancelOrder(x.engine, id);
      Ok(x.(engine := e))
  }

  /** The order of a New command that may match on entry. */
  function EnteringOrder(cmd: Command): Option<Order> {
    match cmd
    case NewSingle(s) => Some(s.ToOrder(Single, true))
    case NewOto(p, ch) => Some(p.ToOrder(OtoParent(ch.id), true))
    case _ => None
  }

  /** The handler needs the engine: to match an order that crosses, or to release escrow. */
  ghost predicate NeedsEngine(c: Core, cmd: Command) {
    || (EnteringOrder(cmd).Some? && Crossable(c.book, EnteringOrder(cmd).value))
    || (cmd.Cancel? && cmd.orderId in c.store)
  }

  ghost function HandleLoaded(x: Loaded, cmd: Command): Result<Loaded> {
    if cmd.Cancel? && cmd.orderId in x.engine.core.store then CancelLoaded(x, cmd.orderId)
    else if !x.attached && NeedsEngine(x.engine.core, cmd) then Raised(AttributeError)
    else
      var e :- Handle(x.engine, cmd);
      Ok(x.(engine := e))
  }

  ghost function RunLoaded(x: Loaded, cmds: seq<Command>): Result<Loaded> {
    if cmds == [] then Ok(x)
    else
      var x' :- RunLoaded(x, cmds[..|cmds| - 1]);
      HandleLoaded(x', cmds[|cmds| - 1])
  }

  // ---- Without its engine ----

  /** A command that does not need the engine asks no balance and raises nothing. */
  lemma {:induction false} QuietHandles(a: Engine, b: Engine, cmd: Command)
    requires Alike(a.core, b.core) && Inv(b.core) && CmdOk(b.core, cmd) && !NeedsEngine(b.core, cmd)
    ensures Handle(a, cmd).Ok? && Handle(b, cmd).Ok?
    ensures Alike(Handle(a, cmd).value.core, Handle(b, cmd).value.core)
  {
    HandleRaisesIff(b, cmd);
    IntakeAlike(a.core, b.core, cmd);
    var a0, b0 := a.(core := Intake(a.core, cmd)), b.(core := Intake(b.core, cmd));
    match cmd
    case NewSingle(s) => QuietSubmits(a0, b0, s.id, {s.id});
    case NewOto(p, ch) => QuietSubmits(a0, b0, p.id, {p.id, ch.id});
    case NewOco(x, y) =>
      PlaceFollows(a0, b0, x.id, {x.id});
      PlaceFollows(Place(a0, x.id, {x.id}).value, Place(b0, x.id, {x.id}).value, y.id, {y.id});
    case Cancel(id) =>
  }

  lemma {:induction false} QuietSubmits(a: Engine, b: Engine, id: OrderId, stored: set<OrderId>)
    requires Alike(a.core, b.core) && !Crossable(b.core.book, b.core.Get(id)) && Submit(b, id, stored).Ok?
    ensures Submit(a, id, stored).Ok? && Alike(Submit(a, id, stored).value.core, Submit(b, id, stored).value.core)
  {
    SameFields(a.core, b.core, id);
    SubmitCases(a, id, stored);
    SubmitCases(b, id, stored);
    PlaceFollows(a, b, id, stored);
  }

  lemma {:induction false} PlaceFollows(a: Engine, b: Engine, id: OrderId, stored: set<OrderId>)
    requires Alike(a.core, b.core) && Place(b, id, stored).Ok?
    ensures Place(a, id, stored).Ok? && Alike(Place(a, id, stored).value.core, Place(b, id, stored).value.core)
  {
    EnbookAlike(a.core, b.core, id);
  }

  /** One command for an engine without context engine, next to the engine `b` it is a copy of. */
  lemma {:induction false} LoadedStep(x: Loaded, b: Engine, cmd: Command)
    requires !x.attached && Alike(x.engine.core, b.core) && Inv(b.core) && CmdOk(b.core, cmd)
    ensures HandleLoaded(x, cmd).Raised? <==> NeedsEngine(b.core, cmd)
    ensures !NeedsEngine(b.core, cmd) ==>
      && Handle(b, cmd).Ok? && Alike(HandleLoaded(x, cmd).value.engine.core, Handle(b, cmd).value.core)
      && !HandleLoaded(x, cmd).value.attached
  {
    assert NeedsEngine(x.engine.core, cmd) == NeedsEngine(b.core, cmd);
    if !NeedsEngine(b.core, cmd) { QuietHandles(x.engine, b, cmd); }
  }

  /**
   * The engine as the loader builds it raises on its next command if and only if that command crosses or
   * cancels a stored order.
   */
  lemma {:induction false} LoadedRaisesIff(s: Snapshot, wiring: Wiring, cmd: Command)
    requires Inv(s.core) && CmdOk(s.core, cmd)
    ensures HandleLoaded(Load(s, wiring, false), cmd).Raised? <==> NeedsEngine(s.core, cmd)
  {
    RestoredIsAlike(s.core);
    LoadedStep(Load(s, wiring, false), Engine(s.core, wiring, [], []), cmd);
  }

  /** Every command of the run, in the state it meets, does without the engine. */
  ghost predicate NeverNeedsEngine(b: Engine, cmds: seq<Command>) {
    cmds == [] ||
    (var n := |cmds| - 1;
     && NeverNeedsEngine(b, cmds[..n])
     && (Run(b, cmds[..n]).Ok? ==> !NeedsEngine(Run(b, cmds[..n]).value.core, cmds[n])))
  }

  /** A whole run: it survives exactly if the ordinary run from the snapshot never crosses nor cancels. */
  lemma {:induction false} LoadedRunRaisesIff(x: Loaded, b: Engine, cmds: seq<Command>)
    requires !x.attached && Alike(x.engine.core, b.core) && Inv(b.core) && Admissible(b, cmds)
    ensures RunLoaded(x, cmds).Ok? <==> NeverNeedsEngine(b, cmds)
    ensures RunLoaded(x, cmds).Ok? ==>
      && Run(b, cmds).Ok? && !RunLoaded(x, cmds).value.attached
      && Alike(RunLoaded(x, cmds).value.engine.core, Run(b, cmds).value.core)
  {
    if cmds != [] {
      var n := |cmds| - 1;
      LoadedRunRaisesIff(x, b, cmds[..n]);
      if RunLoaded(x, cmds[..n]).Ok? {
        RunKeeps(b, cmds[..n]);
        LoadedStep(RunLoaded(x, cmds[..n]).value, Run(b, cmds[..n]).value, cmds[n]);
      }
    }
  }

  /** At one input: a single resting bid is snapshotted, and the loaded engine cannot cancel it. */
  lemma {:induction false} LoadedCannotCancel(e: Engine, wiring: Wiring, offset: int)
    requires e.core == PlainRuns.EMPTY_CORE
    ensures var r := Run(e, [NewSingle(BIG_BID)]);
      && r.Ok? && Storable(r.value.core)
      && HandleLoaded(Load(Snapshot(r.value.core, offset), wiring, false), Cancel(1)).Raised?
      && Handle(r.value, Cancel(1)).Ok?
  {
    var cmds := [NewSingle(BIG_BID)];
    assert cmds[..0] == [] && Run(e, []) == Ok(e) && Inv(e.core);
    BigBidRests(e);
    HandleKeeps(e, NewSingle(BIG_BID));
    var e1 := Handle(e, NewSingle(BIG_BID)).value;
    assert Run(e, cmds) == Ok(e1) && e1.core.Get(1) == BIG_BID.ToOrder(Single, true);
    LoadedRaisesIff(Snapshot(e1.core, offset), wiring, Cancel(1));
    HandleRaisesIff(e1, Cancel(1));
  }

  // ---- With its engine ----

  /** The store's copies are SINGLE orders whose terms are those of the objects in the book. */
  ghost predicate CopiesMatch(copies: map<OrderId, Order>, c: Core) {
    forall id :: id in copies ==>
      id in c.orders && Terms(copies[id]) == Terms(c.orders[id]) && c.orders[id].strategy.Single?
  }

  /** An attached engine moves its core as any engine does, whichever copy a cancel reads. */
  lemma {:induction false} AttachedHandles(x: Loaded, cmd: Command)
    requires x.attached && HandleLoaded(x, cmd).Ok?
    ensures Handle(x.engine, cmd).Ok? && HandleLoaded(x, cmd).value.attached
    ensures HandleLoaded(x, cmd).value.copies == x.copies
    ensures HandleLoaded(x, cmd).value.engine.core == Handle(x.engine, cmd).value.core
    ensures HandleLoaded(x, cmd).value.engine.answers == Handle(x.engine, cmd).value.answers
  {
    if cmd.Cancel? && cmd.orderId in x.engine.core.store {
      CancelProjects(x.engine, cmd.orderId);
      CancelAnswers(x.engine, cmd.orderId);
    }
  }

  lemma {:induction false} RunLoadedAnswers(x: Loaded, cmds: seq<Command>)
    requires x.attached && RunLoaded(x, cmds).Ok?
    ensures RunLoaded(x, cmds).value.attached && x.engine.answers <= RunLoaded(x, cmds).value.engine.answers
  {
    if cmds != [] {
      var n := |cmds| - 1;
      RunLoadedAnswers(x, cmds[..n]);
      var x1 := RunLoaded(x, cmds[..n]).value;
      AttachedHandles(x1, cmds[n]);
      HandleAnswers(x1.engine, cmds[n]);
    }
  }

  /** Under the same answers a loaded and attached engine keeps up with the engine it was copied from. */
  lemma {:induction false} LoadedKeepsUp(x: Loaded, b: Engine, cmds: seq<Command>)
    requires x.attached && Alike(x.engine.core, b.core) && RunLoaded(x, cmds).Ok? && Run(b, cmds).Ok?
    requires Comparable(Since(x.engine, RunLoaded(x, cmds).value.engine), Since(b, Run(b, cmds).value))
    ensures SameStep(false, x.engine, RunLoaded(x, cmds).value.engine, b, Run(b, cmds).value)
  {
    if cmds != [] {
      var n := |cmds| - 1;
      var x1, b1 := RunLoaded(x, cmds[..n]).value, Run(b, cmds[..n]).value;
      var x', b' := RunLoaded(x, cmds).value, Run(b, cmds).value;
      RunLoadedAnswers(x, cmds[..n]);
      RunAnswers(b, cmds[..n]);
      AttachedHandles(x1, cmds[n]);
      HandleAnswers(x1.engine, cmds[n]);
      HandleAnswers(b1, cmds[n]);
      Parts(x.engine, x1.engine, x'.engine, b, b1, b');
      LoadedKeepsUp(x, b, cmds[..n]);
      StepKeepsUp(x1.engine, x'.engine, b1, cmds[n]);
      Joins(false, x.engine, x1.engine, x'.engine, b, b1, b');
    }
  }

  lemma {:induction false} StepKeepsUp(a: Engine, a': Engine, b: Engine, cmd: Command)
    requires Alike(a.core, b.core) && Handle(a, cmd).Ok? && Handle(b, cmd).Ok?
    requires a'.core == Handle(a, cmd).value.core && a'.answers == Handle(a, cmd).value.answers
    requires Comparable(Since(a, a'), Since(b, Handle(b, cmd).value))
    ensures SameStep(false, a, a', b, Handle(b, cmd).value)
  {
    HandleDetermined(false, a, b, cmd);
  }

  /** A snapshot divides the commands of a topic into those it contains and those still to come. */
  lemma {:induction false} SnapshotSplits(e: Engine, topic: seq<Message>, symbol: string, s: Snapshot)
    returns (xs: seq<Command>, ys: seq<Command>)
    requires TrueSnapshot(e, Commands(topic, symbol), Offsets(topic, symbol), s)
    ensures 0 <= s.offset < |topic| && Commands(topic, symbol) == xs + ys
    ensures Commands(topic[..s.offset + 1], symbol) == xs && Commands(topic[s.offset + 1..], symbol) == ys
    ensures Run(e, xs).Ok? && s.core == Run(e, xs).value.core
  {
    var cmds := Commands(topic, symbol);
    var k := SnapshotIndex(e, cmds, Offsets(topic, symbol), s);
    xs, ys := cmds[..k + 1], cmds[k + 1..];
    OffsetSplits(topic, symbol, k, s.offset);
  }

  lemma {:induction false} OffsetSplits(topic: seq<Message>, symbol: string, k: nat, offset: int)
    requires k < |Commands(topic, symbol)| && offset == Offsets(topic, symbol)[k]
    ensures 0 <= offset < |topic|
    ensures var cmds := Commands(topic, symbol);
      && cmds == cmds[..k + 1] + cmds[k + 1..]
      && Commands(topic[..offset + 1], symbol) == cmds[..k + 1]
      && Commands(topic[offset + 1..], symbol) == cmds[k + 1..]
  {
    SeekSkipsExactly(topic, symbol, k);
    OffsetOfCommand(topic, symbol, k);
    SplitAt(Commands(topic, symbol), k + 1);
  }

  lemma SplitAt<T>(s: seq<T>, k: nat)
    requires k <= |s|
    ensures s == s[..k] + s[k..]
  {
  }

  lemma SnapshotIndex(e: Engine, cmds: seq<Command>, offsets: seq<int>, s: Snapshot) returns (k: nat)
    requires |offsets| == |cmds| && TrueSnapshot(e, cmds, offsets, s)
    ensures k < |cmds| && s.offset == offsets[k] && Run(e, cmds[..k + 1]).Ok?
    ensures s.core == Run(e, cmds[..k + 1]).value.core
  {
    k :| 0 <= k < |cmds| && s.offset == offsets[k] && Run(e, cmds[..k + 1]).Ok?
         && s.core == Run(e, cmds[..k + 1]).value.core;
  }

  /** The main engine when the snapshot was due. */
  ghost function AtSnapshot(e: Engine, topic: seq<Message>, symbol: string, s: Snapshot): Result<Engine>
    requires 0 <= s.offset < |topic|
  {
    Run(e, Commands(topic[..s.offset + 1], symbol))
  }

  /**
   * Recovery: an engine loaded from any snapshot of the shadow and given to its context, fed from one past
   * the snapshot's offset, reaches the same book, store and order fields as the engine that processed the
   * whole topic, provided its balance checks are answered as the original ones were.
   */
  lemma {:induction false} SnapshotResumes(e: Engine, topic: seq<Message>, symbol: string, s: Snapshot, wiring: Wiring)
    requires Run(e, Commands(topic, symbol)).Ok?
    requires TrueSnapshot(e, Commands(topic, symbol), Offsets(topic, symbol), s)
    requires 0 <= s.offset < |topic| && AtSnapshot(e, topic, symbol, s).Ok?
    requires var x, rest := Load(s, wiring, true), Commands(topic[s.offset + 1..], symbol);
      && RunLoaded(x, rest).Ok?
      && Comparable(Since(x.engine, RunLoaded(x, rest).value.engine),
                    Since(AtSnapshot(e, topic, symbol, s).value, Run(e, Commands(topic, symbol)).value))
    ensures Alike(RunLoaded(Load(s, wiring, true), Commands(topic[s.offset + 1..], symbol)).value.engine.core,
                  Run(e, Commands(topic, symbol)).value.core)
  {
    var xs, ys := SnapshotSplits(e, topic, symbol, s);
    RestoredIsAlike(s.core);
    RunConcat(e, xs, ys);
    LoadedKeepsUp(Load(s, wiring, true), Run(e, xs).value, ys);
  }

  // ---- What the separate copies cost ----

  /** However far the engine has come, the copies keep the terms of their orders and lag behind in fills. */
  lemma {:induction false} CopiesLagBehind(s: Snapshot, wiring: Wiring, b: Engine, cmds: seq<Command>, c: Core)
    requires Inv(s.core) && Storable(s.core) && b.core == s.core && Admissible(b, cmds) && Run(b, cmds).Ok?
    requires Alike(c, Run(b, cmds).value.core)
    ensures CopiesMatch(Load(s, wiring, true).copies, c)
    ensures forall id :: id in s.core.store ==>
      id in c.orders && Load(s, wiring, true).copies[id].executed <= c.orders[id].executed
  {
    RunKeeps(b, cmds);
    var d := Run(b, cmds).value.core;
    forall id | id in s.core.store
      ensures id in c.orders && Terms(Restored(s.core.Get(id))) == Terms(c.orders[id])
      ensures c.orders[id].strategy.Single? && s.core.Get(id).executed <= c.orders[id].executed
    {
      assert id in s.core.orders && id in d.orders.Keys && id in c.orders.Keys;
      assert Terms(d.orders[id]) == Terms(s.core.orders[id]);
      SameFields(c, d, id);
      assert Terms(c.orders[id]).strategy == c.orders[id].strategy;
    }
  }

  /**
   * Cancelling a loaded order that has traded since the snapshot releases what was unfilled at the
   * snapshot: too much by exactly the value filled since, so the right amount only if nothing was.
   */
  lemma {:induction false} StaleCopyReleasesMore(x: Loaded, id: OrderId)
    requires x.attached && x.engine.wiring.Live? && CopiesMatch(x.copies, x.engine.core)
    requires id in x.copies && id in x.engine.core.store && HandleLoaded(x, Cancel(id)).Ok?
    requires var o := x.engine.core.orders[id];
      o.id == id && o.price > 0 && o.user != SYSTEM_USER_ID && o.executed < o.quantity
    requires x.copies[id].executed <= x.engine.core.orders[id].executed
    ensures var o, copy := x.engine.core.orders[id], x.copies[id];
      var since := (o.executed - copy.executed) * (if o.side.Bid? then o.price else 1);
      var x' := HandleLoaded(x, Cancel(id)).value;
      && x'.engine.wiring.Live?
      && EscrowOf(x'.engine.wiring.ledger, o) == EscrowOf(x.engine.wiring.ledger, o) - Unfilled(o) - since
      && (since == 0 <==> copy.executed == o.executed)
  {
    var o, copy := x.engine.core.orders[id], x.copies[id];
    assert Terms(copy) == Terms(o);
    assert copy.side == o.side && copy.price == o.price && copy.quantity == o.quantity && copy.user == o.user;
    ReleaseOnLedger(x.engine.wiring.ledger, copy);
    Distribute(o.Remaining(), o.executed - copy.executed, o.price);
    if copy.executed < o.executed { PositiveProduct(o.executed - copy.executed, o.price); }
  }
}
