/**
 * After a failed balance check the shadow goes its own way: its stub looks one event ahead in the batch but
 * does not count the balance events in it. This module says when it notices a failure and when it follows.
 */
module Divergence {
  import opened Types
  import opened Collections
  import opened BookModel
  import opened Ledgers
  import opened EngineSpec
  import opened Invariants
  import opened Matching
  import opened Runs
  import opened Safety
  import opened PlainRuns
  import opened Priority
  import opened Accounting
  import opened Conservation
  import opened Escrow
  import opened Raising
  import opened Departed
  import opened Replay
  import opened Determinism
  import opened Shadow
  import opened Releases
  import opened Steps

  // ---- A failed entry check ----

  /** A rejection logs two cancellations, each followed by a release. */
  lemma {:induction false} RejectionEvents(e: Engine, id: OrderId)
    requires Entering(e.core, id) && e.wiring.Live? && Reject(e, id).Ok?
    requires e.core.orders[id].id == id && e.core.orders[id].user != SYSTEM_USER_ID
    requires e.core.orders[id].Remaining() > 0
    ensures var o := e.core.orders[id];
      Reject(e, id).value.log == e.log + [OrderCancelled(id), BalanceChanged(ReleaseOp(o)),
                                          OrderCancelled(id), BalanceChanged(ReleaseOp(o))]
    ensures Reject(e, id).value.core.orders == e.core.orders
  {
    var o := e.core.orders[id];
    CancelProjects(e, id);
    var c := CancelCore(e.core, id).value;
    UnbookAllOrders(e.core, CancelTargets(o));
    assert Cancellations([id]) == [OrderCancelled(id)] + Cancellations([]);
    var e1 := Emit(e.(core := c), o.user, Cancellations(CancelTargets(o)));
    assert c.Get(CancelReleases(o)) == o;
    assert CancelOrder(e, id) == Ok(Release(e1, o));
    assert Release(e1, o).log == e.log + [OrderCancelled(id), BalanceChanged(ReleaseOp(o))];
  }

  /** The stub that replays a New command, with the new order known to it. */
  ghost function StubFor(e: Engine, cmd: Command): Engine
    requires Handle(e, cmd).Ok?
  {
    Stub(Intake(e.core, cmd), NewEvents(e, Handle(e, cmd).value))
  }

  lemma {:induction false} RejectedEvents(e: Engine, cmd: Command)
    requires Inv(e.core) && CmdOk(e.core, cmd) && Submits(cmd) && e.wiring.Live? && Handle(e, cmd).Ok?
    requires Rejected(e.(core := Intake(e.core, cmd)), NewId(cmd))
    ensures var e' := Handle(e, cmd).value;
      var events := NewEvents(e, e');
      && |events| == 4 && events[1].BalanceChanged?
      && e'.core.orders == Intake(e.core, cmd).orders
  {
    HandleSubmits(e, cmd);
    var e0 := e.(core := Intake(e.core, cmd));
    assert OrderInv(e0.core, NewId(cmd), {}, {});
    SubmitCases(e0, NewId(cmd), StoredBy(cmd));
    RejectionEvents(Entered(e0, NewId(cmd)), NewId(cmd));
  }

  /** The front maker is traded with if the stub's next event is no cancellation. */
  lemma {:induction false} StubTrades(b: Engine, t: OrderId)
    requires Inv(b.core) && Entering(b.core, t) && !Stops(b.core, t) && Sweep(b, t).Ok?
    requires b.wiring.Patched? && b.wiring.start == |b.log| && |b.wiring.batch| > 1
    requires !b.wiring.batch[1].OrderCancelled?
    ensures Sweep(b, t).value.core.Get(t).executed > b.core.Get(t).executed
  {
    var side := b.core.Get(t).side.Opposite();
    var m, p := Front(b.core.book, side).value, Best(b.core.book, side).value;
    FrontMeets(b.core, t);
    FirstMeetingIsOk(b, t);
    FrontKeeps(b, t);
    EncounterProjects(b, t, m, p);
    FillsKeep(b.core, t, m, TradeQuantity(b.core, t, m), p);
    TradeKeeps(b.core, t, m, TradeQuantity(b.core, t, m), p);
    var b1 := MeetFront(b, t).value;
    SweepKeeps(b1, t);
    assert b1.core.orders[t].executed <= Sweep(b1, t).value.core.orders[t].executed;
  }

  /**
   * Whatever the state, an ordinary user's SINGLE order or OTO parent that crosses and fails its entry check
   * is not noticed by the shadow: the stub answers yes, the order that the main engine rejected is traded,
   * and the cores differ.
   */
  lemma {:induction false} EntryFailureMissed(e: Engine, cmd: Command)
    requires Inv(e.core) && CmdOk(e.core, cmd) && Submits(cmd) && e.wiring.Live? && Handle(e, cmd).Ok?
    requires Rejected(e.(core := Intake(e.core, cmd)), NewId(cmd))
    ensures EntryAnswer(StubFor(e, cmd), NewId(cmd))
    ensures var r := Handle(Stub(e.core, NewEvents(e, Handle(e, cmd).value)), cmd);
      && (NoOco(e.core) ==> r.Ok?)
      && (r.Ok? ==> r.value.core.Get(NewId(cmd)).executed > 0 && r.value.core != Handle(e, cmd).value.core)
  {
    RejectedEvents(e, cmd);
    var b := Stub(e.core, NewEvents(e, Handle(e, cmd).value));
    StubTakesOver(b, cmd);
    if NoOco(e.core) { LetInNeverRaises(b, cmd); }
    RejectedUnfilled(e, cmd);
  }

  /** In the main engine a rejected order stays without a fill. */
  lemma {:induction false} RejectedUnfilled(e: Engine, cmd: Command)
    requires Inv(e.core) && CmdOk(e.core, cmd) && Submits(cmd) && Handle(e, cmd).Ok?
    requires Handle(e, cmd).value.core.orders == Intake(e.core, cmd).orders
    ensures Handle(e, cmd).value.core.Get(NewId(cmd)).executed == 0
  {
    HandleSubmits(e, cmd);
  }

  /** The stub's answer at the start of a command. */
  lemma {:induction false} StubEntry(b: Engine, id: OrderId)
    requires b.wiring.Patched? && b.wiring.start == |b.log| && |b.wiring.batch| > 1
    requires !b.wiring.batch[1].OrderCancelled?
    ensures EntryAnswer(b, id)
  {
  }

  /** A stub whose second event is no cancellation lets a crossing order in and trades it. */
  lemma {:induction false} StubTakesOver(b: Engine, cmd: Command)
    requires Inv(b.core) && CmdOk(b.core, cmd) && Submits(cmd)
    requires b.wiring.Patched? && b.wiring.start == |b.log| && |b.wiring.batch| > 1
    requires !b.wiring.batch[1].OrderCancelled?
    requires var c := Intake(b.core, cmd); Crossable(c.book, c.Get(NewId(cmd)))
    ensures EntryAnswer(b.(core := Intake(b.core, cmd)), NewId(cmd))
    ensures Handle(b, cmd).Ok? ==> Handle(b, cmd).value.core.Get(NewId(cmd)).executed > 0
  {
    HandleSubmits(b, cmd);
    var b0 := b.(core := Intake(b.core, cmd));
    StubEntry(b0, NewId(cmd));
    StubMatches(b0, NewId(cmd), StoredBy(cmd));
    LetInMatches(b0, NewId(cmd), StoredBy(cmd));
  }

  lemma {:induction false} LetInMatches(e: Engine, id: OrderId, stored: set<OrderId>)
    requires Crossable(e.core.book, e.core.Get(id)) && EntryAnswer(e, id)
    ensures Submit(e, id, stored) == MatchOrRest(Entered(e, id), id, stored)
  {
    SubmitCases(e, id, stored);
  }

  /** A command whose order is let in does not raise. */
  lemma {:induction false} LetInNeverRaises(b: Engine, cmd: Command)
    requires Inv(b.core) && NoOco(b.core) && CmdOk(b.core, cmd) && Submits(cmd)
    requires EntryAnswer(b.(core := Intake(b.core, cmd)), NewId(cmd))
    ensures Handle(b, cmd).Ok?
  {
    HandleRaisesIffNoOco(b, cmd);
  }

  lemma {:induction false} StubMatches(b: Engine, id: OrderId, stored: set<OrderId>)
    requires Inv(b.core) && Entering(b.core, id) && Crossable(b.core.book, b.core.Get(id))
    requires b.core.orders[id].executed == 0
    requires b.wiring.Patched? && b.wiring.start == |b.log| && |b.wiring.batch| > 1
    requires !b.wiring.batch[1].OrderCancelled?
    ensures MatchOrRest(Entered(b, id), id, stored).Ok? ==>
      MatchOrRest(Entered(b, id), id, stored).value.core.Get(id).executed > 0
  {
    var b1 := Entered(b, id);
    assert OrderInv(b.core, id, {}, {});
    FrontFacts(b.core, b.core.orders[id].side.Opposite());
    var side := b.core.orders[id].side.Opposite();
    assert IsBest(b.core.book, side, Best(b.core.book, side).value);
    assert !Stops(b1.core, id);
    if MatchOrRest(b1, id, stored).Ok? {
      StubTrades(b1, id);
      MatchOrRestOrders(b1, id, stored);
    }
  }

  // ---- The first failed check of a maker ----

  /** The events that are no balance events. */
  function Strip(log: seq<Event>): seq<Event> {
    if log == [] then []
    else Strip(log[..|log| - 1]) + (if log[|log| - 1].BalanceChanged? then [] else [log[|log| - 1]])
  }

  /** How many balance events there are. */
  function Moves(log: seq<Event>): int { |log| - |Strip(log)| }

  lemma {:induction false} StripConcat(x: seq<Event>, y: seq<Event>)
    ensures Strip(x + y) == Strip(x) + Strip(y)
  {
    if y == [] {
      assert x + y == x;
    } else {
      var n := |y| - 1;
      assert (x + y)[..|x + y| - 1] == x + y[..n];
      StripConcat(x, y[..n]);
    }
  }

  lemma {:induction false} StripShortens(x: seq<Event>)
    ensures |Strip(x)| <= |x|
  {
    if x != [] { StripShortens(x[..|x| - 1]); }
  }

  lemma {:induction false} StripOrders(x: seq<Event>)
    requires forall i :: 0 <= i < |x| ==> !x[i].BalanceChanged?
    ensures Strip(x) == x
  {
    if x != [] { StripOrders(x[..|x| - 1]); }
  }

  /** From `a` to `a'` the main engine logs what the replica logs from `b` to `b'`, and balance events. */
  ghost predicate LogsAlike(a: Engine, a': Engine, b: Engine, b': Engine) {
    a.log <= a'.log && b'.log == b.log + Strip(a'.log[|a.log|..])
  }

  lemma {:induction false} LogsThen(a: Engine, a1: Engine, a': Engine, b: Engine, b1: Engine, b': Engine)
    requires LogsAlike(a, a1, b, b1) && LogsAlike(a1, a', b1, b')
    ensures LogsAlike(a, a', b, b')
  {
    StripThen(a.log, a1.log, a'.log);
    Regroup(b.log, Strip(a1.log[|a.log|..]), Strip(a'.log[|a1.log|..]));
  }

  lemma Regroup(x: seq<Event>, y: seq<Event>, z: seq<Event>)
    ensures (x + y) + z == x + (y + z)
  {
  }

  lemma {:induction false} StripThen(x: seq<Event>, y: seq<Event>, z: seq<Event>)
    requires x <= y <= z
    ensures x <= z && Strip(z[|x|..]) == Strip(y[|x|..]) + Strip(z[|y|..])
  {
    LogParts(x, y, z);
    StripConcat(y[|x|..], z[|y|..]);
  }

  lemma {:induction false} LogParts(x: seq<Event>, y: seq<Event>, z: seq<Event>)
    requires x <= y <= z
    ensures x <= z && z[|x|..] == y[|x|..] + z[|y|..]
  {
  }

  lemma {:induction false} EmitLogs(a: Engine, b: Engine, u: UserId, events: seq<Event>)
    requires forall i :: 0 <= i < |events| ==> !events[i].BalanceChanged?
    ensures LogsAlike(a, Emit(a, u, events), b, Emit(b, u, events))
  {
    StripOrders(events);
    assert (a.log + events)[|a.log|..] == events;
  }

  lemma {:induction false} DoLogs(a: Engine, b: Engine, op: BalanceOp)
    requires b.wiring.Patched?
    ensures LogsAlike(a, Do(a, op), b, Do(b, op)) && Do(b, op) == b
  {
    assert (a.log + [BalanceChanged(op)])[|a.log|..] == [BalanceChanged(op)];
    assert [BalanceChanged(op)][..0] == [];
  }

  lemma {:induction false} FillBothLogs(a: Engine, b: Engine, t: OrderId, m: OrderId, q: int, p: Price)
    requires a.core == b.core && b.wiring.Patched?
    ensures LogsAlike(a, FillBoth(a, t, m, q, p), b, FillBoth(b, t, m, q, p))
  {
    var c := FillCore(FillCore(a.core, t, q, p), m, q, p);
    var a1, b1 := a.(core := c), b.(core := c);
    var t', m' := c.Get(t), c.Get(m);
    EmitLogs(a1, b1, t'.user, [FillEvent(t')]);
    var a2, b2 := Emit(a1, t'.user, [FillEvent(t')]), Emit(b1, t'.user, [FillEvent(t')]);
    EmitLogs(a2, b2, m'.user, [FillEvent(m')]);
    LogsThen(a1, a2, Emit(a2, m'.user, [FillEvent(m')]), b1, b2, Emit(b2, m'.user, [FillEvent(m')]));
  }

  lemma {:induction false} TradeEventsLogs(a: Engine, b: Engine, t: Order, m: Order, q: int, p: Price)
    ensures LogsAlike(a, TradeEvents(a, t, m, q, p), b, TradeEvents(b, t, m, q, p))
  {
    var x, y := [NewTrade(t.id, q, p, Taker)], [NewTrade(m.id, q, p, Maker)];
    EmitLogs(a, b, t.user, x);
    EmitLogs(Emit(a, t.user, x), Emit(b, t.user, x), m.user, y);
    LogsThen(a, Emit(a, t.user, x), TradeEvents(a, t, m, q, p), b, Emit(b, t.user, x), TradeEvents(b, t, m, q, p));
  }

  lemma {:induction false} HookLogs(a: Engine, b: Engine, id: OrderId)
    requires a.core == b.core && b.wiring.Patched? && Hook(a, id).Ok? && !a.core.Get(id).strategy.OcoLeg?
    ensures Hook(b, id).Ok? && LogsAlike(a, Hook(a, id).value, b, Hook(b, id).value)
    ensures Hook(a, id).value.core == Hook(b, id).value.core && Hook(b, id).value.wiring == b.wiring
  {
    var o := a.core.Get(id);
    if o.strategy.OtoParent? && o.Complete() {
      var c := HookCore(a.core, id).value;
      var ch := c.Get(o.strategy.child);
      EmitLogs(a.(core := c), b.(core := c), ch.user, [OrderPlaced(o.strategy.child, ch)]);
    } else {
      NothingLogged(a, b);
    }
  }

  lemma {:induction false} NothingLogged(a: Engine, b: Engine)
    ensures LogsAlike(a, a, b, b)
  {
    assert a.log[|a.log|..] == [];
  }

  lemma {:induction false} HoldLogs(a: Engine, b: Engine, o: Order)
    requires b.wiring.Patched?
    ensures LogsAlike(a, HoldOnFirstFill(a, o), b, b) && HoldOnFirstFill(b, o) == b
  {
    DoLogs(a, b, HoldOp(o));
    NothingLogged(a, b);
  }

  lemma {:induction false} SettleLogs(a: Engine, b: Engine, t: Order, m: Order, q: int, p: Price)
    requires b.wiring.Patched?
    ensures LogsAlike(a, Settle(a, t, m, q, p), b, b) && Settle(b, t, m, q, p) == b
  {
    var a1 := HoldOnFirstFill(a, m);
    HoldLogs(a, b, m);
    var a2 := HoldOnFirstFill(a1, t);
    HoldLogs(a1, b, t);
    LogsThen(a, a1, a2, b, b, b);
    var a3 := Do(a2, SettleOp(t, q, p));
    DoLogs(a2, b, SettleOp(t, q, p));
    LogsThen(a, a2, a3, b, b, b);
    DoLogs(a3, b, SettleOp(m, q, p));
    LogsThen(a, a3, Do(a3, SettleOp(m, q, p)), b, b, b);
  }

  /** Both engines trade: the replica logs the same events, without the balance events. */
  lemma {:induction false} TradeLogs(a: Engine, b: Engine, t: OrderId, m: OrderId, q: int, p: Price)
    requires a.core == b.core && b.wiring.Patched? && Meets(a.core, t, m) && NoOco(a.core)
    requires q == TradeQuantity(a.core, t, m) && Trade(a, t, m, q, p).Ok?
    ensures Trade(b, t, m, q, p).Ok? && LogsAlike(a, Trade(a, t, m, q, p).value, b, Trade(b, t, m, q, p).value)
  {
    var taker, maker := a.core.orders[t], a.core.orders[m];
    assert OrderInv(a.core, t, {}, {}) && OrderInv(a.core, m, {}, {});
    TradeEventsLogs(a, b, taker, maker, q, p);
    var a0, b0 := TradeEvents(a, taker, maker, q, p), TradeEvents(b, taker, maker, q, p);
    FillBothLogs(a0, b0, t, m, q, p);
    var a1, b1 := FillBoth(a0, t, m, q, p), FillBoth(b0, t, m, q, p);
    LogsThen(a, a0, a1, b, b0, b1);
    FillsKeep(a.core, t, m, q, p);
    assert a1.core == Filled(a.core, t, m, q, p) && b1.core == a1.core && b1.wiring == b.wiring;
    ReactLogs(a1, b1, t, m);
    var a3, b3 := Hook(Hook(a1, t).value, m).value, Hook(Hook(b1, t).value, m).value;
    LogsThen(a, a1, a3, b, b1, b3);
    var c := RetireCore(a3.core, m).value;
    SettleLogs(a3.(core := c), b3.(core := c), taker, maker, q, p);
    LogsThen(a, a3.(core := c), Settle(a3.(core := c), taker, maker, q, p), b, b3.(core := c), b3.(core := c));
  }

  lemma {:induction false} ReactLogs(a: Engine, b: Engine, t: OrderId, m: OrderId)
    requires a.core == b.core && b.wiring.Patched? && t in a.core.orders && m in a.core.orders
    requires MidInv(a.core, {t, m}, {t, m}) && a.core.orders[t].executed > 0
    requires !a.core.orders[t].strategy.OcoLeg? && !a.core.orders[m].strategy.OcoLeg?
    requires Hook(a, t).Ok? && Hook(Hook(a, t).value, m).Ok?
    ensures Hook(b, t).Ok? && Hook(Hook(b, t).value, m).Ok?
    ensures var a', b' := Hook(Hook(a, t).value, m).value, Hook(Hook(b, t).value, m).value;
      LogsAlike(a, a', b, b') && a'.core == b'.core && b'.wiring == b.wiring
  {
    HookLogs(a, b, t);
    HookProjects(a, t);
    HookKeeps(a.core, t, {t, m}, {t, m});
    var a1, b1 := Hook(a, t).value, Hook(b, t).value;
    HookLogs(a1, b1, m);
    LogsThen(a, a1, Hook(a1, m).value, b, b1, Hook(b1, m).value);
  }

  /**
   * The replica `b` has followed the main engine from `a0` to `a` through checks that all passed: it has
   * logged the same events without the balance events, and its batch is the whole command's log.
   */
  ghost predicate Follows(a0: Engine, a: Engine, b: Engine, last: Engine) {
    && a.core == b.core && a.wiring.Live? && Clean(a0, a) && a0.log <= last.log
    && b.wiring == Patched(NewEvents(a0, last), 0) && b.log == Strip(NewEvents(a0, a))
  }

  /** Both go on trading. */
  lemma {:induction false} FollowsOn(a0: Engine, a: Engine, b: Engine, last: Engine, t: OrderId, m: OrderId, p: Price)
    requires Follows(a0, a, b, last) && Meets(a.core, t, m) && NoOco(a.core) && Encounter(a, t, m, p).Ok?
    requires var q := TradeQuantity(a.core, t, m); Answer(a, a.core.Get(m), q, p) && Answer(b, b.core.Get(m), q, p)
    ensures Encounter(b, t, m, p).Ok?
    ensures Follows(a0, Encounter(a, t, m, p).value, Encounter(b, t, m, p).value, last)
  {
    var q := TradeQuantity(a.core, t, m);
    var a1, b1 := Checked(a, a.core.Get(m), q, p), Checked(b, b.core.Get(m), q, p);
    TradeLogs(a1, b1, t, m, q, p);
    TradeClean(a1, t, m, q, p);
    TradeProjects(a1, t, m, q, p);
    TradeProjects(b1, t, m, q, p);
    EncounterAnswers(a, t, m, p);
    EncounterAnswers(b, t, m, p);
    FollowsAppend(a0, a, Encounter(a, t, m, p).value, b, Encounter(b, t, m, p).value, last);
  }

  lemma {:induction false} FollowsAppend(a0: Engine, a: Engine, a': Engine, b: Engine, b': Engine, last: Engine)
    requires Follows(a0, a, b, last) && LogsAlike(a, a', b, b') && Clean(a, a')
    requires a'.core == b'.core && a'.wiring.Live? && b'.wiring == b.wiring
    ensures Follows(a0, a', b', last)
  {
    CleanThen(a0, a, a');
    StripThen(a0.log, a.log, a'.log);
  }

  /** A maker that is cancelled for lack of funds logs a cancellation and a release. */
  lemma {:induction false} FailureEvents(a: Engine, t: OrderId, m: OrderId, p: Price)
    requires Meets(a.core, t, m) && NoOco(a.core) && a.wiring.Live? && Encounter(a, t, m, p).Ok?
    requires !Answer(a, a.core.Get(m), TradeQuantity(a.core, t, m), p)
    ensures Encounter(a, t, m, p).value.log
         == a.log + [OrderCancelled(m), BalanceChanged(ReleaseOp(a.core.Get(m)))]
  {
    var o := a.core.Get(m);
    assert OrderInv(a.core, m, {}, {});
    var e := Checked(a, o, TradeQuantity(a.core, t, m), p);
    CancelProjects(e, m);
    var c := CancelCore(e.core, m).value;
    UnbookAllOrders(e.core, CancelTargets(o));
    assert CancelTargets(o) == [m] && c.Get(CancelReleases(o)) == o;
    assert Cancellations([m]) == [OrderCancelled(m)] + Cancellations([]);
    var e1 := Emit(e.(core := c), o.user, Cancellations(CancelTargets(o)));
    assert CancelOrder(e, m) == Ok(Release(e1, o));
  }

  /** The stub's look-ahead, on the batch of a command whose first failure comes after the events `done`. */
  lemma {:induction false} LookAhead(done: seq<Event>, m: OrderId, op: BalanceOp, batch: seq<Event>)
    requires forall i :: 0 <= i < |done| ==> !done[i].OrderCancelled?
    requires done + [OrderCancelled(m), BalanceChanged(op)] <= batch
    ensures |Strip(done)| + 1 < |batch|
    ensures batch[|Strip(done)| + 1].OrderCancelled? <==> Moves(done) == 1
  {
    StripShortens(done);
    var next := |Strip(done)| + 1;
    var known := done + [OrderCancelled(m), BalanceChanged(op)];
    assert batch[next] == known[next];
  }

  /**
   * The first failed check of a command, on a maker: the replica that has followed so far notices it if and
   * only if the command had logged exactly one balance event before.
   */
  lemma {:induction false} FirstFailureSeenIff(a0: Engine, a: Engine, b: Engine, last: Engine, t: OrderId, m: OrderId,
                                               p: Price)
    requires Follows(a0, a, b, last) && Meets(a.core, t, m) && NoOco(a.core)
    requires Encounter(a, t, m, p).Ok? && Encounter(a, t, m, p).value.log <= last.log
    requires !Answer(a, a.core.Get(m), TradeQuantity(a.core, t, m), p)
    ensures !Answer(b, b.core.Get(m), TradeQuantity(b.core, t, m), p) <==> Moves(NewEvents(a0, a)) == 1
  {
    FailureEvents(a, t, m, p);
    var done := NewEvents(a0, a);
    var op := ReleaseOp(a.core.Get(m));
    var batch := NewEvents(a0, last);
    assert a.log == a0.log + done;
    assert last.log[..|a.log| + 2] == a.log + [OrderCancelled(m), BalanceChanged(op)];
    assert done + [OrderCancelled(m), BalanceChanged(op)] <= batch;
    LookAhead(done, m, op, batch);
  }

  /** From `e` to `e'` the sweep meets one maker, whose check passes. */
  ghost predicate PassesTo(e: Engine, e': Engine, t: OrderId) {
    !Stops(e.core, t) && FrontPasses(e, t) && MeetFront(e, t) == Ok(e')
  }

  /** The states of a sweep as long as checks pass. */
  ghost predicate PassingTrace(xs: seq<Engine>, t: OrderId) {
    xs != [] && forall i :: 0 <= i < |xs| - 1 ==> PassesTo(xs[i], xs[i + 1], t)
  }

  /** Main engine and replica in the middle of the same sweep. */
  ghost predicate Together(a0: Engine, a: Engine, b: Engine, last: Engine, t: OrderId) {
    Follows(a0, a, b, last) && Inv(a.core) && Entering(a.core, t) && NoOco(a.core)
  }

  lemma {:induction false} TogetherOn(a0: Engine, a: Engine, a': Engine, b: Engine, b': Engine, last: Engine,
                                      t: OrderId)
    requires Together(a0, a, b, last, t) && PassesTo(a, a', t) && PassesTo(b, b', t)
    ensures Together(a0, a', b', last, t)
  {
    var side := a.core.Get(t).side.Opposite();
    FrontMeets(a.core, t);
    FollowsOn(a0, a, b, last, t, Front(a.core.book, side).value, Best(a.core.book, side).value);
    FrontKeeps(a, t);
    FrontNoOco(a, t);
  }

  /** As long as both answer yes, the replica follows. */
  lemma {:induction false} FollowsAlong(a0: Engine, xs: seq<Engine>, ys: seq<Engine>, last: Engine, t: OrderId, k: nat)
    requires PassingTrace(xs, t) && PassingTrace(ys, t) && |xs| == |ys| && k < |xs|
    requires Together(a0, xs[0], ys[0], last, t)
    ensures Together(a0, xs[k], ys[k], last, t)
    decreases k
  {
    if k > 0 {
      FollowsAlong(a0, xs, ys, last, t, k - 1);
      assert PassesTo(xs[k - 1], xs[k], t) && PassesTo(ys[k - 1], ys[k], t);
      TogetherOn(a0, xs[k - 1], xs[k], ys[k - 1], ys[k], last, t);
    }
  }

  /**
   * Over a whole sweep: after any number of makers that passed on both sides, the main engine's first
   * failure is noticed by the replica if and only if exactly one balance event had been logged by then.
   */
  lemma {:induction false} FailureSeenIff(a0: Engine, xs: seq<Engine>, ys: seq<Engine>, last: Engine, t: OrderId)
    requires PassingTrace(xs, t) && PassingTrace(ys, t) && |xs| == |ys| && Together(a0, xs[0], ys[0], last, t)
    requires var a := xs[|xs| - 1];
      !Stops(a.core, t) && !FrontPasses(a, t) && MeetFront(a, t).Ok? && MeetFront(a, t).value.log <= last.log
    ensures var a, b := xs[|xs| - 1], ys[|ys| - 1];
      !Stops(b.core, t) && (!FrontPasses(b, t) <==> Moves(NewEvents(a0, a)) == 1)
  {
    FollowsAlong(a0, xs, ys, last, t, |xs| - 1);
    var a, b := xs[|xs| - 1], ys[|ys| - 1];
    var side := a.core.Get(t).side.Opposite();
    FrontMeets(a.core, t);
    FirstFailureSeenIff(a0, a, b, last, t, Front(a.core.book, side).value, Best(a.core.book, side).value);
  }

  // ---- The replica follows exactly if its answers are the main engine's ----

  /** Whether the first maker was traded with or cancelled can be read off the core at the end. */
  lemma {:induction false} FrontAnswerShows(e: Engine, t: OrderId)
    requires Inv(e.core) && Entering(e.core, t) && NoOco(e.core)
    requires !Stops(e.core, t)
    ensures Sweep(e, t).Ok? && MeetFront(e, t).Ok?
    ensures var m := Front(e.core.book, e.core.Get(t).side.Opposite()).value;
      FrontPasses(e, t) <==> Sweep(e, t).value.core.Get(m).executed > e.core.Get(m).executed
  {
    var c := e.core;
    var side := c.Get(t).side.Opposite();
    var m, p := Front(c.book, side).value, Best(c.book, side).value;
    SweepNeverRaises(e, t);
    FirstMeetingIsOk(e, t);
    FrontMeets(c, t);
    FrontFacts(c, side);
    FrontKeeps(e, t);
    FrontNoOco(e, t);
    EncounterProjects(e, t, m, p);
    var e1 := MeetFront(e, t).value;
    if FrontPasses(e, t) {
      FillsKeep(c, t, m, TradeQuantity(c, t, m), p);
      TradeKeeps(c, t, m, TradeQuantity(c, t, m), p);
      SweepKeeps(e1, t);
      assert e1.core.orders[m].executed <= Sweep(e1, t).value.core.orders[m].executed;
    } else {
      CancelledIsGone(c, t, m, p);
      SweepKeepsGone(e1, t, m);
    }
  }

  /** A maker cancelled for lack of funds is gone. */
  lemma {:induction false} CancelledIsGone(c: Core, t: OrderId, m: OrderId, p: Price)
    requires Meets(c, t, m) && NoOco(c) && CancelCore(c, m).Ok?
    ensures Gone(CancelCore(c, m).value, m) && CancelCore(c, m).value.orders == c.orders
  {
    assert OrderInv(c, m, {}, {}) && InLevel(c.book, c.orders[m].Key(), m);
    CancelKeeps(c, m);
  }

  /** Answers that lead to the same orders are the same answers. */
  lemma {:induction false} SweepAnswersShow(a: Engine, b: Engine, t: OrderId)
    requires a.core == b.core && Inv(a.core) && Entering(a.core, t) && NoOco(a.core)
    requires Sweep(a, t).Ok? && Sweep(b, t).Ok? && Sweep(a, t).value.core.orders == Sweep(b, t).value.core.orders
    ensures Since(a, Sweep(a, t).value) == Since(b, Sweep(b, t).value)
    decreases RestingOn(a.core.book, a.core.Get(t).side.Opposite())
  {
    if Stops(a.core, t) {
      SweepEnds(a, t);
      SweepEnds(b, t);
    } else {
      var a1, b1 := FrontAnswersShow(a, b, t);
      if Stops(a1.core, t) {
        SweepEnds(a1, t);
        SweepEnds(b1, t);
      } else {
        SweepAnswersShow(a1, b1, t);
      }
      AnswersJoin(a, a1, t);
      AnswersJoin(b, b1, t);
    }
  }

  /** The first answers are the same, and both sweeps go on from the same core. */
  lemma {:induction false} FrontAnswersShow(a: Engine, b: Engine, t: OrderId) returns (a1: Engine, b1: Engine)
    requires a.core == b.core && Inv(a.core) && Entering(a.core, t) && NoOco(a.core)
    requires Sweep(a, t).Ok? && Sweep(b, t).Ok? && Sweep(a, t).value.core.orders == Sweep(b, t).value.core.orders
    requires !Stops(a.core, t)
    ensures MeetFront(a, t) == Ok(a1) && MeetFront(b, t) == Ok(b1) && FrontPasses(a, t) == FrontPasses(b, t)
    ensures a1.core == b1.core && Inv(a1.core) && Entering(a1.core, t) && NoOco(a1.core)
    ensures a1.core.Get(t).side == a.core.Get(t).side
    ensures Sweep(a, t) == Sweep(a1, t) && Sweep(b, t) == Sweep(b1, t)
    ensures var side := a.core.Get(t).side.Opposite();
      !Stops(a1.core, t) ==> RestingOn(a1.core.book, side) < RestingOn(a.core.book, side)
  {
    FrontAnswerShows(a, t);
    FrontAnswerShows(b, t);
    FrontKeeps(a, t);
    FrontKeeps(b, t);
    FrontNoOco(a, t);
    a1, b1 := MeetFront(a, t).value, MeetFront(b, t).value;
    FrontSame(a, b, t);
  }

  lemma {:induction false} FrontSame(a: Engine, b: Engine, t: OrderId)
    requires a.core == b.core && Inv(a.core) && Entering(a.core, t) && !Stops(a.core, t)
    requires FrontPasses(a, t) == FrontPasses(b, t) && MeetFront(a, t).Ok? && MeetFront(b, t).Ok?
    ensures MeetFront(a, t).value.core == MeetFront(b, t).value.core
    ensures a.core.Get(t).strategy == MeetFront(a, t).value.core.Get(t).strategy
  {
    var side := a.core.Get(t).side.Opposite();
    var m, p := Front(a.core.book, side).value, Best(a.core.book, side).value;
    FrontMeets(a.core, t);
    EncounterProjects(a, t, m, p);
    EncounterProjects(b, t, m, p);
    EncounterCoreKeeps(a.core, t, m, p, FrontPasses(a, t));
    assert Terms(MeetFront(a, t).value.core.orders[t]) == Terms(a.core.orders[t]);
  }

  lemma {:induction false} AnswersJoin(e: Engine, e1: Engine, t: OrderId)
    requires !Stops(e.core, t) && MeetFront(e, t) == Ok(e1) && Sweep(e, t) == Sweep(e1, t) && Sweep(e1, t).Ok?
    ensures Since(e, Sweep(e, t).value) == [FrontPasses(e, t)] + Since(e1, Sweep(e1, t).value)
  {
    var side := e.core.Get(t).side.Opposite();
    EncounterAnswers(e, t, Front(e.core.book, side).value, Best(e.core.book, side).value);
    SweepAnswers(e1, t);
    SinceSplits(e, e1, Sweep(e1, t).value);
  }

  /** A crossing order leaves a mark exactly if it was let in. */
  ghost predicate LeftMark(c: Core, c': Core, id: OrderId) {
    var front := Front(c.book, c.Get(id).side.Opposite());
    c'.Get(id).executed > 0 || (front.Some? && !c'.Resting(front.value))
  }

  /** Whether the entry check passed can be read off the core at the end. */
  lemma {:induction false} EntryAnswerShows(e: Engine, id: OrderId, stored: set<OrderId>)
    requires Inv(e.core) && Entering(e.core, id) && NoOco(e.core)
    requires Crossable(e.core.book, e.core.Get(id)) && e.core.orders[id].executed == 0 && Submit(e, id, stored).Ok?
    ensures EntryAnswer(e, id) <==> LeftMark(e.core, Submit(e, id, stored).value.core, id)
  {
    var e1 := Entered(e, id);
    var side := e.core.Get(id).side.Opposite();
    SubmitCases(e, id, stored);
    assert OrderInv(e.core, id, {}, {});
    FrontFacts(e.core, side);
    assert IsBest(e.core.book, side, Best(e.core.book, side).value);
    assert !Stops(e1.core, id);
    if EntryAnswer(e, id) {
      LetInLeavesMark(e1, id, stored);
    } else {
      RejectLeavesNone(e1, id);
    }
  }

  lemma {:induction false} RejectLeavesNone(e: Engine, id: OrderId)
    requires Inv(e.core) && Entering(e.core, id) && e.core.orders[id].executed == 0 && Reject(e, id).Ok?
    ensures !LeftMark(e.core, Reject(e, id).value.core, id)
  {
    CancelProjects(e, id);
    UnplacedCancel(e.core, id);
    FrontFacts(e.core, e.core.Get(id).side.Opposite());
  }

  /** Cancelling an order that was never placed changes nobody's place. */
  lemma {:induction false} UnplacedCancel(c: Core, id: OrderId)
    requires Inv(c) && Entering(c, id) && CancelCore(c, id).Ok?
    ensures var c' := CancelCore(c, id).value;
      c'.orders == c.orders && forall x :: c'.Resting(x) <==> c.Resting(x)
  {
    assert OrderInv(c, id, {}, {});
    UnbookEffect(c, id);
    assert UnbookAll(c, [id]) == UnbookAll(Unbook(c, id).value, []);
  }

  lemma {:induction false} LetInLeavesMark(e: Engine, id: OrderId, stored: set<OrderId>)
    requires Inv(e.core) && Entering(e.core, id) && NoOco(e.core)
    requires !Stops(e.core, id) && e.core.orders[id].executed == 0 && MatchOrRest(e, id, stored).Ok?
    ensures LeftMark(e.core, MatchOrRest(e, id, stored).value.core, id)
  {
    var side := e.core.orders[id].side.Opposite();
    var m, p := Front(e.core.book, side).value, Best(e.core.book, side).value;
    var e2 := Sweep(e, id).value;
    SweepMark(e, id);
    SweepKeeps(e, id);
    MatchOrRestOrders(e, id, stored);
    if !e2.core.Get(id).Complete() && !e2.core.Resting(m) {
      FrontMeets(e.core, id);
      UnbookedStays(e2.core, id, m);
    }
  }

  lemma {:induction false} UnbookedStays(c: Core, id: OrderId, m: OrderId)
    requires Inv(c) && Entering(c, id) && m != id && !c.Resting(m)
    ensures Enbook(c, id).Ok? && !Enbook(c, id).value.Resting(m)
  {
    EnbookEffect(c, id);
  }

  lemma {:induction false} SweepMark(e: Engine, t: OrderId)
    requires Inv(e.core) && Entering(e.core, t) && NoOco(e.core)
    requires !Stops(e.core, t) && e.core.orders[t].executed == 0
    ensures Sweep(e, t).Ok?
    ensures var c' := Sweep(e, t).value.core;
      c'.Get(t).executed > 0 || !c'.Resting(Front(e.core.book, e.core.orders[t].side.Opposite()).value)
  {
    var side := e.core.orders[t].side.Opposite();
    var m := Front(e.core.book, side).value;
    SweepNeverRaises(e, t);
    SweepKeeps(e, t);
    FrontFacts(e.core, side);
    var c' := Sweep(e, t).value.core;
    assert OrderInv(e.core, t, {}, {}) && Terms(c'.orders[m]) == Terms(e.core.orders[m]);
    assert c'.orders[m].Key() == LevelKey(side, c'.orders[m].price);
  }

  /**
   * The converse of determinism: two engines with the same core handle a SINGLE order or OTO parent to the
   * same core only if their balance checks answer the same.
   */
  lemma {:induction false} FollowedIffSameAnswers(a: Engine, b: Engine, cmd: Command)
    requires a.core == b.core && Inv(a.core) && NoOco(a.core) && CmdOk(a.core, cmd) && Submits(cmd)
    requires Handle(a, cmd).Ok? && Handle(b, cmd).Ok?
    ensures Handle(a, cmd).value.core == Handle(b, cmd).value.core
       <==> Since(a, Handle(a, cmd).value) == Since(b, Handle(b, cmd).value)
  {
    if Since(a, Handle(a, cmd).value) == Since(b, Handle(b, cmd).value) {
      HandleDetermined(true, a, b, cmd);
    } else if Handle(a, cmd).value.core == Handle(b, cmd).value.core {
      HandleSubmits(a, cmd);
      HandleSubmits(b, cmd);
      var a0, b0 := a.(core := Intake(a.core, cmd)), b.(core := Intake(b.core, cmd));
      SubmitAnswersShow(a0, b0, NewId(cmd), StoredBy(cmd));
      assert false;
    }
  }

  lemma {:induction false} SubmitAnswersShow(a: Engine, b: Engine, id: OrderId, stored: set<OrderId>)
    requires a.core == b.core && Inv(a.core) && Entering(a.core, id) && NoOco(a.core)
    requires a.core.orders[id].executed == 0 && Submit(a, id, stored).Ok? && Submit(b, id, stored).Ok?
    requires Submit(a, id, stored).value.core == Submit(b, id, stored).value.core
    ensures Since(a, Submit(a, id, stored).value) == Since(b, Submit(b, id, stored).value)
  {
    SubmitCases(a, id, stored);
    SubmitCases(b, id, stored);
    if !Crossable(a.core.book, a.core.Get(id)) {
      PlaceSame(true, a, b, id, stored);
    } else {
      EntryAnswerShows(a, id, stored);
      EntryAnswerShows(b, id, stored);
      CrossingAnswers(a, id, stored);
      CrossingAnswers(b, id, stored);
      var a1, b1 := Entered(a, id), Entered(b, id);
      SinceSplits(a, a1, Submit(a, id, stored).value);
      SinceSplits(b, b1, Submit(b, id, stored).value);
      if EntryAnswer(a, id) {
        RestAnswersShow(a1, b1, id, stored);
      } else {
        RejectAnswers(a1, id);
        RejectAnswers(b1, id);
      }
    }
  }

  /** Resting the remainder does not hide what the sweep did. */
  lemma {:induction false} RestAnswersShow(a: Engine, b: Engine, id: OrderId, stored: set<OrderId>)
    requires a.core == b.core && Inv(a.core) && Entering(a.core, id) && NoOco(a.core)
    requires MatchOrRest(a, id, stored).Ok? && MatchOrRest(b, id, stored).Ok?
    requires MatchOrRest(a, id, stored).value.core == MatchOrRest(b, id, stored).value.core
    ensures Since(a, MatchOrRest(a, id, stored).value) == Since(b, MatchOrRest(b, id, stored).value)
  {
    RestAnswers(a, id, stored);
    RestAnswers(b, id, stored);
    MatchOrRestOrders(a, id, stored);
    MatchOrRestOrders(b, id, stored);
    SweepAnswersShow(a, b, id);
  }

  // ---- A command whose first maker cannot pay ----

  lemma {:induction false} SweepGrows(e: Engine, t: OrderId)
    requires Inv(e.core) && Entering(e.core, t) && Sweep(e, t).Ok?
    ensures e.log <= Sweep(e, t).value.log
    decreases RestingOn(e.core.book, e.core.Get(t).side.Opposite())
  {
    if Stops(e.core, t) {
      SweepEnds(e, t);
    } else {
      FirstMeetingIsOk(e, t);
      FrontKeeps(e, t);
      FrontGrows(e, t);
      var e1 := MeetFront(e, t).value;
      if Stops(e1.core, t) { SweepEnds(e1, t); } else { SweepGrows(e1, t); }
      PrefixThen(e.log, e1.log, Sweep(e1, t).value.log);
    }
  }

  lemma {:induction false} FrontGrows(e: Engine, t: OrderId)
    requires !Stops(e.core, t) && MeetFront(e, t).Ok?
    ensures e.log <= MeetFront(e, t).value.log
  {
    var side := e.core.Get(t).side.Opposite();
    var m, p := Front(e.core.book, side).value, Best(e.core.book, side).value;
    var q := TradeQuantity(e.core, t, m);
    var e1 := Checked(e, e.core.Get(m), q, p);
    if Answer(e, e.core.Get(m), q, p) { TradeGrows(e1, t, m, q, p); } else { CancelGrows(e1, m); }
  }

  lemma {:induction false} MatchOrRestGrows(e: Engine, id: OrderId, stored: set<OrderId>)
    requires Inv(e.core) && Entering(e.core, id) && MatchOrRest(e, id, stored).Ok?
    ensures Sweep(e, id).Ok? && Sweep(e, id).value.log <= MatchOrRest(e, id, stored).value.log
  {
  }

  /** The main engine let the order in, and its first maker cannot pay. */
  ghost predicate FirstMakerFails(e: Engine, id: OrderId) {
    && Crossable(e.core.book, e.core.Get(id)) && EntryAnswer(e, id)
    && !Stops(e.core, id) && !FrontPasses(Entered(e, id), id)
  }

  /** The sweep's log then starts with a cancellation and a release. */
  lemma {:induction false} SweepStartsWithFailure(e: Engine, t: OrderId)
    requires Inv(e.core) && Entering(e.core, t) && NoOco(e.core) && e.wiring.Live? && Sweep(e, t).Ok?
    requires !Stops(e.core, t) && !FrontPasses(e, t)
    ensures SecondIsBalance(e.log, Sweep(e, t).value.log)
  {
    var side := e.core.Get(t).side.Opposite();
    var m, p := Front(e.core.book, side).value, Best(e.core.book, side).value;
    FirstMeetingIsOk(e, t);
    FrontKeeps(e, t);
    FrontMeets(e.core, t);
    FailureEvents(e, t, m, p);
    var e1 := MeetFront(e, t).value;
    if Stops(e1.core, t) { SweepEnds(e1, t); } else { SweepGrows(e1, t); }
    StartsWith(e.log, e1.log, Sweep(e1, t).value.log, m, ReleaseOp(e.core.Get(m)));
  }

  /** The second event after `x` in `y` is a balance event. */
  ghost predicate SecondIsBalance(x: seq<Event>, y: seq<Event>) {
    x <= y && |y| > |x| + 1 && y[|x| + 1].BalanceChanged?
  }

  lemma {:induction false} StartsWith(x: seq<Event>, y: seq<Event>, z: seq<Event>, m: OrderId, op: BalanceOp)
    requires y == x + [OrderCancelled(m), BalanceChanged(op)] && y <= z
    ensures SecondIsBalance(x, z)
  {
    assert y[|x| + 1] == BalanceChanged(op) && z[|x| + 1] == y[|x| + 1];
  }

  lemma {:induction false} FirstFailureEvents(e: Engine, id: OrderId, stored: set<OrderId>)
    requires Inv(e.core) && Entering(e.core, id) && NoOco(e.core) && e.wiring.Live? && FirstMakerFails(e, id)
    requires Submit(e, id, stored).Ok?
    ensures var events := NewEvents(e, Submit(e, id, stored).value); |events| > 1 && events[1].BalanceChanged?
  {
    var e1 := Entered(e, id);
    SubmitCases(e, id, stored);
    MatchOrRestGrows(e1, id, stored);
    SweepStartsWithFailure(e1, id);
    SecondStays(e.log, Sweep(e1, id).value.log, MatchOrRest(e1, id, stored).value.log);
  }

  lemma {:induction false} SecondStays(x: seq<Event>, y: seq<Event>, z: seq<Event>)
    requires SecondIsBalance(x, y) && y <= z
    ensures x <= z && |z[|x|..]| > 1 && z[|x|..][1].BalanceChanged?
  {
  }

  /** The stub lets the order in and lets its first maker trade. */
  lemma {:induction false} StubSaysYesTwice(b: Engine, id: OrderId)
    requires b.core.Get(id).executed < b.core.Get(id).quantity && !Stops(b.core, id)
    requires b.wiring.Patched? && b.wiring.start == |b.log| && |b.wiring.batch| > 1
    requires b.wiring.batch[1].BalanceChanged?
    ensures EntryAnswer(b, id) && FrontPasses(Entered(b, id), id)
  {
  }

  lemma {:induction false} SubmitAnswersStart(e: Engine, id: OrderId, stored: set<OrderId>)
    requires Inv(e.core) && Entering(e.core, id) && Submit(e, id, stored).Ok?
    requires Crossable(e.core.book, e.core.Get(id)) && EntryAnswer(e, id) && !Stops(e.core, id)
    ensures var answers := Since(e, Submit(e, id, stored).value);
      |answers| > 1 && answers[1] == FrontPasses(Entered(e, id), id)
  {
    var e1 := Entered(e, id);
    SubmitCases(e, id, stored);
    CrossingAnswers(e, id, stored);
    SinceSplits(e, e1, Submit(e, id, stored).value);
    RestAnswers(e1, id, stored);
    FirstMeetingIsOk(e1, id);
    FrontKeeps(e1, id);
    AnswersJoin(e1, MeetFront(e1, id).value, id);
  }

  /** Whatever the state, the shadow does not notice it either, and the cores differ. */
  lemma {:induction false} FirstMakerFailureDiverges(e: Engine, cmd: Command)
    requires Inv(e.core) && NoOco(e.core) && CmdOk(e.core, cmd) && Submits(cmd) && e.wiring.Live?
    requires FirstMakerFails(e.(core := Intake(e.core, cmd)), NewId(cmd)) && Handle(e, cmd).Ok?
    ensures var r := Handle(Stub(e.core, NewEvents(e, Handle(e, cmd).value)), cmd);
      r.Ok? ==> r.value.core != Handle(e, cmd).value.core
  {
    HandleSubmits(e, cmd);
    var id, stored := NewId(cmd), StoredBy(cmd);
    var e0 := e.(core := Intake(e.core, cmd));
    FirstFailureEvents(e0, id, stored);
    var b := Stub(e.core, NewEvents(e, Handle(e, cmd).value));
    var b0 := StubFor(e, cmd);
    HandleSubmits(b, cmd);
    StubSaysYesTwice(b0, id);
    if Handle(b, cmd).Ok? {
      SubmitAnswersStart(e0, id, stored);
      SubmitAnswersStart(b0, id, stored);
      FollowedIffSameAnswers(e, b, cmd);
    }
  }

  // ---- A run the shadow does not follow ----

  /**
   * Any passing run of SINGLE commands, and then a SINGLE order rejected on entry: the shadow, which was in
   * step until then, ends with another core than the main engine, without an exception.
   */
  lemma {:induction false} ShadowDiverges(e: Engine, cmds: seq<Command>, s: OrderSpec, offsets: seq<int>, interval: nat)
    requires |offsets| == |cmds| + 1 && PassingRun(e, cmds) && AllSingle(e.core)
    requires forall i :: 0 <= i < |cmds| ==> SingleCmd(cmds[i])
    requires Rejects(Run(e, cmds).value, s) && Run(e, cmds + [NewSingle(s)]).Ok?
    ensures var r := Shadowed(e, cmds + [NewSingle(s)], offsets, interval);
      r.Ok? && r.value.core != Run(e, cmds + [NewSingle(s)]).value.core
  {
    var all, n := cmds + [NewSingle(s)], |cmds|;
    assert all[..n] == cmds && all[n] == NewSingle(s);
    var mid := Run(e, cmds).value;
    RunKeeps(e, cmds);
    ShadowFollowsSingles(e, cmds, offsets[..n], interval);
    RunAllSingle(e, cmds);
    PassingNoOco(e, cmds);
    EntryFailureMissed(mid, NewSingle(s));
    ShadowedMore(e, all, offsets, interval);
    var stub := Stub(mid.core, NewEvents(mid, Run(e, all).value));
    HandleAllSingle(stub, NewSingle(s));
    HandleKeeps(stub, NewSingle(s));
    AllSingleIsStorable(Handle(stub, NewSingle(s)).value.core);
  }

  /** The order crosses and its owner cannot pay. */
  ghost predicate Rejects(e: Engine, s: OrderSpec) {
    e.wiring.Live? && CmdOk(e.core, NewSingle(s)) && Rejected(e.(core := Intake(e.core, NewSingle(s))), s.id)
  }

  /** One such run: an ask of one unit, then a bid its owner cannot pay for. */
  lemma {:induction false} ShadowDivergesOnce(e: Engine, interval: nat)
    requires e == Engine(EMPTY_CORE, Live(NO_BALANCES), [], [])
    ensures var cmds := [NewSingle(ONE_ASK), NewSingle(BIG_BID)];
      && Run(e, cmds).Ok? && Shadowed(e, cmds, [0, 1], interval).Ok?
      && Shadowed(e, cmds, [0, 1], interval).value.core != Run(e, cmds).value.core
  {
    var first := [NewSingle(ONE_ASK)];
    FirstAskPasses(e);
    BigBidIsRejected(Run(e, first).value);
    RejectionGoesNegative(e);
    assert first + [NewSingle(BIG_BID)] == [NewSingle(ONE_ASK), NewSingle(BIG_BID)];
    ShadowDiverges(e, first, BIG_BID, [0, 1], interval);
  }

  lemma {:induction false} FirstAskPasses(e: Engine)
    requires e == Engine(EMPTY_CORE, Live(NO_BALANCES), [], [])
    ensures PassingRun(e, [NewSingle(ONE_ASK)]) && AllSingle(e.core)
    ensures Run(e, [NewSingle(ONE_ASK)]) == Ok(e.(core := Rested(EMPTY_CORE, ONE_ASK)))
    ensures Inv(Rested(EMPTY_CORE, ONE_ASK))
  {
    var first := [NewSingle(ONE_ASK)];
    assert Inv(EMPTY_CORE) && first[..0] == [] && Run(e, []) == Ok(e) && Admissible(e, []);
    OneAskRests(e);
    HandleKeeps(e, NewSingle(ONE_ASK));
  }
}
