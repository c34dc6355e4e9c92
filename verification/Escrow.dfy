/** What escrow an order holds, when a cancel gives back exactly that, and when it does not. */
module Escrow {
  import opened Types
  import opened Collections
  import opened BookModel
  import opened Ledgers
  import opened EngineSpec
  import opened Invariants
  import opened Matching
  import opened Runs
  import opened PlainRuns
  import opened Accounting
  import opened Conservation

  /** Every fill of the order was at its own price. */
  ghost predicate AtLimit(o: Order) { forall i :: 0 <= i < |o.fills| ==> o.fills[i].price == o.price }

  /** A trade in which the order was the taker has been logged. */
  ghost predicate Took(log: seq<Event>, id: OrderId) {
    exists i :: 0 <= i < |log| && log[i].NewTrade? && log[i].id == id && log[i].role.Taker?
  }

  /** A fill away from the order's price is possible only for a SINGLE or OTO order that took it. */
  ghost predicate MayBeAway(o: Order, log: seq<Event>) {
    !o.strategy.OcoLeg? && (o.user == SYSTEM_USER_ID || Took(log, o.id))
  }

  ghost predicate MakerAtLimit(e: Engine) {
    forall id :: id in e.core.orders ==> AtLimit(e.core.orders[id]) || MayBeAway(e.core.orders[id], e.log)
  }

  // ---- The log only grows ----

  lemma TookGrows(log: seq<Event>, log': seq<Event>, id: OrderId)
    requires Took(log, id) && log <= log'
    ensures Took(log', id)
  {
    var i :| 0 <= i < |log| && log[i].NewTrade? && log[i].id == id && log[i].role.Taker?;
    assert log'[i] == log[i];
  }

  lemma ReleaseGrows(e: Engine, o: Order)
    ensures e.log <= Release(e, o).log
  {
  }

  lemma HookGrows(e: Engine, id: OrderId)
    requires Hook(e, id).Ok?
    ensures e.log <= Hook(e, id).value.log
  {
    var o := e.core.Get(id);
    if o.strategy.OcoLeg? {
      var e1 := Emit(e.(core := HookCore(e.core, id).value), o.user, [OrderCancelled(o.strategy.peer)]);
      ReleaseGrows(e1, o);
    }
  }

  lemma SettleGrows(e: Engine, t: Order, m: Order, q: int, p: Price)
    ensures e.log <= Settle(e, t, m, q, p).log
  {
    var e1 := HoldOnFirstFill(e, m);
    var e2 := HoldOnFirstFill(e1, t);
    var e3 := Do(e2, SettleOp(t, q, p));
    assert e.log <= e1.log && e1.log <= e2.log && e2.log <= e3.log;
  }

  lemma FillBothGrows(e: Engine, t: OrderId, m: OrderId, q: int, p: Price)
    ensures e.log <= FillBoth(e, t, m, q, p).log
  {
    var e1 := e.(core := FillCore(FillCore(e.core, t, q, p), m, q, p));
    var e2 := Emit(e1, e1.core.Get(t).user, [FillEvent(e1.core.Get(t))]);
    assert e1.log <= e2.log;
  }

  lemma CancelGrows(e: Engine, id: OrderId)
    requires CancelOrder(e, id).Ok?
    ensures e.log <= CancelOrder(e, id).value.log
  {
    var o := e.core.Get(id);
    var c := CancelCore(e.core, id).value;
    ReleaseGrows(Emit(e.(core := c), o.user, Cancellations(CancelTargets(o))), c.Get(CancelReleases(o)));
  }

  /** A trade logs the taker's side first and never loses anything. */
  lemma TradeGrows(e: Engine, t: OrderId, m: OrderId, q: int, p: Price)
    requires Trade(e, t, m, q, p).Ok?
    ensures e.log <= Trade(e, t, m, q, p).value.log
    ensures e.core.Get(t).user != SYSTEM_USER_ID && e.core.Get(t).id == t ==> Took(Trade(e, t, m, q, p).value.log, t)
  {
    var taker, maker := e.core.Get(t), e.core.Get(m);
    var e0 := Emit(e, taker.user, [NewTrade(taker.id, q, p, Taker)]);
    var e1 := TradeEvents(e, taker, maker, q, p);
    assert e.log <= e0.log && e0.log <= e1.log;
    var e2 := FillBoth(e1, t, m, q, p);
    FillBothGrows(e1, t, m, q, p);
    HookGrows(e2, t);
    var e3 := Hook(e2, t).value;
    HookGrows(e3, m);
    var e4 := Hook(e3, m).value;
    SettleGrows(e4.(core := RetireCore(e4.core, m).value), taker, maker, q, p);
    if taker.user != SYSTEM_USER_ID && taker.id == t {
      assert e0.log[|e.log|] == NewTrade(t, q, p, Taker);
      TookGrows(e0.log, Trade(e, t, m, q, p).value.log, t);
    }
  }

  // ---- Makers are filled at their own price ----

  /** Orders and log moved on without touching anybody's fills. */
  lemma {:induction false} SameFills(e: Engine, e': Engine)
    requires MakerAtLimit(e) && e.log <= e'.log && e'.core.orders == e.core.orders
    ensures MakerAtLimit(e')
  {
    forall id | id in e'.core.orders
      ensures AtLimit(e'.core.orders[id]) || MayBeAway(e'.core.orders[id], e'.log)
    {
      var x := e.core.orders[id].id;
      if Took(e.log, x) { TookGrows(e.log, e'.log, x); }
    }
  }

  lemma {:induction false} TradeAtLimit(e: Engine, t: OrderId, m: OrderId, q: int)
    requires Meets(e.core, t, m) && q == TradeQuantity(e.core, t, m) && MakerAtLimit(e)
    requires Trade(e, t, m, q, e.core.orders[m].price).Ok?
    ensures MakerAtLimit(Trade(e, t, m, q, e.core.orders[m].price).value)
  {
    var c, p := e.core, e.core.orders[m].price;
    var e' := Trade(e, t, m, q, p).value;
    TradeProjects(e, t, m, q, p);
    TradeKeeps(c, t, m, q, p);
    TradeGrows(e, t, m, q, p);
    assert OrderInv(c, t, {}, {});
    forall id | id in e'.core.orders
      ensures AtLimit(e'.core.orders[id]) || MayBeAway(e'.core.orders[id], e'.log)
    {
      var o, o' := c.orders[id], e'.core.orders[id];
      assert Terms(o') == Terms(o);
      if id == m { assert o' == o.AddFill(q, p); }
      if id != t { OtherAtLimit(o, o', e.log, e'.log); }
    }
  }

  lemma {:induction false} OtherAtLimit(o: Order, o': Order, log: seq<Event>, log': seq<Event>)
    requires Terms(o') == Terms(o) && log <= log' && (AtLimit(o) || MayBeAway(o, log))
    requires o'.fills == o.fills || exists q :: o'.fills == o.fills + [Fill(q, o.price)]
    ensures AtLimit(o') || MayBeAway(o', log')
  {
    assert Terms(o').strategy == o'.strategy && Terms(o).strategy == o.strategy;
    assert Terms(o').user == o'.user && Terms(o).user == o.user && Terms(o').id == o'.id && Terms(o).id == o.id;
    assert Terms(o').price == o'.price && Terms(o).price == o.price;
    if Took(log, o.id) { TookGrows(log, log', o.id); }
  }

  lemma {:induction false} CancelAtLimit(e: Engine, id: OrderId)
    requires CancelOrder(e, id).Ok? && MakerAtLimit(e)
    ensures MakerAtLimit(CancelOrder(e, id).value)
  {
    CancelGrows(e, id);
    CancelProjects(e, id);
    UnbookAllOrders(e.core, CancelTargets(e.core.Get(id)));
    SameFills(e, CancelOrder(e, id).value);
  }

  lemma {:induction false} SweepAtLimit(e: Engine, t: OrderId)
    requires Inv(e.core) && Entering(e.core, t) && Sweep(e, t).Ok? && MakerAtLimit(e)
    ensures MakerAtLimit(Sweep(e, t).value)
    decreases RestingOn(e.core.book, e.core.Get(t).side.Opposite())
  {
    var c := e.core;
    var side := c.orders[t].side.Opposite();
    FrontFacts(c, side);
    if c.orders[t].executed < c.orders[t].quantity && Front(c.book, side).Some? {
      var m, p := Front(c.book, side).value, Best(c.book, side).value;
      FrontMeets(c, t);
      EncounterAtLimit(e, t, m);
      EncounterProjects(e, t, m, p);
      EncounterCoreKeeps(c, t, m, p, Answer(e, c.Get(m), TradeQuantity(c, t, m), p));
      var e' := Encounter(e, t, m, p).value;
      if e'.core.Get(t).side == c.orders[t].side && RestingOn(e'.core.book, side) < RestingOn(c.book, side) {
        SweepAtLimit(e', t);
      }
    }
  }

  lemma {:induction false} EncounterAtLimit(e: Engine, t: OrderId, m: OrderId)
    requires Meets(e.core, t, m) && Encounter(e, t, m, e.core.orders[m].price).Ok? && MakerAtLimit(e)
    ensures MakerAtLimit(Encounter(e, t, m, e.core.orders[m].price).value)
  {
    var q, p := TradeQuantity(e.core, t, m), e.core.orders[m].price;
    var e' := Checked(e, e.core.orders[m], q, p);
    SameFills(e, e');
    if Answer(e, e.core.Get(m), q, p) { TradeAtLimit(e', t, m, q); } else { CancelAtLimit(e', m); }
  }

  lemma {:induction false} SubmitAtLimit(e: Engine, id: OrderId, stored: set<OrderId>)
    requires Inv(e.core) && Entering(e.core, id) && Submit(e, id, stored).Ok? && MakerAtLimit(e)
    ensures MakerAtLimit(Submit(e, id, stored).value)
  {
    var o := e.core.orders[id];
    var e1 := Checked(e, o, o.quantity, o.price);
    SubmitCases(e, id, stored);
    SameFills(e, e1);
    if !Crossable(e.core.book, o) {
      SameFills(e, Place(e, id, stored).value);
    } else if Answer(e, o, o.quantity, o.price) {
      MatchOrRestAtLimit(e1, id, stored);
    } else {
      RejectAtLimit(e1, id);
    }
  }

  lemma {:induction false} MatchOrRestAtLimit(e: Engine, id: OrderId, stored: set<OrderId>)
    requires Inv(e.core) && Entering(e.core, id) && MatchOrRest(e, id, stored).Ok? && MakerAtLimit(e)
    ensures MakerAtLimit(MatchOrRest(e, id, stored).value)
  {
    SweepAtLimit(e, id);
    SameFills(Sweep(e, id).value, MatchOrRest(e, id, stored).value);
  }

  lemma {:induction false} RejectAtLimit(e: Engine, id: OrderId)
    requires Reject(e, id).Ok? && MakerAtLimit(e)
    ensures MakerAtLimit(Reject(e, id).value)
  {
    CancelAtLimit(e, id);
    var o, e2 := e.core.Get(id), CancelOrder(e, id).value;
    ReleaseGrows(Emit(e2, o.user, [OrderCancelled(id)]), o);
    SameFills(e2, Reject(e, id).value);
  }

  lemma {:induction false} HandleAtLimit(e: Engine, cmd: Command)
    requires Inv(e.core) && CmdOk(e.core, cmd) && Handle(e, cmd).Ok? && MakerAtLimit(e)
    ensures MakerAtLimit(Handle(e, cmd).value)
  {
    IntakeKeeps(e.core, cmd);
    var e0 := e.(core := Intake(e.core, cmd));
    assert MakerAtLimit(e0);
    match cmd
    case NewSingle(s) => SubmitAtLimit(e0, s.id, {s.id});
    case NewOto(p, ch) => SubmitAtLimit(e0, p.id, {p.id, ch.id});
    case NewOco(a, b) => SameFills(e0, Handle(e, cmd).value);
    case Cancel(id) => if id in e.core.store { CancelAtLimit(e, id); }
  }

  /** In every run, each fill of an order that never took liquidity was at the order's own price. */
  lemma {:induction false} MakersFilledAtLimit(e: Engine, cmds: seq<Command>)
    requires e.core == EMPTY_CORE && Admissible(e, cmds) && Run(e, cmds).Ok?
    ensures MakerAtLimit(Run(e, cmds).value)
  {
    if cmds != [] {
      var n := |cmds| - 1;
      MakersFilledAtLimit(e, cmds[..n]);
      RunKeeps(e, cmds[..n]);
      HandleAtLimit(Run(e, cmds[..n]).value, cmds[n]);
    }
  }

  // ---- What that means for escrow ----

  /** The escrow taken for an order on its first fill, less what its fills have settled. */
  ghost function Taken(o: Order): int { Explained(o).cashEscrow + Explained(o).assetEscrow }

  /** One unit of the order in the currency of its side. */
  function Unit(o: Order): int { if o.side.Bid? then o.price else 1 }

  /** The quantity left open by each fill in turn, added up. */
  ghost function OpenAfterFills(fills: seq<Fill>, quantity: int): int {
    if fills == [] then 0 else OpenAfterFills(fills[..|fills| - 1], quantity) + quantity - SumFills(fills)
  }

  /** What the callback of an OCO leg has released so far: on every fill, all that is still open. */
  ghost function GivenBack(o: Order): int {
    if o.strategy.OcoLeg? then OpenAfterFills(o.fills, o.quantity) * Unit(o) else 0
  }

  /** What the trades of an order have left in escrow, in the currency of its side. */
  ghost function Held(o: Order): int { Taken(o) - GivenBack(o) }

  /** The unfilled part of an order, in the currency of its side. */
  ghost function Unfilled(o: Order): int { if o.side.Bid? then o.Remaining() * o.price else o.Remaining() }

  /** What the fills saved a buyer against the limit; negative for fills beyond it. */
  ghost function Saved(fills: seq<Fill>, limit: Price): int {
    if fills == [] then 0
    else
      var f := fills[|fills| - 1];
      Saved(fills[..|fills| - 1], limit) + f.quantity * (limit - f.price)
  }

  lemma {:induction false} SavedIs(fills: seq<Fill>, limit: Price)
    ensures Saved(fills, limit) == SumFills(fills) * limit - Value(fills)
  {
    if fills != [] {
      var older, f := fills[..|fills| - 1], fills[|fills| - 1];
      SavedIs(older, limit);
      Distribute(SumFills(older), f.quantity, limit);
      assert f.quantity * (limit - f.price) == f.quantity * limit - f.quantity * f.price;
    }
  }

  lemma {:induction false} Distribute(a: int, b: int, p: int)
    ensures (a + b) * p == a * p + b * p
  {
  }

  /** Nothing is saved by fills at the limit. */
  lemma {:induction false} AtLimitSavesNothing(fills: seq<Fill>, limit: Price)
    requires forall i :: 0 <= i < |fills| ==> fills[i].price == limit
    ensures Saved(fills, limit) == 0
  {
    if fills != [] { AtLimitSavesNothing(fills[..|fills| - 1], limit); }
  }

  /** Fills within the limit save something unless every one of them is at it. */
  lemma {:induction false} SavesNothingIff(fills: seq<Fill>, limit: Price)
    requires Positive(fills) && forall i :: 0 <= i < |fills| ==> fills[i].price <= limit
    ensures Saved(fills, limit) >= 0
    ensures Saved(fills, limit) == 0 <==> forall i :: 0 <= i < |fills| ==> fills[i].price == limit
  {
    if fills != [] {
      var older, f := fills[..|fills| - 1], fills[|fills| - 1];
      SavesNothingIff(older, limit);
      if f.price < limit {
        assert f.quantity * (limit - f.price) > 0;
        assert fills[|fills| - 1].price != limit;
      } else {
        assert forall i :: 0 <= i < |older| ==> older[i] == fills[i];
      }
    }
  }

  lemma {:induction false} TakenIs(o: Order)
    requires OrderOk(o.id, o)
    ensures o.executed == 0 ==> Taken(o) == 0
    ensures o.executed > 0 ==> Taken(o) == Unfilled(o) + SavedOf(o)
  {
    SavedIs(o.fills, o.price);
    assert o.Remaining() * o.price == o.quantity * o.price - o.executed * o.price by {
      Distribute(o.Remaining(), o.executed, o.price);
    }
  }

  /** What an order has saved: only bids can. */
  ghost function SavedOf(o: Order): int { if o.side.Bid? then Saved(o.fills, o.price) else 0 }

  /** The open quantities before the last fill: what an OCO leg released too early. */
  ghost function OpenBefore(o: Order): int
    requires o.fills != []
  {
    OpenAfterFills(o.fills[..|o.fills| - 1], o.quantity) * Unit(o)
  }

  /**
   * From its first fill on a SINGLE or OTO order holds its unfilled part and what its fills saved. An OCO
   * leg holds what its fills saved, less its unfilled part before each fill but the first.
   */
  lemma {:induction false} HeldIs(o: Order)
    requires OrderOk(o.id, o)
    ensures o.executed == 0 ==> Held(o) == 0
    ensures o.executed > 0 && !o.strategy.OcoLeg? ==> Held(o) == Unfilled(o) + SavedOf(o)
    ensures o.executed > 0 && o.strategy.OcoLeg? ==> o.fills != [] && Held(o) == SavedOf(o) - OpenBefore(o)
  {
    TakenIs(o);
    if o.executed > 0 && o.strategy.OcoLeg? {
      Distribute(OpenAfterFills(o.fills[..|o.fills| - 1], o.quantity), o.Remaining(), Unit(o));
    }
  }

  /** Every fill but the last leaves something open. */
  lemma {:induction false} OpenIsPositive(fills: seq<Fill>, quantity: int)
    requires SumFills(fills) < quantity && Positive(fills)
    ensures OpenAfterFills(fills, quantity) >= 0
    ensures OpenAfterFills(fills, quantity) == 0 <==> fills == []
  {
    if fills != [] { OpenIsPositive(fills[..|fills| - 1], quantity); }
  }

  /** An OCO leg filled at its own price holds nothing after its first fill, and less than nothing later. */
  lemma {:induction false} LegHoldsNothing(o: Order)
    requires OrderOk(o.id, o) && o.executed > 0 && o.strategy.OcoLeg? && AtLimit(o)
    ensures Held(o) <= 0 && (Held(o) == 0 <==> |o.fills| == 1)
  {
    HeldIs(o);
    AtLimitSavesNothing(o.fills, o.price);
    var older := o.fills[..|o.fills| - 1];
    assert SumFills(o.fills) == SumFills(older) + o.fills[|o.fills| - 1].quantity;
    OpenIsPositive(older, o.quantity);
    Signs(OpenAfterFills(older, o.quantity), Unit(o));
  }

  lemma {:induction false} Signs(a: int, b: int)
    requires a >= 0 && b > 0
    ensures a * b >= 0 && (a * b == 0 <==> a == 0)
  {
  }

  /**
   * An order filled only as a maker holds exactly its unfilled part if it is SINGLE or OTO, nothing when
   * complete; an OCO leg holds nothing after its first fill and a negative amount after any other.
   */
  lemma {:induction false} MakerHoldsRemainder(e: Engine, cmds: seq<Command>, id: OrderId)
    requires e.core == EMPTY_CORE && Admissible(e, cmds) && Run(e, cmds).Ok?
    requires var e' := Run(e, cmds).value;
      && id in e'.core.orders && e'.core.orders[id].executed > 0
      && (e'.core.orders[id].strategy.OcoLeg? || (e'.core.orders[id].user != SYSTEM_USER_ID && !Took(e'.log, id)))
    ensures MakerHolds(Run(e, cmds).value.core.orders[id])
  {
    MakersFilledAtLimit(e, cmds);
    EmptyRunKeeps(e, cmds);
    HeldAtLimit(Run(e, cmds).value, id);
  }

  ghost predicate MakerHolds(o: Order) {
    if o.strategy.OcoLeg? then Held(o) <= 0 && (Held(o) == 0 <==> |o.fills| == 1)
    else Held(o) == Unfilled(o) && (o.Complete() ==> Held(o) == 0)
  }

  lemma {:induction false} EmptyRunKeeps(e: Engine, cmds: seq<Command>)
    requires e.core == EMPTY_CORE && Admissible(e, cmds) && Run(e, cmds).Ok?
    ensures Inv(Run(e, cmds).value.core)
  {
    RunKeeps(e, cmds);
  }

  lemma {:induction false} HeldAtLimit(e: Engine, id: OrderId)
    requires Inv(e.core) && MakerAtLimit(e) && id in e.core.orders && e.core.orders[id].executed > 0
    requires var o := e.core.orders[id]; o.strategy.OcoLeg? || (o.user != SYSTEM_USER_ID && !Took(e.log, id))
    ensures MakerHolds(e.core.orders[id])
  {
    var o := e.core.orders[id];
    assert OrderInv(e.core, id, {}, {});
    HeldIs(o);
    if o.strategy.OcoLeg? { LegHoldsNothing(o); } else { AtLimitSavesNothing(o.fills, o.price); }
  }

  /** What the bids of a user have saved, order by order. */
  ghost function SavedBy(orders: map<OrderId, Order>, u: UserId): map<OrderId, int> {
    map id | id in orders ::
      if orders[id].user == u && orders[id].side.Bid? then Saved(orders[id].fills, orders[id].price) else 0
  }

  /**
   * Price improvement is never given back: once all orders of a user are complete, the user's cash escrow
   * is what it was at the start plus everything the user's bids saved, minus what was ever released.
   */
  lemma {:induction false} ImprovementStaysInEscrow(e: Engine, cmds: seq<Command>, base: Ledger, u: UserId)
    requires Fresh(e, base) && Admissible(e, cmds) && Run(e, cmds).Ok? && u != SYSTEM_USER_ID
    requires AllComplete(Run(e, cmds).value.core, u)
    ensures HoldsSavings(Run(e, cmds).value, base, u)
  {
    BalancesExplained(e, cmds, base, u);
    EmptyRunKeeps(e, cmds);
    SavingsAreHeld(Run(e, cmds).value, base, u);
  }

  ghost predicate AllComplete(c: Core, u: UserId) {
    forall id :: id in c.orders && c.orders[id].user == u ==> c.orders[id].Complete()
  }

  ghost predicate HoldsSavings(e: Engine, base: Ledger, u: UserId) {
    && e.wiring.Live?
    && Ledgers.Get(e.wiring.ledger.cashEscrow, u)
       == Ledgers.Get(base.cashEscrow, u) + SumMap(SavedBy(e.core.orders, u)) + Released(e.log, u).cashEscrow
  }

  lemma {:induction false} SavingsAreHeld(e: Engine, base: Ledger, u: UserId)
    requires Ahead(e, base, u, NO_CHANGE) && Inv(e.core) && AllComplete(e.core, u)
    ensures HoldsSavings(e, base, u)
  {
    SavedIsHeld(e.core, u);
    assert Grant(e.wiring.ledger, u).cashEscrow == 0;
    assert Total(e.core.orders, u).cashEscrow == SumMap(CashEscrowOf(e.core.orders, u));
  }

  lemma {:induction false} SavedIsHeld(c: Core, u: UserId)
    requires Inv(c) && AllComplete(c, u)
    ensures CashEscrowOf(c.orders, u) == SavedBy(c.orders, u)
  {
    forall id | id in c.orders
      ensures CashEscrowOf(c.orders, u)[id] == SavedBy(c.orders, u)[id]
    {
      assert OrderInv(c, id, {}, {});
      TakenIs(c.orders[id]);
    }
  }
}
