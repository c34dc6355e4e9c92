/**
 * Exact accounting: every balance of every ordinary user is explained by the fills of that user's
 * orders, the escrow releases in the log and the default balance granted on first sight.
 */
module Accounting {
  import opened Types
  import opened Collections
  import opened BookModel
  import opened Ledgers
  import opened EngineSpec
  import opened Invariants
  import opened Matching
  import opened Runs
  import opened PlainRuns

  // ---- What one order accounts for ----

  ghost function Value(fills: seq<Fill>): int {
    if fills == [] then 0
    else Value(fills[..|fills| - 1]) + fills[|fills| - 1].quantity * fills[|fills| - 1].price
  }

  /** Signed change of cash, asset and the two escrows. */
  datatype Change = Change(cash: int, cashEscrow: int, asset: int, assetEscrow: int) {
    function Minus(d: Change): Change {
      Change(cash - d.cash, cashEscrow - d.cashEscrow, asset - d.asset, assetEscrow - d.assetEscrow)
    }

    function Plus(d: Change): Change {
      Change(cash + d.cash, cashEscrow + d.cashEscrow, asset + d.asset, assetEscrow + d.assetEscrow)
    }
  }

  const NO_CHANGE: Change := Change(0, 0, 0, 0)

  /**
   * What an order's fills entitle its owner to: cash paid or received, asset received or given, and,
   * from the first fill on, the escrow taken for the whole order minus what was settled.
   */
  ghost function Explained(o: Order): Change {
    var v := Value(o.fills);
    if o.side.Bid? then
      Change(-v, if o.executed > 0 then o.quantity * o.price - v else 0, o.executed, 0)
    else
      Change(v, 0, -o.executed, if o.executed > 0 then o.quantity - o.executed else 0)
  }

  ghost function For(o: Order, u: UserId): Change { if o.user == u then Explained(o) else NO_CHANGE }

  /** One component of what a user's orders account for, as a map from order to amount. */
  ghost function CashOf(orders: map<OrderId, Order>, u: UserId): map<OrderId, int> {
    map id | id in orders :: For(orders[id], u).cash
  }

  ghost function CashEscrowOf(orders: map<OrderId, Order>, u: UserId): map<OrderId, int> {
    map id | id in orders :: For(orders[id], u).cashEscrow
  }

  ghost function AssetOf(orders: map<OrderId, Order>, u: UserId): map<OrderId, int> {
    map id | id in orders :: For(orders[id], u).asset
  }

  ghost function AssetEscrowOf(orders: map<OrderId, Order>, u: UserId): map<OrderId, int> {
    map id | id in orders :: For(orders[id], u).assetEscrow
  }

  ghost function Total(orders: map<OrderId, Order>, u: UserId): Change {
    Change(SumMap(CashOf(orders, u)), SumMap(CashEscrowOf(orders, u)),
           SumMap(AssetOf(orders, u)), SumMap(AssetEscrowOf(orders, u)))
  }

  /** Replacing one order shifts the total by the difference. */
  lemma {:induction false} TotalUpdate(orders: map<OrderId, Order>, id: OrderId, o: Order, u: UserId)
    requires id in orders
    ensures Total(orders[id := o], u).Plus(For(orders[id], u)) == Total(orders, u).Plus(For(o, u))
  {
    var orders' := orders[id := o];
    assert CashOf(orders', u) == CashOf(orders, u)[id := For(o, u).cash];
    assert CashEscrowOf(orders', u) == CashEscrowOf(orders, u)[id := For(o, u).cashEscrow];
    assert AssetOf(orders', u) == AssetOf(orders, u)[id := For(o, u).asset];
    assert AssetEscrowOf(orders', u) == AssetEscrowOf(orders, u)[id := For(o, u).assetEscrow];
    SumMapUpdate(CashOf(orders, u), id, For(o, u).cash);
    SumMapUpdate(CashEscrowOf(orders, u), id, For(o, u).cashEscrow);
    SumMapUpdate(AssetOf(orders, u), id, For(o, u).asset);
    SumMapUpdate(AssetEscrowOf(orders, u), id, For(o, u).assetEscrow);
  }

  /** A new order without fills accounts for nothing. */
  lemma {:induction false} TotalAdd(orders: map<OrderId, Order>, id: OrderId, o: Order, u: UserId)
    requires id !in orders && o.executed == 0 && o.fills == []
    ensures Total(orders[id := o], u) == Total(orders, u)
  {
    var orders' := orders[id := o];
    assert CashOf(orders', u) == CashOf(orders, u)[id := 0];
    assert CashEscrowOf(orders', u) == CashEscrowOf(orders, u)[id := 0];
    assert AssetOf(orders', u) == AssetOf(orders, u)[id := 0];
    assert AssetEscrowOf(orders', u) == AssetEscrowOf(orders, u)[id := 0];
    SumMapUpdate(CashOf(orders, u), id, 0);
    SumMapUpdate(CashEscrowOf(orders, u), id, 0);
    SumMapUpdate(AssetOf(orders, u), id, 0);
    SumMapUpdate(AssetEscrowOf(orders, u), id, 0);
  }

  // ---- What a balance operation does ----

  ghost function OpChange(op: BalanceOp, u: UserId): Change {
    if op.user != u then NO_CHANGE
    else match op
      case HoldCash(_, a) => Change(0, a, 0, 0)
      case HoldAsset(_, a) => Change(0, 0, 0, a)
      case ReleaseCash(_, a) => Change(0, -a, 0, 0)
      case ReleaseAsset(_, a) => Change(0, 0, 0, -a)
      case SettleBid(_, q, p) => Change(-(q * p), -(q * p), q, 0)
      case SettleAsk(_, q, p) => Change(q * p, 0, -q, -q)
  }

  ghost function Balances(l: Ledger, u: UserId): Change {
    Change(Ledgers.Get(l.cash, u), Ledgers.Get(l.cashEscrow, u), Ledgers.Get(l.asset, u), Ledgers.Get(l.assetEscrow, u))
  }

  lemma {:induction false} ApplyOpChanges(l: Ledger, op: BalanceOp, u: UserId)
    ensures Balances(ApplyOp(l, op), u) == Balances(l, u).Plus(OpChange(op, u))
    ensures ApplyOp(l, op).granted == l.granted
    ensures l.cash.Keys <= ApplyOp(l, op).cash.Keys
  {
  }

  /** The releases logged for a user so far. */
  ghost function Released(log: seq<Event>, u: UserId): Change {
    if log == [] then NO_CHANGE
    else
      var ev := log[|log| - 1];
      var rest := Released(log[..|log| - 1], u);
      if ev.BalanceChanged? && (ev.op.ReleaseCash? || ev.op.ReleaseAsset?)
      then rest.Plus(OpChange(ev.op, u))
      else rest
  }

  ghost function Grant(l: Ledger, u: UserId): Change {
    if u in l.granted then NO_CHANGE.(cash := DEFAULT_CASH_BALANCE) else NO_CHANGE
  }

  /** The right-hand side of the law. */
  ghost function Due(e: Engine, base: Ledger, u: UserId): Change
    requires e.wiring.Live?
  {
    DueFrom(Balances(base, u), Grant(e.wiring.ledger, u), Total(e.core.orders, u), Released(e.log, u))
  }

  ghost function DueFrom(start: Change, grant: Change, orders: Change, released: Change): Change {
    start.Plus(grant).Plus(orders).Plus(released)
  }

  /** How far the balances are ahead of what is due; zero between commands. */
  ghost predicate Ahead(e: Engine, base: Ledger, u: UserId, gap: Change) {
    && e.wiring.Live? && e.wiring.ledger.granted <= e.wiring.ledger.cash.Keys
    && Balances(e.wiring.ledger, u) == Due(e, base, u).Plus(gap)
  }

  // ---- Each primitive step ----

  lemma {:induction false} OrderEventsReleaseNothing(log: seq<Event>, events: seq<Event>, u: UserId)
    requires forall i :: 0 <= i < |events| ==> !events[i].BalanceChanged?
    ensures Released(log + events, u) == Released(log, u)
  {
    if events == [] {
      assert log + events == log;
    } else {
      var n := |events| - 1;
      assert (log + events)[..|log| + n] == log + events[..n];
      OrderEventsReleaseNothing(log, events[..n], u);
    }
  }

  lemma {:induction false} EmitAhead(e: Engine, owner: UserId, events: seq<Event>, base: Ledger, u: UserId, gap: Change)
    requires Ahead(e, base, u, gap) && forall i :: 0 <= i < |events| ==> !events[i].BalanceChanged?
    ensures Ahead(Emit(e, owner, events), base, u, gap)
  {
    OrderEventsReleaseNothing(e.log, events, u);
  }

  /** Releases are accounted for by the log itself; holds and settlements run ahead of the fills. */
  ghost function NetChange(op: BalanceOp, u: UserId): Change {
    if op.ReleaseCash? || op.ReleaseAsset? then NO_CHANGE else OpChange(op, u)
  }

  ghost function ReleaseChange(op: BalanceOp, u: UserId): Change {
    if op.ReleaseCash? || op.ReleaseAsset? then OpChange(op, u) else NO_CHANGE
  }

  lemma {:induction false} ReleasedAfter(log: seq<Event>, op: BalanceOp, u: UserId)
    ensures Released(log + [BalanceChanged(op)], u) == Released(log, u).Plus(ReleaseChange(op, u))
  {
    assert (log + [BalanceChanged(op)])[..|log|] == log;
  }

  /** Moving balances and dues leaves the gap at their difference. */
  lemma {:induction false} GapMoves(balances: Change, due: Change, gap: Change, x: Change, y: Change)
    requires balances == due.Plus(gap)
    ensures balances.Plus(x) == due.Plus(y).Plus(gap.Plus(x.Minus(y)))
  {
  }

  lemma {:induction false} DueAfter(e: Engine, op: BalanceOp, base: Ledger, u: UserId)
    requires e.wiring.Live? && op.user != SYSTEM_USER_ID
    ensures Due(Do(e, op), base, u) == Due(e, base, u).Plus(ReleaseChange(op, u))
  {
    var l' := ApplyOp(e.wiring.ledger, op);
    assert Grant(l', u) == Grant(e.wiring.ledger, u) by { ApplyOpChanges(e.wiring.ledger, op, u); }
    ReleasedAfter(e.log, op, u);
    DueMoves(Balances(base, u), Grant(l', u), Total(e.core.orders, u), Released(e.log, u), ReleaseChange(op, u));
  }

  lemma {:induction false} DueMoves(start: Change, grant: Change, orders: Change, released: Change, x: Change)
    ensures DueFrom(start, grant, orders, released.Plus(x)) == DueFrom(start, grant, orders, released).Plus(x)
  {
  }

  lemma {:induction false} DoAhead(e: Engine, op: BalanceOp, base: Ledger, u: UserId, gap: Change)
    requires Ahead(e, base, u, gap) && u != SYSTEM_USER_ID
    ensures Ahead(Do(e, op), base, u, gap.Plus(NetChange(op, u)))
  {
    if op.user != SYSTEM_USER_ID {
      ApplyOpChanges(e.wiring.ledger, op, u);
      DueAfter(e, op, base, u);
      GapMoves(Balances(e.wiring.ledger, u), Due(e, base, u), gap, OpChange(op, u), ReleaseChange(op, u));
      assert OpChange(op, u).Minus(ReleaseChange(op, u)) == NetChange(op, u);
    }
  }

  /** What one fill of an order accounts for: its settlement and, the first time, its hold. */
  ghost function FillChange(o: Order, q: int, p: Price, u: UserId): Change {
    OpChange(SettleOp(o, q, p), u).Plus(HoldChange(o, u))
  }

  ghost function HoldChange(o: Order, u: UserId): Change {
    if o.executed == 0 then OpChange(HoldOp(o), u) else NO_CHANGE
  }

  lemma {:induction false} ValueAfter(o: Order, q: int, p: Price)
    ensures Value(o.AddFill(q, p).fills) == Value(o.fills) + q * p
  {
    assert (o.fills + [Fill(q, p)])[..|o.fills|] == o.fills;
  }

  lemma {:induction false} ForFill(o: Order, q: int, p: Price, u: UserId)
    requires o.executed >= 0 && (o.executed == 0 ==> o.fills == []) && q > 0
    ensures For(o.AddFill(q, p), u) == For(o, u).Plus(FillChange(o, q, p, u))
  {
    if o.user == u {
      ValueAfter(o, q, p);
      if o.side.Bid? { ExplainedBidFill(o, q, p); } else { ExplainedAskFill(o, q, p); }
    } else {
      OthersUnchanged(SettleOp(o, q, p), u);
      OthersUnchanged(HoldOp(o), u);
    }
  }

  lemma {:induction false} OthersUnchanged(op: BalanceOp, u: UserId)
    requires op.user != u
    ensures OpChange(op, u) == NO_CHANGE
  {
  }

  lemma {:induction false} ExplainedBidFill(o: Order, q: int, p: Price)
    requires o.side.Bid? && o.executed >= 0 && (o.executed == 0 ==> o.fills == []) && q > 0
    requires Value(o.AddFill(q, p).fills) == Value(o.fills) + q * p
    ensures Explained(o.AddFill(q, p)) == Explained(o).Plus(FillChange(o, q, p, o.user))
  {
    var v, cost, whole := Value(o.fills), q * p, o.quantity * o.price;
    assert FillChange(o, q, p, o.user) == Change(-cost, (if o.executed == 0 then whole else 0) - cost, q, 0);
    assert Explained(o.AddFill(q, p)) == Change(-(v + cost), whole - (v + cost), o.executed + q, 0);
  }

  lemma {:induction false} ExplainedAskFill(o: Order, q: int, p: Price)
    requires o.side.Ask? && o.executed >= 0 && (o.executed == 0 ==> o.fills == []) && q > 0
    requires Value(o.AddFill(q, p).fills) == Value(o.fills) + q * p
    ensures Explained(o.AddFill(q, p)) == Explained(o).Plus(FillChange(o, q, p, o.user))
  {
    var v, cost := Value(o.fills), q * p;
    assert FillChange(o, q, p, o.user) == Change(cost, 0, -q, (if o.executed == 0 then o.quantity else 0) - q);
    assert Explained(o.AddFill(q, p)) == Change(v + cost, 0, -(o.executed + q), o.quantity - (o.executed + q));
  }

  lemma {:induction false} FillAhead(e: Engine, id: OrderId, q: int, p: Price, base: Ledger, u: UserId, gap: Change)
    requires Ahead(e, base, u, gap) && id in e.core.orders && OrderOk(id, e.core.orders[id]) && q > 0
    ensures Ahead(e.(core := FillCore(e.core, id, q, p)), base, u, gap.Minus(FillChange(e.core.orders[id], q, p, u)))
  {
    var o := e.core.orders[id];
    ForFill(o, q, p, u);
    TotalUpdate(e.core.orders, id, o.AddFill(q, p), u);
    Cancels(Total(e.core.orders[id := o.AddFill(q, p)], u), Total(e.core.orders, u), For(o, u), FillChange(o, q, p, u));
    TotalMoves(e, FillCore(e.core, id, q, p), base, u, gap, FillChange(o, q, p, u));
  }

  lemma {:induction false} Cancels(t': Change, t: Change, f: Change, x: Change)
    requires t'.Plus(f) == t.Plus(f.Plus(x))
    ensures t' == t.Plus(x)
  {
  }

  lemma {:induction false} TotalMoves(e: Engine, c': Core, base: Ledger, u: UserId, gap: Change, x: Change)
    requires Ahead(e, base, u, gap) && Total(c'.orders, u) == Total(e.core.orders, u).Plus(x)
    ensures Ahead(e.(core := c'), base, u, gap.Minus(x))
  {
    var e' := e.(core := c');
    assert Due(e', base, u) == Due(e, base, u).Plus(x);
    assert Balances(e.wiring.ledger, u) == Due(e', base, u).Plus(gap.Minus(x));
  }

  /** Steps that change neither balances, nor fills, nor releases. */
  lemma {:induction false} CoreAhead(e: Engine, c': Core, base: Ledger, u: UserId, gap: Change)
    requires Ahead(e, base, u, gap) && Total(c'.orders, u) == Total(e.core.orders, u)
    ensures Ahead(e.(core := c'), base, u, gap)
  {
  }

  lemma {:induction false} HookTotal(c: Core, id: OrderId, u: UserId)
    requires HookCore(c, id).Ok?
    requires id in c.orders && c.orders[id].strategy.OtoParent? ==>
      var child := c.orders[id].strategy.child; child in c.orders && c.orders[child].id == child
    ensures Total(HookCore(c, id).value.orders, u) == Total(c.orders, u)
  {
    var o := c.Get(id);
    if o.strategy.OtoParent? && o.Complete() {
      var ch := c.orders[o.strategy.child];
      TotalUpdate(c.orders, ch.id, ch.(active := true), u);
    }
  }

  lemma {:induction false} ReleaseAhead(e: Engine, o: Order, base: Ledger, u: UserId, gap: Change)
    requires Ahead(e, base, u, gap) && u != SYSTEM_USER_ID
    ensures Ahead(Release(e, o), base, u, gap)
  {
    DoAhead(e, ReleaseOp(o), base, u, gap);
  }

  lemma {:induction false} ConsultGrants(l: Ledger, o: Order, u: UserId)
    requires l.granted <= l.cash.Keys
    ensures var l' := Consult(l, o.user, o.side);
      && l'.granted <= l'.cash.Keys
      && Balances(l', u).Minus(Grant(l', u)) == Balances(l, u).Minus(Grant(l, u))
  {
    var l' := Consult(l, o.user, o.side);
    if o.user == u && o.side.Bid? && u !in l.cash {
      assert u !in l.granted && u in l'.granted;
      assert Balances(l', u) == Balances(l, u).Plus(NO_CHANGE.(cash := DEFAULT_CASH_BALANCE));
    } else {
      assert u in l'.granted <==> u in l.granted;
      assert Balances(l', u) == Balances(l, u);
    }
  }

  lemma {:induction false} CheckedAhead(e: Engine, o: Order, q: int, p: Price, base: Ledger, u: UserId, gap: Change)
    requires Ahead(e, base, u, gap)
    ensures Ahead(Checked(e, o, q, p), base, u, gap)
  {
    var l := e.wiring.ledger;
    ConsultGrants(l, o, u);
    var e' := Checked(e, o, q, p);
    if o.user != SYSTEM_USER_ID {
      var l' := Consult(l, o.user, o.side);
      assert e' == e.(wiring := Live(l'), answers := e'.answers);
      GrantMoves(Balances(base, u), Grant(l, u), Grant(l', u), Total(e.core.orders, u), Released(e.log, u),
                 Balances(l, u), Balances(l', u), gap);
    }
  }

  /** Balances that move with the grant stay as far ahead as they were. */
  lemma {:induction false} GrantMoves(start: Change, grant: Change, grant': Change, orders: Change, released: Change,
                                      balances: Change, balances': Change, gap: Change)
    requires balances'.Minus(grant') == balances.Minus(grant)
    requires balances == DueFrom(start, grant, orders, released).Plus(gap)
    ensures balances' == DueFrom(start, grant', orders, released).Plus(gap)
  {
  }

  // ---- Trades, cancels, commands ----

  lemma {:induction false} HookAhead(e: Engine, id: OrderId, hook: set<OrderId>, full: set<OrderId>, base: Ledger,
                                     u: UserId, gap: Change)
    requires MidInv(e.core, hook, full) && id in e.core.orders && Hook(e, id).Ok?
    requires Ahead(e, base, u, gap) && u != SYSTEM_USER_ID
    ensures Ahead(Hook(e, id).value, base, u, gap)
  {
    var c, o := e.core, e.core.orders[id];
    assert OrderInv(c, id, hook, full);
    if o.strategy.OtoParent? { assert OrderInv(c, o.strategy.child, hook, full); }
    HookTotal(c, id, u);
    var c' := HookCore(c, id).value;
    CoreAhead(e, c', base, u, gap);
    var e' := e.(core := c');
    match o.strategy
    case OtoParent(child) =>
      EmitAhead(e', c'.Get(child).user, [OrderPlaced(child, c'.Get(child))], base, u, gap);
    case OcoLeg(peer) =>
      EmitAhead(e', o.user, [OrderCancelled(peer)], base, u, gap);
      ReleaseAhead(Emit(e', o.user, [OrderCancelled(peer)]), o, base, u, gap);
    case _ =>
  }

  /** The hold and the settlement of one order add up to what its fill accounts for. */
  lemma {:induction false} SettleAhead(e: Engine, t: Order, m: Order, q: int, p: Price, base: Ledger, u: UserId,
                                       gap: Change)
    requires Ahead(e, base, u, gap) && u != SYSTEM_USER_ID
    ensures Ahead(Settle(e, t, m, q, p), base, u, gap.Plus(FillChange(m, q, p, u)).Plus(FillChange(t, q, p, u)))
  {
    var h1, h2 := HoldChange(m, u), HoldChange(t, u);
    var s1, s2 := OpChange(SettleOp(m, q, p), u), OpChange(SettleOp(t, q, p), u);
    var e1 := HoldOnFirstFill(e, m);
    HoldAhead(e, m, base, u, gap);
    var e2 := HoldOnFirstFill(e1, t);
    HoldAhead(e1, t, base, u, gap.Plus(h1));
    DoAhead(e2, SettleOp(t, q, p), base, u, gap.Plus(h1).Plus(h2));
    DoAhead(Do(e2, SettleOp(t, q, p)), SettleOp(m, q, p), base, u, gap.Plus(h1).Plus(h2).Plus(s2));
    Rearranged(gap, h1, h2, s1, s2);
  }

  lemma {:induction false} HoldAhead(e: Engine, o: Order, base: Ledger, u: UserId, gap: Change)
    requires Ahead(e, base, u, gap) && u != SYSTEM_USER_ID
    ensures Ahead(HoldOnFirstFill(e, o), base, u, gap.Plus(HoldChange(o, u)))
  {
    if o.executed == 0 { DoAhead(e, HoldOp(o), base, u, gap); }
  }

  lemma {:induction false} Rearranged(g: Change, h1: Change, h2: Change, s1: Change, s2: Change)
    ensures g.Plus(h1).Plus(h2).Plus(s2).Plus(s1) == g.Plus(s1.Plus(h1)).Plus(s2.Plus(h2))
  {
  }

  lemma {:induction false} EmitTwoAhead(e: Engine, u1: UserId, ev1: Event, u2: UserId, ev2: Event, base: Ledger,
                                        u: UserId, gap: Change)
    requires Ahead(e, base, u, gap) && !ev1.BalanceChanged? && !ev2.BalanceChanged?
    ensures Ahead(Emit(Emit(e, u1, [ev1]), u2, [ev2]), base, u, gap)
  {
    EmitAhead(e, u1, [ev1], base, u, gap);
    EmitAhead(Emit(e, u1, [ev1]), u2, [ev2], base, u, gap);
  }

  lemma {:induction false} FillBothAhead(e: Engine, t: OrderId, m: OrderId, q: int, p: Price, base: Ledger, u: UserId)
    requires t in e.core.orders && m in e.core.orders && t != m && q > 0 && Ahead(e, base, u, NO_CHANGE)
    requires OrderOk(t, e.core.orders[t]) && OrderOk(m, e.core.orders[m])
    ensures Ahead(FillBoth(e, t, m, q, p), base, u, Behind(e.core.orders[t], e.core.orders[m], q, p, u))
  {
    var taker, maker := e.core.orders[t], e.core.orders[m];
    FillAhead(e, t, q, p, base, u, NO_CHANGE);
    var e2 := e.(core := FillCore(e.core, t, q, p));
    FillAhead(e2, m, q, p, base, u, NO_CHANGE.Minus(FillChange(taker, q, p, u)));
    var e3 := e2.(core := FillCore(e2.core, m, q, p));
    var t', m' := e3.core.Get(t), e3.core.Get(m);
    EmitTwoAhead(e3, t'.user, FillEvent(t'), m'.user, FillEvent(m'), base, u, Behind(taker, maker, q, p, u));
  }

  /** Between the fills and the settlement the balances are behind by both fills. */
  ghost function Behind(t: Order, m: Order, q: int, p: Price, u: UserId): Change {
    NO_CHANGE.Minus(FillChange(t, q, p, u)).Minus(FillChange(m, q, p, u))
  }

  lemma {:induction false} FillsAhead(e: Engine, t: OrderId, m: OrderId, q: int, p: Price, base: Ledger, u: UserId)
    requires Meets(e.core, t, m) && q == TradeQuantity(e.core, t, m) && Ahead(e, base, u, NO_CHANGE)
    ensures var taker, maker := e.core.orders[t], e.core.orders[m];
      Ahead(FillBoth(TradeEvents(e, taker, maker, q, p), t, m, q, p), base, u, Behind(taker, maker, q, p, u))
  {
    var taker, maker := e.core.orders[t], e.core.orders[m];
    assert OrderInv(e.core, t, {}, {}) && OrderInv(e.core, m, {}, {});
    EmitTwoAhead(e, taker.user, NewTrade(t, q, p, Taker), maker.user, NewTrade(m, q, p, Maker), base, u, NO_CHANGE);
    FillBothAhead(TradeEvents(e, taker, maker, q, p), t, m, q, p, base, u);
  }

  lemma {:induction false} BackToZero(x: Change, y: Change)
    ensures NO_CHANGE.Minus(x).Minus(y).Plus(y).Plus(x) == NO_CHANGE
  {
  }

  lemma {:induction false} ReactAhead(e: Engine, t: OrderId, m: OrderId, base: Ledger, u: UserId, gap: Change)
    requires MidInv(e.core, {t, m}, {t, m}) && t in e.core.orders && m in e.core.orders && t != m
    requires e.core.orders[t].executed > 0
    requires Hook(e, t).Ok? && Hook(Hook(e, t).value, m).Ok? && Ahead(e, base, u, gap) && u != SYSTEM_USER_ID
    ensures Ahead(Hook(Hook(e, t).value, m).value, base, u, gap)
  {
    HookAhead(e, t, {t, m}, {t, m}, base, u, gap);
    HookProjects(e, t);
    HookKeeps(e.core, t, {t, m}, {t, m});
    assert {t, m} - {t} == {m};
    HookAhead(Hook(e, t).value, m, {m}, {t, m}, base, u, gap);
  }

  lemma {:induction false} CloseAhead(e: Engine, taker: Order, maker: Order, m: OrderId, q: int, p: Price,
                                      base: Ledger, u: UserId)
    requires RetireCore(e.core, m).Ok? && u != SYSTEM_USER_ID && Ahead(e, base, u, Behind(taker, maker, q, p, u))
    ensures Ahead(Settle(e.(core := RetireCore(e.core, m).value), taker, maker, q, p), base, u, NO_CHANGE)
  {
    var x, y := FillChange(taker, q, p, u), FillChange(maker, q, p, u);
    CoreAhead(e, RetireCore(e.core, m).value, base, u, Behind(taker, maker, q, p, u));
    SettleAhead(e.(core := RetireCore(e.core, m).value), taker, maker, q, p, base, u, Behind(taker, maker, q, p, u));
    BackToZero(x, y);
  }

  /** A trade leaves every ordinary user's balances exactly explained. */
  lemma {:induction false} TradeBalances(e: Engine, t: OrderId, m: OrderId, q: int, p: Price, base: Ledger, u: UserId)
    requires Meets(e.core, t, m) && q == TradeQuantity(e.core, t, m) && Trade(e, t, m, q, p).Ok?
    requires Ahead(e, base, u, NO_CHANGE) && u != SYSTEM_USER_ID
    ensures Ahead(Trade(e, t, m, q, p).value, base, u, NO_CHANGE)
  {
    var taker, maker := e.core.orders[t], e.core.orders[m];
    FillsAhead(e, t, m, q, p, base, u);
    FillsKeep(e.core, t, m, q, p);
    var e1 := FillBoth(TradeEvents(e, taker, maker, q, p), t, m, q, p);
    assert e1.core == Filled(e.core, t, m, q, p);
    assert OrderInv(e.core, t, {}, {}) && OrderInv(e.core, m, {}, {});
    ReactAhead(e1, t, m, base, u, Behind(taker, maker, q, p, u));
    CloseAhead(Hook(Hook(e1, t).value, m).value, taker, maker, m, q, p, base, u);
  }

  lemma {:induction false} CancelBalances(e: Engine, id: OrderId, base: Ledger, u: UserId)
    requires CancelOrder(e, id).Ok? && Ahead(e, base, u, NO_CHANGE) && u != SYSTEM_USER_ID
    ensures Ahead(CancelOrder(e, id).value, base, u, NO_CHANGE)
  {
    var o := e.core.Get(id);
    var c := CancelCore(e.core, id).value;
    UnbookAllOrders(e.core, CancelTargets(o));
    CoreAhead(e, c, base, u, NO_CHANGE);
    CancellationsAreOrderEvents(CancelTargets(o));
    EmitAhead(e.(core := c), o.user, Cancellations(CancelTargets(o)), base, u, NO_CHANGE);
    var e1 := Emit(e.(core := c), o.user, Cancellations(CancelTargets(o)));
    ReleaseAhead(e1, c.Get(CancelReleases(o)), base, u, NO_CHANGE);
  }

  lemma {:induction false} UnbookAllOrders(c: Core, ids: seq<OrderId>)
    requires UnbookAll(c, ids).Ok?
    ensures UnbookAll(c, ids).value.orders == c.orders
    decreases |ids|
  {
    if ids != [] { UnbookAllOrders(Unbook(c, ids[0]).value, ids[1..]); }
  }

  lemma {:induction false} CancellationsAreOrderEvents(ids: seq<OrderId>)
    ensures forall i :: 0 <= i < |Cancellations(ids)| ==> !Cancellations(ids)[i].BalanceChanged?
  {
    if ids != [] { CancellationsAreOrderEvents(ids[1..]); }
  }

  lemma {:induction false} EncounterBalances(e: Engine, t: OrderId, m: OrderId, p: Price, base: Ledger, u: UserId)
    requires Meets(e.core, t, m) && Encounter(e, t, m, p).Ok? && Ahead(e, base, u, NO_CHANGE) && u != SYSTEM_USER_ID
    ensures Ahead(Encounter(e, t, m, p).value, base, u, NO_CHANGE)
  {
    var q := TradeQuantity(e.core, t, m);
    var e' := Checked(e, e.core.Get(m), q, p);
    CheckedAhead(e, e.core.Get(m), q, p, base, u, NO_CHANGE);
    if Answer(e, e.core.Get(m), q, p) {
      TradeBalances(e', t, m, q, p, base, u);
    } else {
      CancelBalances(e', m, base, u);
    }
  }

  lemma {:induction false} SweepBalances(e: Engine, t: OrderId, base: Ledger, u: UserId)
    requires Inv(e.core) && Entering(e.core, t) && Sweep(e, t).Ok? && Ahead(e, base, u, NO_CHANGE)
    requires u != SYSTEM_USER_ID
    ensures Ahead(Sweep(e, t).value, base, u, NO_CHANGE)
    decreases RestingOn(e.core.book, e.core.Get(t).side.Opposite())
  {
    var c := e.core;
    var side := c.orders[t].side.Opposite();
    FrontFacts(c, side);
    if c.orders[t].executed < c.orders[t].quantity && Front(c.book, side).Some? {
      var m, p := Front(c.book, side).value, Best(c.book, side).value;
      FrontMeets(c, t);
      EncounterProjects(e, t, m, p);
      EncounterCoreKeeps(c, t, m, p, Answer(e, c.Get(m), TradeQuantity(c, t, m), p));
      EncounterBalances(e, t, m, p, base, u);
      var e' := Encounter(e, t, m, p).value;
      if e'.core.Get(t).side == c.orders[t].side && RestingOn(e'.core.book, side) < RestingOn(c.book, side) {
        SweepBalances(e', t, base, u);
      }
    }
  }

  lemma {:induction false} PlaceBalances(e: Engine, id: OrderId, stored: set<OrderId>, base: Ledger, u: UserId)
    requires Place(e, id, stored).Ok? && Ahead(e, base, u, NO_CHANGE)
    ensures Ahead(Place(e, id, stored).value, base, u, NO_CHANGE)
  {
    var o := e.core.Get(id);
    var c := Enbook(e.core, id).value;
    var c' := c.(store := c.store + stored);
    CoreAhead(e, c', base, u, NO_CHANGE);
    EmitAhead(e.(core := c'), o.user, [OrderPlaced(id, o)], base, u, NO_CHANGE);
  }

  lemma {:induction false} RejectBalances(e: Engine, id: OrderId, base: Ledger, u: UserId)
    requires CancelOrder(e, id).Ok? && Ahead(e, base, u, NO_CHANGE) && u != SYSTEM_USER_ID
    ensures var o := e.core.Get(id);
      Ahead(Release(Emit(CancelOrder(e, id).value, o.user, [OrderCancelled(id)]), o), base, u, NO_CHANGE)
  {
    var o := e.core.Get(id);
    CancelBalances(e, id, base, u);
    var e2 := CancelOrder(e, id).value;
    EmitAhead(e2, o.user, [OrderCancelled(id)], base, u, NO_CHANGE);
    ReleaseAhead(Emit(e2, o.user, [OrderCancelled(id)]), o, base, u, NO_CHANGE);
  }

  lemma {:induction false} SubmitBalances(e: Engine, id: OrderId, stored: set<OrderId>, base: Ledger, u: UserId)
    requires Inv(e.core) && Entering(e.core, id) && Submit(e, id, stored).Ok?
    requires Ahead(e, base, u, NO_CHANGE) && u != SYSTEM_USER_ID
    ensures Ahead(Submit(e, id, stored).value, base, u, NO_CHANGE)
  {
    var o := e.core.orders[id];
    if !Crossable(e.core.book, o) {
      PlaceBalances(e, id, stored, base, u);
    } else {
      var e1 := Checked(e, o, o.quantity, o.price);
      CheckedAhead(e, o, o.quantity, o.price, base, u, NO_CHANGE);
      if Answer(e, o, o.quantity, o.price) {
        SweepBalances(e1, id, base, u);
        var e2 := Sweep(e1, id).value;
        if !e2.core.Get(id).Complete() { PlaceBalances(e2, id, stored, base, u); }
      } else {
        RejectBalances(e1, id, base, u);
      }
    }
  }

  lemma {:induction false} IntakeBalances(e: Engine, cmd: Command, base: Ledger, u: UserId)
    requires CmdOk(e.core, cmd) && Ahead(e, base, u, NO_CHANGE)
    ensures Ahead(e.(core := Intake(e.core, cmd)), base, u, NO_CHANGE)
  {
    var orders := e.core.orders;
    match cmd
    case NewSingle(s) =>
      TotalAdd(orders, s.id, s.ToOrder(Single, true), u);
      CoreAhead(e, Intake(e.core, cmd), base, u, NO_CHANGE);
    case NewOto(p, ch) =>
      var a := p.ToOrder(OtoParent(ch.id), true);
      TotalAdd(orders, p.id, a, u);
      TotalAdd(orders[p.id := a], ch.id, ch.ToOrder(OtoChild(p.id), false), u);
      CoreAhead(e, Intake(e.core, cmd), base, u, NO_CHANGE);
    case NewOco(x, y) =>
      var a := x.ToOrder(OcoLeg(y.id), true);
      TotalAdd(orders, x.id, a, u);
      TotalAdd(orders[x.id := a], y.id, y.ToOrder(OcoLeg(x.id), true), u);
      CoreAhead(e, Intake(e.core, cmd), base, u, NO_CHANGE);
    case Cancel(_) =>
  }

  lemma {:induction false} HandleBalances(e: Engine, cmd: Command, base: Ledger, u: UserId)
    requires Inv(e.core) && CmdOk(e.core, cmd) && Handle(e, cmd).Ok?
    requires Ahead(e, base, u, NO_CHANGE) && u != SYSTEM_USER_ID
    ensures Ahead(Handle(e, cmd).value, base, u, NO_CHANGE)
  {
    IntakeKeeps(e.core, cmd);
    IntakeBalances(e, cmd, base, u);
    var e0 := e.(core := Intake(e.core, cmd));
    match cmd
    case NewSingle(s) => SubmitBalances(e0, s.id, {s.id}, base, u);
    case NewOto(p, ch) => SubmitBalances(e0, p.id, {p.id, ch.id}, base, u);
    case NewOco(a, b) =>
      PlaceBalances(e0, a.id, {a.id}, base, u);
      PlaceBalances(Place(e0, a.id, {a.id}).value, b.id, {b.id}, base, u);
    case Cancel(id) => if id in e.core.store { CancelBalances(e, id, base, u); }
  }

  /** An engine that has processed nothing yet. */
  ghost predicate Fresh(e: Engine, base: Ledger) {
    e.core == EMPTY_CORE && e.log == [] && e.wiring == Live(base) && base.granted == {}
  }

  /**
   * After any run that has not raised, each of the four balances of each ordinary user equals its
   * starting value plus the default grant, plus what the user's fills account for, minus the releases
   * logged for the user.
   */
  lemma {:induction false} BalancesExplained(e: Engine, cmds: seq<Command>, base: Ledger, u: UserId)
    requires Fresh(e, base) && Admissible(e, cmds) && Run(e, cmds).Ok? && u != SYSTEM_USER_ID
    ensures Ahead(Run(e, cmds).value, base, u, NO_CHANGE)
  {
    if cmds == [] {
      assert CashOf(map[], u) == map[] && CashEscrowOf(map[], u) == map[];
      assert AssetOf(map[], u) == map[] && AssetEscrowOf(map[], u) == map[];
    } else {
      var n := |cmds| - 1;
      BalancesExplained(e, cmds[..n], base, u);
      RunKeeps(e, cmds[..n]);
      HandleBalances(Run(e, cmds[..n]).value, cmds[n], base, u);
    }
  }
}
