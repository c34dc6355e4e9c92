/** Trading only moves cash and asset between users: what ordinary users gain, the system user loses. */
module Conservation {
  import opened Types
  import opened Collections
  import opened BookModel
  import opened Ledgers
  import opened EngineSpec
  import opened Invariants
  import opened Matching
  import opened Runs
  import opened PlainRuns
  import opened Accounting

  /** The signed cash and asset flows of every order. */
  ghost function CashFlows(orders: map<OrderId, Order>): map<OrderId, int> {
    map id | id in orders :: Explained(orders[id]).cash
  }

  ghost function AssetFlows(orders: map<OrderId, Order>): map<OrderId, int> {
    map id | id in orders :: Explained(orders[id]).asset
  }

  /** Over all orders, cash and asset flows cancel out. */
  ghost predicate Balanced(orders: map<OrderId, Order>) {
    SumMap(CashFlows(orders)) == 0 && SumMap(AssetFlows(orders)) == 0
  }

  /** Two maps that differ at two keys only. */
  lemma {:induction false} SumMapTwoChanges(m: map<int, int>, m': map<int, int>, i: int, j: int)
    requires i in m && j in m && i != j && m'.Keys == m.Keys
    requires forall k :: k in m && k != i && k != j ==> m'[k] == m[k]
    ensures SumMap(m') == SumMap(m) + (m'[i] - m[i]) + (m'[j] - m[j])
  {
    SumMapUpdate(m, i, m'[i]);
    SumMapUpdate(m[i := m'[i]], j, m'[j]);
    var n := m[i := m'[i]][j := m'[j]];
    assert n.Keys == m'.Keys;
    assert forall k :: k in m' ==> m'[k] == n[k];
    assert m' == n;
  }

  lemma {:induction false} TradeBalanced(c: Core, c': Core, t: OrderId, m: OrderId, q: int, p: Price)
    requires Balanced(c.orders) && TradeOrders(c, c', t, m, q, p) && t != m && c.orders[t].side != c.orders[m].side
    ensures Balanced(c'.orders)
  {
    OppositeFlows(c.orders[t], c.orders[m], q, p);
    CashAfter(c, c', t, m, q, p);
    AssetAfter(c, c', t, m, q, p);
  }

  lemma {:induction false} CashAfter(c: Core, c': Core, t: OrderId, m: OrderId, q: int, p: Price)
    requires TradeOrders(c, c', t, m, q, p) && t != m
    ensures SumMap(CashFlows(c'.orders)) == SumMap(CashFlows(c.orders))
      + (Explained(c'.orders[t]).cash - Explained(c.orders[t]).cash)
      + (Explained(c'.orders[m]).cash - Explained(c.orders[m]).cash)
  {
    OtherFlowsSame(c, c', t, m, q, p);
    SumMapTwoChanges(CashFlows(c.orders), CashFlows(c'.orders), t, m);
  }

  lemma {:induction false} AssetAfter(c: Core, c': Core, t: OrderId, m: OrderId, q: int, p: Price)
    requires TradeOrders(c, c', t, m, q, p) && t != m
    ensures SumMap(AssetFlows(c'.orders)) == SumMap(AssetFlows(c.orders))
      + (Explained(c'.orders[t]).asset - Explained(c.orders[t]).asset)
      + (Explained(c'.orders[m]).asset - Explained(c.orders[m]).asset)
  {
    OtherFlowsSame(c, c', t, m, q, p);
    SumMapTwoChanges(AssetFlows(c.orders), AssetFlows(c'.orders), t, m);
  }

  /** What one side of a trade receives the other side gives. */
  lemma {:induction false} OppositeFlows(t: Order, m: Order, q: int, p: Price)
    requires t.side != m.side
    ensures Explained(t.AddFill(q, p)).cash - Explained(t).cash
            + (Explained(m.AddFill(q, p)).cash - Explained(m).cash) == 0
    ensures Explained(t.AddFill(q, p)).asset - Explained(t).asset
            + (Explained(m.AddFill(q, p)).asset - Explained(m).asset) == 0
  {
    ValueAfter(t, q, p);
    ValueAfter(m, q, p);
  }

  lemma {:induction false} OtherFlowsSame(c: Core, c': Core, t: OrderId, m: OrderId, q: int, p: Price)
    requires TradeOrders(c, c', t, m, q, p)
    ensures forall x :: x in c.orders && x != t && x != m ==>
      Explained(c'.orders[x]).cash == Explained(c.orders[x]).cash
      && Explained(c'.orders[x]).asset == Explained(c.orders[x]).asset
  {
    forall x | x in c.orders && x != t && x != m
      ensures Explained(c'.orders[x]).cash == Explained(c.orders[x]).cash
      ensures Explained(c'.orders[x]).asset == Explained(c.orders[x]).asset
    {
      assert Terms(c'.orders[x]) == Terms(c.orders[x]);
    }
  }

  lemma {:induction false} AddBalanced(orders: map<OrderId, Order>, o: Order)
    requires o.id !in orders && o.executed == 0 && o.fills == []
    ensures SumMap(CashFlows(orders[o.id := o])) == SumMap(CashFlows(orders))
    ensures SumMap(AssetFlows(orders[o.id := o])) == SumMap(AssetFlows(orders))
  {
    assert CashFlows(orders[o.id := o]) == CashFlows(orders)[o.id := 0];
    assert AssetFlows(orders[o.id := o]) == AssetFlows(orders)[o.id := 0];
    SumMapUpdate(CashFlows(orders), o.id, 0);
    SumMapUpdate(AssetFlows(orders), o.id, 0);
  }

  lemma {:induction false} EncounterBalanced(e: Engine, t: OrderId, m: OrderId, p: Price)
    requires Meets(e.core, t, m) && Encounter(e, t, m, p).Ok? && Balanced(e.core.orders)
    ensures Balanced(Encounter(e, t, m, p).value.core.orders)
  {
    var c := e.core;
    var q := TradeQuantity(c, t, m);
    var pass := Answer(e, c.Get(m), q, p);
    EncounterProjects(e, t, m, p);
    if pass {
      TradeKeeps(c, t, m, q, p);
      TradeBalanced(c, TradeCore(c, t, m, q, p).value, t, m, q, p);
    } else {
      UnbookAllOrders(c, CancelTargets(c.Get(m)));
    }
  }

  lemma {:induction false} SweepBalanced(e: Engine, t: OrderId)
    requires Inv(e.core) && Entering(e.core, t) && Sweep(e, t).Ok? && Balanced(e.core.orders)
    ensures Balanced(Sweep(e, t).value.core.orders)
    decreases RestingOn(e.core.book, e.core.Get(t).side.Opposite())
  {
    var c := e.core;
    var side := c.orders[t].side.Opposite();
    FrontFacts(c, side);
    if c.orders[t].executed < c.orders[t].quantity && Front(c.book, side).Some? {
      var m, p := Front(c.book, side).value, Best(c.book, side).value;
      FrontMeets(c, t);
      EncounterBalanced(e, t, m, p);
      EncounterProjects(e, t, m, p);
      EncounterCoreKeeps(c, t, m, p, Answer(e, c.Get(m), TradeQuantity(c, t, m), p));
      var e' := Encounter(e, t, m, p).value;
      if e'.core.Get(t).side == c.orders[t].side && RestingOn(e'.core.book, side) < RestingOn(c.book, side) {
        SweepBalanced(e', t);
      }
    }
  }

  /** Only matching changes order objects. */
  lemma {:induction false} SubmitOrders(e: Engine, id: OrderId, stored: set<OrderId>)
    requires Submit(e, id, stored).Ok?
    ensures var o := e.core.Get(id);
      Submit(e, id, stored).value.core.orders ==
      if Crossable(e.core.book, o) && Answer(e, o, o.quantity, o.price)
      then Sweep(Checked(e, o, o.quantity, o.price), id).value.core.orders
      else e.core.orders
  {
    var o := e.core.Get(id);
    var e1 := Checked(e, o, o.quantity, o.price);
    SubmitCases(e, id, stored);
    if !Crossable(e.core.book, o) {
      PlaceOrders(e, id, stored);
    } else if Answer(e, o, o.quantity, o.price) {
      MatchOrRestOrders(e1, id, stored);
    } else {
      RejectOrders(e1, id);
    }
  }

  lemma {:induction false} SubmitCases(e: Engine, id: OrderId, stored: set<OrderId>)
    ensures var o := e.core.Get(id);
      var e1 := Checked(e, o, o.quantity, o.price);
      && e1.core == e.core
      && Submit(e, id, stored) ==
           if !Crossable(e.core.book, o) then Place(e, id, stored)
           else if Answer(e, o, o.quantity, o.price) then MatchOrRest(e1, id, stored)
           else Reject(e1, id)
  {
  }

  lemma {:induction false} PlaceOrders(e: Engine, id: OrderId, stored: set<OrderId>)
    requires Place(e, id, stored).Ok?
    ensures Place(e, id, stored).value.core.orders == e.core.orders
  {
  }

  lemma {:induction false} MatchOrRestOrders(e: Engine, id: OrderId, stored: set<OrderId>)
    requires MatchOrRest(e, id, stored).Ok?
    ensures MatchOrRest(e, id, stored).value.core.orders == Sweep(e, id).value.core.orders
  {
  }

  lemma {:induction false} RejectOrders(e: Engine, id: OrderId)
    requires Reject(e, id).Ok?
    ensures Reject(e, id).value.core.orders == e.core.orders
  {
    CancelProjects(e, id);
    UnbookAllOrders(e.core, CancelTargets(e.core.Get(id)));
  }

  lemma {:induction false} SubmitBalanced(e: Engine, id: OrderId, stored: set<OrderId>)
    requires Inv(e.core) && Entering(e.core, id) && Submit(e, id, stored).Ok? && Balanced(e.core.orders)
    ensures Balanced(Submit(e, id, stored).value.core.orders)
  {
    var o := e.core.orders[id];
    SubmitOrders(e, id, stored);
    if Crossable(e.core.book, o) && Answer(e, o, o.quantity, o.price) {
      SweepBalanced(Checked(e, o, o.quantity, o.price), id);
    }
  }

  lemma {:induction false} HandleBalanced(e: Engine, cmd: Command)
    requires Inv(e.core) && CmdOk(e.core, cmd) && Handle(e, cmd).Ok? && Balanced(e.core.orders)
    ensures Balanced(Handle(e, cmd).value.core.orders)
  {
    IntakeKeeps(e.core, cmd);
    var e0 := e.(core := Intake(e.core, cmd));
    IntakeBalanced(e.core, cmd);
    match cmd
    case NewSingle(s) => SubmitBalanced(e0, s.id, {s.id});
    case NewOto(p, ch) => SubmitBalanced(e0, p.id, {p.id, ch.id});
    case NewOco(a, b) => assert Handle(e, cmd).value.core.orders == e0.core.orders;
    case Cancel(id) =>
      if id in e.core.store {
        CancelProjects(e, id);
        UnbookAllOrders(e.core, CancelTargets(e.core.Get(id)));
        assert Handle(e, cmd).value.core.orders == e.core.orders;
      }
  }

  lemma {:induction false} IntakeBalanced(c: Core, cmd: Command)
    requires CmdOk(c, cmd) && Balanced(c.orders)
    ensures Balanced(Intake(c, cmd).orders)
  {
    match cmd
    case NewSingle(s) => AddBalanced(c.orders, s.ToOrder(Single, true));
    case NewOto(p, ch) =>
      var a := p.ToOrder(OtoParent(ch.id), true);
      AddBalanced(c.orders, a);
      AddBalanced(c.orders[a.id := a], ch.ToOrder(OtoChild(p.id), false));
    case NewOco(x, y) =>
      var a := x.ToOrder(OcoLeg(y.id), true);
      AddBalanced(c.orders, a);
      AddBalanced(c.orders[a.id := a], y.ToOrder(OcoLeg(x.id), true));
    case Cancel(_) =>
  }

  lemma {:induction false} RunBalanced(e: Engine, cmds: seq<Command>)
    requires e.core == EMPTY_CORE && Admissible(e, cmds) && Run(e, cmds).Ok?
    ensures Balanced(Run(e, cmds).value.core.orders)
  {
    if cmds == [] {
      assert CashFlows(map[]) == map[] && AssetFlows(map[]) == map[];
    } else {
      var n := |cmds| - 1;
      RunBalanced(e, cmds[..n]);
      RunKeeps(e, cmds[..n]);
      HandleBalanced(Run(e, cmds[..n]).value, cmds[n]);
    }
  }

  // ---- Totals over users ----

  /** The sum of one balance over a finite set of users. */
  ghost function SumUsers(users: set<UserId>, balance: map<UserId, int>): int {
    SumMap(Listed(users, balance))
  }

  lemma {:induction false} SumMapAdds(m: map<int, int>, n: map<int, int>, total: map<int, int>)
    requires m.Keys == n.Keys == total.Keys
    requires forall k :: k in m ==> total[k] == m[k] + n[k]
    ensures SumMap(total) == SumMap(m) + SumMap(n)
    decreases |m|
  {
    if exists k :: k in m {
      var k :| k in m;
      SumMapRemove(m, k);
      SumMapRemove(n, k);
      SumMapRemove(total, k);
      SumMapAdds(m - {k}, n - {k}, total - {k});
    }
  }

  lemma {:induction false} SumZero(m: map<int, int>)
    requires forall k :: k in m ==> m[k] == 0
    ensures SumMap(m) == 0
    decreases |m|
  {
    if exists k :: k in m {
      var k :| k in m;
      SumMapRemove(m, k);
      SumZero(m - {k});
    }
  }

  /** The flows of the orders owned by `u`, and by anyone in `users`. */
  ghost function FlowsOf(flows: map<OrderId, int>, owner: map<OrderId, UserId>, u: UserId): map<OrderId, int>
    requires owner.Keys == flows.Keys
  {
    map id | id in flows :: if owner[id] == u then flows[id] else 0
  }

  ghost function FlowsIn(flows: map<OrderId, int>, owner: map<OrderId, UserId>, users: set<UserId>): map<OrderId, int>
    requires owner.Keys == flows.Keys
  {
    map id | id in flows :: if owner[id] in users then flows[id] else 0
  }

  ghost function PerUser(flows: map<OrderId, int>, owner: map<OrderId, UserId>, users: set<UserId>): map<UserId, int>
    requires owner.Keys == flows.Keys
  {
    map u | u in users :: SumMap(FlowsOf(flows, owner, u))
  }

  lemma {:induction false} OneUserMore(flows: map<OrderId, int>, owner: map<OrderId, UserId>, users: set<UserId>,
                                       u: UserId)
    requires owner.Keys == flows.Keys && u in users
    ensures SumMap(FlowsIn(flows, owner, users))
         == SumMap(FlowsIn(flows, owner, users - {u})) + SumMap(FlowsOf(flows, owner, u))
  {
    SumMapAdds(FlowsIn(flows, owner, users - {u}), FlowsOf(flows, owner, u), FlowsIn(flows, owner, users));
  }

  /** Summing per user and then over users is summing over their orders. */
  lemma {:induction false} SwapSums(flows: map<OrderId, int>, owner: map<OrderId, UserId>, users: set<UserId>)
    requires owner.Keys == flows.Keys
    ensures SumMap(PerUser(flows, owner, users)) == SumMap(FlowsIn(flows, owner, users))
    decreases |users|
  {
    if exists u :: u in users {
      var u :| u in users;
      SwapSums(flows, owner, users - {u});
      OneUserMore(flows, owner, users, u);
      SumMapRemove(PerUser(flows, owner, users), u);
      assert PerUser(flows, owner, users) - {u} == PerUser(flows, owner, users - {u});
    } else {
      assert PerUser(flows, owner, users) == map[];
      SumZero(FlowsIn(flows, owner, users));
    }
  }

  /** If everybody but `s` is in `users`, their flows are everything minus the flows of `s`. */
  lemma {:induction false} AllButOne(flows: map<OrderId, int>, owner: map<OrderId, UserId>, users: set<UserId>,
                                     s: UserId)
    requires owner.Keys == flows.Keys && s !in users
    requires forall id :: id in owner ==> owner[id] == s || owner[id] in users
    ensures SumMap(FlowsIn(flows, owner, users)) == SumMap(flows) - SumMap(FlowsOf(flows, owner, s))
  {
    SumMapAdds(FlowsIn(flows, owner, users), FlowsOf(flows, owner, s), flows);
  }

  ghost function Owners(orders: map<OrderId, Order>): map<OrderId, UserId> { map id | id in orders :: orders[id].user }

  lemma {:induction false} FlowsOfUser(orders: map<OrderId, Order>, u: UserId)
    ensures FlowsOf(CashFlows(orders), Owners(orders), u) == CashOf(orders, u)
    ensures FlowsOf(AssetFlows(orders), Owners(orders), u) == AssetOf(orders, u)
  {
    var cash, asset := FlowsOf(CashFlows(orders), Owners(orders), u), FlowsOf(AssetFlows(orders), Owners(orders), u);
    assert cash.Keys == CashOf(orders, u).Keys && forall id :: id in cash ==> cash[id] == CashOf(orders, u)[id];
    assert asset.Keys == AssetOf(orders, u).Keys && forall id :: id in asset ==> asset[id] == AssetOf(orders, u)[id];
    MapsEqual(cash, CashOf(orders, u));
    MapsEqual(asset, AssetOf(orders, u));
  }

  /** Releases move escrow only. */
  lemma {:induction false} ReleasesMoveEscrow(log: seq<Event>, u: UserId)
    ensures Released(log, u).cash == 0 && Released(log, u).asset == 0
  {
    if log != [] { ReleasesMoveEscrow(log[..|log| - 1], u); }
  }

  ghost function Grants(users: set<UserId>, granted: set<UserId>): map<UserId, int> {
    map u | u in users :: if u in granted then DEFAULT_CASH_BALANCE else 0
  }

  lemma {:induction false} SumGrants(users: set<UserId>, granted: set<UserId>)
    ensures SumMap(Grants(users, granted)) == DEFAULT_CASH_BALANCE * |granted * users|
    decreases |users|
  {
    if exists u :: u in users {
      var u :| u in users;
      SumGrants(users - {u}, granted);
      SumMapRemove(Grants(users, granted), u);
      assert Grants(users, granted) - {u} == Grants(users - {u}, granted);
      assert granted * (users - {u}) == granted * users - {u};
    } else {
      assert Grants(users, granted) == map[] && granted * users == {};
    }
  }

  /** `users` is every ordinary user that owns an order. */
  ghost predicate Covers(users: set<UserId>, orders: map<OrderId, Order>) {
    && SYSTEM_USER_ID !in users
    && forall id :: id in orders ==> orders[id].user == SYSTEM_USER_ID || orders[id].user in users
  }

  lemma {:induction false} FlowsLeaveToSystem(orders: map<OrderId, Order>, users: set<UserId>)
    requires Covers(users, orders) && Balanced(orders)
    ensures SumMap(PerUser(CashFlows(orders), Owners(orders), users)) == -SumMap(CashOf(orders, SYSTEM_USER_ID))
    ensures SumMap(PerUser(AssetFlows(orders), Owners(orders), users)) == -SumMap(AssetOf(orders, SYSTEM_USER_ID))
  {
    var owner := Owners(orders);
    SwapSums(CashFlows(orders), owner, users);
    SwapSums(AssetFlows(orders), owner, users);
    AllButOne(CashFlows(orders), owner, users, SYSTEM_USER_ID);
    AllButOne(AssetFlows(orders), owner, users, SYSTEM_USER_ID);
    FlowsOfUser(orders, SYSTEM_USER_ID);
  }

  /** A user's cash and asset are explained by the flows of the user's orders. */
  ghost predicate UserExplained(e: Engine, base: Ledger, u: UserId) {
    && e.wiring.Live?
    && var l := e.wiring.ledger;
    && Ledgers.Get(l.cash, u) == Ledgers.Get(base.cash, u) + (if u in l.granted then DEFAULT_CASH_BALANCE else 0)
                                 + SumMap(FlowsOf(CashFlows(e.core.orders), Owners(e.core.orders), u))
    && Ledgers.Get(l.asset, u) == Ledgers.Get(base.asset, u)
                                  + SumMap(FlowsOf(AssetFlows(e.core.orders), Owners(e.core.orders), u))
  }

  lemma {:induction false} UserBalances(e: Engine, base: Ledger, u: UserId)
    requires Ahead(e, base, u, NO_CHANGE)
    ensures UserExplained(e, base, u)
  {
    ReleasesMoveEscrow(e.log, u);
    FlowsOfUser(e.core.orders, u);
  }

  lemma {:induction false} SumAsset(users: set<UserId>, base: Ledger, l: Ledger, flows: map<UserId, int>)
    requires flows.Keys == users
    requires forall u :: u in users ==> Ledgers.Get(l.asset, u) == Ledgers.Get(base.asset, u) + flows[u]
    ensures SumUsers(users, l.asset) == SumUsers(users, base.asset) + SumMap(flows)
  {
    SumMapAdds(Listed(users, base.asset), flows, Listed(users, l.asset));
  }

  lemma {:induction false} TotalsAt(e: Engine, base: Ledger, users: set<UserId>)
    requires e.wiring.Live? && Balanced(e.core.orders) && Covers(users, e.core.orders)
    requires forall u :: u in users ==> UserExplained(e, base, u)
    ensures ConservedTotals(e, base, users)
  {
    var orders, l := e.core.orders, e.wiring.ledger;
    FlowsLeaveToSystem(orders, users);
    assert forall u :: u in users ==> UserExplained(e, base, u);
    SumCash(users, base, l, PerUser(CashFlows(orders), Owners(orders), users));
    SumAsset(users, base, l, PerUser(AssetFlows(orders), Owners(orders), users));
  }

  /** Users' totals against the start: grants in, what the system user gained out. */
  ghost predicate ConservedTotals(e: Engine, base: Ledger, users: set<UserId>)
    requires e.wiring.Live?
  {
    var l := e.wiring.ledger;
    && SumUsers(users, l.cash) == SumUsers(users, base.cash) + DEFAULT_CASH_BALANCE * |l.granted * users|
                                  - SumMap(CashOf(e.core.orders, SYSTEM_USER_ID))
    && SumUsers(users, l.asset) == SumUsers(users, base.asset) - SumMap(AssetOf(e.core.orders, SYSTEM_USER_ID))
  }

  /**
   * Conservation over every run: the cash of all ordinary users together changes only by the grants and
   * by what the system user paid or received; their asset only by what the system user sold or bought.
   */
  lemma {:induction false} TotalsConserved(e: Engine, cmds: seq<Command>, base: Ledger, users: set<UserId>)
    requires Fresh(e, base) && Admissible(e, cmds) && Run(e, cmds).Ok?
    requires Covers(users, Run(e, cmds).value.core.orders)
    ensures Run(e, cmds).value.wiring.Live? && ConservedTotals(Run(e, cmds).value, base, users)
  {
    RunBalanced(e, cmds);
    RunExplains(e, cmds, base, SYSTEM_USER_ID + 1);
    forall u | u in users
      ensures UserExplained(Run(e, cmds).value, base, u)
    {
      RunExplains(e, cmds, base, u);
    }
    TotalsAt(Run(e, cmds).value, base, users);
  }

  lemma {:induction false} RunExplains(e: Engine, cmds: seq<Command>, base: Ledger, u: UserId)
    requires Fresh(e, base) && Admissible(e, cmds) && Run(e, cmds).Ok? && u != SYSTEM_USER_ID
    ensures UserExplained(Run(e, cmds).value, base, u)
  {
    BalancesExplained(e, cmds, base, u);
    UserBalances(Run(e, cmds).value, base, u);
  }

  ghost function Listed(users: set<UserId>, balance: map<UserId, int>): map<UserId, int> {
    map u | u in users :: Ledgers.Get(balance, u)
  }

  lemma {:induction false} SumCash(users: set<UserId>, base: Ledger, l: Ledger, flows: map<UserId, int>)
    requires flows.Keys == users
    requires forall u :: u in users ==>
      Ledgers.Get(l.cash, u) == Ledgers.Get(base.cash, u) + Grants(users, l.granted)[u] + flows[u]
    ensures SumUsers(users, l.cash)
         == SumUsers(users, base.cash) + DEFAULT_CASH_BALANCE * |l.granted * users| + SumMap(flows)
  {
    var mid := map u | u in users :: Ledgers.Get(base.cash, u) + Grants(users, l.granted)[u];
    SumMapAdds(Listed(users, base.cash), Grants(users, l.granted), mid);
    SumMapAdds(mid, flows, Listed(users, l.cash));
    SumGrants(users, l.granted);
  }
}
