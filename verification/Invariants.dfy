/**
 * What every command keeps: the book, the store and the order objects agree, and the OTO and OCO
 * groups are in one of their legal states.
 */
module Invariants {
  import opened Types
  import opened Collections
  import opened BookModel
  import opened EngineSpec

  ghost function SumFills(fills: seq<Fill>): int {
    if fills == [] then 0 else SumFills(fills[..|fills| - 1]) + fills[|fills| - 1].quantity
  }

  ghost predicate OrderOk(id: OrderId, o: Order) {
    && o.id == id && o.quantity > 0 && o.price > 0
    && 0 <= o.executed <= o.quantity
    && o.executed == SumFills(o.fills) && (o.executed == 0 ==> o.fills == [])
    && Positive(o.fills)
  }

  /** Every fill is of a positive quantity. */
  ghost predicate Positive(fills: seq<Fill>) {
    fills == [] || (fills[|fills| - 1].quantity > 0 && Positive(fills[..|fills| - 1]))
  }

  /** Every order in a level is an active, stored order whose own side and price name that level. */
  ghost predicate BookAgrees(c: Core) {
    forall k, id :: InLevel(c.book, k, id) ==>
      id in c.orders && c.orders[id].Key() == k && id in c.store && c.orders[id].active
  }

  /**
   * The legal states of one order. Inside a trade, `hook` holds the orders whose fill has not yet been
   * reported to their strategy and `full` the completed orders the engine has still to retire; between
   * commands both are empty.
   */
  ghost predicate OrderInv(c: Core, id: OrderId, hook: set<OrderId>, full: set<OrderId>)
    requires id in c.orders
  {
    var o := c.orders[id];
    && OrderOk(id, o)
    && (c.Resting(id) && id !in full ==> o.executed < o.quantity)
    && GroupInv(c, id, o, hook)
    && (id in c.store ==> c.Resting(id) || Waiting(c, id))
  }

  /** An inactive OTO child whose parent rests in the book. */
  ghost predicate Waiting(c: Core, id: OrderId) {
    var o := c.Get(id);
    o.strategy.OtoChild? && !o.active && c.Resting(o.strategy.parent)
  }

  ghost predicate GroupInv(c: Core, id: OrderId, o: Order, hook: set<OrderId>) {
    match o.strategy
    case Single => o.active
    case OtoParent(child) => o.active && ParentInv(c, id, o, child, hook)
    case OtoChild(parent) =>
      && parent in c.orders && c.orders[parent].strategy == OtoParent(id)
      && (!o.active ==> o.executed == 0)
    case OcoLeg(peer) => o.active && LegInv(c, id, o, peer, hook)
  }

  /** A child is active exactly when its parent is fully filled, and is stored while the parent rests. */
  ghost predicate ParentInv(c: Core, id: OrderId, o: Order, child: OrderId, hook: set<OrderId>) {
    && child in c.orders
    && var ch := c.orders[child];
    && ch.strategy == OtoChild(id) && ch.side != o.side && ch.user == o.user
    && (id in hook ==> !ch.active)
    && (id !in hook ==> (ch.active <==> o.executed == o.quantity))
    && (c.Resting(id) ==> child in c.store)
  }

  /** Once one leg has traded, the other never has and is in neither book nor store. */
  ghost predicate LegInv(c: Core, id: OrderId, o: Order, peer: OrderId, hook: set<OrderId>) {
    && peer in c.orders && peer != id
    && var other := c.orders[peer];
    && other.strategy == OcoLeg(id) && other.Key() != o.Key() && other.user == o.user
    && (o.executed > 0 ==> other.executed == 0)
    && (o.executed > 0 && id !in hook ==> !c.Resting(peer) && peer !in c.store)
    && (o.executed == 0 && c.Resting(id) ==> c.Resting(peer))
  }

  ghost predicate MidInv(c: Core, hook: set<OrderId>, full: set<OrderId>) {
    && BookWf(c.book) && BookAgrees(c)
    && (forall id :: id in c.store ==> id in c.orders)
    && (forall id :: id in c.orders ==> OrderInv(c, id, hook, full))
  }

  /** The invariant between commands. */
  ghost predicate Inv(c: Core) { MidInv(c, {}, {}) }

  // ---- Each primitive step ----

  lemma {:induction false} FillOk(id: OrderId, o: Order, q: int, p: Price)
    requires OrderOk(id, o) && 0 < q <= o.Remaining()
    ensures OrderOk(id, o.AddFill(q, p))
  {
    var fills := o.AddFill(q, p).fills;
    assert fills[..|fills| - 1] == o.fills;
  }

  /** `add_fill` on an active order: its strategy now owes a reaction, the engine perhaps a retirement. */
  lemma FillKeeps(c: Core, id: OrderId, q: int, p: Price, hook: set<OrderId>, full: set<OrderId>)
    requires MidInv(c, hook, full) && id in c.orders && id !in hook
    requires c.orders[id].active && 0 < q <= c.orders[id].Remaining()
    requires c.orders[id].strategy.OcoLeg? ==> c.Resting(id) && c.orders[id].strategy.peer !in hook
    ensures MidInv(FillCore(c, id, q, p), hook + {id}, full + {id})
  {
    var c' := FillCore(c, id, q, p);
    var o, o' := c.orders[id], c'.orders[id];
    assert OrderInv(c, id, hook, full);
    if o.strategy.OcoLeg? { assert OrderInv(c, o.strategy.peer, hook, full); }
    FillOk(id, o, q, p);
    assert forall x :: c'.Resting(x) == c.Resting(x);
    forall x | x in c'.orders
      ensures OrderInv(c', x, hook + {id}, full + {id})
    {
      assert OrderInv(c, x, hook, full);
    }
  }

  lemma UnbookEffect(c: Core, id: OrderId)
    requires BookWf(c.book)
    ensures Unbook(c, id).Ok? <==> (c.Get(id).Key() in c.book ==> c.Resting(id))
    ensures Unbook(c, id).Ok? ==>
      var c' := Unbook(c, id).value;
      && c' == c.(book := c'.book) && BookWf(c'.book)
      && (forall k, x :: InLevel(c'.book, k, x) <==> InLevel(c.book, k, x) && !(k == c.Get(id).Key() && x == id))
      && (forall x :: c'.Resting(x) <==> c.Resting(x) && x != id)
  {
    RemoveEffect(c.book, c.Get(id).Key(), id);
  }

  lemma EnbookEffect(c: Core, id: OrderId)
    requires BookWf(c.book) && !c.Resting(id)
    ensures Enbook(c, id).Ok?
    ensures var c' := Enbook(c, id).value;
      && c' == c.(book := c'.book) && BookWf(c'.book)
      && (forall k, x :: InLevel(c'.book, k, x) <==> InLevel(c.book, k, x) || (k == c.Get(id).Key() && x == id))
      && (forall x :: c'.Resting(x) <==> c.Resting(x) || x == id)
  {
    AppendEffect(c.book, c.Get(id).Key(), id);
  }

  /** A fully filled OTO parent activates its child: the child enters book and store. */
  lemma ActivateKeeps(c: Core, id: OrderId, hook: set<OrderId>, full: set<OrderId>)
    requires MidInv(c, hook, full) && id in c.orders && id in hook
    requires c.orders[id].strategy.OtoParent? && c.orders[id].Complete()
    ensures HookCore(c, id).Ok?
    ensures var c' := HookCore(c, id).value;
      && MidInv(c', hook - {id}, full)
      && (forall x :: c'.Resting(x) <==> c.Resting(x) || x == c.orders[id].strategy.child)
  {
    var child := c.orders[id].strategy.child;
    assert OrderInv(c, id, hook, full) && OrderInv(c, child, hook, full);
    var c1 := c.Put(c.Get(child).(active := true));
    assert forall x :: c1.Resting(x) == c.Resting(x);
    EnbookEffect(c1, child);
    var c' := HookCore(c, id).value;
    forall x | x in c'.orders
      ensures OrderInv(c', x, hook - {id}, full)
    {
      assert OrderInv(c, x, hook, full);
    }
  }

  /** A traded OCO leg takes its peer out of book and store. */
  lemma DropPeerKeeps(c: Core, id: OrderId, hook: set<OrderId>, full: set<OrderId>)
    requires MidInv(c, hook, full) && id in c.orders && id in hook
    requires c.orders[id].strategy.OcoLeg? && c.orders[id].executed > 0
    requires HookCore(c, id).Ok?
    ensures var c' := HookCore(c, id).value;
      && MidInv(c', hook - {id}, full)
      && (forall x :: c'.Resting(x) <==> c.Resting(x) && x != c.orders[id].strategy.peer)
  {
    var peer := c.orders[id].strategy.peer;
    assert OrderInv(c, id, hook, full) && OrderInv(c, peer, hook, full);
    UnbookEffect(c, peer);
    var c' := HookCore(c, id).value;
    forall x | x in c'.orders
      ensures OrderInv(c', x, hook - {id}, full)
    {
      assert OrderInv(c, x, hook, full);
    }
  }

  /** The other strategies owe nothing. */
  lemma NoHookKeeps(c: Core, id: OrderId, hook: set<OrderId>, full: set<OrderId>)
    requires MidInv(c, hook, full) && id in c.orders && id in hook
    requires c.orders[id].strategy.OtoParent? ==> !c.orders[id].Complete()
    requires !c.orders[id].strategy.OcoLeg?
    ensures MidInv(c, hook - {id}, full)
  {
    forall x | x in c.orders
      ensures OrderInv(c, x, hook - {id}, full)
    {
      assert OrderInv(c, x, hook, full);
    }
  }

  /** Retiring a completed maker whose strategy has been told. */
  lemma RetireKeeps(c: Core, m: OrderId, full: set<OrderId>)
    requires MidInv(c, {}, full) && m in c.orders && c.Resting(m)
    requires forall x :: x in full && x != m ==> !c.Resting(x)
    ensures RetireCore(c, m).Ok?
    ensures var c' := RetireCore(c, m).value;
      && MidInv(c', {}, full - {m})
      && (forall x :: c'.Resting(x) <==> c.Resting(x) && !(x == m && c.orders[m].Complete()))
  {
    assert OrderInv(c, m, {}, full);
    UnbookEffect(c, m);
    var c' := RetireCore(c, m).value;
    forall x | x in c'.orders
      ensures OrderInv(c', x, {}, full - {m})
    {
      assert OrderInv(c, x, {}, full);
      match c.orders[x].strategy
      case OtoChild(p) => assert OrderInv(c, p, {}, full);
      case OcoLeg(q) => assert OrderInv(c, q, {}, full);
      case _ =>
    }
  }

  // ---- Whole trades, cancels and placements ----

  /** An order on its way in: known, active, not yet in book or store. */
  ghost predicate Entering(c: Core, t: OrderId) {
    && t in c.orders && !c.Resting(t) && t !in c.store && c.orders[t].active
    && (c.orders[t].strategy.Single? || c.orders[t].strategy.OtoParent?)
  }

  /** The part of an order that no step changes. */
  function Terms(o: Order): Order { o.(active := false, executed := 0, fills := []) }

  /** What a step may do to order objects: none disappears, only fills and activation change, fills grow. */
  ghost predicate Evolves(c: Core, c': Core) {
    forall x :: x in c.orders ==>
      x in c'.orders && Terms(c'.orders[x]) == Terms(c.orders[x]) && c.orders[x].executed <= c'.orders[x].executed
  }

  ghost predicate OnlyActivates(c: Core, c': Core) {
    c'.orders.Keys == c.orders.Keys && forall x :: x in c.orders ==>
      x in c'.orders && (c'.orders[x] == c.orders[x] || c'.orders[x] == c.orders[x].(active := true))
  }

  lemma HookKeeps(c: Core, id: OrderId, hook: set<OrderId>, full: set<OrderId>)
    requires MidInv(c, hook, full) && id in c.orders && id in hook && c.orders[id].executed > 0
    requires HookCore(c, id).Ok?
    ensures var c' := HookCore(c, id).value;
      && MidInv(c', hook - {id}, full) && OnlyActivates(c, c')
      && (forall x :: x in c'.store && x !in c.store ==> c.orders[id].strategy == OtoParent(x))
      && (forall x :: c'.Resting(x) && !c.Resting(x) ==>
            c.orders[id].strategy == OtoParent(x) && c.orders[id].Complete())
      && (forall x :: c.Resting(x) && !c'.Resting(x) ==> c.orders[id].strategy == OcoLeg(x))
  {
    assert OrderInv(c, id, hook, full);
    var o := c.orders[id];
    if o.strategy.OtoParent? && o.Complete() {
      ActivateKeeps(c, id, hook, full);
    } else if o.strategy.OcoLeg? {
      DropPeerKeeps(c, id, hook, full);
    } else {
      NoHookKeeps(c, id, hook, full);
    }
  }

  /** The taker and a maker it can trade with. */
  ghost predicate Meets(c: Core, t: OrderId, m: OrderId) {
    && Inv(c) && Entering(c, t) && c.Resting(m) && m in c.orders
    && c.orders[m].side != c.orders[t].side
    && c.orders[t].executed < c.orders[t].quantity
  }

  lemma FillsKeep(c: Core, t: OrderId, m: OrderId, q: int, p: Price)
    requires Meets(c, t, m) && q == TradeQuantity(c, t, m)
    ensures q > 0
    ensures MidInv(FillCore(FillCore(c, t, q, p), m, q, p), {t, m}, {t, m})
  {
    assert OrderInv(c, t, {}, {}) && OrderInv(c, m, {}, {});
    FillKeeps(c, t, q, p, {}, {});
    var c1 := FillCore(c, t, q, p);
    assert {} + {t} == {t};
    assert c1.orders[m] == c.orders[m] && c1.Resting(m);
    if c.orders[m].strategy.OcoLeg? { assert OrderInv(c, c.orders[m].strategy.peer, {}, {}); }
    FillKeeps(c1, m, q, p, {t}, {t});
    assert {t} + {m} == {t, m};
  }

  /** Both strategies react to the fill, taker first. */
  lemma HooksKeep(c: Core, t: OrderId, m: OrderId)
    requires MidInv(c, {t, m}, {t, m}) && Entering(c, t) && m in c.orders && m != t
    requires c.orders[t].executed > 0 && c.orders[m].executed > 0
    requires HookCore(c, t).Ok? && HookCore(HookCore(c, t).value, m).Ok?
    ensures var c' := HookCore(HookCore(c, t).value, m).value;
      && MidInv(c', {}, {t, m}) && OnlyActivates(c, c')
      && (forall x :: x in c'.store && x !in c.store ==> Child(c, t, x) || Child(c, m, x))
      && (forall x :: c'.Resting(x) && !c.Resting(x) ==> Child(c, t, x) || Child(c, m, x))
      && (forall x :: c.Resting(x) && !c'.Resting(x) ==> c.orders[m].strategy == OcoLeg(x))
  {
    HookKeeps(c, t, {t, m}, {t, m});
    var c2 := HookCore(c, t).value;
    assert {t, m} - {t} == {m};
    HookKeeps(c2, m, {m}, {t, m});
    assert {m} - {m} == {};
  }

  /** `x` is the child that `id`, being complete, activates. */
  ghost predicate Child(c: Core, id: OrderId, x: OrderId) {
    id in c.orders && c.orders[id].strategy == OtoParent(x) && c.orders[id].Complete()
  }

  /** The core after the fills and after both strategies have reacted. */
  function Filled(c: Core, t: OrderId, m: OrderId, q: int, p: Price): Core {
    FillCore(FillCore(c, t, q, p), m, q, p)
  }

  lemma ReactKeeps(c: Core, t: OrderId, m: OrderId, q: int, p: Price)
    requires Meets(c, t, m) && q == TradeQuantity(c, t, m) && TradeCore(c, t, m, q, p).Ok?
    ensures var c1 := Filled(c, t, m, q, p);
      var c3 := HookCore(HookCore(c1, t).value, m).value;
      && MidInv(c3, {}, {t, m}) && OnlyActivates(c1, c3)
      && c3.Resting(m) && !c3.Resting(t) && t !in c3.store
      && (forall x :: c3.Resting(x) && !c.Resting(x) ==> Child(c1, t, x) || Child(c1, m, x))
  {
    assert OrderInv(c, m, {}, {}) && OrderInv(c, t, {}, {});
    FillsKeep(c, t, m, q, p);
    var c1 := Filled(c, t, m, q, p);
    assert forall x :: c1.Resting(x) == c.Resting(x);
    assert OrderInv(c1, t, {t, m}, {t, m}) && OrderInv(c1, m, {t, m}, {t, m});
    HooksKeep(c1, t, m);
  }

  /** A trade keeps the invariant; the taker stays out of book and store. */
  lemma TradeKeeps(c: Core, t: OrderId, m: OrderId, q: int, p: Price)
    requires Meets(c, t, m) && q == TradeQuantity(c, t, m) && TradeCore(c, t, m, q, p).Ok?
    ensures var c' := TradeCore(c, t, m, q, p).value;
      Inv(c') && Entering(c', t) && TradeOutcome(c, c', t, m, q, p)
  {
    ReactKeeps(c, t, m, q, p);
    var c1 := Filled(c, t, m, q, p);
    var c3 := HookCore(HookCore(c1, t).value, m).value;
    RetireKeeps(c3, m, {t, m});
    assert {t, m} - {m} == {t};
    var c' := RetireCore(c3, m).value;
    Unfull(c', t);
    assert OrderInv(c, m, {}, {}) && OrderInv(c, t, {}, {});
    OrdersAfter(c, c', t, m, q, p);
    SideShrinks(c, c1, c', t, m, q, p);
  }

  lemma OrdersAfter(c: Core, c': Core, t: OrderId, m: OrderId, q: int, p: Price)
    requires t in c.orders && m in c.orders && t != m && c.orders[t].active && c.orders[m].active
    requires c.orders[t].id == t && c.orders[m].id == m && q >= 0
    requires OnlyActivates(Filled(c, t, m, q, p), c')
    ensures TradeOrders(c, c', t, m, q, p)
  {
  }

  lemma SideShrinks(c: Core, c1: Core, c': Core, t: OrderId, m: OrderId, q: int, p: Price)
    requires Inv(c) && t in c.orders && m in c.orders && t != m && c.orders[m].side != c.orders[t].side
    requires c1 == Filled(c, t, m, q, p) && OnlyActivates(c1, c') && TradeOrders(c, c', t, m, q, p)
    requires forall x :: c'.Resting(x) && !c.Resting(x) ==> Child(c1, t, x) || Child(c1, m, x)
    requires c.orders[m].executed + q == c.orders[m].quantity ==> !c'.Resting(m)
    requires q == TradeQuantity(c, t, m)
    ensures OnlyChildrenJoin(c, c')
    ensures !c'.orders[t].Complete() ==>
      forall x :: c'.Resting(x) && c'.Get(x).side == c.orders[m].side ==> c.Resting(x) && x != m
  {
    assert OrderInv(c, m, {}, {}) && OrderInv(c, t, {}, {});
    forall x | c'.Resting(x) && !c.Resting(x)
      ensures x in c.orders && c.orders[x].strategy.OtoChild?
    {
    }
    if !c'.orders[t].Complete() {
      assert c.orders[m].executed + q == c.orders[m].quantity;
      forall x | c'.Resting(x) && c'.Get(x).side == c.orders[m].side
        ensures c.Resting(x) && x != m
      {
      }
    }
  }

  lemma Unfull(c: Core, t: OrderId)
    requires MidInv(c, {}, {t}) && !c.Resting(t)
    ensures Inv(c)
  {
    forall x | x in c.orders
      ensures OrderInv(c, x, {}, {})
    {
      assert OrderInv(c, x, {}, {t});
    }
  }

  /** A trade fills taker and maker and leaves every other order's fills alone. */
  ghost predicate TradeOrders(c: Core, c': Core, t: OrderId, m: OrderId, q: int, p: Price) {
    && Evolves(c, c') && c'.orders.Keys == c.orders.Keys && t in c.orders && m in c.orders
    && c'.orders[t] == c.orders[t].AddFill(q, p) && c'.orders[m] == c.orders[m].AddFill(q, p)
    && (forall x :: x in c.orders && x != t && x != m ==>
          c'.orders[x].executed == c.orders[x].executed && c'.orders[x].fills == c.orders[x].fills)
  }

  /** The only orders that come to rest inside a step are OTO children being activated. */
  ghost predicate OnlyChildrenJoin(c: Core, c': Core) {
    forall x :: c'.Resting(x) && !c.Resting(x) ==> x in c.orders && c.orders[x].strategy.OtoChild?
  }

  /** ... and, as long as the taker is incomplete, takes the maker off its side and adds nobody there. */
  ghost predicate TradeOutcome(c: Core, c': Core, t: OrderId, m: OrderId, q: int, p: Price) {
    && TradeOrders(c, c', t, m, q, p) && OnlyChildrenJoin(c, c')
    && (!c'.orders[t].Complete() ==>
          forall x :: c'.Resting(x) && c'.Get(x).side == c.orders[m].side ==> c.Resting(x) && x != m)
  }

  lemma {:induction false} UnbookAllEffect(c: Core, ids: seq<OrderId>)
    requires BookWf(c.book) && BookAgrees(c) && UnbookAll(c, ids).Ok?
    ensures var c' := UnbookAll(c, ids).value;
      && c' == c.(book := c'.book) && BookWf(c'.book) && BookAgrees(c')
      && (forall x :: c'.Resting(x) <==> c.Resting(x) && x !in ids)
    decreases |ids|
  {
    if ids != [] {
      UnbookEffect(c, ids[0]);
      UnbookAllEffect(Unbook(c, ids[0]).value, ids[1..]);
    }
  }

  /** Cancelling an order that is not complete keeps the invariant and forgets its whole group. */
  lemma CancelKeeps(c: Core, id: OrderId)
    requires Inv(c) && id in c.orders && c.orders[id].executed < c.orders[id].quantity
    requires CancelCore(c, id).Ok?
    ensures var c' := CancelCore(c, id).value;
      && Inv(c') && c'.orders == c.orders && c'.store == c.store - CancelForgets(c.orders[id])
      && (forall x :: c'.Resting(x) <==> c.Resting(x) && x !in CancelTargets(c.orders[id]))
  {
    UnbookAllEffect(c, CancelTargets(c.orders[id]));
    var c' := CancelCore(c, id).value;
    assert OrderInv(c, id, {}, {});
    forall x | x in c'.orders
      ensures OrderInv(c', x, {}, {})
    {
      CancelledOrder(c, c', id, x);
    }
    CancelBookAgrees(c, c', id);
  }

  /** Everything a cancel leaves in the book is still stored. */
  lemma CancelBookAgrees(c: Core, c': Core, id: OrderId)
    requires Inv(c) && id in c.orders && c.orders[id].executed < c.orders[id].quantity
    requires c'.orders == c.orders && c'.store == c.store - CancelForgets(c.orders[id])
    requires BookAgrees(c'.(store := c.store))
    requires forall x :: c'.Resting(x) <==> c.Resting(x) && x !in CancelTargets(c.orders[id])
    ensures BookAgrees(c')
  {
    var o := c.orders[id];
    assert OrderInv(c, id, {}, {});
    if o.strategy.OtoChild? { assert OrderInv(c, o.strategy.parent, {}, {}); }
    forall k, x | InLevel(c'.book, k, x)
      ensures x in c'.store
    {
      assert c'.(store := c.store).Resting(x) && c'.Resting(x);
    }
  }

  lemma CancelledOrder(c: Core, c': Core, id: OrderId, x: OrderId)
    requires Inv(c) && id in c.orders && c.orders[id].executed < c.orders[id].quantity
    requires c'.orders == c.orders && c'.store == c.store - CancelForgets(c.orders[id]) && x in c.orders
    requires forall y :: c'.Resting(y) <==> c.Resting(y) && y !in CancelTargets(c.orders[id])
    ensures OrderInv(c', x, {}, {})
  {
    var o := c.orders[id];
    assert OrderInv(c, id, {}, {}) && OrderInv(c, x, {}, {});
    if o.strategy.OtoChild? { assert OrderInv(c, o.strategy.parent, {}, {}); }
    match c.orders[x].strategy
    case OtoChild(p) => assert OrderInv(c, p, {}, {});
    case OtoParent(ch) => assert OrderInv(c, ch, {}, {});
    case OcoLeg(q) => assert OrderInv(c, q, {}, {});
    case _ =>
  }

  /** An entering order comes to rest. */
  lemma PlaceKeeps(c: Core, id: OrderId, stored: set<OrderId>)
    requires Inv(c) && Entering(c, id) && c.orders[id].executed < c.orders[id].quantity
    requires stored == {id} + CancelForgets(c.orders[id])
    ensures Enbook(c, id).Ok?
    ensures var c' := Enbook(c, id).value;
      && Inv(c'.(store := c.store + stored))
      && (forall x :: c'.Resting(x) <==> c.Resting(x) || x == id)
  {
    EnbookEffect(c, id);
    var c' := Enbook(c, id).value.(store := c.store + stored);
    assert OrderInv(c, id, {}, {});
    forall x | x in c'.orders
      ensures OrderInv(c', x, {}, {})
    {
      assert OrderInv(c, x, {}, {});
    }
  }

  /** Fresh order objects, not yet in book or store, with a well-formed group. */
  lemma AddKeeps(c: Core, o: Order)
    requires Inv(c) && o.id !in c.orders && OrderOk(o.id, o) && o.strategy == Single && o.active
    ensures Inv(c.Put(o)) && Entering(c.Put(o), o.id)
  {
    var c' := c.Put(o);
    assert forall x :: c'.Resting(x) == c.Resting(x);
    forall x | x in c'.orders
      ensures OrderInv(c', x, {}, {})
    {
      if x != o.id { assert OrderInv(c, x, {}, {}); }
    }
  }

  /** `a` and `b` are a fresh, inactive group: an OTO parent with its child, or two OCO legs. */
  ghost predicate FreshPair(c: Core, a: Order, b: Order) {
    && a.id !in c.orders && b.id !in c.orders && a.id != b.id
    && OrderOk(a.id, a) && OrderOk(b.id, b) && a.executed == 0 && b.executed == 0 && a.user == b.user
    && a.active
    && match a.strategy
       case OtoParent(child) => child == b.id && b.strategy == OtoChild(a.id) && !b.active && a.side != b.side
       case OcoLeg(peer) => peer == b.id && b.strategy == OcoLeg(a.id) && b.active && a.Key() != b.Key()
       case _ => false
  }

  lemma AddPairKeeps(c: Core, a: Order, b: Order)
    requires Inv(c) && FreshPair(c, a, b)
    ensures var c' := c.Put(a).Put(b);
      Inv(c') && !c'.Resting(a.id) && !c'.Resting(b.id) && a.id !in c'.store && b.id !in c'.store
  {
    var c' := c.Put(a).Put(b);
    assert forall x :: c'.Resting(x) == c.Resting(x);
    forall x | x in c'.orders
      ensures OrderInv(c', x, {}, {})
    {
      if x != a.id && x != b.id { assert OrderInv(c, x, {}, {}); }
    }
  }

  /** Both OCO legs come to rest together. */
  lemma PlaceLegsKeeps(c: Core, a: Order, b: Order)
    requires Inv(c) && FreshPair(c, a, b) && a.strategy.OcoLeg?
    ensures var c1 := Enbook(c.Put(a).Put(b), a.id);
      && c1.Ok? && Enbook(c1.value, b.id).Ok?
      && Inv(Enbook(c1.value, b.id).value.(store := c.store + {a.id} + {b.id}))
  {
    AddPairKeeps(c, a, b);
    var c0 := c.Put(a).Put(b);
    EnbookEffect(c0, a.id);
    var c1 := Enbook(c0, a.id).value;
    EnbookEffect(c1, b.id);
    var c' := Enbook(c1, b.id).value.(store := c.store + {a.id} + {b.id});
    forall x | x in c'.orders
      ensures OrderInv(c', x, {}, {})
    {
      PlacedLegOrder(c0, c', a.id, b.id, x);
    }
  }

  lemma PlacedLegOrder(c: Core, c': Core, a: OrderId, b: OrderId, x: OrderId)
    requires Inv(c) && x in c.orders && a in c.orders && b in c.orders
    requires c.orders[a].strategy == OcoLeg(b) && c.orders[b].strategy == OcoLeg(a)
    requires c.orders[a].executed == 0 && c.orders[b].executed == 0
    requires c'.orders == c.orders && c'.store == c.store + {a} + {b}
    requires forall y :: c'.Resting(y) <==> c.Resting(y) || y == a || y == b
    ensures OrderInv(c', x, {}, {})
  {
    assert OrderInv(c, x, {}, {}) && OrderInv(c, a, {}, {}) && OrderInv(c, b, {}, {});
  }
}
