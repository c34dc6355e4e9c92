/**
 * The publisher agrees with the engine: folding the engine's log gives, at every level, the quantity
 * that ordinary users have resting there, and exactly their resting orders.
 */
module PublishedDepth {
  import opened Types
  import opened Collections
  import opened BookModel
  import opened EngineSpec
  import opened Invariants
  import opened Matching
  import opened Runs
  import opened PlainRuns
  import opened Publisher

  /** What an order adds to published depth: nothing is logged for the system user. */
  function Shown(o: Order): int { if o.user == SYSTEM_USER_ID then 0 else o.Remaining() }

  ghost function SumShown(c: Core, ids: seq<OrderId>): int {
    if ids == [] then 0 else SumShown(c, ids[..|ids| - 1]) + Shown(c.Get(ids[|ids| - 1]))
  }

  /** The quantity ordinary users have resting at a level. */
  ghost function LevelQuantity(c: Core, k: LevelKey): int { SumShown(c, Level(c.book, k)) }

  ghost predicate Visible(c: Core, id: OrderId) { c.Resting(id) && Shown(c.Get(id)) > 0 }

  ghost predicate LevelAgrees(c: Core, d: Depth, k: LevelKey) {
    && (k in d.levels <==> LevelQuantity(c, k) > 0)
    && (k in d.levels ==> d.levels[k] == LevelQuantity(c, k))
  }

  ghost predicate OrderAgrees(c: Core, d: Depth, id: OrderId) {
    && (id in d.active <==> Visible(c, id))
    && (id in d.active ==> d.active[id] == OrderInfo(c.Get(id).Key(), Shown(c.Get(id))))
  }

  ghost predicate Agrees(c: Core, d: Depth) {
    (forall k :: LevelAgrees(c, d, k)) && (forall id :: OrderAgrees(c, d, id))
  }

  /** No resting order has a negative remainder (zero only while the engine is retiring it). */
  ghost predicate NonNegative(c: Core) {
    BookWf(c.book) && BookAgrees(c) && forall id :: c.Resting(id) ==> Shown(c.Get(id)) >= 0
  }

  // ---- Sums over a level ----

  lemma {:induction false} SumShownFrame(c: Core, c': Core, ids: seq<OrderId>)
    requires forall x :: x in ids ==> Shown(c.Get(x)) == Shown(c'.Get(x))
    ensures SumShown(c, ids) == SumShown(c', ids)
  {
    if ids != [] { SumShownFrame(c, c', ids[..|ids| - 1]); }
  }

  lemma {:induction false} SumShownNonNegative(c: Core, ids: seq<OrderId>)
    requires forall x :: x in ids ==> Shown(c.Get(x)) >= 0
    ensures SumShown(c, ids) >= 0
    ensures forall x :: x in ids ==> Shown(c.Get(x)) <= SumShown(c, ids)
  {
    if ids != [] { SumShownNonNegative(c, ids[..|ids| - 1]); }
  }

  lemma SumShownAppend(c: Core, ids: seq<OrderId>, x: OrderId)
    ensures SumShown(c, ids + [x]) == SumShown(c, ids) + Shown(c.Get(x))
  {
    assert (ids + [x])[..|ids|] == ids;
  }

  lemma {:induction false} SumShownConcat(c: Core, a: seq<OrderId>, b: seq<OrderId>)
    ensures SumShown(c, a + b) == SumShown(c, a) + SumShown(c, b)
  {
    if b == [] {
      assert a + b == a;
    } else {
      assert (a + b)[..|a + b| - 1] == a + b[..|b| - 1];
      SumShownConcat(c, a, b[..|b| - 1]);
    }
  }

  lemma SumShownWithout(c: Core, ids: seq<OrderId>, x: OrderId)
    requires NoDup(ids) && x in ids
    ensures SumShown(c, Without(ids, x)) == SumShown(c, ids) - Shown(c.Get(x))
  {
    var i :| 0 <= i < |ids| && ids[i] == x;
    WithoutAt(ids, i);
    var front, back := ids[..i], ids[i + 1..];
    assert ids == (front + [x]) + back;
    SumShownCut(c, front, x, back);
  }

  lemma SumShownCut(c: Core, front: seq<OrderId>, x: OrderId, back: seq<OrderId>)
    ensures SumShown(c, (front + [x]) + back) == SumShown(c, front + back) + Shown(c.Get(x))
  {
    SumShownConcat(c, front, back);
    SumShownAppend(c, front, x);
    SumShownConcat(c, front + [x], back);
  }

  /** Changing one order's remainder changes the sum by as much, if it is listed. */
  lemma SumShownChange(c: Core, c': Core, ids: seq<OrderId>, x: OrderId)
    requires NoDup(ids) && (forall y :: y != x ==> Shown(c.Get(y)) == Shown(c'.Get(y)))
    ensures SumShown(c', ids) == SumShown(c, ids) + (if x in ids then Shown(c'.Get(x)) - Shown(c.Get(x)) else 0)
  {
    if x in ids {
      WithoutProps(ids, x);
      SumShownWithout(c, ids, x);
      SumShownWithout(c', ids, x);
      SumShownFrame(c, c', Without(ids, x));
    } else {
      SumShownFrame(c, c', ids);
    }
  }

  // ---- Each primitive step with the event it logs ----

  /** Nothing the publisher sees changed. */
  lemma FrameAgrees(c: Core, c': Core, d: Depth)
    requires Agrees(c, d) && c'.book == c.book
    requires forall x :: Shown(c'.Get(x)) == Shown(c.Get(x)) && c'.Get(x).Key() == c.Get(x).Key()
    ensures Agrees(c', d)
  {
    forall k
      ensures LevelAgrees(c', d, k)
    {
      assert LevelAgrees(c, d, k);
      SumShownFrame(c, c', Level(c.book, k));
    }
    forall id
      ensures OrderAgrees(c', d, id)
    {
      assert OrderAgrees(c, d, id);
    }
  }

  /** A taker being filled is in no level. */
  lemma FillTakerAgrees(c: Core, id: OrderId, q: int, p: Price, d: Depth)
    requires NonNegative(c) && Agrees(c, d) && id in c.orders && c.orders[id].id == id && !c.Resting(id)
    ensures Agrees(FillCore(c, id, q, p), d)
  {
    var c' := FillCore(c, id, q, p);
    forall k
      ensures LevelAgrees(c', d, k)
    {
      assert LevelAgrees(c, d, k);
      assert id !in Level(c.book, k) by { if id in Level(c.book, k) { assert InLevel(c.book, k, id); } }
      SumShownFrame(c, c', Level(c.book, k));
    }
    forall x
      ensures OrderAgrees(c', d, x)
    {
      assert OrderAgrees(c, d, x);
    }
  }

  ghost function AfterTrade(d: Depth, o: Order, q: int): Depth {
    if o.user == SYSTEM_USER_ID then d else OnTrade(d, o.id, q, Maker)
  }

  lemma QuantityAfterFill(c: Core, id: OrderId, q: int, p: Price, k: LevelKey)
    requires BookWf(c.book) && BookAgrees(c) && id in c.orders && c.orders[id].id == id && c.Resting(id)
    ensures LevelQuantity(FillCore(c, id, q, p), k) == LevelQuantity(c, k)
         - (if k == c.orders[id].Key() && c.orders[id].user != SYSTEM_USER_ID then q else 0)
  {
    var c' := FillCore(c, id, q, p);
    assert NoDup(Level(c.book, k));
    SumShownChange(c, c', Level(c.book, k), id);
    if id in Level(c.book, k) { assert InLevel(c.book, k, id); }
  }

  /** A resting maker being filled, with its trade event. */
  lemma FillMakerAgrees(c: Core, id: OrderId, q: int, p: Price, d: Depth)
    requires NonNegative(c) && Agrees(c, d) && id in c.orders && c.orders[id].id == id && c.Resting(id)
    requires 0 < q <= c.orders[id].Remaining()
    ensures Agrees(FillCore(c, id, q, p), AfterTrade(d, c.orders[id], q))
    ensures NonNegative(FillCore(c, id, q, p))
  {
    var c', o := FillCore(c, id, q, p), c.orders[id];
    var d' := AfterTrade(d, o, q);
    assert forall x :: c'.Resting(x) == c.Resting(x);
    assert OrderAgrees(c, d, id) && LevelAgrees(c, d, o.Key());
    LevelCovers(c, id);
    forall k
      ensures LevelAgrees(c', d', k)
    {
      assert LevelAgrees(c, d, k);
      QuantityAfterFill(c, id, q, p, k);
    }
    forall x
      ensures OrderAgrees(c', d', x)
    {
      assert OrderAgrees(c, d, x);
    }
  }

  /** A level holds at least what each of its orders shows. */
  lemma LevelCovers(c: Core, id: OrderId)
    requires NonNegative(c) && c.Resting(id)
    ensures LevelQuantity(c, c.Get(id).Key()) >= Shown(c.Get(id))
  {
    var k := c.Get(id).Key();
    forall x | x in c.book[k]
      ensures Shown(c.Get(x)) >= 0
    {
      assert InLevel(c.book, k, x) && c.Resting(x);
    }
    SumShownNonNegative(c, c.book[k]);
  }

  ghost function AfterPlaced(d: Depth, o: Order): Depth {
    if o.user == SYSTEM_USER_ID then d else OnPlaced(d, o.id, o)
  }

  /** An order coming to rest, with its placed event. */
  lemma EnbookAgrees(c: Core, id: OrderId, d: Depth)
    requires NonNegative(c) && Agrees(c, d) && !c.Resting(id) && c.Get(id).id == id && c.Get(id).Remaining() > 0
    ensures Enbook(c, id).Ok? && Agrees(Enbook(c, id).value, AfterPlaced(d, c.Get(id)))
  {
    var o := c.Get(id);
    EnbookEffect(c, id);
    var c', d' := Enbook(c, id).value, AfterPlaced(d, o);
    SumShownAppend(c, Level(c.book, o.Key()), id);
    assert OrderAgrees(c, d, id) && LevelAgrees(c, d, o.Key());
    LevelNonNegative(c, o.Key());
    forall k
      ensures LevelAgrees(c', d', k)
    {
      assert LevelAgrees(c, d, k);
      SumShownFrame(c, c', Level(c'.book, k));
    }
    forall x
      ensures OrderAgrees(c', d', x)
    {
      assert OrderAgrees(c, d, x);
    }
  }

  lemma LevelNonNegative(c: Core, k: LevelKey)
    requires NonNegative(c)
    ensures LevelQuantity(c, k) >= 0
  {
    forall x | x in Level(c.book, k)
      ensures Shown(c.Get(x)) >= 0
    {
      assert InLevel(c.book, k, x) && c.Resting(x);
    }
    SumShownNonNegative(c, Level(c.book, k));
  }

  lemma QuantityAfterUnbook(c: Core, id: OrderId, k: LevelKey)
    requires BookWf(c.book) && c.Resting(id)
    ensures Unbook(c, id).Ok?
    ensures LevelQuantity(Unbook(c, id).value, k) == LevelQuantity(c, k)
         - (if k == c.Get(id).Key() then Shown(c.Get(id)) else 0)
  {
    UnbookEffect(c, id);
    var c' := Unbook(c, id).value;
    if k == c.Get(id).Key() { SumShownWithout(c, c.book[k], id); }
    SumShownFrame(c, c', Level(c'.book, k));
  }

  ghost function AfterCancelled(d: Depth, u: UserId, id: OrderId): Depth {
    if u == SYSTEM_USER_ID then d else OnCancelled(d, id)
  }

  /** An order leaving the book, with its cancelled event; for one that is not there nothing happens. */
  lemma UnbookAgrees(c: Core, id: OrderId, d: Depth)
    requires NonNegative(c) && Agrees(c, d) && Unbook(c, id).Ok?
    ensures Agrees(Unbook(c, id).value, AfterCancelled(d, c.Get(id).user, id))
  {
    UnbookEffect(c, id);
    var c', d' := Unbook(c, id).value, AfterCancelled(d, c.Get(id).user, id);
    assert OrderAgrees(c, d, id) && LevelAgrees(c, d, c.Get(id).Key());
    if c.Resting(id) {
      LevelCovers(c, id);
      UnbookRestingAgrees(c, id, d);
    }
  }

  lemma UnbookRestingAgrees(c: Core, id: OrderId, d: Depth)
    requires NonNegative(c) && Agrees(c, d) && c.Resting(id)
    requires LevelQuantity(c, c.Get(id).Key()) >= Shown(c.Get(id))
    ensures Unbook(c, id).Ok? && Agrees(Unbook(c, id).value, AfterCancelled(d, c.Get(id).user, id))
  {
    UnbookEffect(c, id);
    var c', d' := Unbook(c, id).value, AfterCancelled(d, c.Get(id).user, id);
    assert OrderAgrees(c, d, id) && LevelAgrees(c, d, c.Get(id).Key());
    forall k
      ensures LevelAgrees(c', d', k)
    {
      assert LevelAgrees(c, d, k);
      QuantityAfterUnbook(c, id, k);
    }
    forall x
      ensures OrderAgrees(c', d', x)
    {
      assert OrderAgrees(c, d, x);
    }
  }

  /** A completed maker leaves the book silently: it showed nothing any more. */
  lemma RetireAgrees(c: Core, m: OrderId, d: Depth)
    requires NonNegative(c) && Agrees(c, d) && c.Resting(m) && RetireCore(c, m).Ok?
    ensures Agrees(RetireCore(c, m).value, d)
  {
    if c.Get(m).Complete() {
      UnbookEffect(c, m);
      var c' := Unbook(c, m).value;
      assert OrderAgrees(c, d, m);
      LevelCovers(c, m);
      UnbookRestingAgrees(c, m, d);
      FrameAgrees(c', RetireCore(c, m).value, d);
    }
  }

  // ---- The engine's log, folded ----

  ghost function Published(e: Engine): Depth { Fold(NO_DEPTH, e.log) }

  ghost predicate InStep(e: Engine) { Agrees(e.core, Published(e)) }

  lemma EmitPublishes(e: Engine, u: UserId, ev: Event)
    ensures Published(Emit(e, u, [ev])) == if u == SYSTEM_USER_ID then Published(e) else OnEvent(Published(e), ev)
  {
    assert (e.log + [ev])[..|e.log|] == e.log;
  }

  /** Balance events are none of the publisher's business. */
  lemma DoPublishes(e: Engine, op: BalanceOp)
    ensures Published(Do(e, op)) == Published(e) && Do(e, op).core == e.core
  {
    assert (e.log + [BalanceChanged(op)])[..|e.log|] == e.log;
  }

  lemma ReleasePublishes(e: Engine, o: Order)
    ensures Published(Release(e, o)) == Published(e) && Release(e, o).core == e.core
  {
    DoPublishes(e, ReleaseOp(o));
  }

  lemma SettlePublishes(e: Engine, t: Order, m: Order, q: int, p: Price)
    ensures Published(Settle(e, t, m, q, p)) == Published(e) && Settle(e, t, m, q, p).core == e.core
  {
    var e1 := HoldOnFirstFill(e, m);
    var e2 := HoldOnFirstFill(e1, t);
    var e3 := Do(e2, SettleOp(t, q, p));
    DoPublishes(e, HoldOp(m));
    DoPublishes(e1, HoldOp(t));
    DoPublishes(e2, SettleOp(t, q, p));
    DoPublishes(e3, SettleOp(m, q, p));
  }

  lemma MidIsNonNegative(c: Core, hook: set<OrderId>, full: set<OrderId>)
    requires MidInv(c, hook, full)
    ensures NonNegative(c)
  {
    forall id | c.Resting(id)
      ensures Shown(c.Get(id)) >= 0
    {
      assert OrderInv(c, id, hook, full);
    }
  }

  lemma {:induction false} UnbookAllAgrees(c: Core, ids: seq<OrderId>, d: Depth, u: UserId)
    requires NonNegative(c) && Agrees(c, d) && UnbookAll(c, ids).Ok?
    requires forall x :: x in ids ==> c.Get(x).user == u
    ensures Agrees(UnbookAll(c, ids).value, if u == SYSTEM_USER_ID then d else Fold(d, Cancellations(ids)))
    decreases |ids|
  {
    if ids != [] {
      UnbookEffect(c, ids[0]);
      UnbookAgrees(c, ids[0], d);
      var d1 := AfterCancelled(d, u, ids[0]);
      UnbookAllAgrees(Unbook(c, ids[0]).value, ids[1..], d1, u);
      FoldConcat(d, [OrderCancelled(ids[0])], Cancellations(ids[1..]));
      assert Fold(d, [OrderCancelled(ids[0])]) == OnEvent(Fold(d, []), OrderCancelled(ids[0]));
    }
  }

  lemma CancelInStep(e: Engine, id: OrderId)
    requires Inv(e.core) && id in e.core.orders && CancelOrder(e, id).Ok? && InStep(e)
    ensures InStep(CancelOrder(e, id).value)
  {
    var c, o := e.core, e.core.orders[id];
    assert OrderInv(c, id, {}, {});
    MidIsNonNegative(c, {}, {});
    var ids := CancelTargets(o);
    if o.strategy.OtoChild? { assert OrderInv(c, o.strategy.parent, {}, {}); }
    UnbookAllAgrees(c, ids, Published(e), o.user);
    UnbookAllEffect(c, ids);
    var c' := CancelCore(c, id).value;
    var e1 := Emit(e.(core := c'), o.user, Cancellations(ids));
    FoldConcat(NO_DEPTH, e.log, Cancellations(ids));
    FrameAgrees(UnbookAll(c, ids).value, c', Published(e1));
    ReleasePublishes(e1, c'.Get(CancelReleases(o)));
  }

  lemma HookInStep(e: Engine, id: OrderId, hook: set<OrderId>, full: set<OrderId>)
    requires MidInv(e.core, hook, full) && id in e.core.orders && id in hook && Hook(e, id).Ok? && InStep(e)
    ensures InStep(Hook(e, id).value)
  {
    assert OrderInv(e.core, id, hook, full);
    match e.core.orders[id].strategy
    case OtoParent(child) => if e.core.orders[id].Complete() { ActivateInStep(e, id, child, hook, full); }
    case OcoLeg(peer) => DropPeerInStep(e, id, peer, hook, full);
    case _ =>
  }

  lemma ActivateInStep(e: Engine, id: OrderId, child: OrderId, hook: set<OrderId>, full: set<OrderId>)
    requires MidInv(e.core, hook, full) && id in e.core.orders && id in hook && Hook(e, id).Ok? && InStep(e)
    requires e.core.orders[id].strategy == OtoParent(child) && e.core.orders[id].Complete()
    ensures InStep(Hook(e, id).value)
  {
    var c := e.core;
    assert OrderInv(c, id, hook, full) && OrderInv(c, child, hook, full);
    MidIsNonNegative(c, hook, full);
    var c' := HookCore(c, id).value;
    var c1 := c.Put(c.Get(child).(active := true));
    FrameAgrees(c, c1, Published(e));
    ActivatedIsNonNegative(c, c1, child);
    EnbookAgrees(c1, child, Published(e));
    FrameAgrees(Enbook(c1, child).value, c', AfterPlaced(Published(e), c1.Get(child)));
    EmitPublishes(e.(core := c'), c'.Get(child).user, OrderPlaced(child, c'.Get(child)));
  }

  lemma DropPeerInStep(e: Engine, id: OrderId, peer: OrderId, hook: set<OrderId>, full: set<OrderId>)
    requires MidInv(e.core, hook, full) && id in e.core.orders && Hook(e, id).Ok? && InStep(e)
    requires e.core.orders[id].strategy == OcoLeg(peer)
    ensures InStep(Hook(e, id).value)
  {
    var c, o := e.core, e.core.orders[id];
    assert OrderInv(c, id, hook, full) && OrderInv(c, peer, hook, full);
    MidIsNonNegative(c, hook, full);
    var c' := HookCore(c, id).value;
    UnbookAgrees(c, peer, Published(e));
    FrameAgrees(Unbook(c, peer).value, c', AfterCancelled(Published(e), o.user, peer));
    EmitPublishes(e.(core := c'), o.user, OrderCancelled(peer));
    ReleasePublishes(Emit(e.(core := c'), o.user, [OrderCancelled(peer)]), o);
  }

  lemma ActivatedIsNonNegative(c: Core, c1: Core, child: OrderId)
    requires NonNegative(c) && child in c.orders && c.orders[child].id == child
    requires c1 == c.Put(c.Get(child).(active := true))
    ensures NonNegative(c1) && forall x :: c1.Resting(x) == c.Resting(x)
  {
    assert forall x :: c1.Resting(x) == c.Resting(x);
  }

  /** Both fills, with the trade events that precede them and the fill events that follow. */
  lemma FillsInStep(e: Engine, t: OrderId, m: OrderId, q: int, p: Price)
    requires Meets(e.core, t, m) && q == TradeQuantity(e.core, t, m) && InStep(e)
    ensures InStep(FillBoth(TradeEvents(e, e.core.orders[t], e.core.orders[m], q, p), t, m, q, p))
  {
    FilledAgrees(e.core, t, m, q, p, Published(e));
    assert OrderInv(e.core, t, {}, {}) && OrderInv(e.core, m, {}, {});
    TradeEventsPublish(e, t, m, q, p);
  }

  lemma FilledAgrees(c: Core, t: OrderId, m: OrderId, q: int, p: Price, d: Depth)
    requires Meets(c, t, m) && q == TradeQuantity(c, t, m) && Agrees(c, d)
    ensures Agrees(Filled(c, t, m, q, p), AfterTrade(d, c.orders[m], q))
  {
    assert OrderInv(c, t, {}, {}) && OrderInv(c, m, {}, {});
    MidIsNonNegative(c, {}, {});
    FillTakerAgrees(c, t, q, p, d);
    var c1 := FillCore(c, t, q, p);
    TakerStaysNonNegative(c, c1, t);
    FillMakerAgrees(c1, m, q, p, d);
  }

  /** Of all the events of a trade only the maker's trade event moves the published depth. */
  lemma TradeEventsPublish(e: Engine, t: OrderId, m: OrderId, q: int, p: Price)
    requires t in e.core.orders && m in e.core.orders && e.core.orders[t].id == t && e.core.orders[m].id == m
    ensures Published(FillBoth(TradeEvents(e, e.core.orders[t], e.core.orders[m], q, p), t, m, q, p))
         == AfterTrade(Published(e), e.core.orders[m], q)
  {
    var taker, maker := e.core.orders[t], e.core.orders[m];
    var e0 := Emit(e, taker.user, [NewTrade(t, q, p, Taker)]);
    EmitPublishes(e, taker.user, NewTrade(t, q, p, Taker));
    EmitPublishes(e0, maker.user, NewTrade(m, q, p, Maker));
    FillEventsPublish(TradeEvents(e, taker, maker, q, p), t, m, q, p);
  }

  lemma FillEventsPublish(e: Engine, t: OrderId, m: OrderId, q: int, p: Price)
    ensures Published(FillBoth(e, t, m, q, p)) == Published(e)
  {
    var e1 := e.(core := FillCore(FillCore(e.core, t, q, p), m, q, p));
    var t', m' := e1.core.Get(t), e1.core.Get(m);
    EmitPublishes(e1, t'.user, FillEvent(t'));
    EmitPublishes(Emit(e1, t'.user, [FillEvent(t')]), m'.user, FillEvent(m'));
  }

  lemma TakerStaysNonNegative(c: Core, c1: Core, t: OrderId)
    requires NonNegative(c) && t in c.orders && !c.Resting(t)
    requires c1 == c.(orders := c.orders[t := c1.Get(t)]) && c1.Get(t).Key() == c.orders[t].Key()
    requires c1.Get(t).active == c.orders[t].active
    ensures NonNegative(c1) && forall x :: c1.Resting(x) == c.Resting(x)
  {
    assert forall x :: c1.Resting(x) == c.Resting(x);
  }

  /** A trade keeps the publisher in step. */
  lemma TradeInStep(e: Engine, t: OrderId, m: OrderId, q: int, p: Price)
    requires Meets(e.core, t, m) && q == TradeQuantity(e.core, t, m) && Trade(e, t, m, q, p).Ok? && InStep(e)
    ensures InStep(Trade(e, t, m, q, p).value)
  {
    var taker, maker := e.core.orders[t], e.core.orders[m];
    var e1 := FillBoth(TradeEvents(e, taker, maker, q, p), t, m, q, p);
    FillsInStep(e, t, m, q, p);
    FillsKeep(e.core, t, m, q, p);
    assert e1.core == Filled(e.core, t, m, q, p);
    HookInStep(e1, t, {t, m}, {t, m});
    HookProjects(e1, t);
    assert OrderInv(e1.core, t, {t, m}, {t, m}) && OrderInv(e.core, t, {}, {});
    HookKeeps(e1.core, t, {t, m}, {t, m});
    var e2 := Hook(e1, t).value;
    assert {t, m} - {t} == {m};
    HookInStep(e2, m, {m}, {t, m});
    HookProjects(e2, m);
    TradeProjects(e, t, m, q, p);
    ReactKeeps(e.core, t, m, q, p);
    var e3 := Hook(e2, m).value;
    MidIsNonNegative(e3.core, {}, {t, m});
    RetireAgrees(e3.core, m, Published(e3));
    SettlePublishes(e3.(core := RetireCore(e3.core, m).value), taker, maker, q, p);
  }

  lemma EncounterInStep(e: Engine, t: OrderId, m: OrderId, p: Price)
    requires Meets(e.core, t, m) && Encounter(e, t, m, p).Ok? && InStep(e)
    ensures InStep(Encounter(e, t, m, p).value)
  {
    var q := TradeQuantity(e.core, t, m);
    var e' := Checked(e, e.core.Get(m), q, p);
    if Answer(e, e.core.Get(m), q, p) {
      TradeInStep(e', t, m, q, p);
    } else {
      CancelInStep(e', m);
    }
  }

  lemma {:induction false} SweepInStep(e: Engine, t: OrderId)
    requires Inv(e.core) && Entering(e.core, t) && Sweep(e, t).Ok? && InStep(e)
    ensures InStep(Sweep(e, t).value)
    decreases RestingOn(e.core.book, e.core.Get(t).side.Opposite())
  {
    var c := e.core;
    var side := c.orders[t].side.Opposite();
    FrontFacts(c, side);
    if c.orders[t].executed < c.orders[t].quantity && Front(c.book, side).Some? {
      var m, p := Front(c.book, side).value, Best(c.book, side).value;
      FrontMeets(c, t);
      EncounterProjects(e, t, m, p);
      EncounterCoreKeeps(c, t, m, p, Answer(e, c.Get(m), TradeQuantity(c, t, m), p));
      EncounterInStep(e, t, m, p);
      var e' := Encounter(e, t, m, p).value;
      if e'.core.Get(t).side == c.orders[t].side && RestingOn(e'.core.book, side) < RestingOn(c.book, side) {
        SweepInStep(e', t);
      }
    }
  }

  lemma PlaceInStep(e: Engine, id: OrderId, stored: set<OrderId>)
    requires NonNegative(e.core) && id in e.core.orders && !e.core.Resting(id) && InStep(e)
    requires e.core.orders[id].Remaining() > 0 && e.core.orders[id].id == id
    ensures Place(e, id, stored).Ok? && InStep(Place(e, id, stored).value)
  {
    var c, o := e.core, e.core.orders[id];
    EnbookAgrees(c, id, Published(e));
    var c' := Enbook(c, id).value.(store := c.store + stored);
    FrameAgrees(Enbook(c, id).value, c', AfterPlaced(Published(e), o));
    EmitPublishes(e.(core := c'), o.user, OrderPlaced(id, o));
  }

  lemma SubmitInStep(e: Engine, id: OrderId, stored: set<OrderId>)
    requires Inv(e.core) && Entering(e.core, id) && !e.core.orders[id].Complete() && InStep(e)
    requires Submit(e, id, stored).Ok?
    ensures InStep(Submit(e, id, stored).value)
  {
    var o := e.core.orders[id];
    assert OrderInv(e.core, id, {}, {});
    MidIsNonNegative(e.core, {}, {});
    if !Crossable(e.core.book, o) {
      PlaceInStep(e, id, stored);
    } else {
      var e1 := Checked(e, o, o.quantity, o.price);
      if Answer(e, o, o.quantity, o.price) {
        SweepKeeps(e1, id);
        SweepInStep(e1, id);
        var e2 := Sweep(e1, id).value;
        assert OrderInv(e2.core, id, {}, {});
        MidIsNonNegative(e2.core, {}, {});
        if !e2.core.orders[id].Complete() { PlaceInStep(e2, id, stored); }
      } else {
        RejectInStep(e1, id);
      }
    }
  }

  /** An order rejected on entry was never published; its two cancelled events are ignored. */
  lemma RejectInStep(e: Engine, id: OrderId)
    requires Inv(e.core) && Entering(e.core, id) && !e.core.orders[id].Complete() && InStep(e)
    requires CancelOrder(e, id).Ok?
    ensures var o := e.core.orders[id];
      InStep(Release(Emit(CancelOrder(e, id).value, o.user, [OrderCancelled(id)]), o))
  {
    var o := e.core.orders[id];
    assert OrderInv(e.core, id, {}, {});
    CancelInStep(e, id);
    CancelProjects(e, id);
    CancelKeeps(e.core, id);
    var e1 := CancelOrder(e, id).value;
    EmitPublishes(e1, o.user, OrderCancelled(id));
    assert OrderAgrees(e1.core, Published(e1), id);
    ReleasePublishes(Emit(e1, o.user, [OrderCancelled(id)]), o);
  }

  /** New order objects that rest nowhere change nothing. */
  lemma IntakeInStep(e: Engine, cmd: Command)
    requires Inv(e.core) && CmdOk(e.core, cmd) && InStep(e)
    ensures InStep(e.(core := Intake(e.core, cmd)))
  {
    var c, c' := e.core, Intake(e.core, cmd);
    IntakeKeeps(c, cmd);
    assert forall x :: x in c.orders ==> c'.Get(x) == c.Get(x);
    forall k
      ensures LevelAgrees(c', Published(e), k)
    {
      assert LevelAgrees(c, Published(e), k);
      forall x | x in Level(c.book, k)
        ensures x in c.orders
      {
        assert InLevel(c.book, k, x);
      }
      SumShownFrame(c, c', Level(c.book, k));
    }
    forall id
      ensures OrderAgrees(c', Published(e), id)
    {
      assert OrderAgrees(c, Published(e), id);
      assert c'.Resting(id) <==> c.Resting(id);
    }
  }

  /** Every command keeps the publisher in step. */
  lemma HandleInStep(e: Engine, cmd: Command)
    requires Inv(e.core) && CmdOk(e.core, cmd) && Handle(e, cmd).Ok? && InStep(e)
    ensures InStep(Handle(e, cmd).value)
  {
    IntakeKeeps(e.core, cmd);
    IntakeInStep(e, cmd);
    var e0 := e.(core := Intake(e.core, cmd));
    match cmd
    case NewSingle(s) => SubmitInStep(e0, s.id, {s.id});
    case NewOto(p, ch) => SubmitInStep(e0, p.id, {p.id, ch.id});
    case NewOco(a, b) => LegsInStep(e, a, b);
    case Cancel(id) => if id in e.core.store { CancelInStep(e, id); }
  }

  lemma LegsInStep(e: Engine, a: OrderSpec, b: OrderSpec)
    requires Inv(e.core) && CmdOk(e.core, NewOco(a, b)) && InStep(e.(core := Intake(e.core, NewOco(a, b))))
    requires Handle(e, NewOco(a, b)).Ok?
    ensures InStep(Handle(e, NewOco(a, b)).value)
  {
    var c0 := Intake(e.core, NewOco(a, b));
    var e0 := e.(core := c0);
    AddPairKeeps(e.core, a.ToOrder(OcoLeg(b.id), true), b.ToOrder(OcoLeg(a.id), true));
    MidIsNonNegative(c0, {}, {});
    PlaceInStep(e0, a.id, {a.id});
    var e1 := Place(e0, a.id, {a.id}).value;
    PlacedIsNonNegative(c0, a.id);
    PlaceInStep(e1, b.id, {b.id});
  }

  lemma PlacedIsNonNegative(c: Core, id: OrderId)
    requires NonNegative(c) && id in c.orders && !c.Resting(id) && c.orders[id].active && c.orders[id].Remaining() > 0
    ensures Enbook(c, id).Ok? && NonNegative(Enbook(c, id).value.(store := c.store + {id}))
    ensures forall x :: Enbook(c, id).value.Resting(x) <==> c.Resting(x) || x == id
  {
    EnbookEffect(c, id);
    var c1 := Enbook(c, id).value;
    var c' := c1.(store := c.store + {id});
    assert forall x :: c'.Resting(x) <==> c1.Resting(x);
  }

  /**
   * After any run that has not raised, the folded log shows at every level the quantity ordinary users
   * have resting there, and its active orders are exactly their resting orders.
   */
  lemma {:induction false} PublisherAgrees(e: Engine, cmds: seq<Command>)
    requires e.core == EMPTY_CORE && e.log == [] && Admissible(e, cmds) && Run(e, cmds).Ok?
    ensures Agrees(Run(e, cmds).value.core, Fold(NO_DEPTH, Run(e, cmds).value.log))
  {
    if cmds == [] {
      assert forall k :: LevelAgrees(EMPTY_CORE, NO_DEPTH, k);
    } else {
      var n := |cmds| - 1;
      PublisherAgrees(e, cmds[..n]);
      RunKeeps(e, cmds[..n]);
      HandleInStep(Run(e, cmds[..n]).value, cmds[n]);
    }
  }

  /** Spelled out for one order: it is listed with its exact remainder if and only if it rests. */
  lemma ListedIffResting(e: Engine, cmds: seq<Command>, id: OrderId)
    requires e.core == EMPTY_CORE && e.log == [] && Admissible(e, cmds) && Run(e, cmds).Ok?
    ensures var c := Run(e, cmds).value.core;
      var d := Fold(NO_DEPTH, Run(e, cmds).value.log);
      && (id in d.active <==> c.Resting(id) && c.Get(id).user != SYSTEM_USER_ID)
      && (id in d.active ==> d.active[id] == OrderInfo(c.Get(id).Key(), c.Get(id).Remaining()))
  {
    PublisherAgrees(e, cmds);
    RunKeeps(e, cmds);
    var c := Run(e, cmds).value.core;
    assert OrderAgrees(c, Fold(NO_DEPTH, Run(e, cmds).value.log), id);
    if c.Resting(id) { assert OrderInv(c, id, {}, {}); }
  }
}
