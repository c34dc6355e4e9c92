/** What the nested loops of `_match` rely on while the book changes under them. */
module Walks {
  import opened Types
  import opened Collections
  import opened BookModel
  import opened EngineSpec
  import opened Invariants
  import opened Matching
  import opened Priority

  /** Taking an order out of the book touches its own level only. */
  lemma UnbookLevel(c: Core, id: OrderId, k: LevelKey)
    requires Unbook(c, id).Ok?
    ensures Level(Unbook(c, id).value.book, k)
         == if k == c.Get(id).Key() then Without(Level(c.book, k), id) else Level(c.book, k)
    ensures Unbook(c, id).value == c.(book := Unbook(c, id).value.book)
  {
  }

  lemma CancelLevel(c: Core, m: OrderId)
    requires Inv(c) && m in c.orders && c.Resting(m) && CancelCore(c, m).Ok?
    ensures Level(CancelCore(c, m).value.book, c.orders[m].Key()) == Without(Level(c.book, c.orders[m].Key()), m)
  {
    var k := c.orders[m].Key();
    assert OrderInv(c, m, {}, {});
    UnbookLevel(c, m, k);
    var c1 := Unbook(c, m).value;
    if c.orders[m].strategy.OcoLeg? {
      var peer := c.orders[m].strategy.peer;
      assert UnbookAll(c, [m, peer]) == UnbookAll(c1, [peer]);
      assert UnbookAll(c1, [peer]) == UnbookAll(Unbook(c1, peer).value, []);
      UnbookLevel(c1, peer, k);
    } else {
      assert UnbookAll(c, [m]) == UnbookAll(c1, []);
    }
  }

  /** A maker's reaction leaves its own level alone. */
  lemma HookLevel(c: Core, m: OrderId, hook: set<OrderId>, full: set<OrderId>)
    requires MidInv(c, hook, full) && m in c.orders && HookCore(c, m).Ok?
    ensures Level(HookCore(c, m).value.book, c.orders[m].Key()) == Level(c.book, c.orders[m].Key())
    ensures HookCore(c, m).value.Get(m) == c.orders[m] || HookCore(c, m).value.Get(m) == c.orders[m].(active := true)
  {
    assert OrderInv(c, m, hook, full);
    match c.orders[m].strategy
    case OtoParent(child) => assert OrderInv(c, child, hook, full);
    case OcoLeg(peer) => UnbookLevel(c, peer, c.orders[m].Key());
    case _ =>
  }

  lemma TradeLevel(c: Core, t: OrderId, m: OrderId, q: int)
    requires Meets(c, t, m) && q == TradeQuantity(c, t, m) && TradeCore(c, t, m, q, c.orders[m].price).Ok?
    requires c.orders[t].executed + q < c.orders[t].quantity
    ensures var c' := TradeCore(c, t, m, q, c.orders[m].price).value;
      Level(c'.book, c.orders[m].Key()) == Without(Level(c.book, c.orders[m].Key()), m)
  {
    var p, k := c.orders[m].price, c.orders[m].Key();
    assert OrderInv(c, t, {}, {}) && OrderInv(c, m, {}, {});
    FillsKeep(c, t, m, q, p);
    var c1 := Filled(c, t, m, q, p);
    assert HookCore(c1, t) == Ok(c1);
    HookLevel(c1, m, {t, m}, {t, m});
    var c3 := HookCore(c1, m).value;
    UnbookLevel(c3, m, k);
  }

  /** While the taker is incomplete, meeting the head of a level shortens that level by one. */
  lemma EncounterLevel(c: Core, t: OrderId, m: OrderId, pass: bool)
    requires Meets(c, t, m) && Level(c.book, c.orders[m].Key()) != [] && Level(c.book, c.orders[m].Key())[0] == m
    requires EncounterCore(c, t, m, TradeQuantity(c, t, m), c.orders[m].price, pass).Ok?
    ensures var c' := EncounterCore(c, t, m, TradeQuantity(c, t, m), c.orders[m].price, pass).value;
      !c'.Get(t).Complete() ==> Level(c'.book, c.orders[m].Key()) == Level(c.book, c.orders[m].Key())[1..]
  {
    var q, level := TradeQuantity(c, t, m), Level(c.book, c.orders[m].Key());
    assert Without(level, m) == level[1..];
    assert OrderInv(c, t, {}, {});
    if pass {
      TradeKeeps(c, t, m, q, c.orders[m].price);
      if c.orders[t].executed + q < c.orders[t].quantity { TradeLevel(c, t, m, q); }
    } else {
      CancelLevel(c, m);
    }
  }

  /** While the taker is incomplete and the level is not used up, it stays the best level. */
  lemma StillBest(c: Core, c': Core, t: OrderId, m: OrderId)
    requires Meets(c, t, m) && EncounterOutcome(c, c', t, m) && !c'.Get(t).Complete()
    requires IsBest(c.book, c.orders[m].side, c.orders[m].price) && c.orders[m].Key() in c'.book
    ensures Best(c'.book, c.orders[m].side) == Some(c.orders[m].price)
  {
    var side, p := c.orders[m].side, c.orders[m].price;
    forall q | LevelKey(side, q) in c'.book
      ensures !Better(side, q, p)
    {
      var k := LevelKey(side, q);
      var x := c'.book[k][0];
      assert InLevel(c'.book, k, x) && c'.Resting(x);
      assert c.Resting(x) && Terms(c'.orders[x]) == Terms(c.orders[x]);
      assert k in c.book;
    }
    BestIs(c'.book, side, p);
  }

  /** The taker `t` is about to meet `m`, the head of the best level `p` of the opposite side. */
  ghost predicate AtHead(c: Core, t: OrderId, m: OrderId, p: Price) {
    && Inv(c) && Entering(c, t) && c.orders[t].executed < c.orders[t].quantity
    && var side := c.orders[t].side.Opposite();
    && Best(c.book, side) == Some(p)
    && Level(c.book, LevelKey(side, p)) != [] && Level(c.book, LevelKey(side, p))[0] == m
  }

  lemma HeadMeets(c: Core, t: OrderId, m: OrderId, p: Price)
    requires AtHead(c, t, m, p)
    ensures Meets(c, t, m) && c.orders[m].side == c.orders[t].side.Opposite() && c.orders[m].price == p
    ensures Front(c.book, c.orders[m].side) == Some(m) && IsBest(c.book, c.orders[m].side, p)
  {
    FrontFacts(c, c.orders[t].side.Opposite());
  }

  /** One iteration of the walk leaves the rest of the matching to be done from the new state. */
  lemma {:induction false} WalkStep(e: Engine, e1: Engine, t: OrderId, m: OrderId, p: Price)
    requires AtHead(e.core, t, m, p) && Encounter(e, t, m, p) == Ok(e1)
    ensures Inv(e1.core) && Entering(e1.core, t) && e1.core.orders[t].side == e.core.orders[t].side
    ensures Sweep(e, t) == Sweep(e1, t)
    ensures !e1.core.orders[t].Complete() ==>
      var side := e.core.orders[t].side.Opposite();
      var k := LevelKey(side, p);
      && Level(e1.core.book, k) == Level(e.core.book, k)[1..]
      && (Level(e1.core.book, k) != [] ==> Best(e1.core.book, side) == Some(p))
      && RestingOn(e1.core.book, side) < RestingOn(e.core.book, side)
  {
    var c := e.core;
    HeadMeets(c, t, m, p);
    var pass := Answer(e, c.Get(m), TradeQuantity(c, t, m), p);
    EncounterProjects(e, t, m, p);
    EncounterCoreKeeps(c, t, m, p, pass);
    EncounterLevel(c, t, m, pass);
    if !e1.core.orders[t].Complete() {
      SideStrictlyShrinks(c, e1.core, t, m);
      if Level(e1.core.book, c.orders[m].Key()) != [] { StillBest(c, e1.core, t, m); }
    }
    assert Terms(e1.core.orders[t]) == Terms(c.orders[t]);
    SweepUnfolds(e, t, m, e1);
  }

  lemma {:induction false} WalkRaises(e: Engine, t: OrderId, m: OrderId, p: Price)
    requires AtHead(e.core, t, m, p) && Encounter(e, t, m, p).Raised?
    ensures Sweep(e, t) == Raised(Encounter(e, t, m, p).error)
  {
    HeadMeets(e.core, t, m, p);
  }
}
