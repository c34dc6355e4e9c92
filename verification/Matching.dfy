/** Matching an incoming order, and commands as a whole: what they keep and when they raise. */
module Matching {
  import opened Types
  import opened Collections
  import opened BookModel
  import opened EngineSpec
  import opened Invariants

  ghost predicate SideEmpty(b: Book, side: Side) { forall p :: LevelKey(side, p) !in b }

  /** The front of a side is its resting order with the best price, first in its level. */
  lemma FrontFacts(c: Core, side: Side)
    requires Inv(c)
    ensures Front(c.book, side).None? <==> SideEmpty(c.book, side)
    ensures Front(c.book, side).Some? ==>
      var m := Front(c.book, side).value;
      && m in c.orders && c.Resting(m) && c.orders[m].side == side
      && Best(c.book, side) == Some(c.orders[m].price)
      && IsBest(c.book, side, c.orders[m].price)
  {
    if p :| LevelKey(side, p) in c.book {
      BestExists(c.book, side, p);
      var k := LevelKey(side, Best(c.book, side).value);
      assert InLevel(c.book, k, c.book[k][0]);
    }
  }

  lemma RestingOnIs(c: Core, side: Side, x: OrderId)
    requires Inv(c)
    ensures x in RestingOn(c.book, side) <==> c.Resting(x) && c.Get(x).side == side
  {
    if c.Resting(x) && c.Get(x).side == side {
      var k := c.Get(x).Key();
      assert k in c.book && x in c.book[k] && k.side == side;
    }
    if x in RestingOn(c.book, side) {
      var k :| k in c.book && x in c.book[k] && k.side == side;
      assert InLevel(c.book, k, x);
    }
  }

  /** What meeting one maker does: the taker stays out, and the makers' side only shrinks. */
  ghost predicate EncounterOutcome(c: Core, c': Core, t: OrderId, m: OrderId) {
    && Inv(c') && Entering(c', t) && Evolves(c, c') && OnlyChildrenJoin(c, c')
    && c'.orders.Keys == c.orders.Keys && t in c.orders && m in c.orders
    && (!c'.orders[t].Complete() ==>
          forall x :: c'.Resting(x) && c'.Get(x).side == c.orders[m].side ==> c.Resting(x) && x != m)
  }

  lemma EncounterCoreKeeps(c: Core, t: OrderId, m: OrderId, p: Price, pass: bool)
    requires Meets(c, t, m)
    requires EncounterCore(c, t, m, TradeQuantity(c, t, m), p, pass).Ok?
    ensures EncounterOutcome(c, EncounterCore(c, t, m, TradeQuantity(c, t, m), p, pass).value, t, m)
  {
    assert OrderInv(c, m, {}, {});
    if pass {
      TradeKeeps(c, t, m, TradeQuantity(c, t, m), p);
    } else {
      CancelKeeps(c, m);
    }
  }

  // ---- Logging and balances never touch the core ----

  lemma HookProjects(e: Engine, id: OrderId)
    ensures Hook(e, id).Ok? <==> HookCore(e.core, id).Ok?
    ensures Hook(e, id).Ok? ==> Hook(e, id).value.core == HookCore(e.core, id).value
  {
  }

  lemma CancelProjects(e: Engine, id: OrderId)
    ensures CancelOrder(e, id).Ok? <==> CancelCore(e.core, id).Ok?
    ensures CancelOrder(e, id).Ok? ==> CancelOrder(e, id).value.core == CancelCore(e.core, id).value
  {
  }

  lemma SettleProjects(e: Engine, t: Order, m: Order, q: int, p: Price)
    ensures Settle(e, t, m, q, p).core == e.core
  {
    var e1 := HoldOnFirstFill(e, m);
    var e2 := HoldOnFirstFill(e1, t);
    assert e1.core == e.core && e2.core == e.core;
  }

  lemma TradeProjects(e: Engine, t: OrderId, m: OrderId, q: int, p: Price)
    ensures Trade(e, t, m, q, p).Ok? <==> TradeCore(e.core, t, m, q, p).Ok?
    ensures Trade(e, t, m, q, p).Ok? ==> Trade(e, t, m, q, p).value.core == TradeCore(e.core, t, m, q, p).value
  {
    var taker, maker := e.core.Get(t), e.core.Get(m);
    var e1 := FillBoth(TradeEvents(e, taker, maker, q, p), t, m, q, p);
    assert e1.core == FillCore(FillCore(e.core, t, q, p), m, q, p);
    HookProjects(e1, t);
    if Hook(e1, t).Ok? {
      var e2 := Hook(e1, t).value;
      HookProjects(e2, m);
      if Hook(e2, m).Ok? {
        var e3 := Hook(e2, m).value;
        if RetireCore(e3.core, m).Ok? {
          SettleProjects(e3.(core := RetireCore(e3.core, m).value), taker, maker, q, p);
        }
      }
    }
  }

  lemma EncounterProjects(e: Engine, t: OrderId, m: OrderId, p: Price)
    ensures var q := TradeQuantity(e.core, t, m);
      var r := EncounterCore(e.core, t, m, q, p, Answer(e, e.core.Get(m), q, p));
      && (r.Ok? <==> Encounter(e, t, m, p).Ok?)
      && (r.Ok? ==> Encounter(e, t, m, p).value.core == r.value)
  {
    var q := TradeQuantity(e.core, t, m);
    var e' := Checked(e, e.core.Get(m), q, p);
    if Answer(e, e.core.Get(m), q, p) {
      TradeProjects(e', t, m, q, p);
    } else {
      CancelProjects(e', m);
    }
  }

  lemma FrontMeets(c: Core, t: OrderId)
    requires Inv(c) && Entering(c, t) && c.orders[t].executed < c.orders[t].quantity
    requires Front(c.book, c.orders[t].side.Opposite()).Some?
    ensures Meets(c, t, Front(c.book, c.orders[t].side.Opposite()).value)
  {
    FrontFacts(c, c.orders[t].side.Opposite());
  }

  lemma SideStrictlyShrinks(c: Core, c': Core, t: OrderId, m: OrderId)
    requires Meets(c, t, m) && EncounterOutcome(c, c', t, m) && !c'.orders[t].Complete()
    ensures RestingOn(c'.book, c.orders[m].side) < RestingOn(c.book, c.orders[m].side)
  {
    var side := c.orders[m].side;
    RestingOnIs(c, side, m);
    RestingOnIs(c', side, m);
    forall x | x in RestingOn(c'.book, side)
      ensures x in RestingOn(c.book, side)
    {
      RestingOnIs(c, side, x);
      RestingOnIs(c', side, x);
    }
  }

  /**
   * Matching keeps the invariant and ends only when the taker is complete or the opposite side is
   * empty; in particular the reference loop never stops early.
   */
  lemma {:induction false} SweepKeeps(e: Engine, t: OrderId)
    requires Inv(e.core) && Entering(e.core, t) && Sweep(e, t).Ok?
    ensures var c' := Sweep(e, t).value.core;
      && Inv(c') && Entering(c', t) && Evolves(e.core, c') && OnlyChildrenJoin(e.core, c')
      && c'.orders.Keys == e.core.orders.Keys
      && (c'.orders[t].Complete() || SideEmpty(c'.book, c'.orders[t].side.Opposite()))
    decreases RestingOn(e.core.book, e.core.Get(t).side.Opposite())
  {
    var c := e.core;
    var side := c.orders[t].side.Opposite();
    assert OrderInv(c, t, {}, {});
    FrontFacts(c, side);
    if c.orders[t].executed < c.orders[t].quantity && Front(c.book, side).Some? {
      var m := Front(c.book, side).value;
      FrontMeets(c, t);
      EncounterProjects(e, t, m, Best(c.book, side).value);
      var e' := Encounter(e, t, m, Best(c.book, side).value).value;
      EncounterCoreKeeps(c, t, m, Best(c.book, side).value,
                         Answer(e, c.Get(m), TradeQuantity(c, t, m), Best(c.book, side).value));
      if !e'.core.orders[t].Complete() {
        SideStrictlyShrinks(c, e'.core, t, m);
        SweepKeeps(e', t);
      } else {
        SweepDone(e', t);
      }
    }
  }

  lemma SweepDone(e: Engine, t: OrderId)
    requires e.core.Get(t).Complete()
    ensures Sweep(e, t) == Ok(e)
  {
  }
}
