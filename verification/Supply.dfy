/** How much a new order trades on entry when everybody can pay: what it wants or what there is. */
module Supply {
  import opened Types
  import opened Collections
  import opened BookModel
  import opened EngineSpec
  import opened Admission
  import opened Invariants
  import opened Matching
  import opened Runs
  import opened Safety
  import opened PlainRuns
  import opened Conservation
  import opened Determinism
  import opened Replay
  import opened Priority
  import opened Raising
  import opened Departed
  import opened Following
  import opened Arrivals
  import opened Outcomes
  import opened Departures

  /** What is left of each order that rests on a side. */
  ghost function OnOffer(c: Core, side: Side): map<OrderId, int> {
    map x | x in c.orders && c.Resting(x) && c.orders[x].side == side :: c.orders[x].quantity - c.orders[x].executed
  }

  /** ... and in all. */
  ghost function Offered(c: Core, side: Side): int { SumMap(OnOffer(c, side)) }

  lemma {:induction false} SumAtLeast(m: map<int, int>, k: int)
    requires k in m && forall j :: j in m ==> m[j] >= 0
    ensures SumMap(m) >= m[k]
  {
    SumMapRemove(m, k);
    SumNotNegative(m - {k});
  }

  lemma {:induction false} SumNotNegative(m: map<int, int>)
    requires forall j :: j in m ==> m[j] >= 0
    ensures SumMap(m) >= 0
    decreases |m|
  {
    if exists k :: k in m {
      var k :| k in m && SumMap(m) == m[k] + SumMap(m - {k});
      SumNotNegative(m - {k});
    }
  }

  lemma {:induction false} OffersArePositive(c: Core, side: Side)
    requires Inv(c)
    ensures forall x :: x in OnOffer(c, side) ==> OnOffer(c, side)[x] > 0
  {
    forall x | x in OnOffer(c, side)
      ensures OnOffer(c, side)[x] > 0
    {
      assert OrderInv(c, x, {}, {});
    }
  }

  /** A trade that leaves the taker incomplete uses up its maker and nobody else. */
  lemma {:induction false} MakerUsedUp(c: Core, t: OrderId, m: OrderId, p: Price)
    requires Meets(c, t, m) && NoOco(c) && TradeCore(c, t, m, TradeQuantity(c, t, m), p).Ok?
    ensures var c' := TradeCore(c, t, m, TradeQuantity(c, t, m), p).value;
      var side := c.orders[m].side;
      && t in c'.orders && c'.orders[t].executed == c.orders[t].executed + TradeQuantity(c, t, m)
      && m in OnOffer(c, side)
      && (!c'.orders[t].Complete() ==>
            && TradeQuantity(c, t, m) == OnOffer(c, side)[m]
            && OnOffer(c', side) == OnOffer(c, side) - {m})
  {
    var q := TradeQuantity(c, t, m);
    assert OrderInv(c, m, {}, {}) && OrderInv(c, t, {}, {});
    TradeKeeps(c, t, m, q, p);
    var c', side := TradeCore(c, t, m, q, p).value, c.orders[m].side;
    if !c'.orders[t].Complete() { OthersStillOffer(c, t, m, p); }
  }

  lemma {:induction false} OthersStillOffer(c: Core, t: OrderId, m: OrderId, p: Price)
    requires Meets(c, t, m) && NoOco(c) && TradeCore(c, t, m, TradeQuantity(c, t, m), p).Ok?
    requires !TradeCore(c, t, m, TradeQuantity(c, t, m), p).value.Get(t).Complete()
    ensures var c' := TradeCore(c, t, m, TradeQuantity(c, t, m), p).value;
      OnOffer(c', c.orders[m].side) == OnOffer(c, c.orders[m].side) - {m}
  {
    var q := TradeQuantity(c, t, m);
    assert OrderInv(c, m, {}, {}) && OrderInv(c, t, {}, {});
    TradeKeeps(c, t, m, q, p);
    var c', side := TradeCore(c, t, m, q, p).value, c.orders[m].side;
    var offers, offers' := OnOffer(c, side) - {m}, OnOffer(c', side);
    forall x
      ensures x in offers' <==> x in offers
      ensures x in offers' ==> x in offers && offers'[x] == offers[x]
    {
      if x in c.orders { OfferKept(c, c', t, m, p, x); }
    }
    MapsEqual(offers', offers);
  }

  lemma {:induction false} OfferKept(c: Core, c': Core, t: OrderId, m: OrderId, p: Price, x: OrderId)
    requires Meets(c, t, m) && NoOco(c) && TradeCore(c, t, m, TradeQuantity(c, t, m), p) == Ok(c')
    requires !c'.Get(t).Complete() && x in c.orders
    ensures x in c'.orders && c'.orders[x].side == c.orders[x].side
    ensures c.orders[x].side == c.orders[m].side && c'.Resting(x) ==> c.Resting(x) && x != m
    ensures c.Resting(x) && x != m ==> c'.Resting(x) && c'.orders[x].Remaining() == c.orders[x].Remaining()
  {
    TradeKeeps(c, t, m, TradeQuantity(c, t, m), p);
    assert Terms(c'.orders[x]).side == Terms(c.orders[x]).side;
    assert Terms(c'.orders[x]).quantity == Terms(c.orders[x]).quantity;
    assert OrderInv(c, x, {}, {});
    if c.Resting(x) { TradeExcuses(c, t, m, p, x); }
  }

  lemma {:induction false} NothingOffered(c: Core, side: Side)
    requires Inv(c) && Front(c.book, side).None?
    ensures Offered(c, side) == 0
  {
    FrontFacts(c, side);
    forall x
      ensures x !in OnOffer(c, side)
    {
      if x in c.orders && c.Resting(x) { assert c.orders[x].Key() in c.book; }
    }
    assert OnOffer(c, side) == map[];
  }

  /** One maker of a sweep that everybody passes. */
  lemma {:induction false} FrontTakesOffer(e: Engine, t: OrderId)
    requires Inv(e.core) && Entering(e.core, t) && NoOco(e.core) && !Stops(e.core, t) && MeetFront(e, t).Ok?
    requires FrontPasses(e, t)
    ensures var c, c' := e.core, MeetFront(e, t).value.core;
      var side := c.Get(t).side.Opposite();
      var left, offered := c.Get(t).Remaining(), Offered(c, side);
      && t in c'.orders
      && if c'.orders[t].Complete() then offered >= left && c'.orders[t].executed == c.Get(t).executed + left
         else
           && c'.orders[t].executed - c.Get(t).executed == offered - Offered(c', side)
           && c'.orders[t].Remaining() - Offered(c', side) == left - offered
  {
    var side := e.core.Get(t).side.Opposite();
    var m, p := Front(e.core.book, side).value, Best(e.core.book, side).value;
    FrontMeets(e.core, t);
    EncounterProjects(e, t, m, p);
    MakerUsedUp(e.core, t, m, p);
    FrontEvolves(e, t);
    QuantityStays(e.core, MeetFront(e, t).value.core, t);
    OffersArePositive(e.core, side);
    SumAtLeast(OnOffer(e.core, side), m);
    SumMapRemove(OnOffer(e.core, side), m);
  }

  lemma {:induction false} QuantityStays(c: Core, c': Core, x: OrderId)
    requires Evolves(c, c') && x in c.orders
    ensures x in c'.orders && c'.orders[x].quantity == c.orders[x].quantity && c'.orders[x].side == c.orders[x].side
  {
    assert Terms(c'.orders[x]).quantity == Terms(c.orders[x]).quantity;
    assert Terms(c'.orders[x]).side == Terms(c.orders[x]).side;
  }

  lemma {:induction false} OfferedNotNegative(c: Core, side: Side)
    requires Inv(c)
    ensures Offered(c, side) >= 0
  {
    OffersArePositive(c, side);
    SumNotNegative(OnOffer(c, side));
  }

  /** The taker has ended up with the lesser of what it wanted and what there was. */
  ghost predicate TookOffer(c: Core, c': Core, t: OrderId) {
    && t in c.orders
    && var o := c.orders[t];
    c'.Get(t).executed == o.executed + Min(o.quantity - o.executed, Offered(c, o.side.Opposite()))
  }

  lemma {:induction false} NothingToTake(e: Engine, t: OrderId)
    requires Inv(e.core) && Entering(e.core, t) && Stops(e.core, t)
    ensures Sweep(e, t) == Ok(e) && TookOffer(e.core, e.core, t)
  {
    SweepEnds(e, t);
    var side := e.core.orders[t].side.Opposite();
    assert OrderInv(e.core, t, {}, {});
    OfferedNotNegative(e.core, side);
    if Front(e.core.book, side).None? { NothingOffered(e.core, side); }
  }

  lemma {:induction false} SweepTakesOffer(e: Engine, t: OrderId)
    requires Inv(e.core) && Entering(e.core, t) && NoOco(e.core) && Sweep(e, t).Ok? && AllPass(e, Sweep(e, t).value)
    ensures TookOffer(e.core, Sweep(e, t).value.core, t)
    decreases RestingOn(e.core.book, e.core.Get(t).side.Opposite())
  {
    if Stops(e.core, t) {
      NothingToTake(e, t);
    } else {
      FirstMeetingIsOk(e, t);
      FrontKeeps(e, t);
      FrontNoOco(e, t);
      var e1 := MeetFront(e, t).value;
      PassesOn(e, e1, t);
      if Stops(e1.core, t) { NothingToTake(e1, t); } else { SweepTakesOffer(e1, t); }
      TakesFromHere(e, t, Sweep(e, t).value.core);
    }
  }

  /** What follows the first maker follows from there on. */
  lemma {:induction false} TakesFromHere(e: Engine, t: OrderId, c': Core)
    requires Inv(e.core) && Entering(e.core, t) && NoOco(e.core) && !Stops(e.core, t) && MeetFront(e, t).Ok?
    requires FrontPasses(e, t) && Inv(MeetFront(e, t).value.core) && TookOffer(MeetFront(e, t).value.core, c', t)
    ensures TookOffer(e.core, c', t)
  {
    var c1 := MeetFront(e, t).value.core;
    var side := e.core.orders[t].side.Opposite();
    FrontTakesOffer(e, t);
    FrontEvolves(e, t);
    QuantityStays(e.core, c1, t);
    OfferedNotNegative(c1, side);
    if !c1.orders[t].Complete() {
      TakesAfter(e.core.orders[t], Offered(e.core, side), c1.orders[t], Offered(c1, side));
    }
  }

  /** What the taker wants and what there is have shrunk by the same. */
  lemma TakesAfter(o: Order, offered: int, o1: Order, offered1: int)
    requires o1.executed - o.executed == offered - offered1 && o1.quantity == o.quantity
    ensures o1.executed + Min(o1.quantity - o1.executed, offered1)
         == o.executed + Min(o.quantity - o.executed, offered)
  {
  }

  lemma {:induction false} PassesOn(e: Engine, e1: Engine, t: OrderId)
    requires !Stops(e.core, t) && MeetFront(e, t) == Ok(e1) && Sweep(e, t) == Sweep(e1, t) && Sweep(e, t).Ok?
    requires AllPass(e, Sweep(e, t).value)
    ensures FrontPasses(e, t) && AllPass(e1, Sweep(e1, t).value)
  {
    FrontAnswered(e, e1, t);
    SweepAnswers(e1, t);
    var all := Sweep(e, t).value.answers;
    assert all[|e.answers|] == e1.answers[|e.answers|];
  }

  /**
   * With no OCO leg in the book, a new order that crosses, and whose checks all pass, its own and its makers',
   * trades on entry exactly the lesser of its quantity and all that rests on the other side, at any price.
   */
  lemma {:induction false} TakesWhatIsOffered(e: Engine, cmd: Command, e': Engine)
    requires Inv(e.core) && NoOco(e.core) && CmdOk(e.core, cmd) && Submits(cmd) && Handle(e, cmd) == Ok(e')
    requires Reaches(e.core.book, Newcomer(cmd)) && AllPass(e, e')
    ensures var o := Newcomer(cmd);
      e'.core.Get(o.id).executed == Min(o.quantity, Offered(e.core, o.side.Opposite()))
  {
    var id, stored := NewId(cmd), StoredBy(cmd);
    var e0 := e.(core := Intake(e.core, cmd));
    HandleSubmits(e, cmd);
    IntakeIs(e.core, cmd);
    TurnedAwayIs(e, cmd);
    EntryAsked(e, cmd);
    CrossingAnswers(e0, id, stored);
    EntersAndTakes(e0, id, stored, e');
    SameOffers(e.core, cmd, Newcomer(cmd).side.Opposite());
  }

  lemma {:induction false} EntersAndTakes(e: Engine, id: OrderId, stored: set<OrderId>, e': Engine)
    requires Inv(e.core) && Entering(e.core, id) && NoOco(e.core) && AllPass(e, e')
    requires MatchOrRest(Entered(e, id), id, stored) == Ok(e') && Entered(e, id).answers <= e'.answers
    ensures var o := e.core.orders[id];
      e'.core.Get(id).executed == o.executed + Min(o.quantity - o.executed, Offered(e.core, o.side.Opposite()))
  {
    var e1 := Entered(e, id);
    RestAnswers(e1, id, stored);
    MatchOrRestOrders(e1, id, stored);
    SweepTakesOffer(e1, id);
  }

  /** The newcomer itself is not on offer yet. */
  lemma {:induction false} SameOffers(c: Core, cmd: Command, side: Side)
    requires Inv(c) && CmdOk(c, cmd)
    ensures Offered(Intake(c, cmd), side) == Offered(c, side)
  {
    LegsFresh(c, cmd);
    IntakeIs(c, cmd);
    var c0 := Intake(c, cmd);
    forall x
      ensures x in OnOffer(c0, side) <==> x in OnOffer(c, side)
      ensures x in OnOffer(c0, side) ==> OnOffer(c0, side)[x] == OnOffer(c, side)[x]
    {
      if x in c.orders { assert c0.Get(x) == c.Get(x); }
    }
    MapsEqual(OnOffer(c0, side), OnOffer(c, side));
  }
}
