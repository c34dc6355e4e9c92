/** Runs from the empty engine that raise, one for each condition in `Raising`. */
module Failures {
  import opened Types
  import opened Collections
  import opened BookModel
  import opened Ledgers
  import opened EngineSpec
  import opened Invariants
  import opened Matching
  import opened Runs
  import opened PlainRuns
  import opened Raising
  import opened Steps

  /** Four admissible commands in a row. */
  lemma {:induction false} FourCommands(e: Engine, cmds: seq<Command>, e1: Engine, e2: Engine, e3: Engine)
    requires |cmds| == 4
    requires CmdOk(e.core, cmds[0]) && Handle(e, cmds[0]) == Ok(e1)
    requires CmdOk(e1.core, cmds[1]) && Handle(e1, cmds[1]) == Ok(e2)
    requires CmdOk(e2.core, cmds[2]) && Handle(e2, cmds[2]) == Ok(e3) && CmdOk(e3.core, cmds[3])
    ensures Admissible(e, cmds) && Run(e, cmds[..3]) == Ok(e3) && Run(e, cmds) == Handle(e3, cmds[3])
  {
    OneMore(e, cmds, 0, e);
    OneMore(e, cmds, 1, e1);
    OneMore(e, cmds, 2, e2);
    OneMore(e, cmds, 3, e3);
    assert cmds[..4] == cmds;
  }

  lemma {:induction false} OneMore(e: Engine, cmds: seq<Command>, k: nat, ek: Engine)
    requires k < |cmds| && (k == 0 ==> ek == e)
    requires k > 0 ==> Admissible(e, cmds[..k]) && Run(e, cmds[..k]) == Ok(ek)
    requires CmdOk(ek.core, cmds[k])
    ensures Admissible(e, cmds[..k + 1]) && Run(e, cmds[..k + 1]) == Handle(ek, cmds[k])
  {
    assert cmds[..k + 1][..k] == cmds[..k];
    if k == 0 { assert Run(e, cmds[..0]) == Ok(e) && Admissible(e, cmds[..0]); }
  }

  // ---- A leg that is cancelled after it has traded ----

  const LEG_A: OrderSpec := OrderSpec(1, SYSTEM_USER_ID, Limit, Ask, 100, 2)
  const LEG_B: OrderSpec := OrderSpec(2, SYSTEM_USER_ID, Limit, Bid, 50, 2)
  const TAKER: OrderSpec := OrderSpec(3, SYSTEM_USER_ID, Limit, Bid, 100, 1)
  const NEIGHBOUR: OrderSpec := OrderSpec(4, SYSTEM_USER_ID, Limit, Bid, 50, 1)

  /** Leg A rests at 100 and leg B at 50, and nothing else does. */
  ghost predicate LegsRest(c: Core) {
    && c.book == map[LevelKey(Ask, 100) := [1], LevelKey(Bid, 50) := [2]]
    && c.orders == map[1 := LEG_A.ToOrder(OcoLeg(2), true), 2 := LEG_B.ToOrder(OcoLeg(1), true)]
    && c.store == {1, 2}
  }

  /** What is left of leg A is alone in the book. */
  ghost predicate LegTraded(c: Core) {
    && LegAlone(c.book) && 1 in c.store && 4 !in c.orders
    && c.Get(1).strategy == OcoLeg(2) && c.Get(1).executed == 1 && c.Get(2).Key() == LevelKey(Bid, 50)
  }

  ghost predicate LegAlone(b: Book) { b == map[LevelKey(Ask, 100) := [1]] }

  lemma {:induction false} PeerLeaves(b: Book, b': Book)
    requires b == map[LevelKey(Ask, 100) := [1], LevelKey(Bid, 50) := [2]]
    requires RemoveFrom(b, LevelKey(Bid, 50), 2) == Ok(b')
    ensures LegAlone(b')
  {
    assert Without([2], 2) == [];
    assert b - {LevelKey(Bid, 50)} == map[LevelKey(Ask, 100) := [1]];
  }

  lemma {:induction false} LegsComeToRest(e: Engine)
    requires e.core == EMPTY_CORE
    ensures Handle(e, NewOco(LEG_A, LEG_B)).Ok?
    ensures var e' := Handle(e, NewOco(LEG_A, LEG_B)).value; e' == e.(core := e'.core) && LegsRest(e'.core)
  {
    var c := EMPTY_CORE.Put(LEG_A.ToOrder(OcoLeg(2), true)).Put(LEG_B.ToOrder(OcoLeg(1), true));
    var c1 := Core(map[LevelKey(Ask, 100) := [1]], c.orders, {1});
    assert Level(c.book, LevelKey(Ask, 100)) + [1] == [1];
    assert c.book[LevelKey(Ask, 100) := [1]] == c1.book && c.store + {1} == c1.store;
    assert Place(e.(core := c), 1, {1}) == Ok(e.(core := c1));
    assert Level(c1.book, LevelKey(Bid, 50)) + [2] == [2];
  }

  /** The first trade of a leg it does not complete takes the peer out of book and store. */
  lemma {:induction false} LegTradesOnce(c: Core, t: OrderId, m: OrderId, q: int, p: Price)
    requires Meets(c, t, m) && q == TradeQuantity(c, t, m) && c.orders[t].strategy.Single?
    requires c.orders[m].strategy.OcoLeg? && c.orders[m].executed == 0 && q < c.orders[m].quantity
    ensures TradeCore(c, t, m, q, p).Ok?
    ensures var c' := TradeCore(c, t, m, q, p).value;
      var peer := c.orders[m].strategy.peer;
      && RemoveFrom(c.book, c.Get(peer).Key(), peer) == Ok(c'.book)
      && c'.store == c.store - {peer} && c'.orders == Filled(c, t, m, q, p).orders
  {
    SingleTradeRaisesIff(c, t, m, q, p);
    assert OrderInv(c, m, {}, {}) && OrderInv(c, t, {}, {}) && OrderInv(c, c.orders[m].strategy.peer, {}, {});
    var c1 := Filled(c, t, m, q, p);
    assert HookCore(c1, t) == Ok(c1);
    assert c1.Get(c.orders[m].strategy.peer) == c.Get(c.orders[m].strategy.peer);
  }

  /** The taker faces leg A, whose peer rests at 50. */
  ghost predicate FacingLeg(c: Core) {
    && Inv(c) && CmdOk(c, NewSingle(TAKER)) && 1 in c.store
    && var o := TAKER.ToOrder(Single, true);
    && var c0 := c.Put(o);
    && Leads(c, Ask, 1, 100) && Crossable(c.book, o) && Meets(c0, 3, 1)
    && TradeQuantity(c0, 3, 1) == 1 && c0.Get(2).Key() == LevelKey(Bid, 50) && c0.Get(3) == o
    && 1 in c.orders && c.orders[1] == LEG_A.ToOrder(OcoLeg(2), true) && 4 !in c0.orders
  }

  lemma {:induction false} TakerMeetsLeg(e: Engine)
    requires LegsRest(e.core) && Inv(e.core)
    ensures FacingLeg(e.core)
  {
    assert IsBest(e.core.book, Ask, 100);
    BestIs(e.core.book, Ask, 100);
    IntakeKeeps(e.core, NewSingle(TAKER));
  }

  lemma {:induction false} TakerTrades(e: Engine)
    requires FacingLeg(e.core) && e.wiring.Live?
    ensures Handle(e, NewSingle(TAKER)).Ok?
    ensures var c := Handle(e, NewSingle(TAKER)).value.core;
      && RemoveFrom(e.core.book, LevelKey(Bid, 50), 2) == Ok(c.book) && 1 in c.store && 4 !in c.orders
      && c.Get(1).strategy == OcoLeg(2) && c.Get(1).executed == 1 && c.Get(2).Key() == LevelKey(Bid, 50)
  {
    LegTradesOnce(e.core.Put(TAKER.ToOrder(Single, true)), 3, 1, 1, 100);
    TakesFromFront(e, TAKER, 1, 100);
  }

  lemma {:induction false} TakerTradesWithLeg(e: Engine)
    requires LegsRest(e.core) && Inv(e.core) && e.wiring.Live?
    ensures CmdOk(e.core, NewSingle(TAKER)) && Handle(e, NewSingle(TAKER)).Ok?
    ensures LegTraded(Handle(e, NewSingle(TAKER)).value.core)
  {
    TakerMeetsLeg(e);
    TakerTrades(e);
    PeerLeaves(e.core.book, Handle(e, NewSingle(TAKER)).value.core.book);
  }

  lemma {:induction false} NeighbourRests(e: Engine)
    requires LegTraded(e.core)
    ensures CmdOk(e.core, NewSingle(NEIGHBOUR)) && Handle(e, NewSingle(NEIGHBOUR)).Ok?
    ensures Handle(e, NewSingle(NEIGHBOUR)).value.core == Rested(e.core, NEIGHBOUR)
  {
    assert IsBest(e.core.book, Ask, 100);
    BestIs(e.core.book, Ask, 100);
    ComesToRest(e, NEIGHBOUR);
  }

  /** The rest of leg A cannot be cancelled any more. */
  lemma {:induction false} LegCannotBeCancelled(e: Engine, c: Core)
    requires LegTraded(c) && e.core == Rested(c, NEIGHBOUR) && Inv(e.core)
    ensures Handle(e, Cancel(1)).Raised?
  {
    assert e.core.Get(1) == c.Get(1) && e.core.Get(2) == c.Get(2);
    CancelCommandRaisesIff(e, 1);
  }

  /**
   * Leg A trades in part and its peer B leaves; somebody else comes to rest where B was; cancelling what is
   * left of A raises.
   */
  lemma {:induction false} OcoCancelRaises(e: Engine)
    requires e.core == EMPTY_CORE && e.wiring.Live?
    ensures var cmds := [NewOco(LEG_A, LEG_B), NewSingle(TAKER), NewSingle(NEIGHBOUR), Cancel(1)];
      && Admissible(e, cmds) && Run(e, cmds[..3]).Ok? && Run(e, cmds).Raised?
  {
    var cmds := [NewOco(LEG_A, LEG_B), NewSingle(TAKER), NewSingle(NEIGHBOUR), Cancel(1)];
    assert Inv(EMPTY_CORE);
    LegsComeToRest(e);
    HandleKeeps(e, cmds[0]);
    var e1 := Handle(e, cmds[0]).value;
    TakerTradesWithLeg(e1);
    HandleKeeps(e1, cmds[1]);
    var e2 := Handle(e1, cmds[1]).value;
    NeighbourRests(e2);
    HandleKeeps(e2, cmds[2]);
    var e3 := Handle(e2, cmds[2]).value;
    LegCannotBeCancelled(e3, e2.core);
    FourCommands(e, cmds, e1, e2, e3);
  }

  // ---- A rejected order whose own level exists ----

  const LOW_BID: OrderSpec := OrderSpec(1, SYSTEM_USER_ID, Limit, Bid, 95, 1)
  const PARENT: OrderSpec := OrderSpec(2, SYSTEM_USER_ID, Limit, Bid, 100, 1)
  const CHILD: OrderSpec := OrderSpec(3, SYSTEM_USER_ID, Limit, Ask, 90, 1)
  const SELLER: OrderSpec := OrderSpec(4, SYSTEM_USER_ID, Limit, Ask, 100, 1)
  const PAUPER: OrderSpec := OrderSpec(5, 1, Limit, Bid, 95, 200)

  ghost predicate ParentRests(c: Core) {
    && TwoBids(c.book)
    && c.orders == map[1 := LOW_BID.ToOrder(Single, true), 2 := PARENT.ToOrder(OtoParent(3), true),
                       3 := CHILD.ToOrder(OtoChild(2), false)]
    && c.store == {1, 2, 3}
  }

  ghost predicate TwoBids(b: Book) { b == map[LevelKey(Bid, 95) := [1], LevelKey(Bid, 100) := [2]] }

  /** The child's price is below the best bid: the book is crossed. */
  ghost predicate ChildCrosses(c: Core) {
    CrossedBook(c.book) && 5 !in c.orders
  }

  ghost predicate CrossedBook(b: Book) { b == map[LevelKey(Bid, 95) := [1], LevelKey(Ask, 90) := [3]] }

  lemma {:induction false} LowBidRests(e: Engine)
    requires e.core == EMPTY_CORE
    ensures Handle(e, NewSingle(LOW_BID)) == Ok(e.(core := Rested(EMPTY_CORE, LOW_BID)))
  {
    assert Best(e.core.book, Ask).None?;
    ComesToRest(e, LOW_BID);
  }

  lemma {:induction false} ParentComesToRest(e: Engine)
    requires e.core == Rested(EMPTY_CORE, LOW_BID)
    ensures CmdOk(e.core, NewOto(PARENT, CHILD)) && Handle(e, NewOto(PARENT, CHILD)).Ok?
    ensures var e' := Handle(e, NewOto(PARENT, CHILD)).value; e' == e.(core := e'.core) && ParentRests(e'.core)
  {
    var c := e.core.Put(PARENT.ToOrder(OtoParent(3), true)).Put(CHILD.ToOrder(OtoChild(2), false));
    var e0 := e.(core := c);
    assert Best(c.book, Ask).None? && c.Get(2) == PARENT.ToOrder(OtoParent(3), true);
    assert Handle(e, NewOto(PARENT, CHILD)) == Submit(e0, 2, {2, 3}) == Place(e0, 2, {2, 3});
    assert Level(EMPTY_CORE.book, LevelKey(Bid, 95)) + [1] == [1] && Level(c.book, LevelKey(Bid, 100)) + [2] == [2];
  }

  /** Completing an OTO maker books its child and retires the maker. */
  lemma {:induction false} ParentTrades(c: Core, t: OrderId, m: OrderId, q: int, p: Price)
    requires Meets(c, t, m) && q == TradeQuantity(c, t, m) && c.orders[t].strategy.Single?
    requires c.orders[m].strategy.OtoParent? && q == c.orders[m].Remaining()
    ensures TradeCore(c, t, m, q, p).Ok?
    ensures var c' := TradeCore(c, t, m, q, p).value;
      var child := c.orders[m].strategy.child;
      && c'.orders.Keys == c.orders.Keys
      && AppendTo(c.book, c.Get(child).Key(), child).Ok?
      && RemoveFrom(AppendTo(c.book, c.Get(child).Key(), child).value, c.orders[m].Key(), m) == Ok(c'.book)
  {
    SingleTradeRaisesIff(c, t, m, q, p);
    var child := c.orders[m].strategy.child;
    assert OrderInv(c, m, {}, {}) && OrderInv(c, t, {}, {}) && OrderInv(c, child, {}, {});
    TradeKeeps(c, t, m, q, p);
    var c1 := Filled(c, t, m, q, p);
    assert HookCore(c1, t) == Ok(c1);
    assert c1.Get(child) == c.Get(child);
  }

  /** The parent leads the bids, and the seller crosses. */
  ghost predicate Facing(c: Core) {
    && Inv(c) && CmdOk(c, NewSingle(SELLER))
    && Leads(c, Bid, 2, 100) && Crossable(c.book, SELLER.ToOrder(Single, true))
    && 2 in c.orders && c.orders[2] == PARENT.ToOrder(OtoParent(3), true)
  }

  /** They can trade one unit, and the child waits to be placed at 90. */
  ghost predicate CanTrade(c: Core) {
    && Meets(c, 4, 2) && TradeQuantity(c, 4, 2) == 1 && c.orders[4].strategy.Single?
    && c.orders[2] == PARENT.ToOrder(OtoParent(3), true) && c.Get(3).Key() == LevelKey(Ask, 90) && 5 !in c.orders
  }

  lemma {:induction false} SellerMeetsParent(e: Engine)
    requires ParentRests(e.core) && Inv(e.core)
    ensures Facing(e.core) && CanTrade(e.core.Put(SELLER.ToOrder(Single, true)))
  {
    assert IsBest(e.core.book, Bid, 100);
    BestIs(e.core.book, Bid, 100);
    IntakeKeeps(e.core, NewSingle(SELLER));
  }

  /** The trade places the child and retires the parent. */
  ghost predicate Placed(b: Book, c': Core) {
    && AppendTo(b, LevelKey(Ask, 90), 3).Ok?
    && RemoveFrom(AppendTo(b, LevelKey(Ask, 90), 3).value, LevelKey(Bid, 100), 2) == Ok(c'.book)
    && 5 !in c'.orders
  }

  lemma {:induction false} ChildIsPlaced(c: Core)
    requires CanTrade(c)
    ensures TradeCore(c, 4, 2, 1, 100).Ok? && Placed(c.book, TradeCore(c, 4, 2, 1, 100).value)
  {
    ParentTrades(c, 4, 2, 1, 100);
  }

  lemma {:induction false} SellerTrades(e: Engine)
    requires Facing(e.core) && e.wiring.Live?
    requires TradeCore(e.core.Put(SELLER.ToOrder(Single, true)), 4, 2, 1, 100).Ok?
    ensures Handle(e, NewSingle(SELLER)).Ok? && Handle(e, NewSingle(SELLER)).value.wiring == e.wiring
    ensures Handle(e, NewSingle(SELLER)).value.core
         == TradeCore(e.core.Put(SELLER.ToOrder(Single, true)), 4, 2, 1, 100).value
  {
    TakesFromSystem(e, SELLER, 2, 100);
  }

  lemma {:induction false} SellerActs(e: Engine)
    requires Facing(e.core) && CanTrade(e.core.Put(SELLER.ToOrder(Single, true))) && e.wiring.Live?
    ensures Handle(e, NewSingle(SELLER)).Ok? && Handle(e, NewSingle(SELLER)).value.wiring == e.wiring
    ensures Placed(e.core.book, Handle(e, NewSingle(SELLER)).value.core)
  {
    ChildIsPlaced(e.core.Put(SELLER.ToOrder(Single, true)));
    SellerTrades(e);
  }

  lemma {:induction false} SellerFillsParent(e: Engine)
    requires ParentRests(e.core) && Inv(e.core) && e.wiring == Live(NO_BALANCES)
    ensures CmdOk(e.core, NewSingle(SELLER)) && Handle(e, NewSingle(SELLER)).Ok?
    ensures var e' := Handle(e, NewSingle(SELLER)).value; ChildCrosses(e'.core) && e'.wiring == Live(NO_BALANCES)
  {
    SellerMeetsParent(e);
    SellerActs(e);
    BooksTheChild(e.core.book, Handle(e, NewSingle(SELLER)).value.core);
  }

  lemma {:induction false} BooksTheChild(b: Book, c': Core)
    requires TwoBids(b) && Placed(b, c')
    ensures ChildCrosses(c')
  {
    var b1 := b[LevelKey(Ask, 90) := [3]];
    assert Level(b, LevelKey(Ask, 90)) + [3] == [3];
    assert AppendTo(b, LevelKey(Ask, 90), 3) == Ok(b1);
    assert b1 - {LevelKey(Bid, 100)} == map[LevelKey(Bid, 95) := [1], LevelKey(Ask, 90) := [3]];
  }

  lemma {:induction false} PauperRaises(e: Engine)
    requires ChildCrosses(e.core) && Inv(e.core) && e.wiring == Live(NO_BALANCES)
    ensures CmdOk(e.core, NewSingle(PAUPER)) && Handle(e, NewSingle(PAUPER)).Raised?
  {
    var o := PAUPER.ToOrder(Single, true);
    var e0 := e.(core := e.core.Put(o));
    assert IsBest(e.core.book, Ask, 90);
    BestIs(e.core.book, Ask, 90);
    assert e0.core.Get(5) == o && Crossable(e0.core.book, o) && !Affords(NO_BALANCES, o, 200, 95);
    HandleRaisesIff(e, NewSingle(PAUPER));
  }

  /**
   * SINGLE and OTO only: an activated child crosses the book, so that a bid can cross while others rest at
   * its own price; a buyer who cannot pay for such a bid makes the engine raise.
   */
  lemma {:induction false} OtoChildRaises(e: Engine)
    requires e.core == EMPTY_CORE && e.wiring == Live(NO_BALANCES)
    ensures var cmds := [NewSingle(LOW_BID), NewOto(PARENT, CHILD), NewSingle(SELLER), NewSingle(PAUPER)];
      && Admissible(e, cmds) && Run(e, cmds[..3]).Ok? && Run(e, cmds).Raised?
      && !Uncrossed(Run(e, cmds[..3]).value.core.book)
  {
    var cmds := [NewSingle(LOW_BID), NewOto(PARENT, CHILD), NewSingle(SELLER), NewSingle(PAUPER)];
    assert Inv(EMPTY_CORE);
    LowBidRests(e);
    HandleKeeps(e, cmds[0]);
    var e1 := Handle(e, cmds[0]).value;
    ParentComesToRest(e1);
    HandleKeeps(e1, cmds[1]);
    var e2 := Handle(e1, cmds[1]).value;
    SellerFillsParent(e2);
    HandleKeeps(e2, cmds[2]);
    var e3 := Handle(e2, cmds[2]).value;
    PauperRaises(e3);
    FourCommands(e, cmds, e1, e2, e3);
    assert LevelKey(Bid, 95) in e3.core.book && LevelKey(Ask, 90) in e3.core.book;
  }
}
