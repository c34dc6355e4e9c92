/** What a trade does to escrow on the ledger: it moves by exactly what the fill changes in `Held`. */
module TradeEscrow {
  import opened Types
  import opened Ledgers
  import opened EngineSpec
  import opened Invariants
  import opened Matching
  import opened Accounting
  import opened Escrow
  import opened Releases
  import opened Solvency

  /** One fill: the hold of the first one in, the settlement and an OCO leg's release out. */
  lemma {:induction false} HeldAfterFill(o: Order, q: int, p: Price)
    requires OrderOk(o.id, o) && 0 < q <= o.Remaining()
    ensures Held(o.AddFill(q, p)) == Held(o) + (if o.executed == 0 then HoldAmount(o) else 0) - Needed(o, q, p)
                                     - (if o.strategy.OcoLeg? then Unfilled(o.AddFill(q, p)) else 0)
  {
    var o' := o.AddFill(q, p);
    ValueAfter(o, q, p);
    assert o'.fills[..|o'.fills| - 1] == o.fills;
    GivenAfterFill(o, q, p);
  }

  lemma {:induction false} GivenAfterFill(o: Order, q: int, p: Price)
    requires OrderOk(o.id, o)
    ensures GivenBack(o.AddFill(q, p)) == GivenBack(o) + (if o.strategy.OcoLeg? then Unfilled(o.AddFill(q, p)) else 0)
  {
    var o' := o.AddFill(q, p);
    assert o'.fills[..|o'.fills| - 1] == o.fills;
    Distribute(OpenAfterFills(o.fills, o.quantity), o'.Remaining(), Unit(o));
  }

  // ---- Each operation on one escrow ----

  lemma {:induction false} HoldOnLedger(l: Ledger, o: Order)
    ensures EscrowOf(ApplyOp(l, HoldOp(o)), o) == EscrowOf(l, o) + HoldAmount(o)
  {
  }

  lemma {:induction false} SettleOnLedger(l: Ledger, o: Order, q: int, p: Price)
    ensures EscrowOf(ApplyOp(l, SettleOp(o, q, p)), o) == EscrowOf(l, o) - Needed(o, q, p)
  {
  }

  /** The other party trades in the other currency's escrow. */
  lemma {:induction false} OtherOnLedger(l: Ledger, o: Order, other: Order, q: int, p: Price)
    requires other.side != o.side
    ensures EscrowOf(ApplyOp(l, HoldOp(other)), o) == EscrowOf(l, o)
    ensures EscrowOf(ApplyOp(l, SettleOp(other, q, p)), o) == EscrowOf(l, o)
    ensures EscrowOf(ApplyOp(l, ReleaseOp(other)), o) == EscrowOf(l, o)
  {
  }

  ghost function FirstHold(o: Order): int { if o.executed == 0 then HoldAmount(o) else 0 }

  lemma {:induction false} HoldStep(e: Engine, o: Order, other: Order)
    requires e.wiring.Live? && other.side != o.side
    ensures HoldOnFirstFill(e, o).wiring.Live? && HoldOnFirstFill(e, other).wiring.Live?
    ensures o.user != SYSTEM_USER_ID ==>
      EscrowOf(HoldOnFirstFill(e, o).wiring.ledger, o) == EscrowOf(e.wiring.ledger, o) + FirstHold(o)
    ensures EscrowOf(HoldOnFirstFill(e, other).wiring.ledger, o) == EscrowOf(e.wiring.ledger, o)
  {
    HoldOnLedger(e.wiring.ledger, o);
    OtherOnLedger(e.wiring.ledger, o, other, 0, 0);
  }

  lemma {:induction false} SettleStep(e: Engine, o: Order, other: Order, q: int, p: Price)
    requires e.wiring.Live? && other.side != o.side
    ensures Do(e, SettleOp(o, q, p)).wiring.Live? && Do(e, SettleOp(other, q, p)).wiring.Live?
    ensures o.user != SYSTEM_USER_ID ==>
      EscrowOf(Do(e, SettleOp(o, q, p)).wiring.ledger, o) == EscrowOf(e.wiring.ledger, o) - Needed(o, q, p)
    ensures EscrowOf(Do(e, SettleOp(other, q, p)).wiring.ledger, o) == EscrowOf(e.wiring.ledger, o)
  {
    SettleOnLedger(e.wiring.ledger, o, q, p);
    OtherOnLedger(e.wiring.ledger, o, other, q, p);
  }

  /** Holds and settlements of a trade, seen by either party. */
  lemma {:induction false} SettleMovesEscrow(e: Engine, t: Order, m: Order, q: int, p: Price)
    requires e.wiring.Live? && t.side != m.side
    ensures Settle(e, t, m, q, p).wiring.Live?
    ensures var l, l' := e.wiring.ledger, Settle(e, t, m, q, p).wiring.ledger;
      && (m.user != SYSTEM_USER_ID ==> EscrowOf(l', m) == EscrowOf(l, m) + FirstHold(m) - Needed(m, q, p))
      && (t.user != SYSTEM_USER_ID ==> EscrowOf(l', t) == EscrowOf(l, t) + FirstHold(t) - Needed(t, q, p))
  {
    var e1 := HoldOnFirstFill(e, m);
    HoldStep(e, m, t);
    HoldStep(e, t, m);
    var e2 := HoldOnFirstFill(e1, t);
    HoldStep(e1, t, m);
    HoldStep(e1, m, t);
    var e3 := Do(e2, SettleOp(t, q, p));
    SettleStep(e2, t, m, q, p);
    SettleStep(e2, m, t, q, p);
    SettleStep(e3, t, m, q, p);
    SettleStep(e3, m, t, q, p);
  }

  /** The callback of an OCO maker, seen by either party. */
  lemma {:induction false} HookMovesEscrow(l: Ledger, m: Order, t: Order)
    requires t.side != m.side && m.Remaining() >= 0
    ensures m.user != SYSTEM_USER_ID ==>
      EscrowOf(AfterHook(l, m), m) == EscrowOf(l, m) - (if m.strategy.OcoLeg? then Unfilled(m) else 0)
    ensures EscrowOf(AfterHook(l, m), t) == EscrowOf(l, t)
  {
    ReleaseOnLedger(l, m);
    OtherOnLedger(l, t, m, 0, 0);
  }

  /** Asking for a balance moves no escrow. */
  lemma {:induction false} ConsultKeepsEscrow(l: Ledger, u: UserId, side: Side, o: Order)
    ensures EscrowOf(Consult(l, u, side), o) == EscrowOf(l, o)
  {
  }

  /**
   * On the ledger a trade moves the escrow of each ordinary party by exactly the change in what its order
   * holds, for every strategy: so `Held` is what the trades of an order have put into escrow.
   */
  lemma {:induction false} TradeMovesEscrow(e: Engine, t: OrderId, m: OrderId, p: Price)
    requires e.wiring.Live? && Meets(e.core, t, m) && Encounter(e, t, m, p).Ok?
    requires Answer(e, e.core.orders[m], TradeQuantity(e.core, t, m), p)
    ensures Encounter(e, t, m, p).value.wiring.Live?
    ensures var taker, maker, q := e.core.orders[t], e.core.orders[m], TradeQuantity(e.core, t, m);
      var l, l' := e.wiring.ledger, Encounter(e, t, m, p).value.wiring.ledger;
      && (maker.user != SYSTEM_USER_ID ==>
            EscrowOf(l', maker) == EscrowOf(l, maker) + Held(maker.AddFill(q, p)) - Held(maker))
      && (taker.user != SYSTEM_USER_ID ==>
            EscrowOf(l', taker) == EscrowOf(l, taker) + Held(taker.AddFill(q, p)) - Held(taker))
  {
    var taker, maker, q := e.core.orders[t], e.core.orders[m], TradeQuantity(e.core, t, m);
    assert OrderInv(e.core, m, {}, {}) && OrderInv(e.core, t, {}, {});
    var e1 := Checked(e, maker, q, p);
    var l1 := e1.wiring.ledger;
    ConsultKeepsEscrow(e.wiring.ledger, maker.user, maker.side, maker);
    ConsultKeepsEscrow(e.wiring.ledger, maker.user, maker.side, taker);
    var e2 := TradeIsSettle(e1, t, m, q, p);
    HookMovesEscrow(l1, maker.AddFill(q, p), taker);
    SettleMovesEscrow(e2, taker, maker, q, p);
    HeldAfterFill(maker, q, p);
    HeldAfterFill(taker, q, p);
  }

  /**
   * The first fill of an OCO leg at its own price leaves its owner's escrow as it was: what is held is
   * settled and released at once. Every later fill takes out the leg's whole unfilled part again.
   */
  lemma {:induction false} LegFillMovesEscrow(e: Engine, t: OrderId, m: OrderId)
    requires e.wiring.Live? && Meets(e.core, t, m) && Encounter(e, t, m, e.core.orders[m].price).Ok?
    requires Answer(e, e.core.orders[m], TradeQuantity(e.core, t, m), e.core.orders[m].price)
    requires e.core.orders[m].strategy.OcoLeg? && e.core.orders[m].user != SYSTEM_USER_ID
    ensures var maker := e.core.orders[m];
      var e' := Encounter(e, t, m, maker.price).value;
      && e'.wiring.Live?
      && EscrowOf(e'.wiring.ledger, maker)
         == EscrowOf(e.wiring.ledger, maker) - (if maker.executed == 0 then 0 else Unfilled(maker))
  {
    var maker, q := e.core.orders[m], TradeQuantity(e.core, t, m);
    assert OrderInv(e.core, m, {}, {}) && OrderInv(e.core, t, {}, {});
    TradeMovesEscrow(e, t, m, maker.price);
    LegHeldAfterFill(maker, q);
  }

  lemma {:induction false} LegHeldAfterFill(o: Order, q: int)
    requires OrderOk(o.id, o) && 0 < q <= o.Remaining() && o.strategy.OcoLeg?
    ensures Held(o.AddFill(q, o.price)) == Held(o) - (if o.executed == 0 then 0 else Unfilled(o))
  {
    HeldAfterFill(o, q, o.price);
    UnfilledSplits(o, q);
  }

  lemma {:induction false} UnfilledSplits(o: Order, q: int)
    ensures Unfilled(o) == Unfilled(o.AddFill(q, o.price)) + Needed(o, q, o.price)
    ensures o.executed == 0 ==> HoldAmount(o) == Unfilled(o)
  {
    Distribute(o.Remaining() - q, q, o.price);
  }
}
