/**
 * What a trade does to the balance a maker can still spend. The check looks at the traded quantity, the
 * first fill takes escrow for the whole order; this module says when that overdraws the maker.
 */
module Solvency {
  import opened Types
  import opened BookModel
  import opened Ledgers
  import opened EngineSpec
  import opened Invariants
  import opened Matching
  import opened Runs
  import opened Safety
  import opened PlainRuns
  import opened Steps
  import opened Releases

  /** What `HoldOp` puts in escrow. */
  function HoldAmount(o: Order): int { if o.side.Bid? then o.quantity * o.price else o.quantity }

  /** What `_check_sufficient_balance` asks for. */
  function Needed(o: Order, q: int, p: Price): int { if o.side.Bid? then q * p else q }

  /** The spendable balance on the side of `o`: cash for a bid, asset for an ask. */
  function Spendable(l: Ledger, o: Order): int { Available(l, o.user, o.side) }

  lemma {:induction false} HoldSpends(l: Ledger, o: Order)
    ensures Spendable(ApplyOp(l, HoldOp(o)), o) == Spendable(l, o) - HoldAmount(o)
  {
  }

  /** Settling moves escrow and balance together. */
  lemma {:induction false} SettleSpends(l: Ledger, o: Order, q: int, p: Price)
    ensures Spendable(ApplyOp(l, SettleOp(o, q, p)), o) == Spendable(l, o)
  {
  }

  /** The other party's hold and settlement reach `o` only as proceeds of trading with oneself. */
  lemma {:induction false} OtherSideSpends(l: Ledger, o: Order, other: Order, q: int, p: Price)
    requires other.side != o.side
    ensures Spendable(ApplyOp(l, HoldOp(other)), o) == Spendable(l, o)
    ensures Spendable(ApplyOp(l, SettleOp(other, q, p)), o)
         == Spendable(l, o) + if other.user == o.user then Needed(o, q, p) else 0
  {
  }

  /** First-fill escrow and settlement of a trade, seen by the maker. */
  lemma {:induction false} TradeSpends(e: Engine, t: Order, m: Order, q: int, p: Price)
    requires e.wiring.Live? && t.side != m.side && m.user != SYSTEM_USER_ID
    ensures Settle(e, t, m, q, p).wiring.Live?
    ensures Spendable(Settle(e, t, m, q, p).wiring.ledger, m)
         == Spendable(e.wiring.ledger, m) - (if m.executed == 0 then HoldAmount(m) else 0)
            + (if t.user == m.user then Needed(m, q, p) else 0)
  {
    var e1 := HoldOnFirstFill(e, m);
    HoldSpends(e.wiring.ledger, m);
    var e2 := HoldOnFirstFill(e1, t);
    OtherSideSpends(e1.wiring.ledger, m, t, q, p);
    var e3 := Do(e2, SettleOp(t, q, p));
    OtherSideSpends(e2.wiring.ledger, m, t, q, p);
    SettleSpends(e3.wiring.ledger, m, q, p);
  }

  /** Only the callback of an OCO leg moves a balance: it releases what is left of the leg itself. */
  ghost function AfterHook(l: Ledger, o: Order): Ledger {
    if o.strategy.OcoLeg? && o.Remaining() > 0 && o.user != SYSTEM_USER_ID then ApplyOp(l, ReleaseOp(o)) else l
  }

  lemma {:induction false} HookWiring(e: Engine, id: OrderId)
    requires e.wiring.Live? && Hook(e, id).Ok?
    ensures Hook(e, id).value.wiring == Live(AfterHook(e.wiring.ledger, e.core.Get(id)))
  {
  }

  /** A trade is a settlement on what the callbacks have left. */
  lemma {:induction false} TradeIsSettle(e: Engine, t: OrderId, m: OrderId, q: int, p: Price) returns (e': Engine)
    requires Meets(e.core, t, m) && q == TradeQuantity(e.core, t, m) && e.wiring.Live? && Trade(e, t, m, q, p).Ok?
    ensures e'.wiring == Live(AfterHook(e.wiring.ledger, e.core.orders[m].AddFill(q, p)))
    ensures Trade(e, t, m, q, p) == Ok(Settle(e', e.core.Get(t), e.core.Get(m), q, p))
  {
    var taker, maker := e.core.Get(t), e.core.Get(m);
    assert OrderInv(e.core, t, {}, {}) && OrderInv(e.core, m, {}, {});
    var e1 := FillBoth(TradeEvents(e, taker, maker, q, p), t, m, q, p);
    assert e1.wiring == e.wiring && e1.core == Filled(e.core, t, m, q, p);
    FillsKeep(e.core, t, m, q, p);
    HookWiring(e1, t);
    HookProjects(e1, t);
    HookKeeps(e1.core, t, {t, m}, {t, m});
    var e2 := Hook(e1, t).value;
    assert e2.core.Get(m) == maker.AddFill(q, p);
    HookWiring(e2, m);
    var e3 := Hook(e2, m).value;
    e' := e3.(core := RetireCore(e3.core, m).value);
  }

  /** What the callback of an OCO maker frees: the value of its remainder. */
  function Freed(maker: Order, q: int): int {
    if maker.strategy.OcoLeg? then (maker.Remaining() - q) * (if maker.side.Bid? then maker.price else 1) else 0
  }

  lemma {:induction false} HookFrees(l: Ledger, maker: Order, q: int, p: Price)
    requires maker.user != SYSTEM_USER_ID && q <= maker.Remaining()
    ensures Spendable(AfterHook(l, maker.AddFill(q, p)), maker) == Spendable(l, maker) + Freed(maker, q)
  {
    if maker.Remaining() == q { assert Freed(maker, q) == 0; }
  }

  /**
   * A maker that passes its check: what it can still spend drops by the escrow of its whole order on the
   * first fill and not at all later, and rises by what an OCO leg frees and, if it trades with itself, by
   * the proceeds. It is overdrawn exactly if it could not have paid for the whole order out of that.
   */
  lemma {:induction false} MakerOverdrawnIff(e: Engine, t: OrderId, m: OrderId, p: Price)
    requires e.wiring.Live? && Meets(e.core, t, m) && Encounter(e, t, m, p).Ok?
    requires e.core.orders[m].user != SYSTEM_USER_ID
    requires Answer(e, e.core.orders[m], TradeQuantity(e.core, t, m), p)
    ensures var maker, q := e.core.orders[m], TradeQuantity(e.core, t, m);
      var before := Spendable(Consult(e.wiring.ledger, maker.user, maker.side), maker);
      var held := if maker.executed == 0 then HoldAmount(maker) else 0;
      var proceeds := if e.core.orders[t].user == maker.user then Needed(maker, q, p) else 0;
      && Needed(maker, q, p) <= before
      && Encounter(e, t, m, p).value.wiring.Live?
      && var after := Spendable(Encounter(e, t, m, p).value.wiring.ledger, maker);
      && after == before - held + Freed(maker, q) + proceeds
      && (after < 0 <==> before + Freed(maker, q) + proceeds < held)
  {
    var maker, q := e.core.orders[m], TradeQuantity(e.core, t, m);
    assert OrderInv(e.core, m, {}, {}) && OrderInv(e.core, t, {}, {});
    var e1 := Checked(e, maker, q, p);
    var l := Consult(e.wiring.ledger, maker.user, maker.side);
    assert e1.core == e.core && e1.wiring == Live(l);
    var e2 := TradeIsSettle(e1, t, m, q, p);
    HookFrees(l, maker, q, p);
    TradeSpends(e2, e.core.Get(t), maker, q, p);
  }

  // ---- An example ----

  lemma {:induction false} AskMeetsBid(e: Engine)
    requires e.core == Rested(EMPTY_CORE, BIG_BID) && Inv(e.core)
    ensures CmdOk(e.core, NewSingle(ONE_ASK)) && Leads(e.core, Bid, 1, 100)
    ensures 1 in e.core.orders && e.core.orders[1] == BIG_BID.ToOrder(Single, true)
    ensures Crossable(e.core.book, ONE_ASK.ToOrder(Single, true))
    ensures Meets(e.core.Put(ONE_ASK.ToOrder(Single, true)), 2, 1)
    ensures TradeQuantity(e.core.Put(ONE_ASK.ToOrder(Single, true)), 2, 1) == 1
  {
    assert IsBest(e.core.book, Bid, 100);
    BestIs(e.core.book, Bid, 100);
    IntakeKeeps(e.core, NewSingle(ONE_ASK));
  }

  lemma {:induction false} AskOverdraws(e: Engine)
    requires e.core == Rested(EMPTY_CORE, BIG_BID) && Inv(e.core) && e.wiring == Live(NO_BALANCES)
    ensures CmdOk(e.core, NewSingle(ONE_ASK)) && Handle(e, NewSingle(ONE_ASK)).Ok?
    ensures Handle(e, NewSingle(ONE_ASK)).value.wiring.Live?
    ensures Available(Handle(e, NewSingle(ONE_ASK)).value.wiring.ledger, 1, Bid) == -10_000
  {
    AskMeetsBid(e);
    var o := ONE_ASK.ToOrder(Single, true);
    var e0 := e.(core := e.core.Put(o));
    var e1 := Checked(e0, o, 1, 100);
    assert e1.core == e0.core && e1.wiring == e.wiring;
    assert Affords(NO_BALANCES, e0.core.Get(1), 1, 100);
    TradeNeverRaises(e0.core, 2, 1, 1, 100);
    TakesFromFront(e, ONE_ASK, 1, 100);
    MakerOverdrawnIff(e1, 2, 1, 100);
  }

  /**
   * A user with the default balance of 10,000 rests a bid worth 20,000; one unit of it trades, the check
   * for that unit passes, and the user's available cash is -10,000.
   */
  lemma {:induction false} MakerCanBeOverdrawn(e: Engine)
    requires e.core == EMPTY_CORE && e.wiring == Live(NO_BALANCES)
    ensures var cmds := [NewSingle(BIG_BID), NewSingle(ONE_ASK)];
      && Admissible(e, cmds) && Run(e, cmds).Ok? && Run(e, cmds).value.wiring.Live?
      && Available(Run(e, cmds).value.wiring.ledger, 1, Bid) == -10_000
  {
    assert Inv(EMPTY_CORE);
    BigBidRests(e);
    HandleKeeps(e, NewSingle(BIG_BID));
    var e1 := Handle(e, NewSingle(BIG_BID)).value;
    AskOverdraws(e1);
    TwoCommands(e, NewSingle(BIG_BID), NewSingle(ONE_ASK), e1);
  }
}
