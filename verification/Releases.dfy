/**
 * `_release_escrow` on the ledger. It gives back the unfilled part of an order whether or not anything was
 * ever taken for it: this module says what a cancel leaves in escrow, and what a rejection does.
 */
module Releases {
  import opened Types
  import opened Collections
  import opened BookModel
  import opened Ledgers
  import opened EngineSpec
  import opened Invariants
  import opened Matching
  import opened Runs
  import opened PlainRuns
  import opened Accounting
  import opened Conservation
  import opened Escrow
  import opened Steps
  import Safety

  /** The escrow of the owner of `o` in the currency of its side. */
  function EscrowOf(l: Ledger, o: Order): int {
    Ledgers.Get(if o.side.Bid? then l.cashEscrow else l.assetEscrow, o.user)
  }

  /** Everything in the ledger but that one escrow. */
  ghost predicate OnlyEscrowOf(l: Ledger, l': Ledger, o: Order) {
    && l'.cash == l.cash && l'.asset == l.asset && l'.granted == l.granted
    && (o.side.Bid? ==> l'.assetEscrow == l.assetEscrow)
    && (o.side.Ask? ==> l'.cashEscrow == l.cashEscrow)
    && (forall u :: u != o.user ==>
          Ledgers.Get(l'.cashEscrow, u) == Ledgers.Get(l.cashEscrow, u)
          && Ledgers.Get(l'.assetEscrow, u) == Ledgers.Get(l.assetEscrow, u))
  }

  lemma {:induction false} ReleaseOnLedger(l: Ledger, o: Order)
    ensures EscrowOf(ApplyOp(l, ReleaseOp(o)), o) == EscrowOf(l, o) - Unfilled(o)
    ensures OnlyEscrowOf(l, ApplyOp(l, ReleaseOp(o)), o)
  {
  }

  /** The order whose escrow the cancel of `id` releases: itself, or the parent of a waiting child. */
  function ReleasedOrder(c: Core, id: OrderId): Order { c.Get(CancelReleases(c.Get(id))) }

  lemma {:induction false} ReleasedIsOpen(c: Core, id: OrderId)
    requires Inv(c) && id in c.store
    ensures OrderOk(ReleasedOrder(c, id).id, ReleasedOrder(c, id)) && ReleasedOrder(c, id).Remaining() > 0
    ensures id in c.orders && ReleasedOrder(c, id).user == c.orders[id].user
  {
    assert OrderInv(c, id, {}, {});
    var o := c.orders[id];
    if o.strategy.OtoChild? && !o.active { assert OrderInv(c, o.strategy.parent, {}, {}); }
  }

  /** A Cancel command lowers one escrow by the unfilled part of the released order and moves nothing else. */
  lemma {:induction false} CancelMovesEscrow(e: Engine, id: OrderId)
    requires Inv(e.core) && e.wiring.Live? && id in e.core.store && Handle(e, Cancel(id)).Ok?
    requires e.core.Get(id).user != SYSTEM_USER_ID
    ensures var o := ReleasedOrder(e.core, id);
      var e' := Handle(e, Cancel(id)).value;
      && e'.wiring.Live?
      && EscrowOf(e'.wiring.ledger, o) == EscrowOf(e.wiring.ledger, o) - Unfilled(o)
      && OnlyEscrowOf(e.wiring.ledger, e'.wiring.ledger, o)
  {
    var o := e.core.Get(id);
    var r := ReleasedOrder(e.core, id);
    ReleasedIsOpen(e.core, id);
    CancelProjects(e, id);
    var c := CancelCore(e.core, id).value;
    UnbookAllOrders(e.core, CancelTargets(o));
    assert c.Get(CancelReleases(o)) == r;
    var e1 := Emit(e.(core := c), o.user, Cancellations(CancelTargets(o)));
    assert Handle(e, Cancel(id)) == Ok(Release(e1, r)) && e1.wiring == e.wiring;
    ReleaseOnLedger(e.wiring.ledger, r);
  }

  /** What the released order leaves in escrow. */
  ghost function LeftBehind(o: Order): int {
    if o.executed == 0 then -Unfilled(o) else SavedOf(o) - GivenBack(o)
  }

  /**
   * Against what the order holds: a cancelled order that never traded takes its whole value out of escrow
   * that others put there; a traded one leaves what its fills saved, less what an OCO leg's callback had
   * already released.
   */
  lemma {:induction false} CancelLeavesBehind(e: Engine, id: OrderId)
    requires Inv(e.core) && e.wiring.Live? && id in e.core.store && Handle(e, Cancel(id)).Ok?
    requires e.core.Get(id).user != SYSTEM_USER_ID
    ensures var o := ReleasedOrder(e.core, id);
      && Handle(e, Cancel(id)).value.wiring.Live?
      && EscrowOf(Handle(e, Cancel(id)).value.wiring.ledger, o)
         == EscrowOf(e.wiring.ledger, o) - Held(o) + LeftBehind(o)
  {
    CancelMovesEscrow(e, id);
    ReleasedIsOpen(e.core, id);
    TakenIs(ReleasedOrder(e.core, id));
  }

  /** No fill was worse than the limit. */
  ghost predicate WithinLimit(o: Order) {
    forall i :: 0 <= i < |o.fills| ==> o.fills[i].price <= o.price
  }

  /**
   * A Cancel gives back exactly what the order holds if and only if the order has traded and its fills saved
   * as much as its callback released. For a SINGLE or OTO order that means: its fills saved nothing, or, if
   * none was beyond the limit, each fill of a bid was at the limit. For an OCO leg, whose fills are all at
   * its limit, it never does.
   */
  lemma {:induction false} CancelGivesBackIff(e: Engine, id: OrderId)
    requires Inv(e.core) && e.wiring.Live? && id in e.core.store && Handle(e, Cancel(id)).Ok?
    requires e.core.Get(id).user != SYSTEM_USER_ID
    ensures Handle(e, Cancel(id)).value.wiring.Live?
    ensures var o := ReleasedOrder(e.core, id);
      var exact := EscrowOf(Handle(e, Cancel(id)).value.wiring.ledger, o) == EscrowOf(e.wiring.ledger, o) - Held(o);
      && (exact <==> o.executed > 0 && SavedOf(o) == GivenBack(o))
      && (!o.strategy.OcoLeg? && WithinLimit(o) ==>
            (exact <==> o.executed > 0 && (o.side.Bid? ==> AtLimit(o))))
      && (AtLimit(o) ==> (exact <==> o.executed > 0 && !o.strategy.OcoLeg?))
  {
    var o := ReleasedOrder(e.core, id);
    CancelLeavesBehind(e, id);
    ReleasedIsOpen(e.core, id);
    UnfilledIsPositive(o);
    if WithinLimit(o) { SavesNothingIff(o.fills, o.price); }
    if AtLimit(o) { AtLimitSavesNothing(o.fills, o.price); }
    if o.executed > 0 {
      OpenIsPositive(o.fills, o.quantity);
      Signs(OpenAfterFills(o.fills, o.quantity), Unit(o));
    }
  }

  lemma {:induction false} UnfilledIsPositive(o: Order)
    requires OrderOk(o.id, o) && o.Remaining() > 0
    ensures Unfilled(o) > 0
  {
    if o.side.Bid? { PositiveProduct(o.Remaining(), o.price); }
  }

  lemma {:induction false} PositiveProduct(a: int, b: int)
    requires a > 0 && b > 0
    ensures a * b > 0
  {
  }

  // ---- Rejections ----

  /** A New order that crosses and whose owner cannot pay. */
  ghost predicate Rejected(e: Engine, id: OrderId) {
    var o := e.core.Get(id);
    Crossable(e.core.book, o) && !Answer(e, o, o.quantity, o.price)
  }

  lemma {:induction false} SubmitRejects(e: Engine, id: OrderId, stored: set<OrderId>)
    requires Inv(e.core) && Entering(e.core, id) && e.wiring.Live? && e.core.orders[id].executed == 0
    requires Rejected(e, id) && Submit(e, id, stored).Ok?
    ensures var o := e.core.orders[id];
      var e' := Submit(e, id, stored).value;
      && e'.wiring.Live? && o.user != SYSTEM_USER_ID
      && EscrowOf(e'.wiring.ledger, o) == EscrowOf(e.wiring.ledger, o) - 2 * Unfilled(o)
  {
    var o := e.core.orders[id];
    assert OrderInv(e.core, id, {}, {});
    SubmitCases(e, id, stored);
    var e1 := Checked(e, o, o.quantity, o.price);
    var l := Consult(e.wiring.ledger, o.user, o.side);
    assert e1.wiring == Live(l) && EscrowOf(l, o) == EscrowOf(e.wiring.ledger, o);
    RejectReleasesTwice(e1, id);
  }

  lemma {:induction false} RejectReleasesTwice(e: Engine, id: OrderId)
    requires Entering(e.core, id) && e.wiring.Live? && Reject(e, id).Ok?
    requires e.core.orders[id].id == id && e.core.orders[id].user != SYSTEM_USER_ID
    requires e.core.orders[id].Remaining() > 0
    ensures var o := e.core.orders[id];
      && Reject(e, id).value.wiring.Live?
      && EscrowOf(Reject(e, id).value.wiring.ledger, o) == EscrowOf(e.wiring.ledger, o) - 2 * Unfilled(o)
  {
    var o := e.core.orders[id];
    CancelProjects(e, id);
    var c := CancelCore(e.core, id).value;
    UnbookAllOrders(e.core, CancelTargets(o));
    assert c.Get(CancelReleases(o)) == o;
    var e1 := Emit(e.(core := c), o.user, Cancellations(CancelTargets(o)));
    assert CancelOrder(e, id) == Ok(Release(e1, o)) && e1.wiring == e.wiring;
    var l1 := ApplyOp(e.wiring.ledger, ReleaseOp(o));
    ReleaseOnLedger(e.wiring.ledger, o);
    ReleaseOnLedger(l1, o);
  }

  /**
   * A SINGLE or OTO order rejected for lack of funds, for which nothing was ever put in escrow, moves its
   * owner's escrow by minus twice the value of the order.
   */
  lemma {:induction false} RejectionReleasesTwice(e: Engine, cmd: Command)
    requires Inv(e.core) && CmdOk(e.core, cmd) && e.wiring.Live? && Handle(e, cmd).Ok?
    requires cmd.NewSingle? || cmd.NewOto?
    requires Rejected(e.(core := Intake(e.core, cmd)), if cmd.NewSingle? then cmd.order.id else cmd.parent.id)
    ensures var o := Intake(e.core, cmd).Get(if cmd.NewSingle? then cmd.order.id else cmd.parent.id);
      && Handle(e, cmd).value.wiring.Live?
      && EscrowOf(Handle(e, cmd).value.wiring.ledger, o) == EscrowOf(e.wiring.ledger, o) - 2 * Unfilled(o)
  {
    IntakeKeeps(e.core, cmd);
    var e0 := e.(core := Intake(e.core, cmd));
    match cmd
    case NewSingle(s) => SubmitRejects(e0, s.id, {s.id});
    case NewOto(p, ch) => SubmitRejects(e0, p.id, {p.id, ch.id});
    case _ =>
  }

  // ---- Two runs ----

  const BIG_BID: OrderSpec := OrderSpec(1, 1, Limit, Bid, 100, 200)

  lemma {:induction false} BigBidRests(e: Engine)
    requires e.core == EMPTY_CORE
    ensures CmdOk(e.core, NewSingle(BIG_BID)) && Handle(e, NewSingle(BIG_BID)).Ok?
    ensures var e' := Handle(e, NewSingle(BIG_BID)).value;
      e'.core == Rested(EMPTY_CORE, BIG_BID) && e'.wiring == e.wiring
  {
    assert Best(e.core.book, Ask).None?;
    ComesToRest(e, BIG_BID);
  }

  /** Two admissible commands in a row. */
  lemma {:induction false} TwoCommands(e: Engine, c1: Command, c2: Command, e1: Engine)
    requires CmdOk(e.core, c1) && Handle(e, c1) == Ok(e1) && CmdOk(e1.core, c2)
    ensures Admissible(e, [c1, c2]) && Run(e, [c1, c2]) == Handle(e1, c2)
  {
    var cmds := [c1, c2];
    assert cmds[..1] == [c1] && cmds[..1][..0] == [];
    assert Run(e, []) == Ok(e) && Admissible(e, []);
    assert Run(e, cmds[..1]) == Ok(e1) && Admissible(e, cmds[..1]);
  }

  /** A bid worth 20,000 is placed and cancelled: the owner's cash escrow is now -20,000. */
  lemma {:induction false} CancelUnfilledGoesNegative(e: Engine)
    requires e.core == EMPTY_CORE && e.wiring == Live(NO_BALANCES)
    ensures var cmds := [NewSingle(BIG_BID), Cancel(1)];
      && Admissible(e, cmds) && Run(e, cmds).Ok? && Run(e, cmds).value.wiring.Live?
      && Ledgers.Get(Run(e, cmds).value.wiring.ledger.cashEscrow, 1) == -20_000
  {
    assert Inv(EMPTY_CORE);
    BigBidRests(e);
    HandleKeeps(e, NewSingle(BIG_BID));
    var e1 := Handle(e, NewSingle(BIG_BID)).value;
    assert e1.core.Get(1) == BIG_BID.ToOrder(Single, true) && 1 in e1.core.store;
    assert ReleasedOrder(e1.core, 1) == BIG_BID.ToOrder(Single, true);
    Safety.HandleRaisesIffNoOco(e1, Cancel(1));
    CancelMovesEscrow(e1, 1);
    TwoCommands(e, NewSingle(BIG_BID), Cancel(1), e1);
  }

  const ONE_ASK: OrderSpec := OrderSpec(2, SYSTEM_USER_ID, Limit, Ask, 100, 1)

  lemma {:induction false} OneAskRests(e: Engine)
    requires e.core == EMPTY_CORE
    ensures CmdOk(e.core, NewSingle(ONE_ASK))
    ensures Handle(e, NewSingle(ONE_ASK)) == Ok(e.(core := Rested(EMPTY_CORE, ONE_ASK)))
  {
    assert Best(e.core.book, Bid).None?;
    ComesToRest(e, ONE_ASK);
  }

  /** A bid worth 20,000 of a user with 10,000 is rejected: the user's cash escrow is now -40,000. */
  lemma {:induction false} RejectionGoesNegative(e: Engine)
    requires e.core == EMPTY_CORE && e.wiring == Live(NO_BALANCES)
    ensures var cmds := [NewSingle(ONE_ASK), NewSingle(BIG_BID)];
      && Admissible(e, cmds) && Run(e, cmds).Ok? && Run(e, cmds).value.wiring.Live?
      && Ledgers.Get(Run(e, cmds).value.wiring.ledger.cashEscrow, 1) == -40_000
  {
    assert Inv(EMPTY_CORE);
    OneAskRests(e);
    HandleKeeps(e, NewSingle(ONE_ASK));
    var e1 := e.(core := Rested(EMPTY_CORE, ONE_ASK));
    BigBidIsRejected(e1);
    RejectionReleasesTwice(e1, NewSingle(BIG_BID));
    TwoCommands(e, NewSingle(ONE_ASK), NewSingle(BIG_BID), e1);
  }

  lemma {:induction false} BigBidIsRejected(e: Engine)
    requires e.core == Rested(EMPTY_CORE, ONE_ASK) && Inv(e.core) && e.wiring == Live(NO_BALANCES)
    ensures CmdOk(e.core, NewSingle(BIG_BID)) && Handle(e, NewSingle(BIG_BID)).Ok?
    ensures Rejected(e.(core := Intake(e.core, NewSingle(BIG_BID))), 1)
    ensures Intake(e.core, NewSingle(BIG_BID)).Get(1) == BIG_BID.ToOrder(Single, true)
  {
    var o := BIG_BID.ToOrder(Single, true);
    var e0 := e.(core := e.core.Put(o));
    assert IsBest(e.core.book, Ask, 100);
    BestIs(e.core.book, Ask, 100);
    assert e0.core.Get(1) == o && Crossable(e0.core.book, o) && !Affords(NO_BALANCES, o, 200, 100);
    Safety.HandleRaisesIffNoOco(e, NewSingle(BIG_BID));
  }
}
