/** The first maker that a new order meets: what it is asked, and what it gives. */
module Encounters {
  import opened Types
  import opened Collections
  import opened BookModel
  import opened Ledgers
  import opened EngineSpec
  import opened Admission
  import opened Invariants
  import opened Matching
  import opened Runs
  import opened Accounting
  import opened Conservation
  import opened Determinism
  import opened Replay
  import opened Priority
  import opened Raising
  import opened Departed
  import opened Following
  import opened Outcomes

  /** The oldest order of the level that no level of its side is ahead of. */
  ghost predicate FirstInLine(b: Book, side: Side, m: OrderId, p: Price) {
    && var k := LevelKey(side, p);
    && k in b && b[k] != [] && b[k][0] == m
    && forall q :: LevelKey(side, q) in b ==> if side.Bid? then q <= p else p <= q
  }

  lemma {:induction false} FirstIsFront(b: Book, side: Side, m: OrderId, p: Price)
    requires FirstInLine(b, side, m, p)
    ensures Best(b, side) == Some(p) && Front(b, side) == Some(m)
  {
    BestIs(b, side, p);
  }

  // ---- Fills only grow ----

  ghost predicate FillsExtend(c: Core, c': Core) {
    forall x :: x in c.orders ==> x in c'.orders && c.orders[x].fills <= c'.orders[x].fills
  }

  lemma {:induction false} TradeFillsExtend(c: Core, t: OrderId, m: OrderId, p: Price)
    requires Meets(c, t, m) && TradeCore(c, t, m, TradeQuantity(c, t, m), p).Ok?
    ensures FillsExtend(c, TradeCore(c, t, m, TradeQuantity(c, t, m), p).value)
  {
    TradeKeeps(c, t, m, TradeQuantity(c, t, m), p);
  }

  lemma {:induction false} FrontFillsExtend(e: Engine, t: OrderId)
    requires Inv(e.core) && Entering(e.core, t) && !Stops(e.core, t) && MeetFront(e, t).Ok?
    ensures FillsExtend(e.core, MeetFront(e, t).value.core)
  {
    var side := e.core.Get(t).side.Opposite();
    var m, p := Front(e.core.book, side).value, Best(e.core.book, side).value;
    FrontMeets(e.core, t);
    EncounterProjects(e, t, m, p);
    if FrontPasses(e, t) {
      TradeFillsExtend(e.core, t, m, p);
    } else {
      UnbookAllOrders(e.core, CancelTargets(e.core.Get(m)));
    }
  }

  lemma {:induction false} SweepFillsExtend(e: Engine, t: OrderId)
    requires Inv(e.core) && Entering(e.core, t) && Sweep(e, t).Ok?
    ensures FillsExtend(e.core, Sweep(e, t).value.core)
    decreases RestingOn(e.core.book, e.core.Get(t).side.Opposite())
  {
    if Stops(e.core, t) {
      SweepEnds(e, t);
    } else {
      FirstMeetingIsOk(e, t);
      FrontKeeps(e, t);
      FrontFillsExtend(e, t);
      var e1 := MeetFront(e, t).value;
      if Stops(e1.core, t) { SweepEnds(e1, t); } else { SweepFillsExtend(e1, t); }
      ExtendThen(e.core, e1.core, Sweep(e1, t).value.core);
    }
  }

  lemma {:induction false} ExtendThen(c: Core, c1: Core, c': Core)
    requires FillsExtend(c, c1) && FillsExtend(c1, c')
    ensures FillsExtend(c, c')
  {
    forall x | x in c.orders
      ensures x in c'.orders && c.orders[x].fills <= c'.orders[x].fills
    {
      PrefixThen(c.orders[x].fills, c1.orders[x].fills, c'.orders[x].fills);
    }
  }

  // ---- The first step of a sweep ----

  /** What the first maker gives to an order without fills. */
  ghost predicate FirstStep(e: Engine, e1: Engine, t: OrderId, m: OrderId, q: int, p: Price, pass: bool) {
    && t in e.core.orders && m in e.core.orders && e1.answers == e.answers + [pass]
    && e1.core.Get(m).executed == e.core.Get(m).executed + (if pass then q else 0)
    && (pass ==> e1.core.Get(t).fills == e.core.Get(t).fills + [Fill(q, p)])
    && (Gone(e1.core, m) || Stops(e1.core, t))
  }

  lemma {:induction false} FrontIsStep(e: Engine, t: OrderId, m: OrderId, p: Price)
    requires Inv(e.core) && Entering(e.core, t) && !Stops(e.core, t) && MeetFront(e, t).Ok?
    requires FirstInLine(e.core.book, e.core.Get(t).side.Opposite(), m, p)
    ensures var q := TradeQuantity(e.core, t, m);
      FirstStep(e, MeetFront(e, t).value, t, m, q, p, Answer(e, e.core.Get(m), q, p))
  {
    var q, e1 := TradeQuantity(e.core, t, m), MeetFront(e, t).value;
    FirstIsFront(e.core.book, e.core.Get(t).side.Opposite(), m, p);
    FrontMeets(e.core, t);
    FrontAnswered(e, e1, t);
    EncounterProjects(e, t, m, p);
    assert OrderInv(e.core, m, {}, {}) && OrderInv(e.core, t, {}, {});
    if Answer(e, e.core.Get(m), q, p) {
      TradeKeeps(e.core, t, m, q, p);
      MakerAfterTrade(e.core, t, m, q, p);
    } else {
      CancelKeeps(e.core, m);
      CancelledIsGone(e.core, m);
    }
  }

  /** After a trade the maker is complete and gone, or else the taker is complete. */
  lemma {:induction false} MakerAfterTrade(c: Core, t: OrderId, m: OrderId, q: int, p: Price)
    requires Meets(c, t, m) && q == TradeQuantity(c, t, m) && TradeCore(c, t, m, q, p).Ok?
    ensures Gone(TradeCore(c, t, m, q, p).value, m) || Stops(TradeCore(c, t, m, q, p).value, t)
  {
    assert OrderInv(c, m, {}, {}) && OrderInv(c, t, {}, {});
    TradeKeeps(c, t, m, q, p);
    var c' := TradeCore(c, t, m, q, p).value;
    assert OrderInv(c', m, {}, {});
    assert c'.orders[m] == c.orders[m].AddFill(q, p);
  }

  lemma {:induction false} CancelledIsGone(c: Core, m: OrderId)
    requires Inv(c) && c.Resting(m) && CancelCore(c, m).Ok?
    ensures Gone(CancelCore(c, m).value, m)
  {
    assert OrderInv(c, m, {}, {});
    CancelKeeps(c, m);
  }

  /** The rest of the sweep adds nothing to what the first maker gave. */
  lemma {:induction false} FirstStepLasts(e: Engine, t: OrderId, m: OrderId, q: int, p: Price, pass: bool)
    requires Inv(e.core) && Entering(e.core, t) && !Stops(e.core, t) && Sweep(e, t).Ok? && MeetFront(e, t).Ok?
    requires FirstStep(e, MeetFront(e, t).value, t, m, q, p, pass) && e.core.Get(t).fills == [] && t != m
    ensures var e' := Sweep(e, t).value;
      && e.answers + [pass] <= e'.answers
      && e'.core.Get(m).executed == e.core.Get(m).executed + (if pass then q else 0)
      && (pass ==> [Fill(q, p)] <= e'.core.Get(t).fills)
  {
    FrontKeeps(e, t);
    var e1 := MeetFront(e, t).value;
    if Stops(e1.core, t) {
      SweepEnds(e1, t);
    } else {
      SweepKeepsGone(e1, t, m);
      SweepFillsExtend(e1, t);
      SweepAnswers(e1, t);
    }
  }

  // ---- Commands ----

  /** The newcomer `t` has met `m`, the second to be asked, who answered `pass`. */
  ghost predicate MetFirst(e: Engine, e': Engine, t: OrderId, m: OrderId, q: int, p: Price, pass: bool) {
    && |e'.answers| > |e.answers| + 1 && e'.answers[|e.answers| + 1] == pass
    && m in e.core.orders
    && e'.core.Get(m).executed == e.core.orders[m].executed + (if pass then q else 0)
    && (pass ==> [Fill(q, p)] <= e'.core.Get(t).fills)
  }

  lemma {:induction false} SecondAnswer(x: seq<bool>, y: seq<bool>, z: seq<bool>, first: bool, second: bool)
    requires y == x + [first] && y + [second] <= z
    ensures |z| > |x| + 1 && z[|x| + 1] == second
  {
    assert (y + [second])[|x| + 1] == second;
  }

  /** A command that lets its order in and meets `m` first. */
  ghost predicate LetIn(e: Engine, cmd: Command, e': Engine, m: OrderId, p: Price) {
    && Inv(e.core) && CmdOk(e.core, cmd) && Submits(cmd) && Handle(e, cmd) == Ok(e')
    && Reaches(e.core.book, Newcomer(cmd)) && !TurnedAway(e, cmd, e')
    && FirstInLine(e.core.book, Newcomer(cmd).side.Opposite(), m, p)
  }

  lemma {:induction false} LetInMeets(e: Engine, cmd: Command, e': Engine, m: OrderId, p: Price) returns (pass: bool)
    requires LetIn(e, cmd, e', m, p)
    ensures var e0 := e.(core := Intake(e.core, cmd));
      var q := TradeQuantity(e0.core, NewId(cmd), m);
      && pass == Answer(Entered(e0, NewId(cmd)), e0.core.Get(m), q, p)
      && MetFirst(e0, e', NewId(cmd), m, q, p, pass)
  {
    var id, stored := NewId(cmd), StoredBy(cmd);
    var e0 := e.(core := Intake(e.core, cmd));
    HandleSubmits(e, cmd);
    TurnedAwayIs(e, cmd);
    CrossingAnswers(e0, id, stored);
    pass := EntersAndMeets(e0, id, stored, e', m, p);
  }

  lemma {:induction false} EntersAndMeets(e: Engine, id: OrderId, stored: set<OrderId>, e': Engine, m: OrderId,
                                          p: Price)
    returns (pass: bool)
    requires Inv(e.core) && Entering(e.core, id) && e.core.orders[id].executed == 0 < e.core.orders[id].quantity
    requires Crossable(e.core.book, e.core.Get(id)) && MatchOrRest(Entered(e, id), id, stored) == Ok(e')
    requires FirstInLine(e.core.book, e.core.Get(id).side.Opposite(), m, p)
    ensures var q := TradeQuantity(e.core, id, m);
      && pass == Answer(Entered(e, id), e.core.Get(m), q, p)
      && MetFirst(e, e', id, m, q, p, pass)
  {
    var e1 := Entered(e, id);
    CrossingMeets(e.core, id);
    assert OrderInv(e.core, id, {}, {});
    FirstInSweep(e1, id, stored, m, p);
    pass := Answer(e1, e.core.Get(m), TradeQuantity(e.core, id, m), p);
    SecondAnswer(e.answers, e1.answers, e'.answers, EntryAnswer(e, id), pass);
  }

  lemma {:induction false} FirstIsKnown(c: Core, side: Side, m: OrderId, p: Price)
    requires Inv(c) && FirstInLine(c.book, side, m, p)
    ensures m in c.orders && c.orders[m].side == side && c.orders[m].price == p
  {
    assert InLevel(c.book, LevelKey(side, p), m);
  }

  /**
   * An order that is let in meets the first in line of the other side. That maker is asked for what both can
   * still trade, at its own price, whatever the newcomer was asked before; if it can pay, both are filled with
   * exactly that, and the maker with nothing more; if not, it is not filled.
   */
  lemma {:induction false} FirstMakerMet(e: Engine, cmd: Command, e': Engine, m: OrderId, p: Price)
    requires LetIn(e, cmd, e', m, p) && e.wiring.Live?
    ensures m in e.core.orders && |e'.answers| > |e.answers| + 1
    ensures var o, maker := Newcomer(cmd), e.core.orders[m];
      var q := Min(maker.quantity - maker.executed, o.quantity);
      var pass := e'.answers[|e.answers| + 1];
      && maker.side != o.side && maker.price == p
      && (pass <==> maker.user == SYSTEM_USER_ID || CanPay(e.wiring.ledger, maker.user, maker.side, q, p))
      && e'.core.Get(m).executed == maker.executed + (if pass then q else 0)
      && (pass ==> [Fill(q, p)] <= e'.core.Get(o.id).fills)
  {
    var pass := LetInMeets(e, cmd, e', m, p);
    FirstIsAsked(e, cmd, m, p);
  }

  lemma {:induction false} KnownAtIntake(c: Core, cmd: Command, m: OrderId)
    requires CmdOk(c, cmd) && Submits(cmd) && m in c.orders
    ensures var c0 := Intake(c, cmd);
      && m in c0.orders && c0.orders[m] == c.orders[m] && NewId(cmd) == Newcomer(cmd).id
      && TradeQuantity(c0, NewId(cmd), m)
         == Min(c.orders[m].quantity - c.orders[m].executed, Newcomer(cmd).quantity)
  {
    IntakeIs(c, cmd);
  }

  /** What the first in line is asked, and what the answer depends on. */
  lemma {:induction false} FirstIsAsked(e: Engine, cmd: Command, m: OrderId, p: Price)
    requires Inv(e.core) && CmdOk(e.core, cmd) && Submits(cmd) && e.wiring.Live?
    requires FirstInLine(e.core.book, Newcomer(cmd).side.Opposite(), m, p)
    ensures m in e.core.orders && NewId(cmd) == Newcomer(cmd).id
    ensures var e0 := e.(core := Intake(e.core, cmd));
      var o, maker, q := Newcomer(cmd), e.core.orders[m], TradeQuantity(e0.core, NewId(cmd), m);
      && maker.side != o.side && maker.price == p && e0.core.Get(m) == maker
      && q == Min(maker.quantity - maker.executed, o.quantity)
      && (Answer(Entered(e0, NewId(cmd)), maker, q, p)
          <==> maker.user == SYSTEM_USER_ID || CanPay(e.wiring.ledger, maker.user, maker.side, q, p))
  {
    FirstIsKnown(e.core, Newcomer(cmd).side.Opposite(), m, p);
    KnownAtIntake(e.core, cmd, m);
    MakerIsAsked(e, e.(core := Intake(e.core, cmd)), NewId(cmd), m, p);
  }

  lemma {:induction false} FirstInSweep(e: Engine, t: OrderId, stored: set<OrderId>, m: OrderId, p: Price)
    requires Inv(e.core) && Entering(e.core, t) && !Stops(e.core, t) && MatchOrRest(e, t, stored).Ok?
    requires FirstInLine(e.core.book, e.core.Get(t).side.Opposite(), m, p) && e.core.Get(t).fills == []
    ensures var e' := MatchOrRest(e, t, stored).value;
      var q := TradeQuantity(e.core, t, m);
      var pass := Answer(e, e.core.Get(m), q, p);
      && m in e.core.orders && e.answers + [pass] <= e'.answers
      && e'.core.Get(m).executed == e.core.Get(m).executed + (if pass then q else 0)
      && (pass ==> [Fill(q, p)] <= e'.core.Get(t).fills)
  {
    var q := TradeQuantity(e.core, t, m);
    FirstIsFront(e.core.book, e.core.Get(t).side.Opposite(), m, p);
    FrontMeets(e.core, t);
    FirstMeetingIsOk(e, t);
    FrontIsStep(e, t, m, p);
    FirstStepLasts(e, t, m, q, p, Answer(e, e.core.Get(m), q, p));
    MatchOrRestOrders(e, t, stored);
    RestAnswers(e, t, stored);
  }

  /** The newcomer's own check may have stored missing balances; that makes no difference to the maker's. */
  lemma {:induction false} MakerIsAsked(e: Engine, e0: Engine, id: OrderId, m: OrderId, p: Price)
    requires e.wiring.Live? && e0.wiring == e.wiring && m in e0.core.orders
    ensures var e1 := Entered(e0, id);
      var maker, q := e0.core.orders[m], TradeQuantity(e0.core, id, m);
      && e1.core == e0.core
      && (Answer(e1, maker, q, p)
          <==> maker.user == SYSTEM_USER_ID || CanPay(e.wiring.ledger, maker.user, maker.side, q, p))
  {
    var o, maker, q := e0.core.Get(id), e0.core.orders[m], TradeQuantity(e0.core, id, m);
    AnswerIffCanPay(Entered(e0, id), maker, q, p);
    AskingChangesNothing(e.wiring.ledger, o.user, o.side, maker.user, maker.side, q, p);
  }
}
