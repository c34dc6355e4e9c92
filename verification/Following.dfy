/**
 * When the shadow follows, in terms of the main engine alone: for orders of ordinary users exactly as long as
 * every balance check passes. After the first failure the two cores part for good.
 */
module Following {
  import opened Types
  import opened Collections
  import opened BookModel
  import opened EngineSpec
  import opened Invariants
  import opened Matching
  import opened Runs
  import opened Safety
  import opened PlainRuns
  import opened Conservation
  import opened Escrow
  import opened Priority
  import opened Raising
  import opened Replay
  import opened Determinism
  import opened Shadow
  import opened Departed
  import opened Divergence
  import opened Releases

  // ---- Cores that have parted ----

  /** `x` has traded less in `c` than in `d`, and in `c` it is gone. */
  ghost predicate Behind(c: Core, d: Core, x: OrderId) {
    Gone(c, x) && x in d.orders && c.orders[x].executed < d.orders[x].executed
  }

  /** One of the cores can no longer catch up with the other. */
  ghost predicate Parted(c: Core, d: Core) { exists x :: Behind(c, d, x) || Behind(d, c, x) }

  lemma {:induction false} PartedDiffer(c: Core, d: Core)
    requires Parted(c, d)
    ensures c != d
  {
  }

  /** A core that moves on without forgetting: what is gone stays gone, nobody loses fills. */
  ghost predicate MovesOn(c: Core, c': Core, except: set<OrderId>) {
    Evolves(c, c') && forall x :: Gone(c, x) && x !in except ==> StaysGone(c, c', x)
  }

  lemma {:induction false} BehindStays(c: Core, c': Core, d: Core, d': Core, x: OrderId, except: set<OrderId>)
    requires Behind(c, d, x) && x !in except && MovesOn(c, c', except) && MovesOn(d, d', except)
    ensures Behind(c', d', x)
  {
    assert StaysGone(c, c', x);
    assert d.orders[x].executed <= d'.orders[x].executed;
  }

  lemma {:induction false} PartedStays(c: Core, c': Core, d: Core, d': Core)
    requires Parted(c, d) && MovesOn(c, c', {}) && MovesOn(d, d', {})
    ensures Parted(c', d')
  {
    var x :| Behind(c, d, x) || Behind(d, c, x);
    if Behind(c, d, x) { BehindStays(c, c', d, d', x, {}); } else { BehindStays(d, d', c, c', x, {}); }
  }

  lemma {:induction false} HandleMovesOn(e: Engine, cmd: Command)
    requires Inv(e.core) && CmdOk(e.core, cmd) && Handle(e, cmd).Ok?
    ensures MovesOn(e.core, Handle(e, cmd).value.core, {})
  {
    HandleKeeps(e, cmd);
    forall x | Gone(e.core, x)
      ensures StaysGone(e.core, Handle(e, cmd).value.core, x)
    {
      HandleKeepsGone(e, cmd, x);
    }
  }

  lemma {:induction false} SweepMovesOn(e: Engine, t: OrderId)
    requires Inv(e.core) && Entering(e.core, t) && Sweep(e, t).Ok?
    ensures MovesOn(e.core, Sweep(e, t).value.core, {t})
  {
    SweepKeeps(e, t);
    forall x | Gone(e.core, x) && x != t
      ensures StaysGone(e.core, Sweep(e, t).value.core, x)
    {
      SweepKeepsGone(e, t, x);
    }
  }

  // ---- Balance events of a command ----

  lemma {:induction false} MovesThen(x: seq<Event>, y: seq<Event>, z: seq<Event>)
    requires x <= y <= z
    ensures x <= z && Moves(z[|x|..]) == Moves(y[|x|..]) + Moves(z[|y|..])
    ensures Moves(y[|x|..]) >= 0 && Moves(z[|y|..]) >= 0
  {
    StripThen(x, y, z);
    LogParts(x, y, z);
    StripShortens(y[|x|..]);
    StripShortens(z[|y|..]);
  }

  lemma {:induction false} DoMoves(e: Engine, op: BalanceOp)
    requires e.wiring.Live?
    ensures e.log <= Do(e, op).log && Do(e, op).wiring.Live?
    ensures Moves(Do(e, op).log[|e.log|..]) == if op.user != SYSTEM_USER_ID then 1 else 0
  {
    if op.user != SYSTEM_USER_ID {
      var x := [BalanceChanged(op)];
      assert Do(e, op).log[|e.log|..] == x && x[..|x| - 1] == [];
      assert Strip(x) == Strip([]) == [];
    } else {
      assert Do(e, op).log[|e.log|..] == [];
    }
  }

  /** Between the logs of two states there are at least `k` balance events. */
  ghost predicate MovesBy(e: Engine, e': Engine, k: int) {
    e.log <= e'.log && e'.wiring.Live? && Moves(e'.log[|e.log|..]) >= k
  }

  lemma {:induction false} MovesByThen(e: Engine, e1: Engine, e': Engine, j: int, k: int)
    requires MovesBy(e, e1, j) && MovesBy(e1, e', k)
    ensures MovesBy(e, e', j + k)
  {
    MovesThen(e.log, e1.log, e'.log);
  }

  lemma {:induction false} DoMovesBy(e: Engine, op: BalanceOp)
    requires e.wiring.Live?
    ensures MovesBy(e, Do(e, op), if op.user != SYSTEM_USER_ID then 1 else 0) && MovesBy(e, Do(e, op), 0)
    ensures MovesBy(e, e, 0)
  {
    DoMoves(e, op);
    assert e.log[|e.log|..] == [];
  }

  /** The first fill of an ordinary taker logs its hold and its settlement. */
  lemma {:induction false} SettleMovesTwice(e: Engine, t: Order, m: Order, q: int, p: Price)
    requires e.wiring.Live? && t.user != SYSTEM_USER_ID && t.executed == 0
    ensures MovesBy(e, Settle(e, t, m, q, p), 2)
  {
    var e1 := HoldOnFirstFill(e, m);
    DoMovesBy(e, HoldOp(m));
    var e2 := HoldOnFirstFill(e1, t);
    DoMovesBy(e1, HoldOp(t));
    MovesByThen(e, e1, e2, 0, 1);
    var e3 := Do(e2, SettleOp(t, q, p));
    DoMovesBy(e2, SettleOp(t, q, p));
    MovesByThen(e, e2, e3, 1, 1);
    DoMovesBy(e3, SettleOp(m, q, p));
    MovesByThen(e, e3, Do(e3, SettleOp(m, q, p)), 2, 0);
  }

  lemma {:induction false} GrowthMoves(e: Engine, e': Engine)
    requires e.log <= e'.log && e'.wiring.Live?
    ensures MovesBy(e, e', 0)
  {
    StripShortens(e'.log[|e.log|..]);
  }

  lemma {:induction false} TradeMovesTwice(e: Engine, t: OrderId, m: OrderId, q: int, p: Price)
    requires e.wiring.Live? && Trade(e, t, m, q, p).Ok?
    requires e.core.Get(t).user != SYSTEM_USER_ID && e.core.Get(t).executed == 0
    ensures MovesBy(e, Trade(e, t, m, q, p).value, 2)
  {
    var taker, maker := e.core.Get(t), e.core.Get(m);
    var e0 := TradeEvents(e, taker, maker, q, p);
    var e1 := FillBoth(e0, t, m, q, p);
    FillBothGrows(e0, t, m, q, p);
    HookGrows(e1, t);
    HookAnswers(e1, t);
    var e2 := Hook(e1, t).value;
    HookGrows(e2, m);
    HookAnswers(e2, m);
    var e3 := Hook(e2, m).value;
    var e4 := e3.(core := RetireCore(e3.core, m).value);
    PrefixThen(e.log, e0.log, e1.log);
    PrefixThen(e.log, e1.log, e2.log);
    PrefixThen(e.log, e2.log, e3.log);
    GrowthMoves(e, e4);
    SettleMovesTwice(e4, taker, maker, q, p);
    MovesByThen(e, e4, Settle(e4, taker, maker, q, p), 0, 2);
  }

  /** Nothing traded and nothing booked yet, or at least two balance events: never exactly one. */
  ghost predicate NeverOne(a0: Engine, a: Engine, t: OrderId) {
    a0.log <= a.log && a.wiring.Live?
    && ((a.core.Get(t).executed == 0 && Moves(NewEvents(a0, a)) == 0) || Moves(NewEvents(a0, a)) >= 2)
  }

  lemma {:induction false} NeverOneOn(a0: Engine, a: Engine, t: OrderId)
    requires NeverOne(a0, a, t) && !Stops(a.core, t) && FrontPasses(a, t) && MeetFront(a, t).Ok?
    requires a.core.Get(t).user != SYSTEM_USER_ID
    ensures NeverOne(a0, MeetFront(a, t).value, t)
  {
    var side := a.core.Get(t).side.Opposite();
    var m, p := Front(a.core.book, side).value, Best(a.core.book, side).value;
    var q := TradeQuantity(a.core, t, m);
    var a1 := Checked(a, a.core.Get(m), q, p);
    var a' := MeetFront(a, t).value;
    FrontGrows(a, t);
    EncounterAnswers(a, t, m, p);
    if a.core.Get(t).executed == 0 { TradeMovesTwice(a1, t, m, q, p); }
    MovesThen(a0.log, a.log, a'.log);
  }

  // ---- One sweep ----

  /** The front maker is traded with by one and cancelled by the other. */
  lemma {:induction false} FrontParts(a: Engine, b: Engine, t: OrderId)
    requires a.core == b.core && Inv(a.core) && Entering(a.core, t) && NoOco(a.core) && !Stops(a.core, t)
    requires MeetFront(a, t).Ok? && MeetFront(b, t).Ok? && FrontPasses(a, t) && !FrontPasses(b, t)
    ensures var m := Front(a.core.book, a.core.Get(t).side.Opposite()).value;
      m != t && Behind(MeetFront(b, t).value.core, MeetFront(a, t).value.core, m)
  {
    var side := a.core.Get(t).side.Opposite();
    var m, p := Front(a.core.book, side).value, Best(a.core.book, side).value;
    FrontMeets(a.core, t);
    EncounterProjects(a, t, m, p);
    EncounterProjects(b, t, m, p);
    TradedMore(a.core, t, m, p);
    CancelledIsGone(a.core, t, m, p);
  }

  lemma {:induction false} TradedMore(c: Core, t: OrderId, m: OrderId, p: Price)
    requires Meets(c, t, m) && TradeCore(c, t, m, TradeQuantity(c, t, m), p).Ok?
    ensures var c' := TradeCore(c, t, m, TradeQuantity(c, t, m), p).value;
      m in c'.orders && c'.orders[m].executed > c.orders[m].executed
  {
    FillsKeep(c, t, m, TradeQuantity(c, t, m), p);
    TradeKeeps(c, t, m, TradeQuantity(c, t, m), p);
  }

  /** What one of two sweeps that have parted does next does not matter. */
  lemma {:induction false} PartedSweeps(a: Engine, b: Engine, t: OrderId, x: OrderId)
    requires Inv(a.core) && Entering(a.core, t) && Sweep(a, t).Ok?
    requires Inv(b.core) && Entering(b.core, t) && Sweep(b, t).Ok?
    requires x != t && Behind(a.core, b.core, x)
    ensures Behind(Sweep(a, t).value.core, Sweep(b, t).value.core, x)
  {
    SweepMovesOn(a, t);
    SweepMovesOn(b, t);
    BehindStays(a.core, Sweep(a, t).value.core, b.core, Sweep(b, t).value.core, x, {t});
  }

  ghost predicate PartedBut(c: Core, d: Core, t: OrderId) {
    exists x :: x != t && (Behind(c, d, x) || Behind(d, c, x))
  }

  /** From a state where main engine and replica are together, a failure parts them. */
  lemma {:induction false} SweepParts(a0: Engine, a: Engine, b: Engine, last: Engine, t: OrderId)
    requires Together(a0, a, b, last, t) && NeverOne(a0, a, t) && a.core.Get(t).user != SYSTEM_USER_ID
    requires Sweep(a, t).Ok? && Sweep(b, t).Ok? && Sweep(a, t).value.log <= last.log
    requires !AllPass(a, Sweep(a, t).value)
    ensures PartedBut(Sweep(a, t).value.core, Sweep(b, t).value.core, t)
    decreases RestingOn(a.core.book, a.core.Get(t).side.Opposite())
  {
    if Stops(a.core, t) {
      SweepEnds(a, t);
    } else {
      FirstMeetingIsOk(a, t);
      FirstMeetingIsOk(b, t);
      FrontKeeps(a, t);
      FrontKeeps(b, t);
      if FrontPasses(a, t) && FrontPasses(b, t) {
        PartsLater(a0, a, b, last, t);
      } else {
        PartsNow(a0, a, b, last, t);
      }
    }
  }

  lemma {:induction false} PartsLater(a0: Engine, a: Engine, b: Engine, last: Engine, t: OrderId)
    requires Together(a0, a, b, last, t) && NeverOne(a0, a, t) && a.core.Get(t).user != SYSTEM_USER_ID
    requires Sweep(a, t).Ok? && Sweep(b, t).Ok? && Sweep(a, t).value.log <= last.log
    requires !AllPass(a, Sweep(a, t).value) && !Stops(a.core, t) && FrontPasses(a, t) && FrontPasses(b, t)
    ensures PartedBut(Sweep(a, t).value.core, Sweep(b, t).value.core, t)
    decreases RestingOn(a.core.book, a.core.Get(t).side.Opposite()), 0
  {
    var a1, b1 := NextTogether(a0, a, b, last, t);
    if Stops(a1.core, t) {
      SweepEnds(a1, t);
      PassesJoin(a, a1, t);
    } else {
      PassesJoin(a, a1, t);
      SweepParts(a0, a1, b1, last, t);
    }
  }

  /** Both trade and go on together. */
  lemma {:induction false} NextTogether(a0: Engine, a: Engine, b: Engine, last: Engine, t: OrderId)
    returns (a1: Engine, b1: Engine)
    requires Together(a0, a, b, last, t) && NeverOne(a0, a, t) && a.core.Get(t).user != SYSTEM_USER_ID
    requires Sweep(a, t).Ok? && Sweep(b, t).Ok? && !Stops(a.core, t) && FrontPasses(a, t) && FrontPasses(b, t)
    ensures MeetFront(a, t) == Ok(a1) && Together(a0, a1, b1, last, t) && NeverOne(a0, a1, t)
    ensures Sweep(a, t) == Sweep(a1, t) && Sweep(b, t) == Sweep(b1, t)
    ensures a1.core.Get(t).user == a.core.Get(t).user && a1.core.Get(t).side == a.core.Get(t).side
    ensures var side := a.core.Get(t).side.Opposite();
      !Stops(a1.core, t) ==> RestingOn(a1.core.book, side) < RestingOn(a.core.book, side)
  {
    FirstMeetingIsOk(a, t);
    FirstMeetingIsOk(b, t);
    FrontKeeps(a, t);
    FrontKeeps(b, t);
    a1, b1 := MeetFront(a, t).value, MeetFront(b, t).value;
    TogetherOn(a0, a, a1, b, b1, last, t);
    NeverOneOn(a0, a, t);
    FrontUser(a, t);
  }

  lemma {:induction false} FrontUser(e: Engine, t: OrderId)
    requires Inv(e.core) && Entering(e.core, t) && !Stops(e.core, t) && MeetFront(e, t).Ok?
    ensures MeetFront(e, t).value.core.Get(t).user == e.core.Get(t).user
  {
    var side := e.core.Get(t).side.Opposite();
    var m, p := Front(e.core.book, side).value, Best(e.core.book, side).value;
    FrontMeets(e.core, t);
    EncounterProjects(e, t, m, p);
    EncounterCoreKeeps(e.core, t, m, p, FrontPasses(e, t));
    var o, o' := e.core.orders[t], MeetFront(e, t).value.core.orders[t];
    assert Terms(o') == Terms(o) && Terms(o').user == o'.user && Terms(o).user == o.user;
  }

  lemma {:induction false} PassesJoin(a: Engine, a1: Engine, t: OrderId)
    requires !Stops(a.core, t) && MeetFront(a, t) == Ok(a1) && Sweep(a, t) == Sweep(a1, t) && Sweep(a1, t).Ok?
    requires FrontPasses(a, t)
    ensures AllPass(a, Sweep(a, t).value) <==> AllPass(a1, Sweep(a1, t).value)
  {
    FrontAnswered(a, a1, t);
    SweepAnswers(a1, t);
    OneMoreYes(a.answers, a1.answers, Sweep(a1, t).value.answers);
  }

  lemma {:induction false} FrontAnswered(a: Engine, a1: Engine, t: OrderId)
    requires !Stops(a.core, t) && MeetFront(a, t) == Ok(a1)
    ensures a1.answers == a.answers + [FrontPasses(a, t)]
  {
    var side := a.core.Get(t).side.Opposite();
    EncounterAnswers(a, t, Front(a.core.book, side).value, Best(a.core.book, side).value);
  }

  lemma {:induction false} OneMoreYes(x: seq<bool>, y: seq<bool>, z: seq<bool>)
    requires y == x + [true] && y <= z
    ensures x <= z
    ensures (forall i :: |x| <= i < |z| ==> z[i]) <==> (forall i :: |y| <= i < |z| ==> z[i])
  {
    assert z[|x|] == y[|x|];
  }

  lemma {:induction false} PartsNow(a0: Engine, a: Engine, b: Engine, last: Engine, t: OrderId)
    requires Together(a0, a, b, last, t) && NeverOne(a0, a, t)
    requires Sweep(a, t).Ok? && Sweep(b, t).Ok? && Sweep(a, t).value.log <= last.log
    requires !Stops(a.core, t) && !(FrontPasses(a, t) && FrontPasses(b, t))
    ensures PartedBut(Sweep(a, t).value.core, Sweep(b, t).value.core, t)
  {
    FirstMeetingIsOk(a, t);
    FirstMeetingIsOk(b, t);
    FrontKeeps(a, t);
    FrontKeeps(b, t);
    var a1, b1 := MeetFront(a, t).value, MeetFront(b, t).value;
    var m := Front(a.core.book, a.core.Get(t).side.Opposite()).value;
    if FrontPasses(a, t) {
      FrontParts(a, b, t);
      PartedSweeps(b1, a1, t, m);
    } else {
      FailureNotSeen(a0, a, b, last, t);
      FrontParts(b, a, t);
      PartedSweeps(a1, b1, t, m);
    }
  }

  /** A failure of the main engine is not noticed. */
  lemma {:induction false} FailureNotSeen(a0: Engine, a: Engine, b: Engine, last: Engine, t: OrderId)
    requires Together(a0, a, b, last, t) && NeverOne(a0, a, t) && Sweep(a, t).Ok? && Sweep(a, t).value.log <= last.log
    requires !Stops(a.core, t) && !FrontPasses(a, t)
    ensures FrontPasses(b, t)
  {
    FirstMeetingIsOk(a, t);
    FrontKeeps(a, t);
    var a1 := MeetFront(a, t).value;
    if Stops(a1.core, t) { SweepEnds(a1, t); } else { SweepGrows(a1, t); }
    PrefixThen(a1.log, Sweep(a1, t).value.log, last.log);
    var side := a.core.Get(t).side.Opposite();
    FrontMeets(a.core, t);
    FirstFailureSeenIff(a0, a, b, last, t, Front(a.core.book, side).value, Best(a.core.book, side).value);
  }

  // ---- One command ----

  /** The first two events of a command that was let in hold no cancellation in second place. */
  lemma {:induction false} SecondEvent(e: Engine, id: OrderId, last: Engine)
    requires Inv(e.core) && Entering(e.core, id) && NoOco(e.core) && e.wiring.Live? && !Stops(e.core, id)
    requires e.core.orders[id].user != SYSTEM_USER_ID && e.core.orders[id].executed == 0
    requires Sweep(e, id).Ok? && Sweep(e, id).value.log <= last.log
    ensures |last.log| > |e.log| + 1 && !last.log[|e.log| + 1].OrderCancelled?
  {
    FirstMeetingIsOk(e, id);
    FrontKeeps(e, id);
    var e1 := MeetFront(e, id).value;
    if Stops(e1.core, id) { SweepEnds(e1, id); } else { SweepGrows(e1, id); }
    PrefixThen(e1.log, Sweep(e1, id).value.log, last.log);
    if FrontPasses(e, id) { TradeSecond(e, id); } else { FailureSecond(e, id); }
    assert last.log[|e.log| + 1] == e1.log[|e.log| + 1];
  }

  lemma {:induction false} TradeSecond(e: Engine, t: OrderId)
    requires Inv(e.core) && Entering(e.core, t) && NoOco(e.core) && e.wiring.Live? && !Stops(e.core, t)
    requires e.core.orders[t].user != SYSTEM_USER_ID && e.core.orders[t].executed == 0
    requires MeetFront(e, t).Ok? && FrontPasses(e, t)
    ensures var log := MeetFront(e, t).value.log; |log| > |e.log| + 1 && !log[|e.log| + 1].OrderCancelled?
  {
    var side := e.core.Get(t).side.Opposite();
    var m, p := Front(e.core.book, side).value, Best(e.core.book, side).value;
    var q := TradeQuantity(e.core, t, m);
    var e1 := Checked(e, e.core.Get(m), q, p);
    FrontMeets(e.core, t);
    TradeMovesTwice(e1, t, m, q, p);
    TradeClean(e1, t, m, q, p);
    assert Moves(MeetFront(e, t).value.log[|e.log|..]) <= |MeetFront(e, t).value.log| - |e.log|;
  }

  lemma {:induction false} FailureSecond(e: Engine, t: OrderId)
    requires Inv(e.core) && Entering(e.core, t) && NoOco(e.core) && e.wiring.Live? && !Stops(e.core, t)
    requires MeetFront(e, t).Ok? && !FrontPasses(e, t)
    ensures var log := MeetFront(e, t).value.log; |log| > |e.log| + 1 && !log[|e.log| + 1].OrderCancelled?
  {
    var side := e.core.Get(t).side.Opposite();
    FrontMeets(e.core, t);
    FailureEvents(e, t, Front(e.core.book, side).value, Best(e.core.book, side).value);
  }

  /** Main engine and stub after the entry check, both let in. */
  lemma {:induction false} EntersTogether(e: Engine, id: OrderId, last: Engine, b: Engine)
    requires Inv(e.core) && Entering(e.core, id) && NoOco(e.core) && e.wiring.Live? && e.log <= last.log
    requires e.core.orders[id].executed == 0 && b == Stub(e.core, NewEvents(e, last))
    ensures Together(e, Entered(e, id), Entered(b, id), last, id) && NeverOne(e, Entered(e, id), id)
  {
    assert NewEvents(e, Entered(e, id)) == [];
    assert Strip([]) == [];
  }

  /** A crossing order has a front to meet. */
  lemma {:induction false} CrossingMeets(c: Core, id: OrderId)
    requires Inv(c) && Entering(c, id) && Crossable(c.book, c.Get(id)) && c.orders[id].executed < c.orders[id].quantity
    ensures !Stops(c, id)
  {
    var side := c.orders[id].side.Opposite();
    FrontFacts(c, side);
    assert IsBest(c.book, side, Best(c.book, side).value);
  }

  /** A crossing order that the main engine let in is let in by the stub. */
  lemma {:induction false} StubLetsIn(e: Engine, id: OrderId, stored: set<OrderId>, b: Engine)
    requires Inv(e.core) && Entering(e.core, id) && NoOco(e.core) && e.wiring.Live? && Submit(e, id, stored).Ok?
    requires e.core.orders[id].executed == 0 < e.core.orders[id].quantity && e.core.orders[id].user != SYSTEM_USER_ID
    requires Crossable(e.core.book, e.core.Get(id)) && EntryAnswer(e, id)
    requires e.log <= Submit(e, id, stored).value.log && b == Stub(e.core, NewEvents(e, Submit(e, id, stored).value))
    ensures EntryAnswer(b, id)
  {
    SubmitSecond(e, id, stored);
    StubEntry(b, id);
  }

  lemma {:induction false} SubmitSecond(e: Engine, id: OrderId, stored: set<OrderId>)
    requires Inv(e.core) && Entering(e.core, id) && NoOco(e.core) && e.wiring.Live? && Submit(e, id, stored).Ok?
    requires e.core.orders[id].executed == 0 < e.core.orders[id].quantity && e.core.orders[id].user != SYSTEM_USER_ID
    requires Crossable(e.core.book, e.core.Get(id)) && EntryAnswer(e, id) && e.log <= Submit(e, id, stored).value.log
    ensures var events := NewEvents(e, Submit(e, id, stored).value); |events| > 1 && !events[1].OrderCancelled?
  {
    SubmitCases(e, id, stored);
    CrossingMeets(e.core, id);
    MatchOrRestGrows(Entered(e, id), id, stored);
    SecondEvent(Entered(e, id), id, MatchOrRest(Entered(e, id), id, stored).value);
    SecondOf(e.log, Submit(e, id, stored).value.log);
  }

  lemma {:induction false} SecondOf(x: seq<Event>, y: seq<Event>)
    requires x <= y && |y| > |x| + 1
    ensures |y[|x|..]| > 1 && y[|x|..][1] == y[|x| + 1]
  {
  }

  /** Let in by both, a failure parts them. */
  lemma {:induction false} LetInParts(e: Engine, id: OrderId, stored: set<OrderId>, b: Engine)
    requires Inv(e.core) && Entering(e.core, id) && NoOco(e.core) && e.wiring.Live? && Submit(e, id, stored).Ok?
    requires e.core.orders[id].executed == 0 && e.core.orders[id].user != SYSTEM_USER_ID
    requires StoredWith(e.core, id, stored) && Crossable(e.core.book, e.core.Get(id)) && EntryAnswer(e, id)
    requires e.log <= Submit(e, id, stored).value.log && b == Stub(e.core, NewEvents(e, Submit(e, id, stored).value))
    requires EntryAnswer(b, id) && Submit(b, id, stored).Ok? && !AllPass(e, Submit(e, id, stored).value)
    ensures Parted(Submit(e, id, stored).value.core, Submit(b, id, stored).value.core)
  {
    var e1, b1 := Entered(e, id), Entered(b, id);
    SubmitCases(e, id, stored);
    SubmitCases(b, id, stored);
    MatchOrRestGrows(e1, id, stored);
    EntersTogether(e, id, Submit(e, id, stored).value, b);
    EntryThenSweep(e, id, stored);
    RestAnswers(b1, id, stored);
    SweepParts(e, e1, b1, Submit(e, id, stored).value, id);
    RestKeepsParted(e1, b1, id, stored);
  }

  lemma {:induction false} EntryThenSweep(e: Engine, id: OrderId, stored: set<OrderId>)
    requires Crossable(e.core.book, e.core.Get(id)) && EntryAnswer(e, id) && Submit(e, id, stored).Ok?
    ensures Sweep(Entered(e, id), id).Ok?
    ensures AllPass(e, Submit(e, id, stored).value) <==> AllPass(Entered(e, id), Sweep(Entered(e, id), id).value)
  {
    SubmitCases(e, id, stored);
    RestAnswers(Entered(e, id), id, stored);
    SweepAnswers(Entered(e, id), id);
    OneMoreYes(e.answers, Entered(e, id).answers, Sweep(Entered(e, id), id).value.answers);
  }

  /** Resting what is left keeps them apart. */
  lemma {:induction false} RestKeepsParted(a: Engine, b: Engine, id: OrderId, stored: set<OrderId>)
    requires Inv(a.core) && Entering(a.core, id) && StoredWith(a.core, id, stored) && MatchOrRest(a, id, stored).Ok?
    requires Inv(b.core) && Entering(b.core, id) && StoredWith(b.core, id, stored) && MatchOrRest(b, id, stored).Ok?
    requires Sweep(a, id).Ok? && Sweep(b, id).Ok?
    requires PartedBut(Sweep(a, id).value.core, Sweep(b, id).value.core, id)
    ensures Parted(MatchOrRest(a, id, stored).value.core, MatchOrRest(b, id, stored).value.core)
  {
    var c, d := Sweep(a, id).value.core, Sweep(b, id).value.core;
    var x :| x != id && (Behind(c, d, x) || Behind(d, c, x));
    if Behind(c, d, x) { RestKeepsBehind(a, b, id, stored, x); } else { RestKeepsBehind(b, a, id, stored, x); }
  }

  lemma {:induction false} RestKeepsBehind(a: Engine, b: Engine, id: OrderId, stored: set<OrderId>, x: OrderId)
    requires Inv(a.core) && Entering(a.core, id) && StoredWith(a.core, id, stored) && MatchOrRest(a, id, stored).Ok?
    requires MatchOrRest(b, id, stored).Ok? && Sweep(a, id).Ok? && Sweep(b, id).Ok?
    requires x != id && Behind(Sweep(a, id).value.core, Sweep(b, id).value.core, x)
    ensures Behind(MatchOrRest(a, id, stored).value.core, MatchOrRest(b, id, stored).value.core, x)
  {
    MatchOrRestOrders(a, id, stored);
    MatchOrRestOrders(b, id, stored);
    RestKeepsGone(a, id, stored, x);
  }

  lemma {:induction false} RestKeepsGone(e: Engine, id: OrderId, stored: set<OrderId>, x: OrderId)
    requires Inv(e.core) && Entering(e.core, id) && StoredWith(e.core, id, stored) && MatchOrRest(e, id, stored).Ok?
    requires Sweep(e, id).Ok? && Gone(Sweep(e, id).value.core, x) && x != id
    ensures Gone(MatchOrRest(e, id, stored).value.core, x)
  {
    SweepKeeps(e, id);
    var e2 := Sweep(e, id).value;
    assert OrderInv(e2.core, id, {}, {});
    TermsKeepStored(e.core, e2.core, id, stored);
    if !e2.core.Get(id).Complete() { PlaceKeepsGone(e2, id, stored, x); }
  }

  /** A rejected order is gone. */
  lemma {:induction false} RejectedIsGone(e: Engine, id: OrderId)
    requires Inv(e.core) && Entering(e.core, id) && Reject(e, id).Ok?
    ensures Gone(Reject(e, id).value.core, id) && Reject(e, id).value.core.orders == e.core.orders
  {
    CancelProjects(e, id);
    UnplacedCancel(e.core, id);
  }

  /** The owner of what a New command submits is an ordinary user. */
  predicate Ordinary(cmd: Command) {
    match cmd
    case NewSingle(s) => s.user != SYSTEM_USER_ID
    case NewOto(p, _) => p.user != SYSTEM_USER_ID
    case NewOco(a, _) => a.user != SYSTEM_USER_ID
    case Cancel(_) => true
  }

  /** What the shadow makes of a command. */
  ghost function ByShadow(e: Engine, cmd: Command): Result<Engine>
    requires Handle(e, cmd).Ok?
  {
    Handle(Stub(e.core, NewEvents(e, Handle(e, cmd).value)), cmd)
  }

  lemma {:induction false} CommandParts(e: Engine, cmd: Command)
    requires Inv(e.core) && NoOco(e.core) && CmdOk(e.core, cmd) && Submits(cmd) && Ordinary(cmd)
    requires e.wiring.Live? && Handle(e, cmd).Ok? && !AllPass(e, Handle(e, cmd).value)
    ensures ByShadow(e, cmd).Ok? && Parted(Handle(e, cmd).value.core, ByShadow(e, cmd).value.core)
  {
    HandleSubmits(e, cmd);
    var e0 := e.(core := Intake(e.core, cmd));
    PassesUnlessCrossing(e0, NewId(cmd), StoredBy(cmd));
    if EntryAnswer(e0, NewId(cmd)) { LetInCommandParts(e, cmd); } else { RejectedCommandParts(e, cmd); }
  }

  /** An order that does not cross asks for no balance. */
  lemma {:induction false} PassesUnlessCrossing(e: Engine, id: OrderId, stored: set<OrderId>)
    requires Submit(e, id, stored).Ok? && !AllPass(e, Submit(e, id, stored).value)
    ensures Crossable(e.core.book, e.core.Get(id))
  {
    SubmitCases(e, id, stored);
    if !Crossable(e.core.book, e.core.Get(id)) { PlaceSame(true, e, e, id, stored); }
  }

  lemma {:induction false} LetInCommandParts(e: Engine, cmd: Command)
    requires Inv(e.core) && NoOco(e.core) && CmdOk(e.core, cmd) && Submits(cmd) && Ordinary(cmd)
    requires e.wiring.Live? && Handle(e, cmd).Ok? && !AllPass(e, Handle(e, cmd).value)
    requires var e0 := e.(core := Intake(e.core, cmd));
      Crossable(e0.core.book, e0.core.Get(NewId(cmd))) && EntryAnswer(e0, NewId(cmd))
    ensures ByShadow(e, cmd).Ok? && Parted(Handle(e, cmd).value.core, ByShadow(e, cmd).value.core)
  {
    HandleSubmits(e, cmd);
    var id, stored := NewId(cmd), StoredBy(cmd);
    var e0 := e.(core := Intake(e.core, cmd));
    var b0 := StubFor(e, cmd);
    assert NoOco(e0.core);
    SubmitGrows(e0, id, stored);
    StubLetsIn(e0, id, stored, b0);
    LetInIsOk(e, cmd);
    LetInParts(e0, id, stored, b0);
  }

  lemma {:induction false} LetInIsOk(e: Engine, cmd: Command)
    requires Inv(e.core) && NoOco(e.core) && CmdOk(e.core, cmd) && Submits(cmd) && Handle(e, cmd).Ok?
    requires EntryAnswer(StubFor(e, cmd), NewId(cmd))
    ensures ByShadow(e, cmd).Ok? && ByShadow(e, cmd) == Submit(StubFor(e, cmd), NewId(cmd), StoredBy(cmd))
  {
    var b := Stub(e.core, NewEvents(e, Handle(e, cmd).value));
    HandleSubmits(b, cmd);
    LetInNeverRaises(b, cmd);
  }

  lemma {:induction false} RejectedCommandParts(e: Engine, cmd: Command)
    requires Inv(e.core) && NoOco(e.core) && CmdOk(e.core, cmd) && Submits(cmd) && e.wiring.Live? && Handle(e, cmd).Ok?
    requires Rejected(e.(core := Intake(e.core, cmd)), NewId(cmd))
    ensures ByShadow(e, cmd).Ok? && Parted(Handle(e, cmd).value.core, ByShadow(e, cmd).value.core)
  {
    HandleSubmits(e, cmd);
    var id := NewId(cmd);
    var e0 := e.(core := Intake(e.core, cmd));
    SubmitCases(e0, id, StoredBy(cmd));
    EntryFailureMissed(e, cmd);
    RejectedIsGone(Entered(e0, id), id);
    assert Behind(Handle(e, cmd).value.core, ByShadow(e, cmd).value.core, id);
  }

  lemma {:induction false} SubmitGrows(e: Engine, id: OrderId, stored: set<OrderId>)
    requires Inv(e.core) && Entering(e.core, id) && Crossable(e.core.book, e.core.Get(id)) && EntryAnswer(e, id)
    requires Submit(e, id, stored).Ok?
    ensures e.log <= Submit(e, id, stored).value.log
  {
    var e1 := Entered(e, id);
    SubmitCases(e, id, stored);
    MatchOrRestGrows(e1, id, stored);
    SweepGrows(e1, id);
    PrefixThen(e1.log, Sweep(e1, id).value.log, MatchOrRest(e1, id, stored).value.log);
  }

  /**
   * For every SINGLE or OTO order of an ordinary user, and every Cancel: the shadow handles the command
   * without an exception, and to the same core if and only if every balance check of the main engine
   * passed. Otherwise the cores have parted.
   */
  lemma {:induction false} CommandFollowedIff(e: Engine, cmd: Command)
    requires Inv(e.core) && NoOco(e.core) && CmdOk(e.core, cmd) && SingleOrOto(cmd) && Ordinary(cmd)
    requires e.wiring.Live? && Handle(e, cmd).Ok?
    ensures ByShadow(e, cmd).Ok?
    ensures ByShadow(e, cmd).value.core == Handle(e, cmd).value.core <==> AllPass(e, Handle(e, cmd).value)
    ensures !AllPass(e, Handle(e, cmd).value) ==> Parted(Handle(e, cmd).value.core, ByShadow(e, cmd).value.core)
  {
    if AllPass(e, Handle(e, cmd).value) {
      CommandFollowed(e, cmd);
    } else {
      CancelPasses(e, cmd);
      CommandParts(e, cmd);
    }
  }

  /** A Cancel asks for no balance. */
  lemma {:induction false} CancelPasses(e: Engine, cmd: Command)
    requires Handle(e, cmd).Ok?
    ensures cmd.Cancel? ==> AllPass(e, Handle(e, cmd).value)
  {
    if cmd.Cancel? && cmd.orderId in e.core.store { CancelAnswers(e, cmd.orderId); }
  }

  // ---- Whole runs ----

  lemma {:induction false} SweepLive(e: Engine, t: OrderId)
    requires Inv(e.core) && Entering(e.core, t) && Sweep(e, t).Ok?
    ensures Sweep(e, t).value.wiring.Live? == e.wiring.Live?
    decreases RestingOn(e.core.book, e.core.Get(t).side.Opposite())
  {
    if Stops(e.core, t) {
      SweepEnds(e, t);
    } else {
      FirstMeetingIsOk(e, t);
      FrontKeeps(e, t);
      var side := e.core.Get(t).side.Opposite();
      EncounterAnswers(e, t, Front(e.core.book, side).value, Best(e.core.book, side).value);
      var e1 := MeetFront(e, t).value;
      if Stops(e1.core, t) { SweepEnds(e1, t); } else { SweepLive(e1, t); }
    }
  }

  lemma {:induction false} MatchOrRestLive(e: Engine, id: OrderId, stored: set<OrderId>)
    requires Inv(e.core) && Entering(e.core, id) && MatchOrRest(e, id, stored).Ok?
    ensures MatchOrRest(e, id, stored).value.wiring.Live? == e.wiring.Live?
  {
    SweepLive(e, id);
  }

  lemma {:induction false} RejectLive(e: Engine, id: OrderId)
    requires Reject(e, id).Ok?
    ensures Reject(e, id).value.wiring.Live? == e.wiring.Live?
  {
    CancelAnswers(e, id);
  }

  /** A command does not change how the engine is wired. */
  lemma {:induction false} HandleLive(e: Engine, cmd: Command)
    requires Inv(e.core) && CmdOk(e.core, cmd) && Handle(e, cmd).Ok?
    ensures Handle(e, cmd).value.wiring.Live? == e.wiring.Live?
  {
    if Submits(cmd) {
      HandleSubmits(e, cmd);
      var e0, id := e.(core := Intake(e.core, cmd)), NewId(cmd);
      SubmitCases(e0, id, StoredBy(cmd));
      if Crossable(e0.core.book, e0.core.Get(id)) {
        var e1 := Entered(e0, id);
        if EntryAnswer(e0, id) { MatchOrRestLive(e1, id, StoredBy(cmd)); } else { RejectLive(e1, id); }
      }
    } else if cmd.Cancel? && cmd.orderId in e.core.store {
      CancelAnswers(e, cmd.orderId);
    }
  }

  /** Which orders exist does not depend on how commands turn out. */
  lemma {:induction false} HandleKeys(e: Engine, cmd: Command)
    requires Inv(e.core) && CmdOk(e.core, cmd) && SingleOrOto(cmd) && Handle(e, cmd).Ok?
    ensures Handle(e, cmd).value.core.orders.Keys == Intake(e.core, cmd).orders.Keys
  {
    if Submits(cmd) {
      HandleSubmits(e, cmd);
      SubmitKeys(e.(core := Intake(e.core, cmd)), NewId(cmd), StoredBy(cmd));
    } else if cmd.orderId in e.core.store {
      CancelProjects(e, cmd.orderId);
      UnbookAllEffect(e.core, CancelTargets(e.core.Get(cmd.orderId)));
    }
  }

  lemma {:induction false} IntakeKeys(c: Core, d: Core, cmd: Command)
    requires c.orders.Keys == d.orders.Keys
    ensures Intake(c, cmd).orders.Keys == Intake(d, cmd).orders.Keys
    ensures CmdOk(c, cmd) ==> CmdOk(d, cmd)
  {
    assert forall id :: id in c.orders <==> id in d.orders by {
      forall id
        ensures id in c.orders <==> id in d.orders
      {
        assert id in c.orders.Keys <==> id in d.orders.Keys;
      }
    }
    match cmd
    case NewSingle(s) => PutKeys(c, d, s.ToOrder(Single, true));
    case NewOto(p, ch) =>
      var x, y := p.ToOrder(OtoParent(ch.id), true), ch.ToOrder(OtoChild(p.id), false);
      PutKeys(c, d, x);
      PutKeys(c.Put(x), d.Put(x), y);
    case NewOco(a, b) =>
      var x, y := a.ToOrder(OcoLeg(b.id), true), b.ToOrder(OcoLeg(a.id), true);
      PutKeys(c, d, x);
      PutKeys(c.Put(x), d.Put(x), y);
    case Cancel(_) =>
  }

  lemma {:induction false} PutKeys(c: Core, d: Core, o: Order)
    requires c.orders.Keys == d.orders.Keys
    ensures c.Put(o).orders.Keys == d.Put(o).orders.Keys
  {
    assert c.Put(o).orders.Keys == c.orders.Keys + {o.id};
    assert d.Put(o).orders.Keys == d.orders.Keys + {o.id};
  }

  /** A run of SINGLE and OTO orders of ordinary users, and cancels, under any balance answers. */
  ghost predicate OrdinaryRun(e: Engine, cmds: seq<Command>) {
    && Inv(e.core) && NoOco(e.core) && e.wiring.Live? && Admissible(e, cmds) && Run(e, cmds).Ok?
    && forall i :: 0 <= i < |cmds| ==> SingleOrOto(cmds[i]) && Ordinary(cmds[i])
  }

  lemma {:induction false} OrdinaryRunKeeps(e: Engine, cmds: seq<Command>)
    requires OrdinaryRun(e, cmds)
    ensures var e' := Run(e, cmds).value; Inv(e'.core) && NoOco(e'.core) && e'.wiring.Live?
  {
    if cmds != [] {
      var n := |cmds| - 1;
      OrdinaryRunKeeps(e, cmds[..n]);
      var mid := Run(e, cmds[..n]).value;
      HandleKeeps(mid, cmds[n]);
      HandleNoOco(mid, cmds[n]);
      HandleLive(mid, cmds[n]);
    }
  }

  /** The replica next to the main engine: equal as long as all passed, parted afterwards. */
  ghost predicate Beside(e: Engine, e': Engine, s: Replica) {
    && s.pending.None? && s.batch == [] && Inv(s.core) && s.core.orders.Keys == e'.core.orders.Keys
    && (AllPass(e, e') ==> s.core == e'.core)
    && (!AllPass(e, e') ==> Parted(e'.core, s.core))
  }

  /** One command more, by main engine and replica. */
  lemma {:induction false} BesideOn(e: Engine, mid: Engine, s: Replica, cmd: Command)
    requires Inv(mid.core) && NoOco(mid.core) && mid.wiring.Live? && CmdOk(mid.core, cmd)
    requires SingleOrOto(cmd) && Ordinary(cmd) && Handle(mid, cmd).Ok? && e.answers <= mid.answers && Beside(e, mid, s)
    requires Handle(Stub(s.core, NewEvents(mid, Handle(mid, cmd).value)), cmd).Ok?
    ensures var e' := Handle(mid, cmd).value;
      var d := Handle(Stub(s.core, NewEvents(mid, e')), cmd).value.core;
      && Inv(d) && d.orders.Keys == e'.core.orders.Keys
      && (AllPass(e, e') ==> d == e'.core)
      && (!AllPass(e, e') ==> Parted(e'.core, d))
  {
    var e' := Handle(mid, cmd).value;
    var stub := Stub(s.core, NewEvents(mid, e'));
    IntakeKeys(mid.core, s.core, cmd);
    HandleKeeps(stub, cmd);
    HandleKeys(stub, cmd);
    HandleKeys(mid, cmd);
    HandleAnswers(mid, cmd);
    PassThen(e, mid, e');
    if AllPass(e, mid) {
      CommandFollowedIff(mid, cmd);
    } else {
      HandleMovesOn(mid, cmd);
      HandleMovesOn(stub, cmd);
      PartedStays(mid.core, e'.core, s.core, Handle(stub, cmd).value.core);
    }
  }

  lemma {:induction false} PassThen(e: Engine, mid: Engine, e': Engine)
    requires e.answers <= mid.answers <= e'.answers
    ensures AllPass(e, e') <==> AllPass(e, mid) && AllPass(mid, e')
  {
    assert forall i :: 0 <= i < |mid.answers| ==> mid.answers[i] == e'.answers[i];
  }

  lemma {:induction false} ShadowBeside(e: Engine, cmds: seq<Command>, offsets: seq<int>, interval: nat)
    requires |offsets| == |cmds| && OrdinaryRun(e, cmds)
    ensures var r := Shadowed(e, cmds, offsets, interval); r.Ok? ==> Beside(e, Run(e, cmds).value, r.value)
  {
    if cmds == [] {
      assert MainStream(e, cmds, offsets) == [];
    } else {
      var n := |cmds| - 1;
      ShadowBeside(e, cmds[..n], offsets[..n], interval);
      OrdinaryRunKeeps(e, cmds[..n]);
      ShadowedMore(e, cmds, offsets, interval);
      var older := Shadowed(e, cmds[..n], offsets[..n], interval);
      if Shadowed(e, cmds, offsets, interval).Ok? {
        RunAnswers(e, cmds[..n]);
        BesideOn(e, Run(e, cmds[..n]).value, older.value, cmds[n]);
      }
    }
  }

  /**
   * Over every run of SINGLE and OTO orders of ordinary users: a shadow that has not raised holds the main
   * engine's core if and only if every balance check so far passed. After the first failure the two have
   * parted, and no later command brings them together again.
   */
  lemma {:induction false} ShadowInStepIff(e: Engine, cmds: seq<Command>, offsets: seq<int>, interval: nat)
    requires |offsets| == |cmds| && OrdinaryRun(e, cmds) && Shadowed(e, cmds, offsets, interval).Ok?
    ensures var c, d := Run(e, cmds).value.core, Shadowed(e, cmds, offsets, interval).value.core;
      && (c == d <==> AllPass(e, Run(e, cmds).value))
      && (!AllPass(e, Run(e, cmds).value) ==> Parted(c, d))
  {
    ShadowBeside(e, cmds, offsets, interval);
    var c, d := Run(e, cmds).value.core, Shadowed(e, cmds, offsets, interval).value.core;
    if Parted(c, d) { PartedDiffer(c, d); }
  }

  // ---- Plain runs: the shadow never raises ----

  /** The replica as far as exceptions are concerned. */
  ghost predicate Calm(s: Replica, c: Core) {
    && s.pending.None? && s.batch == [] && Inv(s.core) && Plain(s.core) && Uncrossed(s.core.book)
    && s.core.orders.Keys == c.orders.Keys
  }

  lemma {:induction false} PlainShadowIsCalm(e: Engine, cmds: seq<Command>, offsets: seq<int>, interval: nat)
    requires |offsets| == |cmds| && e.core == EMPTY_CORE && Admissible(e, cmds) && Run(e, cmds).Ok?
    requires forall i :: 0 <= i < |cmds| ==> PlainCmd(cmds[i])
    ensures var r := Shadowed(e, cmds, offsets, interval); r.Ok? && Calm(r.value, Run(e, cmds).value.core)
  {
    if cmds == [] {
      assert MainStream(e, cmds, offsets) == [];
    } else {
      var n := |cmds| - 1;
      PlainShadowIsCalm(e, cmds[..n], offsets[..n], interval);
      PlainRunsAreSafe(e, cmds[..n]);
      ShadowedMore(e, cmds, offsets, interval);
      var s := Shadowed(e, cmds[..n], offsets[..n], interval).value;
      var mid := Run(e, cmds[..n]).value;
      CalmOn(mid, s, cmds[n], NewEvents(mid, Run(e, cmds).value));
    }
  }

  lemma {:induction false} CalmOn(mid: Engine, s: Replica, cmd: Command, events: seq<Event>)
    requires Inv(mid.core) && CmdOk(mid.core, cmd) && PlainCmd(cmd) && Handle(mid, cmd).Ok? && Calm(s, mid.core)
    ensures var r := Handle(Stub(s.core, events), cmd);
      && r.Ok? && Inv(r.value.core) && Plain(r.value.core) && Uncrossed(r.value.core.book) && Storable(r.value.core)
      && r.value.core.orders.Keys == Handle(mid, cmd).value.core.orders.Keys
  {
    var stub := Stub(s.core, events);
    IntakeKeys(mid.core, s.core, cmd);
    PlainStep(stub, cmd);
    HandleKeys(stub, cmd);
    HandleKeys(mid, cmd);
    AllSingleIsStorable(Handle(stub, cmd).value.core);
  }

  /** For SINGLE LIMIT orders of ordinary users: the shadow never raises, and is in step exactly as long as all pass. */
  lemma {:induction false} PlainShadowInStepIff(e: Engine, cmds: seq<Command>, offsets: seq<int>, interval: nat)
    requires |offsets| == |cmds| && e.core == EMPTY_CORE && e.wiring.Live? && Admissible(e, cmds)
    requires forall i :: 0 <= i < |cmds| ==> PlainCmd(cmds[i]) && Ordinary(cmds[i])
    ensures Run(e, cmds).Ok? && Shadowed(e, cmds, offsets, interval).Ok?
    ensures Shadowed(e, cmds, offsets, interval).value.core == Run(e, cmds).value.core
       <==> AllPass(e, Run(e, cmds).value)
  {
    PlainRunsAreSafe(e, cmds);
    PlainShadowIsCalm(e, cmds, offsets, interval);
    assert OrdinaryRun(e, cmds);
    ShadowInStepIff(e, cmds, offsets, interval);
  }
}
