/**
 * Replaying commands: book, orders and store depend on the balance checks only through their answers,
 * so a replay whose checks all pass repeats a run whose checks all passed.
 */
module Replay {
  import opened Types
  import opened Collections
  import opened BookModel
  import opened EngineSpec
  import opened Invariants
  import opened Matching
  import opened Runs
  import opened Safety
  import opened PlainRuns

  /** Every balance check between `e` and `e'` passed. */
  ghost predicate AllPass(e: Engine, e': Engine) {
    e.answers <= e'.answers && forall i :: |e.answers| <= i < |e'.answers| ==> e'.answers[i]
  }

  // ---- Only checks add answers ----

  lemma HookAnswers(e: Engine, id: OrderId)
    requires Hook(e, id).Ok?
    ensures Hook(e, id).value.answers == e.answers
    ensures e.wiring.Patched? ==> Hook(e, id).value.wiring == e.wiring
    ensures Hook(e, id).value.wiring.Live? == e.wiring.Live?
  {
  }

  lemma SettleAnswers(e: Engine, t: Order, m: Order, q: int, p: Price)
    ensures Settle(e, t, m, q, p).answers == e.answers
    ensures e.wiring.Patched? ==> Settle(e, t, m, q, p).wiring == e.wiring
    ensures Settle(e, t, m, q, p).wiring.Live? == e.wiring.Live?
  {
    var e1 := HoldOnFirstFill(e, m);
    var e2 := HoldOnFirstFill(e1, t);
    assert e1.answers == e.answers && e2.answers == e1.answers;
    assert e.wiring.Patched? ==> e1.wiring == e.wiring && e2.wiring == e.wiring;
    assert e1.wiring.Live? == e.wiring.Live? && e2.wiring.Live? == e.wiring.Live?;
  }

  lemma TradeAnswers(e: Engine, t: OrderId, m: OrderId, q: int, p: Price)
    requires Trade(e, t, m, q, p).Ok?
    ensures Trade(e, t, m, q, p).value.answers == e.answers
    ensures e.wiring.Patched? ==> Trade(e, t, m, q, p).value.wiring == e.wiring
    ensures Trade(e, t, m, q, p).value.wiring.Live? == e.wiring.Live?
  {
    var taker, maker := e.core.Get(t), e.core.Get(m);
    var e1 := FillBoth(TradeEvents(e, taker, maker, q, p), t, m, q, p);
    assert e1.answers == e.answers && e1.wiring == e.wiring;
    HookAnswers(e1, t);
    var e2 := Hook(e1, t).value;
    HookAnswers(e2, m);
    var e3 := Hook(e2, m).value;
    SettleAnswers(e3.(core := RetireCore(e3.core, m).value), taker, maker, q, p);
  }

  lemma CancelAnswers(e: Engine, id: OrderId)
    requires CancelOrder(e, id).Ok?
    ensures CancelOrder(e, id).value.answers == e.answers
    ensures e.wiring.Patched? ==> CancelOrder(e, id).value.wiring == e.wiring
    ensures CancelOrder(e, id).value.wiring.Live? == e.wiring.Live?
  {
  }

  lemma EncounterAnswers(e: Engine, t: OrderId, m: OrderId, p: Price)
    requires Encounter(e, t, m, p).Ok?
    ensures Encounter(e, t, m, p).value.answers
         == e.answers + [Answer(e, e.core.Get(m), TradeQuantity(e.core, t, m), p)]
    ensures e.wiring.Patched? ==> Encounter(e, t, m, p).value.wiring == e.wiring
    ensures Encounter(e, t, m, p).value.wiring.Live? == e.wiring.Live?
  {
    var q := TradeQuantity(e.core, t, m);
    var e' := Checked(e, e.core.Get(m), q, p);
    if Answer(e, e.core.Get(m), q, p) { TradeAnswers(e', t, m, q, p); } else { CancelAnswers(e', m); }
  }

  lemma PrefixThen<T>(a: seq<T>, b: seq<T>, c: seq<T>)
    requires a <= b <= c
    ensures a <= c
  {
  }

  /** Answers accumulate. */
  lemma {:induction false} SweepAnswers(e: Engine, t: OrderId)
    requires Sweep(e, t).Ok?
    ensures e.answers <= Sweep(e, t).value.answers
    decreases RestingOn(e.core.book, e.core.Get(t).side.Opposite())
  {
    var taker := e.core.Get(t);
    var side := taker.side.Opposite();
    if taker.executed < taker.quantity && Front(e.core.book, side).Some? {
      var m, p := Front(e.core.book, side).value, Best(e.core.book, side).value;
      EncounterAnswers(e, t, m, p);
      var e' := Encounter(e, t, m, p).value;
      if e'.core.Get(t).side == taker.side && RestingOn(e'.core.book, side) < RestingOn(e.core.book, side) {
        assert Sweep(e, t) == Sweep(e', t);
        SweepAnswers(e', t);
        PrefixThen(e.answers, e'.answers, Sweep(e', t).value.answers);
      } else {
        assert Sweep(e, t) == Ok(e');
      }
    }
  }

  // ---- A replica that answers yes mirrors a run that was answered yes ----

  /** A shadow whose batch holds no cancellation answers every check with yes. */
  ghost predicate SaysYes(b: Engine) {
    b.wiring.Patched? && forall i :: 0 <= i < |b.wiring.batch| ==> !b.wiring.batch[i].OrderCancelled?
  }

  lemma {:induction false} SweepMirrors(a: Engine, b: Engine, t: OrderId)
    requires a.core == b.core && SaysYes(b) && Sweep(a, t).Ok? && AllPass(a, Sweep(a, t).value)
    ensures Sweep(b, t).Ok? && Sweep(b, t).value.core == Sweep(a, t).value.core
    decreases RestingOn(a.core.book, a.core.Get(t).side.Opposite())
  {
    var c := a.core;
    var taker := c.Get(t);
    var side := taker.side.Opposite();
    if taker.executed < taker.quantity && Front(c.book, side).Some? {
      var m, p := Front(c.book, side).value, Best(c.book, side).value;
      EncounterAnswers(a, t, m, p);
      EncounterProjects(a, t, m, p);
      EncounterProjects(b, t, m, p);
      var a' := Encounter(a, t, m, p).value;
      var goesOn := a'.core.Get(t).side == taker.side && RestingOn(a'.core.book, side) < RestingOn(c.book, side);
      if goesOn { SweepAnswers(a', t); }
      assert Sweep(a, t).value.answers[|a.answers|] == a'.answers[|a.answers|];
      assert Answer(a, c.Get(m), TradeQuantity(c, t, m), p);
      EncounterAnswers(b, t, m, p);
      if goesOn { SweepMirrors(a', Encounter(b, t, m, p).value, t); }
    }
  }

  lemma {:induction false} SubmitMirrors(a: Engine, b: Engine, id: OrderId, stored: set<OrderId>)
    requires a.core == b.core && SaysYes(b) && Submit(a, id, stored).Ok? && AllPass(a, Submit(a, id, stored).value)
    ensures Submit(b, id, stored).Ok? && Submit(b, id, stored).value.core == Submit(a, id, stored).value.core
  {
    var o := a.core.Get(id);
    if Crossable(a.core.book, o) {
      var a1, b1 := Checked(a, o, o.quantity, o.price), Checked(b, o, o.quantity, o.price);
      FirstCheckPassed(a, id, stored);
      assert Submit(a, id, stored) == MatchOrRest(a1, id, stored);
      assert Submit(b, id, stored) == MatchOrRest(b1, id, stored);
      MatchOrRestMirrors(a1, b1, id, stored);
    }
  }

  lemma {:induction false} MatchOrRestMirrors(a: Engine, b: Engine, id: OrderId, stored: set<OrderId>)
    requires a.core == b.core && SaysYes(b)
    requires MatchOrRest(a, id, stored).Ok? && AllPass(a, MatchOrRest(a, id, stored).value)
    ensures MatchOrRest(b, id, stored).Ok?
    ensures MatchOrRest(b, id, stored).value.core == MatchOrRest(a, id, stored).value.core
  {
    MatchOrRestPassed(a, id, stored);
    SweepMirrors(a, b, id);
    RestMirrors(a, b, id, stored, Sweep(a, id).value, Sweep(b, id).value);
  }

  lemma {:induction false} MatchOrRestPassed(a: Engine, id: OrderId, stored: set<OrderId>)
    requires MatchOrRest(a, id, stored).Ok? && AllPass(a, MatchOrRest(a, id, stored).value)
    ensures Sweep(a, id).Ok? && AllPass(a, Sweep(a, id).value)
  {
    SweepAnswers(a, id);
    assert MatchOrRest(a, id, stored).value.answers == Sweep(a, id).value.answers;
  }

  /** Resting the remainder depends on the core alone. */
  lemma {:induction false} RestMirrors(a: Engine, b: Engine, id: OrderId, stored: set<OrderId>, a': Engine, b': Engine)
    requires Sweep(a, id) == Ok(a') && Sweep(b, id) == Ok(b') && a'.core == b'.core
    requires MatchOrRest(a, id, stored).Ok?
    ensures MatchOrRest(b, id, stored).Ok?
    ensures MatchOrRest(b, id, stored).value.core == MatchOrRest(a, id, stored).value.core
  {
  }

  lemma {:induction false} RejectAnswers(e: Engine, id: OrderId)
    requires Reject(e, id).Ok?
    ensures Reject(e, id).value.answers == e.answers
  {
    CancelAnswers(e, id);
  }

  lemma {:induction false} FirstCheckPassed(a: Engine, id: OrderId, stored: set<OrderId>)
    requires Crossable(a.core.book, a.core.Get(id))
    requires Submit(a, id, stored).Ok? && AllPass(a, Submit(a, id, stored).value)
    ensures var o := a.core.Get(id);
      var a1 := Checked(a, o, o.quantity, o.price);
      && Answer(a, o, o.quantity, o.price)
      && MatchOrRest(a1, id, stored).Ok? && AllPass(a1, MatchOrRest(a1, id, stored).value)
  {
    var o := a.core.Get(id);
    var a1 := Checked(a, o, o.quantity, o.price);
    assert a1.answers == a.answers + [Answer(a, o, o.quantity, o.price)];
    if Answer(a, o, o.quantity, o.price) {
      MatchOrRestAnswers(a1, id, stored);
    } else {
      RejectAnswers(a1, id);
    }
    assert a1.answers <= Submit(a, id, stored).value.answers;
    assert Submit(a, id, stored).value.answers[|a.answers|] == a1.answers[|a.answers|];
  }

  lemma {:induction false} MatchOrRestAnswers(e: Engine, id: OrderId, stored: set<OrderId>)
    requires MatchOrRest(e, id, stored).Ok?
    ensures e.answers <= MatchOrRest(e, id, stored).value.answers
  {
    SweepAnswers(e, id);
  }

  /** One command, replayed. */
  lemma {:induction false} HandleMirrors(a: Engine, b: Engine, cmd: Command)
    requires a.core == b.core && Handle(a, cmd).Ok? && AllPass(a, Handle(a, cmd).value)
    requires !cmd.Cancel? ==> SaysYes(b)
    ensures Handle(b, cmd).Ok? && Handle(b, cmd).value.core == Handle(a, cmd).value.core
  {
    var a0, b0 := a.(core := Intake(a.core, cmd)), b.(core := Intake(a.core, cmd));
    match cmd
    case NewSingle(s) => SubmitMirrors(a0, b0, s.id, {s.id});
    case NewOto(p, ch) => SubmitMirrors(a0, b0, p.id, {p.id, ch.id});
    case NewOco(x, y) =>
    case Cancel(id) =>
      CancelProjects(a, id);
      CancelProjects(b, id);
  }

  lemma {:induction false} SubmitAnswers(e: Engine, id: OrderId, stored: set<OrderId>)
    requires Submit(e, id, stored).Ok?
    ensures e.answers <= Submit(e, id, stored).value.answers
  {
    var o := e.core.Get(id);
    if Crossable(e.core.book, o) {
      var e1 := Checked(e, o, o.quantity, o.price);
      if Answer(e, o, o.quantity, o.price) {
        assert Submit(e, id, stored) == MatchOrRest(e1, id, stored);
        MatchOrRestAnswers(e1, id, stored);
      } else {
        assert Submit(e, id, stored) == Reject(e1, id);
        RejectAnswers(e1, id);
      }
    }
  }

  lemma {:induction false} HandleAnswers(e: Engine, cmd: Command)
    requires Handle(e, cmd).Ok?
    ensures e.answers <= Handle(e, cmd).value.answers
  {
    var e0 := e.(core := Intake(e.core, cmd));
    match cmd
    case NewSingle(s) => SubmitAnswers(e0, s.id, {s.id});
    case NewOto(p, ch) => SubmitAnswers(e0, p.id, {p.id, ch.id});
    case NewOco(a, b) =>
    case Cancel(id) => if id in e.core.store { CancelAnswers(e, id); }
  }

  lemma {:induction false} RunAnswers(e: Engine, cmds: seq<Command>)
    requires Run(e, cmds).Ok?
    ensures e.answers <= Run(e, cmds).value.answers
  {
    if cmds != [] {
      RunAnswers(e, cmds[..|cmds| - 1]);
      HandleAnswers(Run(e, cmds[..|cmds| - 1]).value, cmds[|cmds| - 1]);
    }
  }

  /** If all checks of a run passed, so did those of all but its last command, and those of the last. */
  lemma {:induction false} PassSplits(e: Engine, cmds: seq<Command>)
    requires cmds != [] && Run(e, cmds).Ok? && AllPass(e, Run(e, cmds).value)
    ensures var mid := Run(e, cmds[..|cmds| - 1]).value;
      AllPass(e, mid) && AllPass(mid, Run(e, cmds).value)
  {
    var mid, last := Run(e, cmds[..|cmds| - 1]).value, Run(e, cmds).value;
    RunAnswers(e, cmds[..|cmds| - 1]);
    HandleAnswers(mid, cmds[|cmds| - 1]);
    assert forall i :: 0 <= i < |mid.answers| ==> mid.answers[i] == last.answers[i];
  }

  lemma {:induction false} RunConcat(e: Engine, xs: seq<Command>, ys: seq<Command>)
    requires Run(e, xs).Ok?
    ensures Run(e, xs + ys) == Run(Run(e, xs).value, ys)
  {
    if ys == [] {
      assert xs + ys == xs;
    } else {
      var n := |ys| - 1;
      assert (xs + ys)[..|xs + ys| - 1] == xs + ys[..n];
      RunConcat(e, xs, ys[..n]);
    }
  }

  // ---- A command whose checks all pass logs no cancellation ----

  /** The events logged between `e` and `e'` are no cancellations. */
  ghost predicate Clean(e: Engine, e': Engine) {
    e.log <= e'.log && forall i :: |e.log| <= i < |e'.log| ==> !e'.log[i].OrderCancelled?
  }

  lemma CleanThen(e: Engine, e1: Engine, e': Engine)
    requires Clean(e, e1) && Clean(e1, e')
    ensures Clean(e, e')
  {
  }

  lemma {:induction false} HookClean(e: Engine, id: OrderId)
    requires Hook(e, id).Ok? && !e.core.Get(id).strategy.OcoLeg?
    ensures Clean(e, Hook(e, id).value)
  {
  }

  lemma {:induction false} SettleClean(e: Engine, t: Order, m: Order, q: int, p: Price)
    ensures Clean(e, Settle(e, t, m, q, p))
  {
    var e1 := HoldOnFirstFill(e, m);
    var e2 := HoldOnFirstFill(e1, t);
    var e3 := Do(e2, SettleOp(t, q, p));
    assert Clean(e, e1) && Clean(e1, e2) && Clean(e2, e3);
  }

  lemma {:induction false} FillsClean(e: Engine, t: OrderId, m: OrderId, q: int, p: Price)
    ensures Clean(e, FillBoth(TradeEvents(e, e.core.Get(t), e.core.Get(m), q, p), t, m, q, p))
  {
    var taker, maker := e.core.Get(t), e.core.Get(m);
    var e0 := Emit(e, taker.user, [NewTrade(taker.id, q, p, Taker)]);
    var e1 := TradeEvents(e, taker, maker, q, p);
    assert Clean(e, e0) && Clean(e0, e1);
    var e2 := e1.(core := FillCore(FillCore(e1.core, t, q, p), m, q, p));
    var e3 := Emit(e2, e2.core.Get(t).user, [FillEvent(e2.core.Get(t))]);
    assert Clean(e1, e3) && Clean(e3, FillBoth(e1, t, m, q, p));
  }

  lemma {:induction false} TradeClean(e: Engine, t: OrderId, m: OrderId, q: int, p: Price)
    requires Meets(e.core, t, m) && NoOco(e.core) && q == TradeQuantity(e.core, t, m) && Trade(e, t, m, q, p).Ok?
    ensures Clean(e, Trade(e, t, m, q, p).value)
  {
    var taker, maker := e.core.orders[t], e.core.orders[m];
    assert OrderInv(e.core, t, {}, {}) && OrderInv(e.core, m, {}, {});
    FillsClean(e, t, m, q, p);
    var e1 := FillBoth(TradeEvents(e, taker, maker, q, p), t, m, q, p);
    FillsKeep(e.core, t, m, q, p);
    assert e1.core == Filled(e.core, t, m, q, p);
    HooksClean(e1, t, m);
    var e3 := Hook(Hook(e1, t).value, m).value;
    CleanThen(e, e1, e3);
    var e4 := e3.(core := RetireCore(e3.core, m).value);
    SettleClean(e4, taker, maker, q, p);
    CleanThen(e, e4, Settle(e4, taker, maker, q, p));
  }

  lemma {:induction false} HooksClean(e: Engine, t: OrderId, m: OrderId)
    requires MidInv(e.core, {t, m}, {t, m}) && t in e.core.orders && m in e.core.orders && e.core.orders[t].executed > 0
    requires !e.core.orders[t].strategy.OcoLeg? && !e.core.orders[m].strategy.OcoLeg?
    requires Hook(e, t).Ok? && Hook(Hook(e, t).value, m).Ok?
    ensures Clean(e, Hook(Hook(e, t).value, m).value)
  {
    HookClean(e, t);
    HookProjects(e, t);
    HookKeeps(e.core, t, {t, m}, {t, m});
    HookClean(Hook(e, t).value, m);
    CleanThen(e, Hook(e, t).value, Hook(Hook(e, t).value, m).value);
  }

  lemma {:induction false} SweepClean(e: Engine, t: OrderId)
    requires Inv(e.core) && Entering(e.core, t) && NoOco(e.core) && Sweep(e, t).Ok? && AllPass(e, Sweep(e, t).value)
    ensures Clean(e, Sweep(e, t).value)
    decreases RestingOn(e.core.book, e.core.Get(t).side.Opposite())
  {
    var c := e.core;
    var side := c.orders[t].side.Opposite();
    FrontFacts(c, side);
    if c.orders[t].executed < c.orders[t].quantity && Front(c.book, side).Some? {
      var m, p := Front(c.book, side).value, Best(c.book, side).value;
      FrontMeets(c, t);
      EncounterProjects(e, t, m, p);
      EncounterCoreKeeps(c, t, m, p, Answer(e, c.Get(m), TradeQuantity(c, t, m), p));
      EncounterAnswers(e, t, m, p);
      var e' := Encounter(e, t, m, p).value;
      var goesOn := e'.core.Get(t).side == c.orders[t].side && RestingOn(e'.core.book, side) < RestingOn(c.book, side);
      if goesOn { SweepAnswers(e', t); }
      EncounterClean(e, t, m, p, Sweep(e, t).value);
      if goesOn {
        SweepClean(e', t);
        CleanThen(e, e', Sweep(e', t).value);
      }
    }
  }

  lemma {:induction false} EncounterClean(e: Engine, t: OrderId, m: OrderId, p: Price, last: Engine)
    requires Meets(e.core, t, m) && NoOco(e.core) && Encounter(e, t, m, p).Ok?
    requires Encounter(e, t, m, p).value.answers <= last.answers && AllPass(e, last)
    ensures Clean(e, Encounter(e, t, m, p).value)
  {
    var q := TradeQuantity(e.core, t, m);
    EncounterAnswers(e, t, m, p);
    assert last.answers[|e.answers|] == Answer(e, e.core.Get(m), q, p);
    TradeClean(Checked(e, e.core.Get(m), q, p), t, m, q, p);
  }

  /** SINGLE and OTO submissions that pass every check. */
  lemma {:induction false} SubmitClean(e: Engine, id: OrderId, stored: set<OrderId>)
    requires Inv(e.core) && Entering(e.core, id) && NoOco(e.core)
    requires Submit(e, id, stored).Ok? && AllPass(e, Submit(e, id, stored).value)
    ensures Clean(e, Submit(e, id, stored).value)
  {
    var o := e.core.orders[id];
    if Crossable(e.core.book, o) {
      var e1 := Checked(e, o, o.quantity, o.price);
      FirstCheckPassed(e, id, stored);
      assert Submit(e, id, stored) == MatchOrRest(e1, id, stored);
      MatchOrRestClean(e1, id, stored);
    }
  }

  lemma {:induction false} MatchOrRestClean(e: Engine, id: OrderId, stored: set<OrderId>)
    requires Inv(e.core) && Entering(e.core, id) && NoOco(e.core)
    requires MatchOrRest(e, id, stored).Ok? && AllPass(e, MatchOrRest(e, id, stored).value)
    ensures Clean(e, MatchOrRest(e, id, stored).value)
  {
    SweepAnswers(e, id);
    var e2 := Sweep(e, id).value;
    assert MatchOrRest(e, id, stored).value.answers == e2.answers;
    SweepClean(e, id);
    if !e2.core.Get(id).Complete() { CleanThen(e, e2, Place(e2, id, stored).value); }
  }

  lemma {:induction false} HandleClean(e: Engine, cmd: Command)
    requires Inv(e.core) && NoOco(e.core) && CmdOk(e.core, cmd) && (cmd.NewSingle? || cmd.NewOto?)
    requires Handle(e, cmd).Ok? && AllPass(e, Handle(e, cmd).value)
    ensures Clean(e, Handle(e, cmd).value)
  {
    IntakeKeeps(e.core, cmd);
    var e0 := e.(core := Intake(e.core, cmd));
    if cmd.NewSingle? {
      SubmitClean(e0, cmd.order.id, {cmd.order.id});
    } else {
      SubmitClean(e0, cmd.parent.id, {cmd.parent.id, cmd.child.id});
    }
  }
}
