/**
 * Book, orders and store after any run are a function of where it started, the commands, and the answers
 * of the balance checks: nothing else about ledger, log or wiring can influence them. Nor can the lists of
 * fills influence anything else, so the law is proved for equal cores and for cores equal up to fills.
 */
module Determinism {
  import opened Types
  import opened Collections
  import opened BookModel
  import opened EngineSpec
  import opened Matching
  import opened Runs
  import opened Conservation
  import opened Raising
  import opened Replay
  import opened Restoring

  /** The answers given between `e` and `e'`. */
  ghost function Since(e: Engine, e': Engine): seq<bool> {
    if |e.answers| <= |e'.answers| then e'.answers[|e.answers|..] else []
  }

  /** One of two answer lists continues the other. */
  ghost predicate Comparable(x: seq<bool>, y: seq<bool>) { x <= y || y <= x }

  /** Equal cores, or cores equal up to fills. */
  ghost predicate Same(exact: bool, c: Core, d: Core) { if exact then c == d else Alike(c, d) }

  ghost predicate BothSame(exact: bool, r: Result<Core>, s: Result<Core>) {
    r.Ok? == s.Ok? && (r.Ok? ==> Same(exact, r.value, s.value))
  }

  lemma {:induction false} SameIsAlike(exact: bool, c: Core, d: Core)
    requires Same(exact, c, d)
    ensures Alike(c, d)
  {
  }

  lemma {:induction false} SameOrderFields(exact: bool, c: Core, d: Core, id: OrderId)
    requires Same(exact, c, d)
    ensures c.book == d.book && c.store == d.store
    ensures var o, o' := c.Get(id), d.Get(id);
      && o == o'.(fills := o.fills)
      && o.Key() == o'.Key() && o.Remaining() == o'.Remaining() && o.Complete() == o'.Complete()
  {
    SameIsAlike(exact, c, d);
    SameFields(c, d, id);
  }

  lemma {:induction false} EncounterSame(exact: bool, c: Core, d: Core, t: OrderId, m: OrderId, q: int, p: Price,
                                         pass: bool)
    requires Same(exact, c, d)
    ensures BothSame(exact, EncounterCore(c, t, m, q, p, pass), EncounterCore(d, t, m, q, p, pass))
  {
    if !exact { if pass { TradeAlike(c, d, t, m, q, p); } else { CancelAlike(c, d, m); } }
  }

  lemma {:induction false} CancelSame(exact: bool, c: Core, d: Core, id: OrderId)
    requires Same(exact, c, d)
    ensures BothSame(exact, CancelCore(c, id), CancelCore(d, id))
  {
    if !exact { CancelAlike(c, d, id); }
  }

  lemma {:induction false} PlaceSame(exact: bool, a: Engine, b: Engine, id: OrderId, stored: set<OrderId>)
    requires Same(exact, a.core, b.core) && Place(a, id, stored).Ok? && Place(b, id, stored).Ok?
    ensures Same(exact, Place(a, id, stored).value.core, Place(b, id, stored).value.core)
    ensures Place(a, id, stored).value.answers == a.answers && Place(b, id, stored).value.answers == b.answers
  {
    if !exact { EnbookAlike(a.core, b.core, id); }
  }

  lemma {:induction false} IntakeSame(exact: bool, c: Core, d: Core, cmd: Command)
    requires Same(exact, c, d)
    ensures Same(exact, Intake(c, cmd), Intake(d, cmd))
  {
    if !exact { IntakeAlike(c, d, cmd); }
  }

  /** Same core, and the same answers on the way to it. */
  ghost predicate SameStep(exact: bool, a: Engine, a': Engine, b: Engine, b': Engine) {
    Same(exact, a'.core, b'.core) && Since(a, a') == Since(b, b')
  }

  lemma {:induction false} SinceSplits(e: Engine, e1: Engine, e': Engine)
    requires e.answers <= e1.answers <= e'.answers
    ensures Since(e, e') == Since(e, e1) + Since(e1, e')
  {
  }

  lemma {:induction false} ComparableSplits(x: seq<bool>, x': seq<bool>, y: seq<bool>, y': seq<bool>)
    requires Comparable(x + x', y + y')
    ensures Comparable(x, y) && (x == y ==> Comparable(x', y'))
  {
    var n := if |x| <= |y| then |x| else |y|;
    assert x[..n] == (x + x')[..n] && y[..n] == (y + y')[..n];
    if x == y {
      assert (x + x')[|x|..] == x' && (y + y')[|y|..] == y';
    }
  }

  lemma {:induction false} Joins(exact: bool, a: Engine, a1: Engine, a': Engine, b: Engine, b1: Engine, b': Engine)
    requires a.answers <= a1.answers <= a'.answers && b.answers <= b1.answers <= b'.answers
    requires Since(a, a1) == Since(b, b1) && SameStep(exact, a1, a', b1, b')
    ensures SameStep(exact, a, a', b, b')
  {
    SinceSplits(a, a1, a');
    SinceSplits(b, b1, b');
  }

  /** Comparable answers overall are comparable up to the middle and, if equal there, from it. */
  lemma {:induction false} Parts(a: Engine, a1: Engine, a': Engine, b: Engine, b1: Engine, b': Engine)
    requires a.answers <= a1.answers <= a'.answers && b.answers <= b1.answers <= b'.answers
    requires Comparable(Since(a, a'), Since(b, b'))
    ensures Comparable(Since(a, a1), Since(b, b1))
    ensures Since(a, a1) == Since(b, b1) ==> Comparable(Since(a1, a'), Since(b1, b'))
  {
    SinceSplits(a, a1, a');
    SinceSplits(b, b1, b');
    ComparableSplits(Since(a, a1), Since(a1, a'), Since(b, b1), Since(b1, b'));
  }

  lemma {:induction false} EncounterDetermined(exact: bool, a: Engine, b: Engine, t: OrderId, m: OrderId, p: Price)
    requires Same(exact, a.core, b.core) && Encounter(a, t, m, p).Ok? && Encounter(b, t, m, p).Ok?
    requires Comparable(Since(a, Encounter(a, t, m, p).value), Since(b, Encounter(b, t, m, p).value))
    ensures SameStep(exact, a, Encounter(a, t, m, p).value, b, Encounter(b, t, m, p).value)
  {
    EncounterAnswers(a, t, m, p);
    EncounterAnswers(b, t, m, p);
    EncounterProjects(a, t, m, p);
    EncounterProjects(b, t, m, p);
    SameOrderFields(exact, a.core, b.core, t);
    SameOrderFields(exact, a.core, b.core, m);
    var q := TradeQuantity(a.core, t, m);
    var x, y := Answer(a, a.core.Get(m), q, p), Answer(b, b.core.Get(m), q, p);
    assert Since(a, Encounter(a, t, m, p).value) == [x] && Since(b, Encounter(b, t, m, p).value) == [y];
    assert [x][0] == [y][0];
    EncounterSame(exact, a.core, b.core, t, m, q, p, x);
  }

  ghost predicate GoesOn(c: Core, c': Core, t: OrderId, side: Side) {
    c'.Get(t).side == c.Get(t).side && RestingOn(c'.book, side) < RestingOn(c.book, side)
  }

  /** One turn of the sweep. */
  lemma {:induction false} SweepTurns(e: Engine, e': Engine, t: OrderId, side: Side, m: OrderId, p: Price)
    requires side == e.core.Get(t).side.Opposite() && e.core.Get(t).executed < e.core.Get(t).quantity
    requires Front(e.core.book, side) == Some(m) && Best(e.core.book, side) == Some(p)
    requires Encounter(e, t, m, p) == Ok(e')
    ensures Sweep(e, t) == if GoesOn(e.core, e'.core, t, side) then Sweep(e', t) else Ok(e')
  {
  }

  lemma {:induction false} SweepDetermined(exact: bool, a: Engine, b: Engine, t: OrderId)
    requires Same(exact, a.core, b.core) && Sweep(a, t).Ok? && Sweep(b, t).Ok?
    requires Comparable(Since(a, Sweep(a, t).value), Since(b, Sweep(b, t).value))
    ensures SameStep(exact, a, Sweep(a, t).value, b, Sweep(b, t).value)
    decreases RestingOn(a.core.book, a.core.Get(t).side.Opposite())
  {
    SameOrderFields(exact, a.core, b.core, t);
    if Stops(a.core, t) {
      assert Sweep(a, t) == Ok(a) && Sweep(b, t) == Ok(b);
    } else {
      var a1, b1 := Turn(exact, a, b, t);
      if GoesOn(a.core, a1.core, t, a.core.Get(t).side.Opposite()) {
        SweepDetermined(exact, a1, b1, t);
        Joins(exact, a, a1, Sweep(a1, t).value, b, b1, Sweep(b1, t).value);
      }
    }
  }

  /** Both sweeps turn once, to the same core. */
  lemma {:induction false} Turn(exact: bool, a: Engine, b: Engine, t: OrderId) returns (a1: Engine, b1: Engine)
    requires Same(exact, a.core, b.core) && Sweep(a, t).Ok? && Sweep(b, t).Ok? && !Stops(a.core, t)
    requires Comparable(Since(a, Sweep(a, t).value), Since(b, Sweep(b, t).value))
    ensures SameStep(exact, a, a1, b, b1)
    ensures Comparable(Since(a1, Sweep(a, t).value), Since(b1, Sweep(b, t).value))
    ensures a.answers <= a1.answers <= Sweep(a, t).value.answers
    ensures b.answers <= b1.answers <= Sweep(b, t).value.answers
    ensures var goesOn := GoesOn(a.core, a1.core, t, a.core.Get(t).side.Opposite());
      && Sweep(a, t) == (if goesOn then Sweep(a1, t) else Ok(a1))
      && Sweep(b, t) == (if goesOn then Sweep(b1, t) else Ok(b1))
  {
    var side := a.core.Get(t).side.Opposite();
    var m, p := Front(a.core.book, side).value, Best(a.core.book, side).value;
    SameOrderFields(exact, a.core, b.core, t);
    a1, b1 := Encounter(a, t, m, p).value, Encounter(b, t, m, p).value;
    SweepTurns(a, a1, t, side, m, p);
    SweepTurns(b, b1, t, side, m, p);
    TurnDetermined(exact, a, b, a1, b1, t, m, p);
    SameOrderFields(exact, a1.core, b1.core, t);
  }

  lemma {:induction false} TurnDetermined(exact: bool, a: Engine, b: Engine, a1: Engine, b1: Engine,
                                          t: OrderId, m: OrderId, p: Price)
    requires Same(exact, a.core, b.core) && Sweep(a, t).Ok? && Sweep(b, t).Ok?
    requires Encounter(a, t, m, p) == Ok(a1) && Encounter(b, t, m, p) == Ok(b1)
    requires Sweep(a, t) == Sweep(a1, t) || Sweep(a, t) == Ok(a1)
    requires Sweep(b, t) == Sweep(b1, t) || Sweep(b, t) == Ok(b1)
    requires Comparable(Since(a, Sweep(a, t).value), Since(b, Sweep(b, t).value))
    ensures SameStep(exact, a, a1, b, b1)
    ensures Comparable(Since(a1, Sweep(a, t).value), Since(b1, Sweep(b, t).value))
    ensures a.answers <= a1.answers <= Sweep(a, t).value.answers
    ensures b.answers <= b1.answers <= Sweep(b, t).value.answers
  {
    TurnAnswers(a, a1, t, m, p);
    TurnAnswers(b, b1, t, m, p);
    Parts(a, a1, Sweep(a, t).value, b, b1, Sweep(b, t).value);
    EncounterDetermined(exact, a, b, t, m, p);
  }

  lemma {:induction false} TurnAnswers(e: Engine, e1: Engine, t: OrderId, m: OrderId, p: Price)
    requires Encounter(e, t, m, p) == Ok(e1) && Sweep(e, t).Ok?
    requires Sweep(e, t) == Sweep(e1, t) || Sweep(e, t) == Ok(e1)
    ensures e.answers <= e1.answers <= Sweep(e, t).value.answers
  {
    EncounterAnswers(e, t, m, p);
    if Sweep(e, t) == Sweep(e1, t) { SweepAnswers(e1, t); }
  }

  lemma {:induction false} MatchOrRestDetermined(exact: bool, a: Engine, b: Engine, id: OrderId, stored: set<OrderId>)
    requires Same(exact, a.core, b.core) && MatchOrRest(a, id, stored).Ok? && MatchOrRest(b, id, stored).Ok?
    requires Comparable(Since(a, MatchOrRest(a, id, stored).value), Since(b, MatchOrRest(b, id, stored).value))
    ensures SameStep(exact, a, MatchOrRest(a, id, stored).value, b, MatchOrRest(b, id, stored).value)
  {
    RestAnswers(a, id, stored);
    RestAnswers(b, id, stored);
    SweepDetermined(exact, a, b, id);
    var a', b' := Sweep(a, id).value, Sweep(b, id).value;
    SameOrderFields(exact, a'.core, b'.core, id);
    if !a'.core.Get(id).Complete() { PlaceSame(exact, a', b', id, stored); }
  }

  lemma {:induction false} RestAnswers(e: Engine, id: OrderId, stored: set<OrderId>)
    requires MatchOrRest(e, id, stored).Ok?
    ensures Sweep(e, id).Ok? && MatchOrRest(e, id, stored).value.answers == Sweep(e, id).value.answers
  {
  }

  lemma {:induction false} RejectSame(exact: bool, a: Engine, b: Engine, id: OrderId)
    requires Same(exact, a.core, b.core) && Reject(a, id).Ok? && Reject(b, id).Ok?
    ensures Same(exact, Reject(a, id).value.core, Reject(b, id).value.core)
  {
    CancelProjects(a, id);
    CancelProjects(b, id);
    CancelSame(exact, a.core, b.core, id);
  }

  lemma {:induction false} SubmitDetermined(exact: bool, a: Engine, b: Engine, id: OrderId, stored: set<OrderId>)
    requires Same(exact, a.core, b.core) && Submit(a, id, stored).Ok? && Submit(b, id, stored).Ok?
    requires Comparable(Since(a, Submit(a, id, stored).value), Since(b, Submit(b, id, stored).value))
    ensures SameStep(exact, a, Submit(a, id, stored).value, b, Submit(b, id, stored).value)
  {
    SameOrderFields(exact, a.core, b.core, id);
    SubmitCases(a, id, stored);
    SubmitCases(b, id, stored);
    if !Crossable(a.core.book, a.core.Get(id)) {
      PlaceSame(exact, a, b, id, stored);
    } else {
      CrossingDetermined(exact, a, b, id, stored);
    }
  }

  /** The engine after the entry check of order `id`. */
  ghost function Entered(e: Engine, id: OrderId): Engine {
    var o := e.core.Get(id);
    Checked(e, o, o.quantity, o.price)
  }

  ghost predicate EntryAnswer(e: Engine, id: OrderId) {
    var o := e.core.Get(id);
    Answer(e, o, o.quantity, o.price)
  }

  /** The entry check comes first, then matching or rejection. */
  lemma {:induction false} CrossingDetermined(exact: bool, a: Engine, b: Engine, id: OrderId, stored: set<OrderId>)
    requires Same(exact, a.core, b.core)
    requires Crossable(a.core.book, a.core.Get(id)) && Crossable(b.core.book, b.core.Get(id))
    requires Submit(a, id, stored).Ok? && Submit(b, id, stored).Ok?
    requires Comparable(Since(a, Submit(a, id, stored).value), Since(b, Submit(b, id, stored).value))
    ensures SameStep(exact, a, Submit(a, id, stored).value, b, Submit(b, id, stored).value)
  {
    var a1, b1 := Entered(a, id), Entered(b, id);
    var a', b' := Submit(a, id, stored).value, Submit(b, id, stored).value;
    var x, y := EntryAnswer(a, id), EntryAnswer(b, id);
    CrossingAnswers(a, id, stored);
    CrossingAnswers(b, id, stored);
    Parts(a, a1, a', b, b1, b');
    assert Since(a, a1) == [x] && Since(b, b1) == [y];
    assert [x][0] == [y][0];
    SubmitCases(a, id, stored);
    SubmitCases(b, id, stored);
    if x {
      MatchOrRestDetermined(exact, a1, b1, id, stored);
    } else {
      RejectSame(exact, a1, b1, id);
      RejectAnswers(a1, id);
      RejectAnswers(b1, id);
    }
    Joins(exact, a, a1, a', b, b1, b');
  }

  lemma {:induction false} CrossingAnswers(e: Engine, id: OrderId, stored: set<OrderId>)
    requires Crossable(e.core.book, e.core.Get(id)) && Submit(e, id, stored).Ok?
    ensures Entered(e, id).answers == e.answers + [EntryAnswer(e, id)]
    ensures Entered(e, id).answers <= Submit(e, id, stored).value.answers
  {
    SubmitCases(e, id, stored);
    var e1 := Entered(e, id);
    if EntryAnswer(e, id) { MatchOrRestAnswers(e1, id, stored); } else { RejectAnswers(e1, id); }
  }

  lemma {:induction false} HandleDetermined(exact: bool, a: Engine, b: Engine, cmd: Command)
    requires Same(exact, a.core, b.core) && Handle(a, cmd).Ok? && Handle(b, cmd).Ok?
    requires Comparable(Since(a, Handle(a, cmd).value), Since(b, Handle(b, cmd).value))
    ensures SameStep(exact, a, Handle(a, cmd).value, b, Handle(b, cmd).value)
  {
    IntakeSame(exact, a.core, b.core, cmd);
    var a0, b0 := a.(core := Intake(a.core, cmd)), b.(core := Intake(b.core, cmd));
    match cmd
    case NewSingle(s) => SubmitDetermined(exact, a0, b0, s.id, {s.id});
    case NewOto(p, ch) => SubmitDetermined(exact, a0, b0, p.id, {p.id, ch.id});
    case NewOco(x, y) =>
      PlaceSame(exact, a0, b0, x.id, {x.id});
      PlaceSame(exact, Place(a0, x.id, {x.id}).value, Place(b0, x.id, {x.id}).value, y.id, {y.id});
    case Cancel(id) =>
      SameOrderFields(exact, a.core, b.core, id);
      if id in a.core.store { CancelDetermined(exact, a, b, id); }
  }

  lemma {:induction false} CancelDetermined(exact: bool, a: Engine, b: Engine, id: OrderId)
    requires Same(exact, a.core, b.core) && CancelOrder(a, id).Ok? && CancelOrder(b, id).Ok?
    ensures SameStep(exact, a, CancelOrder(a, id).value, b, CancelOrder(b, id).value)
  {
    CancelProjects(a, id);
    CancelProjects(b, id);
    CancelAnswers(a, id);
    CancelAnswers(b, id);
    CancelSame(exact, a.core, b.core, id);
  }

  lemma {:induction false} AnyRunDetermined(exact: bool, a: Engine, b: Engine, cmds: seq<Command>)
    requires Same(exact, a.core, b.core) && Run(a, cmds).Ok? && Run(b, cmds).Ok?
    requires Comparable(Since(a, Run(a, cmds).value), Since(b, Run(b, cmds).value))
    ensures SameStep(exact, a, Run(a, cmds).value, b, Run(b, cmds).value)
  {
    if cmds != [] {
      var n := |cmds| - 1;
      var a1, b1 := Run(a, cmds[..n]).value, Run(b, cmds[..n]).value;
      RunAnswers(a, cmds[..n]);
      RunAnswers(b, cmds[..n]);
      HandleAnswers(a1, cmds[n]);
      HandleAnswers(b1, cmds[n]);
      Parts(a, a1, Run(a, cmds).value, b, b1, Run(b, cmds).value);
      AnyRunDetermined(exact, a, b, cmds[..n]);
      HandleDetermined(exact, a1, b1, cmds[n]);
      Joins(exact, a, a1, Run(a, cmds).value, b, b1, Run(b, cmds).value);
    }
  }

  /**
   * Two runs of the same commands from the same core, whose balance checks were answered alike as far as
   * the shorter list of answers goes, were answered alike throughout and end in the same core.
   */
  lemma {:induction false} RunDetermined(a: Engine, b: Engine, cmds: seq<Command>)
    requires a.core == b.core && Run(a, cmds).Ok? && Run(b, cmds).Ok?
    requires Comparable(Since(a, Run(a, cmds).value), Since(b, Run(b, cmds).value))
    ensures Run(a, cmds).value.core == Run(b, cmds).value.core
    ensures Since(a, Run(a, cmds).value) == Since(b, Run(b, cmds).value)
  {
    AnyRunDetermined(true, a, b, cmds);
  }

  /** Cores that differ in the fills of their orders only stay so, under the same answers. */
  lemma {:induction false} RunAlike(a: Engine, b: Engine, cmds: seq<Command>)
    requires Alike(a.core, b.core) && Run(a, cmds).Ok? && Run(b, cmds).Ok?
    requires Comparable(Since(a, Run(a, cmds).value), Since(b, Run(b, cmds).value))
    ensures Alike(Run(a, cmds).value.core, Run(b, cmds).value.core)
    ensures Since(a, Run(a, cmds).value) == Since(b, Run(b, cmds).value)
  {
    AnyRunDetermined(false, a, b, cmds);
  }
}
