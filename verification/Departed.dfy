/** Orders that have left for good: cancelled or rejected, they never trade again. */
module Departed {
  import opened Types
  import opened Collections
  import opened BookModel
  import opened EngineSpec
  import opened Invariants
  import opened Matching
  import opened Runs
  import opened Conservation
  import opened Raising
  import opened Priority

  /** An active order that is in neither book nor store. */
  ghost predicate Gone(c: Core, x: OrderId) {
    x in c.orders && c.orders[x].active && !c.Resting(x) && x !in c.store
  }

  /** It stays so, with the same executed quantity. */
  ghost predicate StaysGone(c: Core, c': Core, x: OrderId) {
    x in c.orders && Gone(c', x) && c'.orders[x].executed == c.orders[x].executed
  }

  lemma {:induction false} StaysGoneThen(c: Core, c1: Core, c': Core, x: OrderId)
    requires StaysGone(c, c1, x) && StaysGone(c1, c', x)
    ensures StaysGone(c, c', x)
  {
  }

  /** The child that a fill may activate was inactive before. */
  lemma {:induction false} ChildWasInactive(c: Core, t: OrderId, m: OrderId, q: int, p: Price, id: OrderId, x: OrderId)
    requires Meets(c, t, m) && (id == t || id == m) && Child(Filled(c, t, m, q, p), id, x)
    ensures x in c.orders && !c.orders[x].active
  {
    assert OrderInv(c, t, {}, {}) && OrderInv(c, m, {}, {});
  }

  lemma {:induction false} TradeKeepsGone(c: Core, t: OrderId, m: OrderId, p: Price, x: OrderId)
    requires Meets(c, t, m) && TradeCore(c, t, m, TradeQuantity(c, t, m), p).Ok? && Gone(c, x) && x != t
    ensures StaysGone(c, TradeCore(c, t, m, TradeQuantity(c, t, m), p).value, x)
  {
    var q := TradeQuantity(c, t, m);
    assert OrderInv(c, t, {}, {}) && OrderInv(c, m, {}, {});
    TradeKeeps(c, t, m, q, p);
    FillsKeep(c, t, m, q, p);
    var c1 := Filled(c, t, m, q, p);
    assert forall y :: c1.Resting(y) == c.Resting(y);
    HooksKeep(c1, t, m);
    ReactKeeps(c, t, m, q, p);
    var c3 := HookCore(HookCore(c1, t).value, m).value;
    RetireKeeps(c3, m, {t, m});
    if Child(c1, t, x) { ChildWasInactive(c, t, m, q, p, t, x); }
    if Child(c1, m, x) { ChildWasInactive(c, t, m, q, p, m, x); }
  }

  lemma {:induction false} EncounterKeepsGone(c: Core, t: OrderId, m: OrderId, p: Price, pass: bool, x: OrderId)
    requires Meets(c, t, m) && EncounterCore(c, t, m, TradeQuantity(c, t, m), p, pass).Ok? && Gone(c, x) && x != t
    ensures StaysGone(c, EncounterCore(c, t, m, TradeQuantity(c, t, m), p, pass).value, x)
  {
    assert OrderInv(c, m, {}, {});
    if pass { TradeKeepsGone(c, t, m, p, x); } else { CancelKeeps(c, m); }
  }

  lemma {:induction false} FrontKeepsGone(e: Engine, t: OrderId, x: OrderId)
    requires Inv(e.core) && Entering(e.core, t) && !Stops(e.core, t) && MeetFront(e, t).Ok? && Gone(e.core, x) && x != t
    ensures StaysGone(e.core, MeetFront(e, t).value.core, x)
  {
    var side := e.core.Get(t).side.Opposite();
    var m, p := Front(e.core.book, side).value, Best(e.core.book, side).value;
    FrontMeets(e.core, t);
    EncounterProjects(e, t, m, p);
    EncounterKeepsGone(e.core, t, m, p, FrontPasses(e, t), x);
  }

  /** A sweep that succeeds met its first maker without an exception. */
  lemma {:induction false} FirstMeetingIsOk(e: Engine, t: OrderId)
    requires !Stops(e.core, t) && Sweep(e, t).Ok?
    ensures MeetFront(e, t).Ok?
  {
  }

  lemma {:induction false} SweepKeepsGone(e: Engine, t: OrderId, x: OrderId)
    requires Inv(e.core) && Entering(e.core, t) && Sweep(e, t).Ok? && Gone(e.core, x) && x != t
    ensures StaysGone(e.core, Sweep(e, t).value.core, x)
    decreases RestingOn(e.core.book, e.core.Get(t).side.Opposite())
  {
    if Stops(e.core, t) {
      SweepEnds(e, t);
    } else {
      FirstMeetingIsOk(e, t);
      FrontKeeps(e, t);
      FrontKeepsGone(e, t, x);
      var e1 := MeetFront(e, t).value;
      if Stops(e1.core, t) { SweepEnds(e1, t); } else { SweepKeepsGone(e1, t, x); }
      StaysGoneThen(e.core, e1.core, Sweep(e1, t).value.core, x);
    }
  }

  /** What resting an order adds to the store: itself and the child that waits on it. */
  ghost predicate StoredWith(c: Core, id: OrderId, stored: set<OrderId>) {
    id in c.orders && stored == {id} + CancelForgets(c.orders[id])
  }

  lemma {:induction false} PlaceKeepsGone(e: Engine, id: OrderId, stored: set<OrderId>, x: OrderId)
    requires Inv(e.core) && Entering(e.core, id) && e.core.orders[id].executed < e.core.orders[id].quantity
    requires StoredWith(e.core, id, stored) && Place(e, id, stored).Ok? && Gone(e.core, x) && x != id
    ensures StaysGone(e.core, Place(e, id, stored).value.core, x)
  {
    assert OrderInv(e.core, id, {}, {});
    EnbookEffect(e.core, id);
    var c, c' := Enbook(e.core, id).value, Place(e, id, stored).value.core;
    assert c' == c.(store := c'.store);
    assert c'.Resting(x) == c.Resting(x);
  }

  lemma {:induction false} CancelKeepsGone(c: Core, id: OrderId, x: OrderId)
    requires Inv(c) && CancelCore(c, id).Ok? && Gone(c, x)
    ensures StaysGone(c, CancelCore(c, id).value, x)
  {
    UnbookAllEffect(c, CancelTargets(c.Get(id)));
    var c1, c' := UnbookAll(c, CancelTargets(c.Get(id))).value, CancelCore(c, id).value;
    assert c' == c1.(store := c'.store);
    assert c'.Resting(x) == c1.Resting(x);
  }

  lemma {:induction false} MatchOrRestKeepsGone(e: Engine, id: OrderId, stored: set<OrderId>, x: OrderId)
    requires Inv(e.core) && Entering(e.core, id) && StoredWith(e.core, id, stored)
    requires MatchOrRest(e, id, stored).Ok? && Gone(e.core, x) && x != id
    ensures StaysGone(e.core, MatchOrRest(e, id, stored).value.core, x)
  {
    SweepKeepsGone(e, id, x);
    SweepKeeps(e, id);
    var e2 := Sweep(e, id).value;
    assert OrderInv(e2.core, id, {}, {});
    TermsKeepStored(e.core, e2.core, id, stored);
    if !e2.core.Get(id).Complete() {
      PlaceKeepsGone(e2, id, stored, x);
      StaysGoneThen(e.core, e2.core, Place(e2, id, stored).value.core, x);
    }
  }

  lemma {:induction false} TermsKeepStored(c: Core, c': Core, id: OrderId, stored: set<OrderId>)
    requires StoredWith(c, id, stored) && Entering(c, id) && Entering(c', id)
    requires Terms(c'.orders[id]) == Terms(c.orders[id])
    ensures StoredWith(c', id, stored)
  {
    var o, o' := c.orders[id], c'.orders[id];
    assert Terms(o').strategy == o'.strategy && Terms(o).strategy == o.strategy;
    assert Terms(o').id == o'.id && Terms(o).id == o.id;
  }

  lemma {:induction false} SubmitKeepsGone(e: Engine, id: OrderId, stored: set<OrderId>, x: OrderId)
    requires Inv(e.core) && Entering(e.core, id) && StoredWith(e.core, id, stored)
    requires e.core.orders[id].executed < e.core.orders[id].quantity
    requires Submit(e, id, stored).Ok? && Gone(e.core, x) && x != id
    ensures StaysGone(e.core, Submit(e, id, stored).value.core, x)
  {
    var o := e.core.orders[id];
    var e1 := Checked(e, o, o.quantity, o.price);
    SubmitCases(e, id, stored);
    if !Crossable(e.core.book, o) {
      PlaceKeepsGone(e, id, stored, x);
    } else if Answer(e, o, o.quantity, o.price) {
      MatchOrRestKeepsGone(e1, id, stored, x);
    } else {
      CancelProjects(e1, id);
      CancelKeepsGone(e1.core, id, x);
    }
  }

  lemma {:induction false} IntakeKeepsGone(c: Core, cmd: Command, x: OrderId)
    requires Inv(c) && CmdOk(c, cmd) && Gone(c, x)
    ensures StaysGone(c, Intake(c, cmd), x)
  {
    var c0 := Intake(c, cmd);
    assert c0.Get(x) == c.Get(x) && c0.book == c.book;
  }

  /** Whatever command comes, an order that is gone stays gone and is not filled. */
  lemma {:induction false} HandleKeepsGone(e: Engine, cmd: Command, x: OrderId)
    requires Inv(e.core) && CmdOk(e.core, cmd) && Handle(e, cmd).Ok? && Gone(e.core, x)
    ensures StaysGone(e.core, Handle(e, cmd).value.core, x)
  {
    IntakeKeeps(e.core, cmd);
    IntakeKeepsGone(e.core, cmd, x);
    var e0 := e.(core := Intake(e.core, cmd));
    match cmd
    case NewSingle(s) => SubmitKeepsGone(e0, s.id, {s.id}, x);
    case NewOto(p, ch) => SubmitKeepsGone(e0, p.id, {p.id, ch.id}, x);
    case NewOco(a, b) => LegsKeepGone(e0, a.id, b.id, x);
    case Cancel(id) =>
      if id in e.core.store {
        CancelProjects(e, id);
        CancelKeepsGone(e.core, id, x);
      }
  }

  lemma {:induction false} LegsKeepGone(e: Engine, a: OrderId, b: OrderId, x: OrderId)
    requires Inv(e.core) && Gone(e.core, x) && x != a && x != b && Place(e, a, {a}).Ok?
    requires Place(Place(e, a, {a}).value, b, {b}).Ok?
    ensures StaysGone(e.core, Place(Place(e, a, {a}).value, b, {b}).value.core, x)
  {
    OutsiderStays(e, a, x);
    OutsiderStays(Place(e, a, {a}).value, b, x);
  }

  lemma {:induction false} OutsiderStays(e: Engine, a: OrderId, x: OrderId)
    requires Gone(e.core, x) && x != a && Place(e, a, {a}).Ok?
    ensures StaysGone(e.core, Place(e, a, {a}).value.core, x)
  {
  }
}
