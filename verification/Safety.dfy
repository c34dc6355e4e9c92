/** When a run can raise, and why plain limit-order runs never do. */
module Safety {
  import opened Types
  import opened Collections
  import opened BookModel
  import opened EngineSpec
  import opened Invariants
  import opened Matching
  import opened Runs

  /** A maker that is not an already traded OCO leg. */
  ghost predicate Untroubled(c: Core, m: OrderId) {
    m in c.orders && (c.orders[m].strategy.OcoLeg? ==> c.orders[m].executed == 0)
  }

  lemma HookNeverRaises(c: Core, id: OrderId, hook: set<OrderId>, full: set<OrderId>)
    requires MidInv(c, hook, full) && id in c.orders && id in hook
    requires c.orders[id].strategy.OcoLeg? ==> c.Resting(c.orders[id].strategy.peer)
    ensures HookCore(c, id).Ok?
  {
    assert OrderInv(c, id, hook, full);
    if c.orders[id].strategy.OtoParent? && c.orders[id].Complete() { ActivateKeeps(c, id, hook, full); }
    if c.orders[id].strategy.OcoLeg? { UnbookEffect(c, c.orders[id].strategy.peer); }
  }

  /** Both strategies can react, and the maker is still there to be retired. */
  lemma HooksNeverRaise(c: Core, t: OrderId, m: OrderId)
    requires MidInv(c, {t, m}, {t, m}) && Entering(c, t) && m in c.orders && m != t && c.Resting(m)
    requires c.orders[t].executed > 0 && c.orders[m].executed > 0
    requires c.orders[m].strategy.OcoLeg? ==> c.Resting(c.orders[m].strategy.peer)
    ensures HookCore(c, t).Ok? && HookCore(HookCore(c, t).value, m).Ok?
    ensures BookWf(HookCore(HookCore(c, t).value, m).value.book)
    ensures HookCore(HookCore(c, t).value, m).value.Resting(m)
  {
    HookNeverRaises(c, t, {t, m}, {t, m});
    HookKeeps(c, t, {t, m}, {t, m});
    var c2 := HookCore(c, t).value;
    assert {t, m} - {t} == {m};
    HookNeverRaises(c2, m, {m}, {t, m});
    HookKeeps(c2, m, {m}, {t, m});
    assert OrderInv(c, m, {t, m}, {t, m});
  }

  lemma TradeNeverRaises(c: Core, t: OrderId, m: OrderId, q: int, p: Price)
    requires Meets(c, t, m) && q == TradeQuantity(c, t, m) && Untroubled(c, m)
    ensures TradeCore(c, t, m, q, p).Ok?
  {
    assert OrderInv(c, m, {}, {}) && OrderInv(c, t, {}, {});
    FillsKeep(c, t, m, q, p);
    var c1 := Filled(c, t, m, q, p);
    assert forall x :: c1.Resting(x) == c.Resting(x);
    HooksNeverRaise(c1, t, m);
    UnbookEffect(HookCore(HookCore(c1, t).value, m).value, m);
  }

  lemma CancelRestingNeverRaises(c: Core, m: OrderId)
    requires Inv(c) && m in c.orders && c.Resting(m) && Untroubled(c, m)
    ensures CancelCore(c, m).Ok?
  {
    assert OrderInv(c, m, {}, {});
    UnbookEffect(c, m);
    var c1 := Unbook(c, m).value;
    if c.orders[m].strategy.OcoLeg? {
      var peer := c.orders[m].strategy.peer;
      UnbookEffect(c1, peer);
      assert UnbookAll(c, [m, peer]) == UnbookAll(c1, [peer]);
      assert UnbookAll(c1, [peer]) == UnbookAll(Unbook(c1, peer).value, []);
    } else {
      assert UnbookAll(c, [m]) == UnbookAll(c1, []);
    }
  }

  /** No OCO leg rests in the book. */
  ghost predicate NoOco(c: Core) { forall id :: c.Resting(id) ==> !c.Get(id).strategy.OcoLeg? }

  /** If only OTO children come to rest, no leg does. */
  lemma {:induction false} StaysNoOco(c: Core, c': Core)
    requires NoOco(c) && Inv(c) && Evolves(c, c') && OnlyChildrenJoin(c, c')
    ensures NoOco(c')
  {
    forall id | c'.Resting(id)
      ensures !c'.Get(id).strategy.OcoLeg?
    {
      assert id in c.orders;
      var o, o' := c.orders[id], c'.orders[id];
      assert Terms(o').strategy == o'.strategy && Terms(o).strategy == o.strategy;
    }
  }

  lemma {:induction false} SweepNeverRaises(e: Engine, t: OrderId)
    requires Inv(e.core) && Entering(e.core, t) && NoOco(e.core)
    ensures Sweep(e, t).Ok?
    decreases RestingOn(e.core.book, e.core.Get(t).side.Opposite())
  {
    var c := e.core;
    var side := c.orders[t].side.Opposite();
    FrontFacts(c, side);
    if c.orders[t].executed < c.orders[t].quantity && Front(c.book, side).Some? {
      var m, p := Front(c.book, side).value, Best(c.book, side).value;
      var q := TradeQuantity(c, t, m);
      FrontMeets(c, t);
      TradeNeverRaises(c, t, m, q, p);
      CancelRestingNeverRaises(c, m);
      EncounterProjects(e, t, m, p);
      EncounterCoreKeeps(c, t, m, p, Answer(e, c.Get(m), q, p));
      var e' := Encounter(e, t, m, p).value;
      if e'.core.Get(t).side == c.orders[t].side
         && RestingOn(e'.core.book, side) < RestingOn(c.book, side) {
        SweepNeverRaises(e', t);
      }
    }
  }

  /**
   * The one way a New command can raise: it crosses, its owner cannot pay, and a level happens to
   * exist on its own side at its own price, from which the never-placed order is then "removed".
   */
  ghost predicate RemovesUnplaced(e: Engine, o: Order) {
    Crossable(e.core.book, o) && !Answer(e, o, o.quantity, o.price) && o.Key() in e.core.book
  }

  lemma SubmitRaisesIff(e: Engine, id: OrderId, stored: set<OrderId>)
    requires Inv(e.core) && Entering(e.core, id) && NoOco(e.core) && !e.core.orders[id].Complete()
    requires stored == {id} + CancelForgets(e.core.orders[id])
    ensures Submit(e, id, stored).Raised? <==> RemovesUnplaced(e, e.core.orders[id])
  {
    var o := e.core.orders[id];
    assert OrderInv(e.core, id, {}, {});
    if !Crossable(e.core.book, o) {
      PlaceKeeps(e.core, id, stored);
    } else {
      var e1 := Checked(e, o, o.quantity, o.price);
      if Answer(e, o, o.quantity, o.price) {
        SweepNeverRaises(e1, id);
        SweepKeeps(e1, id);
        var e2 := Sweep(e1, id).value;
        assert OrderInv(e2.core, id, {}, {});
        if !e2.core.orders[id].Complete() { PlaceKeeps(e2.core, id, stored); }
      } else {
        CancelProjects(e1, id);
        UnbookEffect(e1.core, id);
        if o.Key() !in e1.core.book {
          assert UnbookAll(e1.core, [id]) == UnbookAll(Unbook(e1.core, id).value, []);
        }
      }
    }
  }

  ghost predicate SingleOrOto(cmd: Command) { !cmd.NewOco? }

  /** In SINGLE and OTO runs a command raises exactly when it removes an order that was never placed. */
  lemma HandleRaisesIffNoOco(e: Engine, cmd: Command)
    requires Inv(e.core) && NoOco(e.core) && CmdOk(e.core, cmd) && SingleOrOto(cmd)
    ensures Handle(e, cmd).Raised? <==>
      var c0 := Intake(e.core, cmd);
      || (cmd.NewSingle? && RemovesUnplaced(e.(core := c0), c0.Get(cmd.order.id)))
      || (cmd.NewOto? && RemovesUnplaced(e.(core := c0), c0.Get(cmd.parent.id)))
  {
    IntakeKeeps(e.core, cmd);
    var e0 := e.(core := Intake(e.core, cmd));
    match cmd
    case NewSingle(s) => SubmitRaisesIff(e0, s.id, {s.id});
    case NewOto(p, ch) => SubmitRaisesIff(e0, p.id, {p.id, ch.id});
    case Cancel(id) =>
      if id in e.core.store {
        CancelProjects(e, id);
        CancelStoredNeverRaises(e.core, id);
      }
  }

  lemma CancelStoredNeverRaises(c: Core, id: OrderId)
    requires Inv(c) && NoOco(c) && id in c.store
    ensures CancelCore(c, id).Ok?
  {
    assert OrderInv(c, id, {}, {});
    if c.Resting(id) {
      CancelRestingNeverRaises(c, id);
    } else {
      var parent := c.orders[id].strategy.parent;
      UnbookEffect(c, parent);
      assert UnbookAll(c, [parent]) == UnbookAll(Unbook(c, parent).value, []);
    }
  }
}
