/** Whole runs of New and Cancel commands. */
module Runs {
  import opened Types
  import opened Collections
  import opened BookModel
  import opened EngineSpec
  import opened Invariants
  import opened Matching

  ghost predicate SpecOk(c: Core, s: OrderSpec) { s.quantity > 0 && s.price > 0 && s.id !in c.orders }

  /**
   * What the API guarantees of a command: fresh ids, positive quantity and price, one user per group,
   * an OTO child on the other side of its parent, OCO legs at different levels.
   */
  ghost predicate CmdOk(c: Core, cmd: Command) {
    match cmd
    case NewSingle(s) => SpecOk(c, s)
    case NewOto(p, ch) =>
      SpecOk(c, p) && SpecOk(c, ch) && p.id != ch.id && p.user == ch.user && p.side != ch.side
    case NewOco(a, b) =>
      SpecOk(c, a) && SpecOk(c, b) && a.id != b.id && a.user == b.user && (a.side, a.price) != (b.side, b.price)
    case Cancel(_) => true
  }

  /** Every command of the run is admissible in the state it meets. */
  ghost predicate Admissible(e: Engine, cmds: seq<Command>) {
    cmds == [] ||
    (var n := |cmds| - 1;
     && Admissible(e, cmds[..n])
     && (Run(e, cmds[..n]).Ok? ==> CmdOk(Run(e, cmds[..n]).value.core, cmds[n])))
  }

  /** A New command whose order may match on entry. */
  predicate Submits(cmd: Command) { cmd.NewSingle? || cmd.NewOto? }

  /** The order that may match. */
  function NewId(cmd: Command): OrderId
    requires Submits(cmd)
  {
    if cmd.NewSingle? then cmd.order.id else cmd.parent.id
  }

  /** What is stored if it rests. */
  function StoredBy(cmd: Command): set<OrderId>
    requires Submits(cmd)
  {
    if cmd.NewSingle? then {cmd.order.id} else {cmd.parent.id, cmd.child.id}
  }

  /** The core a New command starts from: its order objects exist but are nowhere yet. */
  ghost function Intake(c: Core, cmd: Command): Core {
    match cmd
    case NewSingle(s) => c.Put(s.ToOrder(Single, true))
    case NewOto(p, ch) => c.Put(p.ToOrder(OtoParent(ch.id), true)).Put(ch.ToOrder(OtoChild(p.id), false))
    case NewOco(a, b) => c.Put(a.ToOrder(OcoLeg(b.id), true)).Put(b.ToOrder(OcoLeg(a.id), true))
    case Cancel(_) => c
  }

  lemma IntakeKeeps(c: Core, cmd: Command)
    requires Inv(c) && CmdOk(c, cmd)
    ensures Inv(Intake(c, cmd)) && Evolves(c, Intake(c, cmd))
    ensures cmd.NewSingle? ==> Entering(Intake(c, cmd), cmd.order.id)
    ensures cmd.NewOto? ==> Entering(Intake(c, cmd), cmd.parent.id)
  {
    match cmd
    case NewSingle(s) => AddKeeps(c, s.ToOrder(Single, true));
    case NewOto(p, ch) => AddPairKeeps(c, p.ToOrder(OtoParent(ch.id), true), ch.ToOrder(OtoChild(p.id), false));
    case NewOco(a, b) => AddPairKeeps(c, a.ToOrder(OcoLeg(b.id), true), b.ToOrder(OcoLeg(a.id), true));
    case Cancel(_) =>
  }

  /** Such a command submits its order. */
  lemma {:induction false} HandleSubmits(e: Engine, cmd: Command)
    requires Inv(e.core) && CmdOk(e.core, cmd) && Submits(cmd)
    ensures var e0 := e.(core := Intake(e.core, cmd));
      var id := NewId(cmd);
      && Handle(e, cmd) == Submit(e0, id, StoredBy(cmd))
      && Inv(e0.core) && Entering(e0.core, id) && e0.core.orders[id].executed == 0
      && e0.core.orders[id].executed < e0.core.orders[id].quantity
      && StoredBy(cmd) == {id} + CancelForgets(e0.core.orders[id])
      && forall x :: e0.core.Resting(x) <==> e.core.Resting(x)
  {
    IntakeKeeps(e.core, cmd);
    var c0 := Intake(e.core, cmd);
    assert OrderInv(c0, NewId(cmd), {}, {});
    forall x
      ensures c0.Resting(x) <==> e.core.Resting(x)
    {
      if x in e.core.orders { assert c0.Get(x) == e.core.Get(x); }
    }
  }

  lemma SubmitKeeps(e: Engine, id: OrderId, stored: set<OrderId>)
    requires Inv(e.core) && Entering(e.core, id) && !e.core.orders[id].Complete()
    requires stored == {id} + CancelForgets(e.core.orders[id])
    requires Submit(e, id, stored).Ok?
    ensures Inv(Submit(e, id, stored).value.core) && Evolves(e.core, Submit(e, id, stored).value.core)
  {
    var o := e.core.orders[id];
    assert OrderInv(e.core, id, {}, {});
    if !Crossable(e.core.book, o) {
      PlaceKeeps(e.core, id, stored);
    } else {
      var e1 := Checked(e, o, o.quantity, o.price);
      if Answer(e, o, o.quantity, o.price) {
        SweepKeeps(e1, id);
        var e2 := Sweep(e1, id).value;
        assert OrderInv(e2.core, id, {}, {});
        if !e2.core.orders[id].Complete() { PlaceKeeps(e2.core, id, stored); }
      } else {
        CancelProjects(e1, id);
        CancelKeeps(e1.core, id);
      }
    }
  }

  /** Every command keeps the invariant, whatever the balance checks answer. */
  lemma HandleKeeps(e: Engine, cmd: Command)
    requires Inv(e.core) && CmdOk(e.core, cmd) && Handle(e, cmd).Ok?
    ensures Inv(Handle(e, cmd).value.core) && Evolves(e.core, Handle(e, cmd).value.core)
  {
    IntakeKeeps(e.core, cmd);
    var e0 := e.(core := Intake(e.core, cmd));
    match cmd
    case NewSingle(s) => SubmitKeeps(e0, s.id, {s.id});
    case NewOto(p, ch) => SubmitKeeps(e0, p.id, {p.id, ch.id});
    case NewOco(a, b) => PlaceLegsKeeps(e.core, a.ToOrder(OcoLeg(b.id), true), b.ToOrder(OcoLeg(a.id), true));
    case Cancel(id) =>
      if id in e.core.store {
        StoredIsOpen(e.core, id);
        CancelProjects(e, id);
        CancelKeeps(e.core, id);
      }
  }

  /** Nothing in the store is complete. */
  lemma StoredIsOpen(c: Core, id: OrderId)
    requires Inv(c) && id in c.store
    ensures id in c.orders && c.orders[id].executed < c.orders[id].quantity
  {
    assert OrderInv(c, id, {}, {});
  }

  /** The invariant holds after every run that has not raised. */
  lemma {:induction false} RunKeeps(e: Engine, cmds: seq<Command>)
    requires Inv(e.core) && Admissible(e, cmds) && Run(e, cmds).Ok?
    ensures Inv(Run(e, cmds).value.core) && Evolves(e.core, Run(e, cmds).value.core)
  {
    if cmds != [] {
      var n := |cmds| - 1;
      RunKeeps(e, cmds[..n]);
      HandleKeeps(Run(e, cmds[..n]).value, cmds[n]);
    }
  }
}
