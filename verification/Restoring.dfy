/**
 * An engine restored from a snapshot has orders without their fills. Nothing a command does to book,
 * store and order fields depends on them: two cores that differ in fills only stay so.
 */
module Restoring {
  import opened Types
  import opened Collections
  import opened BookModel
  import opened EngineSpec
  import opened Runs
  import opened Snapshots

  ghost predicate SameButFills(m: map<OrderId, Order>, n: map<OrderId, Order>) {
    m.Keys == n.Keys && forall x :: x in m ==> x in n && Restored(m[x]) == Restored(n[x])
  }

  /** Equal up to the fills of the orders. */
  ghost predicate Alike(c: Core, d: Core) {
    c.book == d.book && c.store == d.store && SameButFills(c.orders, d.orders)
  }

  ghost predicate BothAlike(r: Result<Core>, s: Result<Core>) {
    r.Ok? == s.Ok? && (r.Ok? ==> Alike(r.value, s.value))
  }

  /** A core as a snapshot gives it back. */
  ghost function RestoredCore(c: Core): Core {
    c.(orders := map x | x in c.orders :: Restored(c.orders[x]))
  }

  lemma {:induction false} RestoredIsAlike(c: Core)
    ensures Alike(RestoredCore(c), c)
  {
  }

  lemma {:induction false} PutAlike(c: Core, d: Core, o: Order, o': Order)
    requires Alike(c, d) && Restored(o) == Restored(o')
    ensures Alike(c.Put(o), d.Put(o'))
  {
    assert o.id == Restored(o).id == o'.id;
    assert c.Put(o).orders.Keys == c.orders.Keys + {o.id};
    assert d.Put(o').orders.Keys == d.orders.Keys + {o.id};
  }

  lemma {:induction false} SameFields(c: Core, d: Core, id: OrderId)
    requires Alike(c, d)
    ensures var o, o' := c.Get(id), d.Get(id);
      && o == o'.(fills := o.fills)
      && o.Key() == o'.Key() && o.Remaining() == o'.Remaining() && o.Complete() == o'.Complete()
  {
    assert id in c.orders.Keys <==> id in d.orders.Keys;
    assert Restored(c.Get(id)) == Restored(d.Get(id));
  }

  lemma {:induction false} UnbookAlike(c: Core, d: Core, id: OrderId)
    requires Alike(c, d)
    ensures BothAlike(Unbook(c, id), Unbook(d, id))
  {
    SameFields(c, d, id);
  }

  lemma {:induction false} EnbookAlike(c: Core, d: Core, id: OrderId)
    requires Alike(c, d)
    ensures BothAlike(Enbook(c, id), Enbook(d, id))
  {
    SameFields(c, d, id);
  }

  lemma {:induction false} UnbookAllAlike(c: Core, d: Core, ids: seq<OrderId>)
    requires Alike(c, d)
    ensures BothAlike(UnbookAll(c, ids), UnbookAll(d, ids))
    decreases |ids|
  {
    if ids != [] {
      UnbookAlike(c, d, ids[0]);
      if Unbook(c, ids[0]).Ok? { UnbookAllAlike(Unbook(c, ids[0]).value, Unbook(d, ids[0]).value, ids[1..]); }
    }
  }

  lemma {:induction false} CancelAlike(c: Core, d: Core, id: OrderId)
    requires Alike(c, d)
    ensures BothAlike(CancelCore(c, id), CancelCore(d, id))
  {
    SameFields(c, d, id);
    UnbookAllAlike(c, d, CancelTargets(c.Get(id)));
  }

  lemma {:induction false} FillAlike(c: Core, d: Core, id: OrderId, q: int, p: Price)
    requires Alike(c, d)
    ensures Alike(FillCore(c, id, q, p), FillCore(d, id, q, p))
  {
    SameFields(c, d, id);
    PutAlike(c, d, c.Get(id).AddFill(q, p), d.Get(id).AddFill(q, p));
  }

  lemma {:induction false} HookAlike(c: Core, d: Core, id: OrderId)
    requires Alike(c, d)
    ensures BothAlike(HookCore(c, id), HookCore(d, id))
  {
    SameFields(c, d, id);
    match c.Get(id).strategy
    case OtoParent(child) =>
      SameFields(c, d, child);
      var o, o' := c.Get(child).(active := true), d.Get(child).(active := true);
      PutAlike(c, d, o, o');
      EnbookAlike(c.Put(o), d.Put(o'), child);
    case OcoLeg(peer) => UnbookAlike(c, d, peer);
    case _ =>
  }

  lemma {:induction false} RetireAlike(c: Core, d: Core, m: OrderId)
    requires Alike(c, d)
    ensures BothAlike(RetireCore(c, m), RetireCore(d, m))
  {
    SameFields(c, d, m);
    UnbookAlike(c, d, m);
  }

  lemma {:induction false} TradeAlike(c: Core, d: Core, t: OrderId, m: OrderId, q: int, p: Price)
    requires Alike(c, d)
    ensures BothAlike(TradeCore(c, t, m, q, p), TradeCore(d, t, m, q, p))
  {
    FillAlike(c, d, t, q, p);
    var c0, d0 := FillCore(c, t, q, p), FillCore(d, t, q, p);
    FillAlike(c0, d0, m, q, p);
    var c1, d1 := FillCore(c0, m, q, p), FillCore(d0, m, q, p);
    HookAlike(c1, d1, t);
    if HookCore(c1, t).Ok? {
      var c2, d2 := HookCore(c1, t).value, HookCore(d1, t).value;
      HookAlike(c2, d2, m);
      if HookCore(c2, m).Ok? { RetireAlike(HookCore(c2, m).value, HookCore(d2, m).value, m); }
    }
  }

  lemma {:induction false} IntakeAlike(c: Core, d: Core, cmd: Command)
    requires Alike(c, d)
    ensures Alike(Intake(c, cmd), Intake(d, cmd))
  {
    match cmd
    case NewSingle(s) => PutAlike(c, d, s.ToOrder(Single, true), s.ToOrder(Single, true));
    case NewOto(p, ch) =>
      var o, o' := p.ToOrder(OtoParent(ch.id), true), ch.ToOrder(OtoChild(p.id), false);
      PutAlike(c, d, o, o);
      PutAlike(c.Put(o), d.Put(o), o', o');
    case NewOco(x, y) =>
      var o, o' := x.ToOrder(OcoLeg(y.id), true), y.ToOrder(OcoLeg(x.id), true);
      PutAlike(c, d, o, o);
      PutAlike(c.Put(o), d.Put(o), o', o');
    case Cancel(_) =>
  }
}
