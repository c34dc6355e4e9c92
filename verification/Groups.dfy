/** What linked orders look like after any run of New and Cancel commands that has not raised. */
module Groups {
  import opened Types
  import opened BookModel
  import opened EngineSpec
  import opened Invariants
  import opened Matching
  import opened Runs
  import opened PlainRuns

  /** The state reached by an admissible run from an empty engine, under any wiring. */
  ghost predicate Reached(e0: Engine, cmds: seq<Command>, c: Core) {
    e0.core == EMPTY_CORE && Admissible(e0, cmds) && Run(e0, cmds).Ok? && c == Run(e0, cmds).value.core
  }

  lemma ReachedInv(e0: Engine, cmds: seq<Command>, c: Core)
    requires Reached(e0, cmds, c)
    ensures Inv(c)
  {
    RunKeeps(e0, cmds);
  }

  /**
   * One-triggers-other: a child rests only if active, is active exactly when its parent is fully
   * filled, and while it waits in the store its parent rests in the book.
   */
  lemma OtoGroups(e0: Engine, cmds: seq<Command>, c: Core, child: OrderId)
    requires Reached(e0, cmds, c) && child in c.orders && c.orders[child].strategy.OtoChild?
    ensures var parent := c.orders[child].strategy.parent;
      && parent in c.orders && c.orders[parent].strategy == OtoParent(child)
      && (c.Resting(child) ==> c.orders[child].active)
      && (c.orders[child].active <==> c.orders[parent].executed == c.orders[parent].quantity)
      && (child in c.store && !c.orders[child].active ==> c.Resting(parent))
      && (c.Resting(parent) ==> child in c.store && !c.orders[child].active)
      && (!c.orders[child].active ==> c.orders[child].executed == 0)
  {
    ReachedInv(e0, cmds, c);
    assert OrderInv(c, child, {}, {}) && OrderInv(c, c.orders[child].strategy.parent, {}, {});
  }

  /** The store holds exactly the resting orders and the inactive children of resting parents. */
  lemma StoreContents(e0: Engine, cmds: seq<Command>, c: Core, id: OrderId)
    requires Reached(e0, cmds, c)
    ensures id in c.store <==> c.Resting(id) || (id in c.orders && Waiting(c, id))
    ensures c.Resting(id) ==> id in c.orders && !Waiting(c, id)
  {
    ReachedInv(e0, cmds, c);
    if id in c.orders {
      assert OrderInv(c, id, {}, {});
      if Waiting(c, id) { OtoGroups(e0, cmds, c, id); }
    }
  }

  /**
   * One-cancels-other: at most one leg ever executes, and once one leg has traded the other is in
   * neither book nor store; an untraded resting leg still has its peer resting.
   */
  lemma OcoExclusion(e0: Engine, cmds: seq<Command>, c: Core, leg: OrderId)
    requires Reached(e0, cmds, c) && leg in c.orders && c.orders[leg].strategy.OcoLeg?
    ensures var peer := c.orders[leg].strategy.peer;
      && peer in c.orders && peer != leg && c.orders[peer].strategy == OcoLeg(leg)
      && !(c.orders[leg].executed > 0 && c.orders[peer].executed > 0)
      && (c.orders[leg].executed > 0 ==> !c.Resting(peer) && peer !in c.store)
      && (c.Resting(leg) && c.orders[leg].executed == 0 ==> c.Resting(peer))
  {
    ReachedInv(e0, cmds, c);
    assert OrderInv(c, leg, {}, {}) && OrderInv(c, c.orders[leg].strategy.peer, {}, {});
  }

  /** Going on with a run changes only fills, upwards, and activation. */
  lemma {:induction false} PrefixEvolves(e: Engine, cmds: seq<Command>, k: nat)
    requires Inv(e.core) && Admissible(e, cmds) && Run(e, cmds).Ok? && k <= |cmds|
    ensures Run(e, cmds[..k]).Ok? && Evolves(Run(e, cmds[..k]).value.core, Run(e, cmds).value.core)
    decreases |cmds|
  {
    if k == |cmds| {
      assert cmds[..k] == cmds;
    } else {
      var n := |cmds| - 1;
      assert cmds[..n][..k] == cmds[..k];
      PrefixEvolves(e, cmds[..n], k);
      RunKeeps(e, cmds[..n]);
      HandleKeeps(Run(e, cmds[..n]).value, cmds[n]);
      EvolvesThen(Run(e, cmds[..k]).value.core, Run(e, cmds[..n]).value.core, Run(e, cmds).value.core);
    }
  }

  lemma EvolvesThen(a: Core, b: Core, c: Core)
    requires Evolves(a, b) && Evolves(b, c)
    ensures Evolves(a, c)
  {
  }

  /** Once a leg has traded at any point of a run, its peer never trades, rests or is stored again. */
  lemma {:induction false} OcoForever(e0: Engine, cmds: seq<Command>, c: Core, k: nat, leg: OrderId)
    requires Reached(e0, cmds, c) && k <= |cmds| && Run(e0, cmds[..k]).Ok?
    requires var earlier := Run(e0, cmds[..k]).value.core;
      leg in earlier.orders && earlier.orders[leg].strategy.OcoLeg? && earlier.orders[leg].executed > 0
    ensures leg in c.orders && c.orders[leg].strategy.OcoLeg?
    ensures var peer := c.orders[leg].strategy.peer;
      peer in c.orders && c.orders[peer].executed == 0 && !c.Resting(peer) && peer !in c.store
  {
    assert Inv(EMPTY_CORE);
    PrefixEvolves(e0, cmds, k);
    var earlier := Run(e0, cmds[..k]).value.core;
    assert Terms(c.orders[leg]) == Terms(earlier.orders[leg]);
    OcoExclusion(e0, cmds, c, leg);
    RunKeeps(e0, cmds);
    assert OrderInv(c, c.orders[leg].strategy.peer, {}, {});
  }

  /** Nobody is ever over-filled, and what an order has executed is what its fills add up to. */
  lemma ExecutedWithinQuantity(e0: Engine, cmds: seq<Command>, c: Core, id: OrderId)
    requires Reached(e0, cmds, c) && id in c.orders
    ensures 0 <= c.orders[id].executed <= c.orders[id].quantity
    ensures c.orders[id].executed == SumFills(c.orders[id].fills)
    ensures c.Resting(id) ==> c.orders[id].executed < c.orders[id].quantity
  {
    ReachedInv(e0, cmds, c);
    assert OrderInv(c, id, {}, {});
  }
}
