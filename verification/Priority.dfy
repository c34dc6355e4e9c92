/** Price-time priority: matching consumes a prefix of the opposite side, best price first, oldest first. */
module Priority {
  import opened Types
  import opened Collections
  import opened BookModel
  import opened EngineSpec
  import opened Invariants
  import opened Matching
  import opened Safety

  /** One side of the book as a single queue: levels from best to worst, each in arrival order. */
  ghost function Queue(b: Book, side: Side): seq<OrderId>
    decreases b.Keys
  {
    match Best(b, side)
    case None => []
    case Some(p) => if LevelKey(side, p) in b then b[LevelKey(side, p)] + Queue(b - {LevelKey(side, p)}, side) else []
  }

  ghost predicate SideAgrees(b: Book, b': Book, side: Side) {
    forall p :: Level(b, LevelKey(side, p)) == Level(b', LevelKey(side, p))
             && (LevelKey(side, p) in b <==> LevelKey(side, p) in b')
  }

  /** The queue of a side depends on that side only. */
  lemma {:induction false} QueueFrame(b: Book, b': Book, side: Side)
    requires SideAgrees(b, b', side)
    ensures Queue(b, side) == Queue(b', side)
    decreases b.Keys
  {
    SideKeysDecide(b, b', side);
    if Best(b, side).Some? {
      var k := LevelKey(side, Best(b, side).value);
      assert Level(b, k) == Level(b', k);
      if k in b { QueueFrame(b - {k}, b' - {k}, side); }
    }
  }

  /** Taking the front order out of the book takes it off the front of the queue. */
  lemma QueuePop(b: Book, side: Side, p: Price)
    requires BookWf(b) && IsBest(b, side, p)
    ensures var k := LevelKey(side, p);
      RemoveFrom(b, k, b[k][0]).Ok? && Queue(b, side) == [b[k][0]] + Queue(RemoveFrom(b, k, b[k][0]).value, side)
  {
    var k := LevelKey(side, p);
    var level := b[k];
    BestIs(b, side, p);
    var b' := RemoveFrom(b, k, level[0]).value;
    assert Without(level, level[0]) == level[1..];
    if |level| > 1 {
      assert IsBest(b', side, p);
      BestIs(b', side, p);
      assert b' - {k} == b - {k};
      assert level == [level[0]] + level[1..];
      assert Queue(b', side) == level[1..] + Queue(b - {k}, side);
    } else {
      assert level == [level[0]];
    }
  }

  lemma QueueFront(b: Book, side: Side)
    requires BookWf(b)
    ensures Front(b, side).None? ==> Queue(b, side) == []
    ensures Front(b, side).Some? ==> Queue(b, side) != [] && Queue(b, side)[0] == Front(b, side).value
  {
    if Best(b, side).Some? { assert IsBest(b, side, Best(b, side).value); }
  }

  /** The makers a taker meets, in order: `Sweep` with its trace. */
  ghost function Touched(e: Engine, t: OrderId): seq<OrderId>
    decreases RestingOn(e.core.book, e.core.Get(t).side.Opposite())
  {
    var taker := e.core.Get(t);
    var side := taker.side.Opposite();
    if taker.executed >= taker.quantity || Front(e.core.book, side).None? then []
    else
      var m := Front(e.core.book, side).value;
      var r := Encounter(e, t, m, Best(e.core.book, side).value);
      if r.Ok? && r.value.core.Get(t).side == taker.side
         && RestingOn(r.value.core.book, side) < RestingOn(e.core.book, side)
      then [m] + Touched(r.value, t)
      else [m]
  }

  /** The reaction of a SINGLE or OTO maker never touches the maker's own side. */
  lemma HookSide(c: Core, m: OrderId)
    requires m in c.orders && !c.orders[m].strategy.OcoLeg? && HookCore(c, m).Ok?
    requires c.orders[m].strategy.OtoParent? ==>
      var child := c.orders[m].strategy.child;
      child != m && c.Get(child).id == child && c.Get(child).side != c.orders[m].side
    ensures SideAgrees(c.book, HookCore(c, m).value.book, c.orders[m].side)
    ensures HookCore(c, m).value.Get(m).Key() == c.orders[m].Key()
    ensures HookCore(c, m).value.Get(m).Complete() == c.orders[m].Complete()
  {
  }

  /** Meeting the front maker: either it leaves the front of the queue, or the taker is complete. */
  lemma EncounterQueue(c: Core, t: OrderId, m: OrderId, pass: bool)
    requires Meets(c, t, m) && NoOco(c)
    requires c.orders[t].strategy.Single? || TradeQuantity(c, t, m) < c.orders[t].Remaining() || !pass
    requires Front(c.book, c.orders[m].side) == Some(m)
    requires EncounterCore(c, t, m, TradeQuantity(c, t, m), c.orders[m].price, pass).Ok?
    ensures var c' := EncounterCore(c, t, m, TradeQuantity(c, t, m), c.orders[m].price, pass).value;
      var side := c.orders[m].side;
      && m in c'.orders && t in c'.orders
      && if pass && !c'.orders[m].Complete()
         then c'.orders[t].Complete() && Queue(c'.book, side) == Queue(c.book, side)
         else Queue(c.book, side) == [m] + Queue(c'.book, side)
  {
    var q, p, side := TradeQuantity(c, t, m), c.orders[m].price, c.orders[m].side;
    FrontFacts(c, side);
    assert OrderInv(c, m, {}, {});
    if pass {
      TradeKeeps(c, t, m, q, p);
      TradeQueue(c, t, m, q);
    } else {
      QueuePop(c.book, side, p);
      assert UnbookAll(c, [m]) == UnbookAll(Unbook(c, m).value, []);
    }
  }

  lemma TradeQueue(c: Core, t: OrderId, m: OrderId, q: int)
    requires Meets(c, t, m) && NoOco(c) && q == TradeQuantity(c, t, m)
    requires c.orders[t].strategy.Single? || q < c.orders[t].Remaining()
    requires Front(c.book, c.orders[m].side) == Some(m) && TradeCore(c, t, m, q, c.orders[m].price).Ok?
    ensures var c' := TradeCore(c, t, m, q, c.orders[m].price).value;
      var side := c.orders[m].side;
      if c.orders[m].executed + q == c.orders[m].quantity
      then Queue(c.book, side) == [m] + Queue(c'.book, side)
      else Queue(c'.book, side) == Queue(c.book, side)
  {
    var p, side := c.orders[m].price, c.orders[m].side;
    assert OrderInv(c, m, {}, {}) && OrderInv(c, t, {}, {});
    var c1 := Filled(c, t, m, q, p);
    FillsKeep(c, t, m, q, p);
    assert OrderInv(c1, m, {t, m}, {t, m});
    if c.orders[m].strategy.OtoParent? { assert OrderInv(c1, c.orders[m].strategy.child, {t, m}, {t, m}); }
    assert HookCore(c1, t) == Ok(c1);
    HookSide(c1, m);
    var c3 := HookCore(c1, m).value;
    QueueFrame(c.book, c3.book, side);
    if c.orders[m].executed + q == c.orders[m].quantity {
      FrontFacts(c, side);
      assert Level(c3.book, LevelKey(side, p)) == Level(c.book, LevelKey(side, p));
      PopAgreeing(c.book, c3.book, side, p);
    }
  }

  lemma PopAgreeing(b: Book, b': Book, side: Side, p: Price)
    requires BookWf(b) && SideAgrees(b, b', side) && IsBest(b, side, p)
    ensures var k := LevelKey(side, p);
      k in b' && RemoveFrom(b', k, b[k][0]).Ok?
      && Queue(b, side) == [b[k][0]] + Queue(RemoveFrom(b', k, b[k][0]).value, side)
  {
    var k := LevelKey(side, p);
    QueuePop(b, side, p);
    assert Level(b, k) == Level(b', k);
    QueueFrame(RemoveFrom(b, k, b[k][0]).value, RemoveFrom(b', k, b[k][0]).value, side);
  }

  // ---- The queue lists each resting order once ----

  ghost predicate OneLevelEach(b: Book) {
    forall k, j, x :: InLevel(b, k, x) && InLevel(b, j, x) ==> k == j
  }

  lemma {:induction false} QueueMembers(b: Book, side: Side, x: OrderId)
    ensures x in Queue(b, side) <==> exists p :: InLevel(b, LevelKey(side, p), x)
    decreases b.Keys
  {
    if exists p :: LevelKey(side, p) in b {
      var p :| LevelKey(side, p) in b;
      BestExists(b, side, p);
      var k := LevelKey(side, Best(b, side).value);
      QueueMembers(b - {k}, side, x);
      if r :| InLevel(b, LevelKey(side, r), x) {
        if LevelKey(side, r) != k { assert InLevel(b - {k}, LevelKey(side, r), x); }
      }
      if r :| InLevel(b - {k}, LevelKey(side, r), x) { assert InLevel(b, LevelKey(side, r), x); }
      if x in b[k] { assert InLevel(b, k, x); }
    }
  }

  lemma {:induction false} QueueNoDup(b: Book, side: Side)
    requires BookWf(b) && OneLevelEach(b)
    ensures NoDup(Queue(b, side))
    decreases b.Keys
  {
    if Best(b, side).Some? {
      assert IsBest(b, side, Best(b, side).value);
      var k := LevelKey(side, Best(b, side).value);
      var rest := b - {k};
      assert forall j, x :: InLevel(rest, j, x) ==> InLevel(b, j, x);
      QueueNoDup(rest, side);
      forall i | 0 <= i < |b[k]|
        ensures b[k][i] !in Queue(rest, side)
      {
        QueueMembers(rest, side, b[k][i]);
        assert InLevel(b, k, b[k][i]);
      }
    }
  }

  // ---- The theorem ----

  ghost function SumExecuted(ids: seq<OrderId>, c: Core, c': Core): int {
    if ids == [] then 0
    else c'.Get(ids[0]).executed - c.Get(ids[0]).executed + SumExecuted(ids[1..], c, c')
  }

  /** Everyone the taker did not meet is as before. */
  ghost predicate OthersUntouched(c: Core, c': Core, t: OrderId, met: seq<OrderId>) {
    forall x :: x in c.orders && x != t && x !in met ==>
      c'.Get(x).executed == c.Get(x).executed && c'.Get(x).fills == c.Get(x).fills
  }

  /** A maker that was met is filled up, or cancelled as it was, or was the last one of a completed taker. */
  ghost predicate Fate(c: Core, c': Core, t: OrderId, met: seq<OrderId>, i: int)
    requires 0 <= i < |met|
  {
    || c'.Get(met[i]).Complete()
    || c'.Get(met[i]).executed == c.Get(met[i]).executed
    || (i == |met| - 1 && c'.Get(t).Complete())
  }

  /** `met` is a prefix of the queue; it is gone, except that a completed taker may leave its last element. */
  ghost predicate Consumes(before: seq<OrderId>, after: seq<OrderId>, met: seq<OrderId>, done: bool) {
    && met <= before
    && (after == before[|met|..] || (met != [] && done && after == before[|met| - 1..]))
    && (!done ==> after == [])
  }

  ghost predicate FillsAgree(c: Core, c': Core, t: OrderId, met: seq<OrderId>) {
    && (forall i :: 0 <= i < |met| ==> Fate(c, c', t, met, i))
    && OthersUntouched(c, c', t, met)
    && c'.Get(t).executed - c.Get(t).executed == SumExecuted(met, c, c')
  }

  /**
   * The makers met are a prefix of the opposite side in price-time order and leave it, except that the
   * last may stay, partly filled, once the taker is complete; an incomplete taker has exhausted the
   * side; nobody else is filled; and the taker receives exactly what the makers give.
   */
  ghost predicate PriceTime(c: Core, c': Core, t: OrderId, met: seq<OrderId>) {
    var side := c.Get(t).side.Opposite();
    && Consumes(Queue(c.book, side), Queue(c'.book, side), met, c'.Get(t).Complete())
    && FillsAgree(c, c', t, met)
  }

  /** One encounter, as far as fills are concerned. */
  ghost predicate MetOne(c: Core, c1: Core, t: OrderId, m: OrderId) {
    && t != m && t in c.orders && m in c.orders && c1.orders.Keys == c.orders.Keys
    && OthersUntouched(c, c1, t, [m])
    && c1.Get(t).executed - c.Get(t).executed == c1.Get(m).executed - c.Get(m).executed
    && c1.Get(t).side == c.Get(t).side
  }

  lemma EncounterMetOne(c: Core, t: OrderId, m: OrderId, pass: bool)
    requires Meets(c, t, m)
    requires EncounterCore(c, t, m, TradeQuantity(c, t, m), c.orders[m].price, pass).Ok?
    ensures MetOne(c, EncounterCore(c, t, m, TradeQuantity(c, t, m), c.orders[m].price, pass).value, t, m)
    ensures !pass ==> EncounterCore(c, t, m, TradeQuantity(c, t, m), c.orders[m].price, pass).value.orders == c.orders
  {
    assert OrderInv(c, m, {}, {});
    if pass {
      TradeKeeps(c, t, m, TradeQuantity(c, t, m), c.orders[m].price);
    } else {
      CancelKeeps(c, m);
    }
  }

  lemma {:induction false} SumExecutedFrom(ids: seq<OrderId>, c: Core, c1: Core, c': Core)
    requires forall x :: x in ids ==> c.Get(x).executed == c1.Get(x).executed
    ensures SumExecuted(ids, c, c') == SumExecuted(ids, c1, c')
  {
    if ids != [] {
      assert ids[0] in ids;
      SumExecutedFrom(ids[1..], c, c1, c');
    }
  }

  lemma ChainQueue(before: seq<OrderId>, mid: seq<OrderId>, after: seq<OrderId>, m: OrderId, met: seq<OrderId>,
                   done: bool)
    requires before == [m] + mid && Consumes(mid, after, met, done)
    ensures Consumes(before, after, [m] + met, done)
  {
    assert before[|met| + 1..] == mid[|met|..];
    if met != [] { assert before[|met|..] == mid[|met| - 1..]; }
  }

  lemma FrontNotBehind(before: seq<OrderId>, m: OrderId, mid: seq<OrderId>)
    requires NoDup(before) && before == [m] + mid
    ensures m !in mid
  {
    forall j | 0 <= j < |mid|
      ensures mid[j] != m
    {
      assert before[0] != before[j + 1];
    }
  }

  lemma ChainFills(c: Core, c1: Core, c': Core, t: OrderId, m: OrderId, met: seq<OrderId>)
    requires MetOne(c, c1, t, m) && FillsAgree(c1, c', t, met) && m !in met && t !in met
    requires c1.Get(m).Complete() || c1.Get(m).executed == c.Get(m).executed
    requires c1.Get(m).quantity == c'.Get(m).quantity
    requires forall x :: x in met ==> x in c.orders
    ensures FillsAgree(c, c', t, [m] + met)
  {
    var all := [m] + met;
    SumExecutedFrom(met, c, c1, c');
    assert all[1..] == met;
    assert OthersUntouched(c, c', t, all);
    forall i | 0 <= i < |all|
      ensures Fate(c, c', t, all, i)
    {
      if i > 0 { assert Fate(c1, c', t, met, i - 1) && met[i - 1] in met; }
    }
  }

  /** A completed taker stops: `m` was the last maker it met. */
  lemma LastStep(c: Core, c1: Core, t: OrderId, m: OrderId)
    requires MetOne(c, c1, t, m) && c1.Get(t).Complete()
    requires var side := c.Get(t).side.Opposite();
      || Queue(c.book, side) == [m] + Queue(c1.book, side)
      || (Queue(c.book, side) == Queue(c1.book, side) && Queue(c.book, side) != [] && Queue(c.book, side)[0] == m)
    ensures PriceTime(c, c1, t, [m])
  {
    var side := c.Get(t).side.Opposite();
    assert SumExecuted([m], c, c1) == c1.Get(m).executed - c.Get(m).executed + SumExecuted([], c, c1);
    assert [m] <= Queue(c.book, side);
  }

  lemma MembersAreOrders(c: Core, side: Side)
    requires Inv(c)
    ensures NoDup(Queue(c.book, side))
    ensures forall x :: x in Queue(c.book, side) ==> x in c.orders && c.Resting(x) && c.orders[x].side == side
  {
    QueueNoDup(c.book, side);
    forall x | x in Queue(c.book, side)
      ensures x in c.orders && c.Resting(x) && c.orders[x].side == side
    {
      QueueMembers(c.book, side, x);
      var p :| InLevel(c.book, LevelKey(side, p), x);
    }
  }

  lemma TouchedDone(e: Engine, t: OrderId)
    requires e.core.Get(t).Complete()
    ensures Touched(e, t) == []
  {
  }

  /** A maker left the front; matching went on with the rest of the queue. */
  lemma GoOn(c: Core, c1: Core, c': Core, t: OrderId, m: OrderId, met: seq<OrderId>)
    requires MetOne(c, c1, t, m) && PriceTime(c1, c', t, met)
    requires c1.Get(m).Complete() || c1.Get(m).executed == c.Get(m).executed
    requires c1.Get(m).quantity == c'.Get(m).quantity
    requires var side := c.Get(t).side.Opposite();
      && Queue(c.book, side) == [m] + Queue(c1.book, side) && NoDup(Queue(c.book, side))
      && (forall x :: x in Queue(c1.book, side) ==> x in c.orders && x != t)
    ensures PriceTime(c, c', t, [m] + met)
  {
    var side := c.Get(t).side.Opposite();
    var before, mid := Queue(c.book, side), Queue(c1.book, side);
    assert forall x :: x in met ==> x in mid;
    FrontNotBehind(before, m, mid);
    ChainQueue(before, mid, Queue(c'.book, side), m, met, c'.Get(t).Complete());
    ChainFills(c, c1, c', t, m, met);
  }

  /** What one step of the sweep does to queue and fills. */
  ghost predicate Stepped(c: Core, c1: Core, t: OrderId, m: OrderId) {
    var side := c.Get(t).side.Opposite();
    && MetOne(c, c1, t, m) && NoDup(Queue(c.book, side))
    && Queue(c.book, side) != [] && Queue(c.book, side)[0] == m
    && if Queue(c.book, side) == [m] + Queue(c1.book, side)
       then c1.Get(m).Complete() || c1.Get(m).executed == c.Get(m).executed
       else c1.Get(t).Complete() && Queue(c.book, side) == Queue(c1.book, side)
  }

  lemma FrontStep(e: Engine, t: OrderId, m: OrderId, p: Price)
    requires Meets(e.core, t, m) && e.core.orders[t].strategy.Single? && NoOco(e.core)
    requires Front(e.core.book, e.core.orders[m].side) == Some(m) && p == e.core.orders[m].price
    ensures Encounter(e, t, m, p).Ok?
    ensures EncounterOutcome(e.core, Encounter(e, t, m, p).value.core, t, m)
    ensures Stepped(e.core, Encounter(e, t, m, p).value.core, t, m)
  {
    var c := e.core;
    var q := TradeQuantity(c, t, m);
    var pass := Answer(e, c.Get(m), q, p);
    EncounterProjects(e, t, m, p);
    if pass { TradeNeverRaises(c, t, m, q, p); } else { CancelRestingNeverRaises(c, m); }
    EncounterCoreKeeps(c, t, m, p, pass);
    EncounterQueue(c, t, m, pass);
    EncounterMetOne(c, t, m, pass);
    MembersAreOrders(c, c.orders[m].side);
    QueueFront(c.book, c.orders[m].side);
  }

  /** Unfolding the sweep once. */
  lemma SweepUnfolds(e: Engine, t: OrderId, m: OrderId, e1: Engine)
    requires var taker := e.core.Get(t); var side := taker.side.Opposite();
      && taker.executed < taker.quantity && Front(e.core.book, side) == Some(m)
      && Encounter(e, t, m, Best(e.core.book, side).value) == Ok(e1) && e1.core.Get(t).side == taker.side
      && (e1.core.Get(t).Complete() || RestingOn(e1.core.book, side) < RestingOn(e.core.book, side))
    ensures Sweep(e, t) == Sweep(e1, t)
    ensures Touched(e, t) == [m] + Touched(e1, t)
  {
    if e1.core.Get(t).Complete() {
      SweepDone(e1, t);
      TouchedDone(e1, t);
    }
  }

  lemma SweepEnds(e: Engine, t: OrderId)
    requires var taker := e.core.Get(t);
      taker.executed >= taker.quantity || Front(e.core.book, taker.side.Opposite()).None?
    ensures Sweep(e, t) == Ok(e) && Touched(e, t) == []
  {
  }

  /** Price-time priority for a SINGLE taker against SINGLE and OTO makers, under any balance answers. */
  lemma {:induction false} SweepPriority(e: Engine, t: OrderId)
    requires Inv(e.core) && Entering(e.core, t) && e.core.orders[t].strategy.Single? && NoOco(e.core)
    ensures Sweep(e, t).Ok? && PriceTime(e.core, Sweep(e, t).value.core, t, Touched(e, t))
    decreases RestingOn(e.core.book, e.core.Get(t).side.Opposite())
  {
    var c := e.core;
    var side := c.orders[t].side.Opposite();
    assert OrderInv(c, t, {}, {});
    FrontFacts(c, side);
    if c.orders[t].executed < c.orders[t].quantity && Front(c.book, side).Some? {
      var m, p := Front(c.book, side).value, Best(c.book, side).value;
      FrontMeets(c, t);
      FrontStep(e, t, m, p);
      var e1 := Encounter(e, t, m, p).value;
      if e1.core.orders[t].Complete() {
        SweepEnds(e1, t);
        NothingMet(e1.core, t);
      } else {
        SideStrictlyShrinks(c, e1.core, t, m);
        SweepPriority(e1, t);
      }
      SweepUnfolds(e, t, m, e1);
      RestOfSweep(c, e1, t, m);
    } else {
      SweepEnds(e, t);
      QueueFront(c.book, side);
      NothingMet(c, t);
    }
  }

  lemma NothingMet(c: Core, t: OrderId)
    requires c.Get(t).Complete() || Queue(c.book, c.Get(t).side.Opposite()) == []
    ensures PriceTime(c, c, t, [])
  {
  }

  lemma RestOfSweep(c: Core, e1: Engine, t: OrderId, m: OrderId)
    requires Inv(c) && t in c.orders && Stepped(c, e1.core, t, m) && EncounterOutcome(c, e1.core, t, m)
    requires Sweep(e1, t).Ok? && PriceTime(e1.core, Sweep(e1, t).value.core, t, Touched(e1, t))
    ensures PriceTime(c, Sweep(e1, t).value.core, t, [m] + Touched(e1, t))
  {
    var c1 := e1.core;
    if c1.Get(t).Complete() {
      SweepEnds(e1, t);
      LastStep(c, c1, t, m);
    } else {
      SweepKeeps(e1, t);
      MembersAreOrders(c1, c.Get(t).side.Opposite());
      GoOn(c, c1, Sweep(e1, t).value.core, t, m, Touched(e1, t));
    }
  }
}
