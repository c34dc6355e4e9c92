/**
 * The limit of a taker is compared with the best opposite price once, on entry, and never again. When
 * does a limit order trade at a price worse than its limit?
 */
module TradeThrough {
  import opened Types
  import opened Collections
  import opened BookModel
  import opened Ledgers
  import opened EngineSpec
  import opened Invariants
  import opened Matching
  import opened Runs
  import opened Safety
  import opened PlainRuns
  import opened Priority
  import opened Conservation
  import opened Raising
  import opened Replay
  import opened Determinism
  import opened Steps
  import opened Divergence

  /** `p` is worse for the owner of `o` than the limit of `o`. */
  predicate Worse(o: Order, p: Price) { Better(o.side, p, o.price) }

  /** Open quantity of those `ids` that are let trade, at prices within the limit of `o`. */
  function DepthWithin(c: Core, ids: seq<OrderId>, o: Order, yes: set<OrderId>): int
    decreases |ids|
  {
    if ids == [] then 0
    else
      var x := c.Get(ids[0]);
      (if ids[0] !in yes || Worse(o, x.price) then 0 else x.Remaining()) + DepthWithin(c, ids[1..], o, yes)
  }

  /** One of `ids` that is let trade lies beyond the limit. */
  ghost predicate SomeWorse(c: Core, ids: seq<OrderId>, o: Order, yes: set<OrderId>) {
    exists i :: 0 <= i < |ids| && ids[i] in yes && Worse(o, c.Get(ids[i]).price)
  }

  /** Between the two states of an order it received a fill at a price worse than its limit. */
  ghost predicate FilledWorse(before: Order, after: Order) {
    exists i :: |before.fills| <= i < |after.fills| && Worse(after, after.fills[i].price)
  }

  /** What the makers let trade offer within the limit does not cover the order, and one lies beyond. */
  ghost predicate RunsDry(c: Core, t: OrderId, yes: set<OrderId>) {
    var o := c.Get(t);
    var queue := Queue(c.book, o.side.Opposite());
    DepthWithin(c, queue, o, yes) < o.Remaining() && SomeWorse(c, queue, o, yes)
  }

  /** From `e` to `e'` the sweep meets one maker. */
  ghost predicate Advances(e: Engine, e': Engine, t: OrderId) { !Stops(e.core, t) && MeetFront(e, t) == Ok(e') }

  ghost function Advancing(t: OrderId): (Engine, Engine) -> bool { (e, e') => Advances(e, e', t) }

  /** The states a sweep goes through, from maker to maker. */
  ghost predicate Trace(xs: seq<Engine>, t: OrderId) { Chained(Advancing(t), xs) }

  /** `yes` says which of the makers that the sweep comes to pass their balance check. */
  ghost predicate LetTrade(e: Engine, t: OrderId, yes: set<OrderId>) {
    forall xs: seq<Engine> :: Trace(xs, t) && xs[0] == e ==> FrontAnswered(xs[|xs| - 1], t, yes)
  }

  ghost predicate FrontAnswered(e: Engine, t: OrderId, yes: set<OrderId>) {
    Stops(e.core, t) ||
    (FrontPasses(e, t) <==> Front(e.core.book, e.core.Get(t).side.Opposite()).value in yes)
  }

  lemma {:induction false} TraceFrom(e: Engine, xs: seq<Engine>, t: OrderId) returns (ys: seq<Engine>)
    requires Trace(xs, t) && Advances(e, xs[0], t)
    ensures Trace(ys, t) && ys[0] == e && ys[|ys| - 1] == xs[|xs| - 1]
  {
    ys := [e] + xs;
    assert Advancing(t)(e, xs[0]);
    ChainedFrom(Advancing(t), e, xs);
  }

  lemma {:induction false} LetTradeLater(e: Engine, xs: seq<Engine>, t: OrderId, yes: set<OrderId>)
    requires LetTrade(e, t, yes) && Trace(xs, t) && Advances(e, xs[0], t)
    ensures FrontAnswered(xs[|xs| - 1], t, yes)
  {
    var ys := TraceFrom(e, xs, t);
  }

  lemma {:induction false} LetTradeNow(e: Engine, t: OrderId, yes: set<OrderId>)
    requires LetTrade(e, t, yes)
    ensures FrontAnswered(e, t, yes)
  {
    var xs := [e];
    assert Trace(xs, t) && xs[0] == e;
  }

  lemma {:induction false} LetTradeOn(e: Engine, e1: Engine, t: OrderId, yes: set<OrderId>)
    requires LetTrade(e, t, yes) && Advances(e, e1, t)
    ensures LetTrade(e1, t, yes)
  {
    forall xs: seq<Engine> | Trace(xs, t) && xs[0] == e1
      ensures FrontAnswered(xs[|xs| - 1], t, yes)
    {
      LetTradeLater(e, xs, t, yes);
    }
  }

  lemma {:induction false} DepthFrame(c: Core, c': Core, ids: seq<OrderId>, o: Order, o': Order, yes: set<OrderId>)
    requires forall i :: 0 <= i < |ids| ==> SameOffer(c, c', ids[i])
    requires o.side == o'.side && o.price == o'.price
    ensures DepthWithin(c, ids, o, yes) == DepthWithin(c', ids, o', yes)
    ensures SomeWorse(c, ids, o, yes) == SomeWorse(c', ids, o', yes)
    decreases |ids|
  {
    if ids != [] {
      assert SameOffer(c, c', ids[0]);
      DepthFrame(c, c', ids[1..], o, o', yes);
    }
    assert forall i :: 0 <= i < |ids| && SameOffer(c, c', ids[i]) ==>
      (Worse(o, c.Get(ids[i]).price) <==> Worse(o', c'.Get(ids[i]).price));
  }

  ghost predicate SameOffer(c: Core, c': Core, x: OrderId) {
    c.Get(x).price == c'.Get(x).price && c.Get(x).Remaining() == c'.Get(x).Remaining()
  }

  lemma {:induction false} DepthNonNegative(c: Core, ids: seq<OrderId>, o: Order, yes: set<OrderId>)
    requires Inv(c) && forall i :: 0 <= i < |ids| ==> ids[i] in c.orders
    ensures DepthWithin(c, ids, o, yes) >= 0
    decreases |ids|
  {
    if ids != [] {
      assert OrderInv(c, ids[0], {}, {});
      DepthNonNegative(c, ids[1..], o, yes);
    }
  }

  lemma {:induction false} AllWorse(c: Core, ids: seq<OrderId>, o: Order, yes: set<OrderId>)
    requires forall i :: 0 <= i < |ids| ==> Worse(o, c.Get(ids[i]).price)
    ensures DepthWithin(c, ids, o, yes) == 0
    decreases |ids|
  {
    if ids != [] { AllWorse(c, ids[1..], o, yes); }
  }

  /** The front of the queue has the best price of all. */
  lemma FrontIsBest(c: Core, side: Side, i: int)
    requires Inv(c) && Front(c.book, side).Some? && 0 <= i < |Queue(c.book, side)|
    ensures Queue(c.book, side)[0] == Front(c.book, side).value
    ensures !Better(side, c.Get(Queue(c.book, side)[i]).price, c.Get(Queue(c.book, side)[0]).price)
  {
    QueueFront(c.book, side);
    FrontFacts(c, side);
    var x := Queue(c.book, side)[i];
    QueueMembers(c.book, side, x);
    var p :| InLevel(c.book, LevelKey(side, p), x);
    assert c.orders[x].Key() == LevelKey(side, p);
  }

  /** If already the front is beyond the limit, everything is. */
  lemma {:induction false} FrontWorse(c: Core, t: OrderId, yes: set<OrderId>)
    requires Inv(c) && Entering(c, t) && c.orders[t].executed < c.orders[t].quantity
    requires var front := Front(c.book, c.orders[t].side.Opposite());
      front.Some? && front.value in yes && Worse(c.orders[t], c.Get(front.value).price)
    ensures RunsDry(c, t, yes)
  {
    var o := c.orders[t];
    var side := o.side.Opposite();
    var queue := Queue(c.book, side);
    QueueFront(c.book, side);
    forall i | 0 <= i < |queue|
      ensures Worse(o, c.Get(queue[i]).price)
    {
      FrontIsBest(c, side, i);
    }
    AllWorse(c, queue, o, yes);
    assert Worse(o, c.Get(queue[0]).price);
  }

  /** What a maker at the front counts for. */
  ghost function Counts(c: Core, m: OrderId, yes: set<OrderId>): int { if m in yes then c.Get(m).Remaining() else 0 }

  /** The condition carries over from one maker to the next. */
  lemma {:induction false} DryCarries(c: Core, c1: Core, t: OrderId, m: OrderId, yes: set<OrderId>)
    requires Inv(c) && Entering(c, t) && EncounterOutcome(c, c1, t, m) && MetOne(c, c1, t, m)
    requires var queue := Queue(c.book, c.Get(t).side.Opposite());
      NoDup(queue) && queue == [m] + Queue(c1.book, c.Get(t).side.Opposite())
      && (forall x :: x in queue ==> x in c.orders && x != t)
    requires c1.Get(t).Remaining() == c.Get(t).Remaining() - Counts(c, m, yes)
    requires m in yes ==> !Worse(c.Get(t), c.Get(m).price)
    ensures RunsDry(c, t, yes) <==> RunsDry(c1, t, yes)
  {
    var o, o1 := c.Get(t), c1.Get(t);
    var side := o.side.Opposite();
    var queue, rest := Queue(c.book, side), Queue(c1.book, side);
    assert Terms(o1) == Terms(o);
    FrontNotBehind(queue, m, rest);
    forall i | 0 <= i < |rest|
      ensures SameOffer(c, c1, rest[i])
    {
      assert queue[i + 1] == rest[i] && rest[i] in queue && rest[i] in rest;
      assert Terms(c1.orders[rest[i]]) == Terms(c.orders[rest[i]]);
    }
    DepthFrame(c, c1, rest, o, o1, yes);
    assert queue[1..] == rest;
    DryShift(c, queue, o, yes);
  }

  lemma {:induction false} DryShift(c: Core, ids: seq<OrderId>, o: Order, yes: set<OrderId>)
    requires ids != [] && (ids[0] in yes ==> !Worse(o, c.Get(ids[0]).price))
    ensures DepthWithin(c, ids, o, yes) == Counts(c, ids[0], yes) + DepthWithin(c, ids[1..], o, yes)
    ensures SomeWorse(c, ids, o, yes) <==> SomeWorse(c, ids[1..], o, yes)
  {
    if SomeWorse(c, ids, o, yes) {
      var i :| 0 <= i < |ids| && ids[i] in yes && Worse(o, c.Get(ids[i]).price);
      assert ids[1..][i - 1] == ids[i];
    }
    if SomeWorse(c, ids[1..], o, yes) {
      var i :| 0 <= i < |ids[1..]| && ids[1..][i] in yes && Worse(o, c.Get(ids[1..][i]).price);
      assert ids[i + 1] == ids[1..][i];
    }
  }

  /** The new fills of a taker start with the one just made. */
  lemma {:induction false} FilledWorseSplits(o: Order, o1: Order, o2: Order, q: int, p: Price)
    requires o1 == o.AddFill(q, p) && o1.fills <= o2.fills && o2.side == o.side && o2.price == o.price
    ensures FilledWorse(o, o2) <==> Worse(o, p) || FilledWorse(o1, o2)
  {
    var n := |o.fills|;
    assert o2.fills[n] == o1.fills[n] == Fill(q, p);
    if FilledWorse(o, o2) {
      var i :| n <= i < |o2.fills| && Worse(o2, o2.fills[i].price);
      if i > n { assert |o1.fills| <= i; }
    }
    if Worse(o, p) { assert Worse(o2, o2.fills[n].price); }
    if FilledWorse(o1, o2) {
      var i :| |o1.fills| <= i < |o2.fills| && Worse(o2, o2.fills[i].price);
      assert n <= i;
    }
  }

  /** One maker, in the taker's terms: traded with or left alone, and off the queue unless the taker is done. */
  ghost predicate Turned(c: Core, c1: Core, t: OrderId, m: OrderId, p: Price, pass: bool) {
    && EncounterOutcome(c, c1, t, m) && MetOne(c, c1, t, m)
    && c1.Get(t) == (if pass then c.Get(t).AddFill(TradeQuantity(c, t, m), p) else c.Get(t))
    && (!c1.Get(t).Complete() ==>
          && Queue(c.book, c.Get(t).side.Opposite()) == [m] + Queue(c1.book, c.Get(t).side.Opposite())
          && (pass ==> TradeQuantity(c, t, m) == c.Get(m).Remaining()))
  }

  lemma {:induction false} TurnsFront(e: Engine, t: OrderId)
    requires Inv(e.core) && Entering(e.core, t) && NoOco(e.core) && !Stops(e.core, t)
    ensures MeetFront(e, t).Ok?
    ensures var side := e.core.Get(t).side.Opposite();
      var m, p := Front(e.core.book, side).value, Best(e.core.book, side).value;
      Meets(e.core, t, m) && e.core.Get(m).price == p
      && Turned(e.core, MeetFront(e, t).value.core, t, m, p, FrontPasses(e, t))
  {
    var c := e.core;
    var side := c.Get(t).side.Opposite();
    var m, p := Front(c.book, side).value, Best(c.book, side).value;
    var pass := FrontPasses(e, t);
    FrontMeets(c, t);
    FrontFacts(c, side);
    assert OrderInv(c, m, {}, {}) && OrderInv(c, t, {}, {});
    EncounterProjects(e, t, m, p);
    if pass {
      TradeNeverRaises(c, t, m, TradeQuantity(c, t, m), p);
      TradeKeeps(c, t, m, TradeQuantity(c, t, m), p);
    } else {
      CancelRestingNeverRaises(c, m);
    }
    EncounterCoreKeeps(c, t, m, p, pass);
    EncounterMetOne(c, t, m, pass);
    if !MeetFront(e, t).value.core.Get(t).Complete() { EncounterQueue(c, t, m, pass); }
  }

  lemma FillsGrowThen(x: seq<Fill>, y: seq<Fill>, z: seq<Fill>)
    requires x <= y <= z
    ensures x <= z
  {
  }

  lemma {:induction false} FrontFillsGrow(e: Engine, t: OrderId) returns (e1: Engine)
    requires Inv(e.core) && Entering(e.core, t) && NoOco(e.core) && !Stops(e.core, t)
    ensures Inv(e1.core) && Entering(e1.core, t) && NoOco(e1.core) && e1.core.Get(t).side == e.core.Get(t).side
    ensures Sweep(e, t) == Sweep(e1, t) && e.core.orders[t].fills <= e1.core.orders[t].fills
    ensures var side := e.core.Get(t).side.Opposite();
      !Stops(e1.core, t) ==> RestingOn(e1.core.book, side) < RestingOn(e.core.book, side)
  {
    TurnsFront(e, t);
    FrontKeeps(e, t);
    FrontNoOco(e, t);
    e1 := MeetFront(e, t).value;
  }

  /** The fills of the taker only grow. */
  lemma {:induction false} SweepFillsGrow(e: Engine, t: OrderId)
    requires Inv(e.core) && Entering(e.core, t) && NoOco(e.core)
    ensures Sweep(e, t).Ok? && t in Sweep(e, t).value.core.orders
    ensures e.core.orders[t].fills <= Sweep(e, t).value.core.orders[t].fills
    decreases RestingOn(e.core.book, e.core.Get(t).side.Opposite())
  {
    if Stops(e.core, t) {
      SweepEnds(e, t);
    } else {
      var e1 := FrontFillsGrow(e, t);
      if Stops(e1.core, t) { SweepEnds(e1, t); } else { SweepFillsGrow(e1, t); }
      FillsGrowThen(e.core.orders[t].fills, e1.core.orders[t].fills, Sweep(e1, t).value.core.orders[t].fills);
    }
  }

  /**
   * Exactly when a taker is filled beyond its limit, under any answers: the makers let trade offer less than
   * it wants within the limit, and one of them lies beyond it.
   */
  lemma {:induction false} SweepTradesThroughIff(e: Engine, t: OrderId, yes: set<OrderId>)
    requires Inv(e.core) && Entering(e.core, t) && NoOco(e.core) && LetTrade(e, t, yes)
    ensures Sweep(e, t).Ok?
    ensures FilledWorse(e.core.Get(t), Sweep(e, t).value.core.Get(t)) <==> RunsDry(e.core, t, yes)
  {
    SweepNeverRaises(e, t);
    if Stops(e.core, t) { StoppedIff(e, t, yes); } else { ThroughStep(e, t, yes); }
  }

  lemma {:induction false} ThroughStep(e: Engine, t: OrderId, yes: set<OrderId>)
    requires Inv(e.core) && Entering(e.core, t) && NoOco(e.core) && LetTrade(e, t, yes)
    requires !Stops(e.core, t) && Sweep(e, t).Ok?
    ensures FilledWorse(e.core.Get(t), Sweep(e, t).value.core.Get(t)) <==> RunsDry(e.core, t, yes)
    decreases RestingOn(e.core.book, e.core.Get(t).side.Opposite())
  {
    var c := e.core;
    var side := c.Get(t).side.Opposite();
    var m, p := Front(c.book, side).value, Best(c.book, side).value;
    TurnsFront(e, t);
    FrontKeeps(e, t);
    FrontNoOco(e, t);
    var e1 := MeetFront(e, t).value;
    LetTradeNow(e, t, yes);
    LetTradeOn(e, e1, t, yes);
    SweepFillsGrow(e1, t);
    SweepKeeps(e1, t);
    var o, o1, o2 := c.Get(t), e1.core.Get(t), Sweep(e1, t).value.core.Get(t);
    assert Terms(o2) == Terms(o1);
    if FrontPasses(e, t) { FilledWorseSplits(o, o1, o2, TradeQuantity(c, t, m), p); }
    if m in yes && Worse(o, p) {
      FrontWorse(c, t, yes);
    } else if o1.Complete() {
      SweepEnds(e1, t);
      EnoughInFront(c, t, m, yes);
    } else {
      if Stops(e1.core, t) { StoppedIff(e1, t, yes); } else { ThroughStep(e1, t, yes); }
      MembersAreOrders(c, side);
      DryCarries(c, e1.core, t, m, yes);
    }
  }

  /** Where the sweep stops nothing more is filled, and nothing is left to run dry. */
  lemma {:induction false} StoppedIff(e: Engine, t: OrderId, yes: set<OrderId>)
    requires Inv(e.core) && Entering(e.core, t) && Stops(e.core, t)
    ensures Sweep(e, t) == Ok(e) && !FilledWorse(e.core.Get(t), e.core.Get(t)) && !RunsDry(e.core, t, yes)
  {
    var c := e.core;
    var side := c.orders[t].side.Opposite();
    assert OrderInv(c, t, {}, {});
    SweepEnds(e, t);
    QueueFront(c.book, side);
    MembersAreOrders(c, side);
    DepthNonNegative(c, Queue(c.book, side), c.orders[t], yes);
  }

  /** A front maker within the limit that covers the taker settles the matter. */
  lemma {:induction false} EnoughInFront(c: Core, t: OrderId, m: OrderId, yes: set<OrderId>)
    requires Meets(c, t, m) && Front(c.book, c.orders[t].side.Opposite()) == Some(m) && m in yes
    requires c.orders[t].Remaining() <= c.orders[m].Remaining() && !Worse(c.orders[t], c.orders[m].price)
    ensures !RunsDry(c, t, yes)
  {
    var queue := Queue(c.book, c.orders[t].side.Opposite());
    QueueFront(c.book, c.orders[t].side.Opposite());
    MembersAreOrders(c, c.orders[t].side.Opposite());
    DryShift(c, queue, c.orders[t], yes);
    DepthNonNegative(c, queue[1..], c.orders[t], yes);
  }

  // ---- There is always such a set ----

  /** The makers that a sweep trades with. */
  ghost function Traded(e: Engine, t: OrderId): set<OrderId>
    requires Sweep(e, t).Ok?
  {
    set x | x in e.core.orders && Sweep(e, t).value.core.Get(x).executed > e.core.Get(x).executed
  }

  /** On its way the sweep still leads to the same end, and the makers ahead are as they were. */
  ghost predicate OnTheWay(e: Engine, y: Engine, t: OrderId) {
    && Inv(y.core) && Entering(y.core, t) && NoOco(y.core) && Sweep(y, t) == Sweep(e, t)
    && y.core.Get(t).side == e.core.Get(t).side && y.core.orders.Keys == e.core.orders.Keys
    && (!Stops(y.core, t) ==> AheadUntouched(e.core, y.core, e.core.Get(t).side.Opposite()))
  }

  ghost predicate AheadUntouched(c: Core, d: Core, side: Side) {
    forall x :: d.Resting(x) && d.Get(x).side == side ==> d.Get(x).executed == c.Get(x).executed
  }

  lemma {:induction false} OnTheWayOn(e: Engine, y: Engine, y': Engine, t: OrderId)
    requires OnTheWay(e, y, t) && Advances(y, y', t)
    ensures OnTheWay(e, y', t)
  {
    TurnsFront(y, t);
    FrontKeeps(y, t);
    FrontNoOco(y, t);
    var side := y.core.Get(t).side.Opposite();
    var m := Front(y.core.book, side).value;
    if !Stops(y'.core, t) { AheadStays(e.core, y.core, y'.core, t, m); }
  }

  lemma {:induction false} AheadStays(c: Core, d: Core, d': Core, t: OrderId, m: OrderId)
    requires Inv(d) && EncounterOutcome(d, d', t, m) && MetOne(d, d', t, m) && !d'.orders[t].Complete()
    requires AheadUntouched(c, d, d.orders[m].side) && Entering(d', t)
    ensures AheadUntouched(c, d', d.orders[m].side)
  {
    forall x | d'.Resting(x) && d'.Get(x).side == d.orders[m].side
      ensures d'.Get(x).executed == c.Get(x).executed
    {
      assert d.Resting(x) && x != m && x in d.orders;
      assert Terms(d'.orders[x]).side == Terms(d.orders[x]).side;
    }
  }

  lemma {:induction false} AlwaysOnTheWay(xs: seq<Engine>, t: OrderId, k: nat)
    requires Trace(xs, t) && k < |xs| && OnTheWay(xs[0], xs[0], t)
    ensures OnTheWay(xs[0], xs[k], t)
    decreases k
  {
    if k > 0 {
      AlwaysOnTheWay(xs, t, k - 1);
      assert Advancing(t)(xs[k - 1], xs[k - 1 + 1]);
      OnTheWayOn(xs[0], xs[k - 1], xs[k], t);
    }
  }

  lemma {:induction false} AnsweredByTrading(e: Engine, y: Engine, t: OrderId)
    requires OnTheWay(e, y, t) && Sweep(e, t).Ok?
    ensures FrontAnswered(y, t, Traded(e, t))
  {
    if !Stops(y.core, t) {
      FrontAnswerShows(y, t);
      FrontMeets(y.core, t);
      FrontFacts(y.core, y.core.Get(t).side.Opposite());
      var m := Front(y.core.book, y.core.Get(t).side.Opposite()).value;
      assert m in y.core.orders.Keys;
    }
  }

  /** Each maker is met once, so the makers a sweep trades with are exactly those let trade. */
  lemma {:induction false} LetTradeExists(e: Engine, t: OrderId)
    requires Inv(e.core) && Entering(e.core, t) && NoOco(e.core)
    ensures Sweep(e, t).Ok? && LetTrade(e, t, Traded(e, t))
  {
    SweepNeverRaises(e, t);
    forall xs: seq<Engine> | Trace(xs, t) && xs[0] == e
      ensures FrontAnswered(xs[|xs| - 1], t, Traded(e, t))
    {
      AlwaysOnTheWay(xs, t, |xs| - 1);
      AnsweredByTrading(e, xs[|xs| - 1], t);
    }
  }

  // ---- One command, and an example ----

  /**
   * A new SINGLE order or OTO parent is filled beyond its limit exactly when it crosses, passes its entry
   * check, and the opposite side runs dry within its limit with something let trade further out.
   */
  lemma {:induction false} TradesThroughIff(e: Engine, cmd: Command, yes: set<OrderId>)
    requires Inv(e.core) && NoOco(e.core) && CmdOk(e.core, cmd) && (cmd.NewSingle? || cmd.NewOto?) && Handle(e, cmd).Ok?
    requires var e0, id := e.(core := Intake(e.core, cmd)), NewId(cmd);
      Crossable(e0.core.book, e0.core.Get(id)) && EntryAnswer(e0, id) ==> LetTrade(Entered(e0, id), id, yes)
    ensures var e0, id := e.(core := Intake(e.core, cmd)), NewId(cmd);
      FilledWorse(e0.core.Get(id), Handle(e, cmd).value.core.Get(id))
      <==> Crossable(e0.core.book, e0.core.Get(id)) && EntryAnswer(e0, id) && RunsDry(e0.core, id, yes)
  {
    IntakeKeeps(e.core, cmd);
    var e0 := e.(core := Intake(e.core, cmd));
    match cmd
    case NewSingle(s) => SubmitTradesThroughIff(e0, s.id, {s.id}, yes);
    case NewOto(p, ch) => SubmitTradesThroughIff(e0, p.id, {p.id, ch.id}, yes);
    case _ =>
  }

  lemma {:induction false} SubmitTradesThroughIff(e: Engine, id: OrderId, stored: set<OrderId>, yes: set<OrderId>)
    requires Inv(e.core) && Entering(e.core, id) && NoOco(e.core) && Submit(e, id, stored).Ok?
    requires Crossable(e.core.book, e.core.Get(id)) && EntryAnswer(e, id) ==> LetTrade(Entered(e, id), id, yes)
    ensures FilledWorse(e.core.Get(id), Submit(e, id, stored).value.core.Get(id))
      <==> Crossable(e.core.book, e.core.Get(id)) && EntryAnswer(e, id) && RunsDry(e.core, id, yes)
  {
    SubmitOrders(e, id, stored);
    if Crossable(e.core.book, e.core.Get(id)) && EntryAnswer(e, id) {
      SweepTradesThroughIff(Entered(e, id), id, yes);
    }
  }

  /** Makers of the system user always trade. */
  ghost predicate SystemMakers(e: Engine, t: OrderId, ids: set<OrderId>) {
    && Inv(e.core) && Entering(e.core, t) && e.wiring.Live? && e.core.orders.Keys == ids
    && forall x :: x in e.core.orders && x != t ==> e.core.orders[x].user == SYSTEM_USER_ID
  }

  lemma {:induction false} SystemMakersTrade(e: Engine, t: OrderId, ids: set<OrderId>)
    requires SystemMakers(e, t, ids)
    ensures LetTrade(e, t, ids)
  {
    forall xs: seq<Engine> | Trace(xs, t) && xs[0] == e
      ensures FrontAnswered(xs[|xs| - 1], t, ids)
    {
      SystemMakersAlong(xs, t, ids, |xs| - 1);
      SystemFrontTrades(xs[|xs| - 1], t, ids);
    }
  }

  lemma {:induction false} SystemFrontTrades(e: Engine, t: OrderId, ids: set<OrderId>)
    requires SystemMakers(e, t, ids)
    ensures FrontAnswered(e, t, ids)
  {
    if !Stops(e.core, t) { FrontMeets(e.core, t); }
  }

  lemma {:induction false} SystemMakersAlong(xs: seq<Engine>, t: OrderId, ids: set<OrderId>, k: nat)
    requires Trace(xs, t) && k < |xs| && SystemMakers(xs[0], t, ids)
    ensures SystemMakers(xs[k], t, ids)
    decreases k
  {
    if k > 0 {
      SystemMakersAlong(xs, t, ids, k - 1);
      assert Advancing(t)(xs[k - 1], xs[k - 1 + 1]);
      SystemMakersOn(xs[k - 1], xs[k], t, ids);
    }
  }

  lemma {:induction false} SystemMakersOn(e: Engine, e1: Engine, t: OrderId, ids: set<OrderId>)
    requires SystemMakers(e, t, ids) && !Stops(e.core, t) && MeetFront(e, t) == Ok(e1)
    ensures SystemMakers(e1, t, ids)
  {
    var side := e.core.Get(t).side.Opposite();
    var m, p := Front(e.core.book, side).value, Best(e.core.book, side).value;
    FrontMeets(e.core, t);
    EncounterAnswers(e, t, m, p);
    EncounterProjects(e, t, m, p);
    EncounterCoreKeeps(e.core, t, m, p, FrontPasses(e, t));
    assert forall x :: x in e.core.orders ==> Terms(e1.core.orders[x]) == Terms(e.core.orders[x]);
  }

  const CHEAP: OrderSpec := OrderSpec(1, SYSTEM_USER_ID, Limit, Ask, 100, 1)
  const DEAR: OrderSpec := OrderSpec(2, SYSTEM_USER_ID, Limit, Ask, 200, 1)
  const BUYER: OrderSpec := OrderSpec(3, 1, Limit, Bid, 100, 2)

  /** One unit offered at 100 and one at 200. */
  const OFFERS: Core := Core(
    map[LevelKey(Ask, 100) := [1], LevelKey(Ask, 200) := [2]],
    map[1 := CHEAP.ToOrder(Single, true), 2 := DEAR.ToOrder(Single, true)],
    {1, 2})

  lemma {:induction false} OffersAreReached(e: Engine)
    requires e.core == EMPTY_CORE
    ensures Admissible(e, [NewSingle(CHEAP), NewSingle(DEAR)])
    ensures Run(e, [NewSingle(CHEAP), NewSingle(DEAR)]) == Ok(e.(core := OFFERS))
  {
    var cmds := [NewSingle(CHEAP), NewSingle(DEAR)];
    assert cmds[..1] == [NewSingle(CHEAP)] && cmds[..1][..0] == [];
    assert Run(e, []) == Ok(e);
    var mid := Core(map[LevelKey(Ask, 100) := [1]], map[1 := CHEAP.ToOrder(Single, true)], {1});
    assert Best(e.core.book, Bid).None?;
    ComesToRest(e, CHEAP);
    assert Level(EMPTY_CORE.book, LevelKey(Ask, 100)) + [1] == [1];
    assert EMPTY_CORE.book[LevelKey(Ask, 100) := [1]] == mid.book;
    assert EMPTY_CORE.orders[1 := CHEAP.ToOrder(Single, true)] == mid.orders;
    assert EMPTY_CORE.store + {1} == mid.store;
    assert Handle(e, NewSingle(CHEAP)) == Ok(e.(core := mid));
    assert Admissible(e, cmds[..1][..0]);
    assert Run(e, cmds[..1]) == Ok(e.(core := mid)) && Admissible(e, cmds[..1]);
    assert Best(mid.book, Bid).None?;
    ComesToRest(e.(core := mid), DEAR);
    assert Level(mid.book, LevelKey(Ask, 200)) + [2] == [2];
    assert mid.book[LevelKey(Ask, 200) := [2]] == OFFERS.book;
    assert mid.orders[2 := DEAR.ToOrder(Single, true)] == OFFERS.orders;
    assert mid.store + {2} == OFFERS.store;
    assert Handle(e.(core := mid), NewSingle(DEAR)) == Ok(e.(core := OFFERS));
  }

  lemma {:induction false} OffersQueue()
    ensures Queue(OFFERS.book, Ask) == [1, 2] && Best(OFFERS.book, Ask) == Some(100)
  {
    var b := OFFERS.book;
    assert IsBest(b, Ask, 100);
    BestIs(b, Ask, 100);
    var b1 := b - {LevelKey(Ask, 100)};
    assert IsBest(b1, Ask, 200);
    BestIs(b1, Ask, 200);
    var b2 := b1 - {LevelKey(Ask, 200)};
    assert Best(b2, Ask).None?;
    assert Queue(b1, Ask) == b1[LevelKey(Ask, 200)] + Queue(b2, Ask);
  }

  /** A buyer of two at no more than 100, with the default balance, pays 200 for the second unit. */
  lemma {:induction false} LimitNotRespected(e: Engine)
    requires e.core == EMPTY_CORE && e.wiring == Live(NO_BALANCES)
    ensures var cmds := [NewSingle(CHEAP), NewSingle(DEAR), NewSingle(BUYER)];
      && Admissible(e, cmds) && Run(e, cmds).Ok?
      && FilledWorse(BUYER.ToOrder(Single, true), Run(e, cmds).value.core.Get(3))
  {
    var cmds := [NewSingle(CHEAP), NewSingle(DEAR), NewSingle(BUYER)];
    assert cmds[..2] == [NewSingle(CHEAP), NewSingle(DEAR)];
    OffersAreReached(e);
    assert Inv(EMPTY_CORE);
    RunKeeps(e, cmds[..2]);
    BuyerPaysMore(e.(core := OFFERS));
  }

  lemma {:induction false} BuyerPaysMore(e: Engine)
    requires e.core == OFFERS && Inv(OFFERS) && e.wiring == Live(NO_BALANCES)
    ensures CmdOk(e.core, NewSingle(BUYER)) && Handle(e, NewSingle(BUYER)).Ok?
    ensures FilledWorse(BUYER.ToOrder(Single, true), Handle(e, NewSingle(BUYER)).value.core.Get(3))
  {
    var o := BUYER.ToOrder(Single, true);
    var e0 := e.(core := OFFERS.Put(o));
    OffersQueue();
    assert CmdOk(e.core, NewSingle(BUYER)) && NoOco(e.core);
    IntakeKeeps(e.core, NewSingle(BUYER));
    assert e0.core.Get(3) == o && Crossable(e0.core.book, o) && Affords(e.wiring.ledger, o, 2, 100);
    assert EntryAnswer(e0, 3);
    HandleRaisesIffNoOco(e, NewSingle(BUYER));
    SystemMakersTrade(Entered(e0, 3), 3, {1, 2, 3});
    TradesThroughIff(e, NewSingle(BUYER), {1, 2, 3});
    assert Queue(e0.core.book, Ask) == [1, 2];
    BuyerRunsDry(e0.core);
  }

  lemma {:induction false} BuyerRunsDry(c: Core)
    requires c == OFFERS.Put(BUYER.ToOrder(Single, true)) && Queue(c.book, Ask) == [1, 2]
    ensures RunsDry(c, 3, {1, 2, 3})
  {
    var o := c.Get(3);
    assert c.Get(1).price == 100 && c.Get(1).Remaining() == 1 && c.Get(2).price == 200;
    TwoOffers(c, o, {1, 2, 3});
  }

  lemma {:induction false} TwoOffers(c: Core, o: Order, yes: set<OrderId>)
    requires 1 in yes && 2 in yes && !Worse(o, c.Get(1).price) && Worse(o, c.Get(2).price)
    ensures DepthWithin(c, [1, 2], o, yes) == c.Get(1).Remaining() && SomeWorse(c, [1, 2], o, yes)
  {
    DryShift(c, [1, 2], o, yes);
    assert [1, 2][1..] == [2];
    AllWorse(c, [2], o, yes);
    assert [1, 2][1] == 2;
  }
}
