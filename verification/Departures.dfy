/** Who leaves the book, and why; who joins it without being sent; what becomes of the first maker met. */
module Departures {
  import opened Types
  import opened Collections
  import opened BookModel
  import opened Ledgers
  import opened EngineSpec
  import opened Admission
  import opened Invariants
  import opened Matching
  import opened Runs
  import opened Conservation
  import opened Determinism
  import opened Replay
  import opened Priority
  import opened Raising
  import opened Departed
  import opened Divergence
  import opened Escrow
  import opened Shadow
  import opened Arrivals
  import opened Outcomes

  // ---- Why an order leaves the book ----

  /** The event is among those logged from `e` to `e'`. */
  ghost predicate Reported(e: Engine, e': Engine, ev: Event) {
    exists i :: |e.log| <= i < |e'.log| && e'.log[i] == ev
  }

  /** The order is a leg, and the other leg has been filled in between. */
  ghost predicate PeerTraded(c: Core, c': Core, x: OrderId) {
    && c.Get(x).strategy.OcoLeg?
    && c.Get(c.Get(x).strategy.peer).executed < c'.Get(c.Get(x).strategy.peer).executed
  }

  /** It rests, or it is complete, or its peer was filled, or its cancellation was reported. */
  ghost predicate Excused(e: Engine, e': Engine, x: OrderId) {
    || e'.core.Resting(x)
    || e'.core.Get(x).executed == e'.core.Get(x).quantity
    || PeerTraded(e.core, e'.core, x)
    || Reported(e, e', OrderCancelled(x))
  }

  lemma {:induction false} ReportedThen(e: Engine, e1: Engine, e': Engine, ev: Event)
    requires e.log <= e1.log <= e'.log && (Reported(e, e1, ev) || Reported(e1, e', ev))
    ensures Reported(e, e', ev)
  {
    if Reported(e, e1, ev) {
      var i :| |e.log| <= i < |e1.log| && e1.log[i] == ev;
      assert e'.log[i] == ev;
    }
  }

  /** The peer's fills only grow. */
  lemma {:induction false} PeerTradedThen(c: Core, c1: Core, c': Core, x: OrderId)
    requires Inv(c) && x in c.orders && Evolves(c, c1) && Evolves(c1, c')
    requires PeerTraded(c, c1, x) || PeerTraded(c1, c', x)
    ensures PeerTraded(c, c', x)
  {
    assert OrderInv(c, x, {}, {});
    assert Terms(c1.orders[x]).strategy == Terms(c.orders[x]).strategy;
  }

  lemma {:induction false} CompleteStays(c: Core, c': Core, x: OrderId)
    requires Inv(c') && Evolves(c, c') && x in c.orders && c.orders[x].executed == c.orders[x].quantity
    ensures c'.orders[x].executed == c'.orders[x].quantity
  {
    assert OrderInv(c', x, {}, {});
    assert Terms(c'.orders[x]).quantity == Terms(c.orders[x]).quantity;
  }

  lemma {:induction false} ExcusedThen(e: Engine, e1: Engine, e': Engine, x: OrderId)
    requires Inv(e.core) && Inv(e'.core) && Evolves(e.core, e1.core) && Evolves(e1.core, e'.core) && x in e.core.orders
    requires e.log <= e1.log <= e'.log
    requires Excused(e, e1, x) && (e1.core.Resting(x) ==> Excused(e1, e', x))
    ensures Excused(e, e', x)
  {
    if PeerTraded(e.core, e1.core, x) || PeerTraded(e1.core, e'.core, x) {
      PeerTradedThen(e.core, e1.core, e'.core, x);
    } else if Reported(e, e1, OrderCancelled(x)) || Reported(e1, e', OrderCancelled(x)) {
      ReportedThen(e, e1, e', OrderCancelled(x));
    } else if !e1.core.Resting(x) {
      CompleteStays(e1.core, e'.core, x);
    }
  }

  lemma {:induction false} TradeExcuses(c: Core, t: OrderId, m: OrderId, p: Price, x: OrderId)
    requires Meets(c, t, m) && TradeCore(c, t, m, TradeQuantity(c, t, m), p).Ok? && c.Resting(x)
    ensures var c' := TradeCore(c, t, m, TradeQuantity(c, t, m), p).value;
      c'.Resting(x) || c'.Get(x).executed == c'.Get(x).quantity || PeerTraded(c, c', x)
  {
    var q := TradeQuantity(c, t, m);
    assert OrderInv(c, t, {}, {}) && OrderInv(c, m, {}, {});
    TradeKeeps(c, t, m, q, p);
    FillsKeep(c, t, m, q, p);
    var c1 := Filled(c, t, m, q, p);
    assert forall y :: c1.Resting(y) == c.Resting(y);
    HooksKeep(c1, t, m);
    ReactKeeps(c, t, m, q, p);
    var c3 := HookCore(HookCore(c1, t).value, m).value;
    RetireKeeps(c3, m, {t, m});
    if !c3.Resting(x) { assert c.orders[m].strategy == OcoLeg(x); }
  }

  /** A stored order that is cancelled reports every order that leaves with it. */
  lemma {:induction false} CancelExcuses(e: Engine, id: OrderId, x: OrderId)
    requires Inv(e.core) && id in e.core.store && e.wiring.Live? && CancelOrder(e, id).Ok? && e.core.Resting(x)
    ensures var e' := CancelOrder(e, id).value;
      && e.log <= e'.log
      && (e'.core.Resting(x) || x in Leaving(e.core, id))
      && (e.core.Get(id).user != SYSTEM_USER_ID ==> e'.core.Resting(x) || Reported(e, e', OrderCancelled(x)))
  {
    StoredCancel(e.core, id);
    CancelProjects(e, id);
    CancelKeeps(e.core, id);
    CancelTells(e, id);
    var e', ids, events := CancelOrder(e, id).value, Leaving(e.core, id), CancelEvents(e.core, id);
    if e.core.Get(id).user != SYSTEM_USER_ID && x in ids {
      var i := if x == ids[0] then 0 else 1;
      assert events[i] == OrderCancelled(x);
      assert e'.log[|e.log| + i] == OrderCancelled(x);
    }
  }

  lemma {:induction false} FrontExcuses(e: Engine, t: OrderId, x: OrderId)
    requires Inv(e.core) && Entering(e.core, t) && !Stops(e.core, t) && MeetFront(e, t).Ok? && e.wiring.Live?
    requires e.core.Resting(x)
    ensures Excused(e, MeetFront(e, t).value, x) && MeetFront(e, t).value.wiring.Live?
  {
    var side := e.core.Get(t).side.Opposite();
    var m, p := Front(e.core.book, side).value, Best(e.core.book, side).value;
    var q := TradeQuantity(e.core, t, m);
    FrontMeets(e.core, t);
    EncounterProjects(e, t, m, p);
    EncounterAnswers(e, t, m, p);
    if FrontPasses(e, t) {
      TradeExcuses(e.core, t, m, p, x);
    } else {
      CancelExcuses(Checked(e, e.core.Get(m), q, p), m, x);
    }
  }

  lemma {:induction false} SweepExcuses(e: Engine, t: OrderId, x: OrderId)
    requires Inv(e.core) && Entering(e.core, t) && Sweep(e, t).Ok? && e.wiring.Live? && e.core.Resting(x)
    ensures Excused(e, Sweep(e, t).value, x)
    decreases RestingOn(e.core.book, e.core.Get(t).side.Opposite())
  {
    if Stops(e.core, t) {
      SweepEnds(e, t);
    } else {
      FirstMeetingIsOk(e, t);
      FrontKeeps(e, t);
      FrontGrows(e, t);
      FrontExcuses(e, t, x);
      FrontEvolves(e, t);
      var e1 := MeetFront(e, t).value;
      SweepKeeps(e1, t);
      SweepGrows(e1, t);
      if e1.core.Resting(x) {
        if Stops(e1.core, t) { SweepEnds(e1, t); } else { SweepExcuses(e1, t, x); }
      }
      ExcusedThen(e, e1, Sweep(e1, t).value, x);
    }
  }

  lemma {:induction false} PlaceExcuses(e: Engine, id: OrderId, stored: set<OrderId>, x: OrderId)
    requires Place(e, id, stored).Ok? && e.core.Resting(x)
    ensures Place(e, id, stored).value.core.Resting(x) && e.log <= Place(e, id, stored).value.log
  {
  }

  lemma {:induction false} RestExcuses(e: Engine, id: OrderId, stored: set<OrderId>, x: OrderId)
    requires Inv(e.core) && Entering(e.core, id) && MatchOrRest(e, id, stored).Ok? && e.wiring.Live?
    requires e.core.Resting(x)
    ensures Excused(e, MatchOrRest(e, id, stored).value, x)
  {
    SweepExcuses(e, id, x);
    SweepKeeps(e, id);
    SweepGrows(e, id);
    var e2 := Sweep(e, id).value;
    if !e2.core.Get(id).Complete() {
      PlacedCore(e2, id, stored);
      AfterPlace(e, e2, Place(e2, id, stored).value, x);
    }
  }

  lemma {:induction false} PlacedCore(e: Engine, id: OrderId, stored: set<OrderId>)
    requires Place(e, id, stored).Ok?
    ensures var e' := Place(e, id, stored).value;
      e'.core.orders == e.core.orders && e.log <= e'.log && forall x :: e.core.Resting(x) ==> e'.core.Resting(x)
  {
  }

  lemma {:induction false} AfterPlace(e: Engine, e2: Engine, e': Engine, x: OrderId)
    requires Excused(e, e2, x) && e'.core.orders == e2.core.orders && e.log <= e2.log <= e'.log
    requires forall y :: e2.core.Resting(y) ==> e'.core.Resting(y)
    ensures Excused(e, e', x)
  {
    if Reported(e, e2, OrderCancelled(x)) { ReportedThen(e, e2, e', OrderCancelled(x)); }
  }

  lemma {:induction false} NewcomerExcuses(e: Engine, cmd: Command, x: OrderId)
    requires Inv(e.core) && CmdOk(e.core, cmd) && Submits(cmd) && Handle(e, cmd).Ok? && e.wiring.Live?
    requires e.core.Resting(x)
    ensures Excused(e, Handle(e, cmd).value, x)
  {
    var e0 := e.(core := Intake(e.core, cmd));
    HandleSubmits(e, cmd);
    IntakeIs(e.core, cmd);
    TurnedAwayIs(e, cmd);
    if TurnedAway(e, cmd, Handle(e, cmd).value) {
      TurnedAwayLeavesNothing(e, cmd);
      assert e0.core.Resting(x);
    } else if Reaches(e.core.book, Newcomer(cmd)) {
      RestExcuses(Entered(e0, NewId(cmd)), NewId(cmd), StoredBy(cmd), x);
      ExcusedBefore(e, Entered(e0, NewId(cmd)), Handle(e, cmd).value, x);
    } else {
      PlaceExcuses(e0, NewId(cmd), StoredBy(cmd), x);
    }
  }

  /** Order objects added and a question asked make no difference. */
  lemma {:induction false} ExcusedBefore(e: Engine, e1: Engine, e': Engine, x: OrderId)
    requires Inv(e.core) && x in e.core.orders && e1.log == e.log && Excused(e1, e', x)
    requires forall y :: y in e.core.orders ==> e1.core.Get(y) == e.core.orders[y]
    ensures Excused(e, e', x)
  {
    assert OrderInv(e.core, x, {}, {});
    if Reported(e1, e', OrderCancelled(x)) { assert Reported(e, e', OrderCancelled(x)); }
  }

  /**
   * Nobody disappears: an order that rested before a command and no longer rests after it is complete, or is a
   * leg whose peer was filled by that command, or its cancellation was reported, or belongs to the system user,
   * about whom nothing is reported, and is what the command cancelled.
   */
  lemma {:induction false} LeavesForAReason(e: Engine, cmd: Command, x: OrderId)
    requires Inv(e.core) && CmdOk(e.core, cmd) && Handle(e, cmd).Ok? && e.wiring.Live?
    requires e.core.Resting(x) && !Handle(e, cmd).value.core.Resting(x)
    ensures var e' := Handle(e, cmd).value;
      || e'.core.Get(x).executed == e'.core.Get(x).quantity
      || PeerTraded(e.core, e'.core, x)
      || Reported(e, e', OrderCancelled(x))
      || (cmd.Cancel? && x in Leaving(e.core, cmd.orderId) && e.core.Get(x).user == SYSTEM_USER_ID)
  {
    match cmd
    case NewSingle(_) => NewcomerExcuses(e, cmd, x);
    case NewOto(_, _) => NewcomerExcuses(e, cmd, x);
    case NewOco(a, b) =>
      LegsRest(e, a, b);
      StaysInLegs(e, a, b, x);
    case Cancel(id) =>
      if id in e.core.store {
        CancelExcuses(e, id, x);
        StoredCancel(e.core, id);
        assert OrderInv(e.core, id, {}, {});
      }
  }

  lemma {:induction false} StaysInLegs(e: Engine, a: OrderSpec, b: OrderSpec, x: OrderId)
    requires Inv(e.core) && CmdOk(e.core, NewOco(a, b)) && Handle(e, NewOco(a, b)).Ok? && e.core.Resting(x)
    ensures Handle(e, NewOco(a, b)).value.core.Resting(x)
  {
    LegsRest(e, a, b);
    var c' := Handle(e, NewOco(a, b)).value.core;
    assert c'.Get(x) == e.core.Get(x);
  }

  // ---- Children come to rest ----

  ghost predicate Dormant(c: Core, x: OrderId) { x in c.orders && !c.orders[x].active }

  /** Just activated: it rests unfilled, is stored, and an ordinary owner was told so. */
  ghost predicate Awake(e: Engine, e': Engine, x: OrderId) {
    && x in e'.core.orders && e'.core.orders[x].active && e'.core.orders[x].executed == 0
    && e'.core.Resting(x) && x in e'.core.store
    && (e'.core.orders[x].user != SYSTEM_USER_ID ==> Reported(e, e', OrderPlaced(x, e'.core.orders[x])))
  }

  lemma {:induction false} HookAwakes(e: Engine, id: OrderId, hook: set<OrderId>, full: set<OrderId>, x: OrderId)
    requires MidInv(e.core, hook, full) && id in e.core.orders && id in hook && e.core.orders[id].executed > 0
    requires Hook(e, id).Ok? && Dormant(e.core, x)
    ensures var e' := Hook(e, id).value;
      && e.log <= e'.log
      && (Dormant(e'.core, x) || (Awake(e, e', x) && Child(e.core, id, x)))
  {
    var o := e.core.orders[id];
    assert OrderInv(e.core, id, hook, full) && OrderInv(e.core, x, hook, full);
    HookGrows(e, id);
    HookProjects(e, id);
    var e' := Hook(e, id).value;
    if o.strategy.OtoParent? && o.Complete() {
      ActivateKeeps(e.core, id, hook, full);
      assert OrderInv(e'.core, x, hook - {id}, full);
      if x == o.strategy.child && o.user != SYSTEM_USER_ID {
        assert e'.log[|e.log|] == OrderPlaced(x, e'.core.orders[x]);
      }
    } else {
      HookKeeps(e.core, id, hook, full);
    }
  }

  lemma {:induction false} AwakeStays(e: Engine, e1: Engine, e': Engine, x: OrderId)
    requires Awake(e, e1, x) && e.log <= e1.log <= e'.log && e'.core.Get(x) == e1.core.orders[x]
    requires x in e'.core.orders && e'.core.Resting(x) && x in e'.core.store
    ensures Awake(e, e', x)
  {
    if e1.core.orders[x].user != SYSTEM_USER_ID { ReportedThen(e, e1, e', OrderPlaced(x, e1.core.orders[x])); }
  }

  /** Awake since `e1` is awake since any earlier state. */
  lemma {:induction false} AwakeSince(e: Engine, e1: Engine, e': Engine, x: OrderId)
    requires Awake(e1, e', x) && e.log <= e1.log <= e'.log
    ensures Awake(e, e', x)
  {
    if e'.core.orders[x].user != SYSTEM_USER_ID { ReportedThen(e, e1, e', OrderPlaced(x, e'.core.orders[x])); }
  }

  /** The maker's strategy leaves a child at rest that the taker has just activated. */
  lemma {:induction false} MakerHookSpares(e: Engine, m: OrderId, full: set<OrderId>, x: OrderId)
    requires MidInv(e.core, {m}, full) && m in e.core.orders && e.core.orders[m].executed > 0 && Hook(e, m).Ok?
    requires x in e.core.orders && e.core.orders[x].active && e.core.orders[x].strategy.OtoChild? && e.core.Resting(x)
    ensures var e' := Hook(e, m).value;
      && e.log <= e'.log && e'.core.Get(x) == e.core.orders[x]
      && x in e'.core.orders && e'.core.Resting(x) && x in e'.core.store
  {
    assert OrderInv(e.core, m, {m}, full);
    HookKeeps(e.core, m, {m}, full);
    HookProjects(e, m);
    HookGrows(e, m);
  }

  lemma {:induction false} HooksAwake(e: Engine, t: OrderId, m: OrderId, x: OrderId)
    requires MidInv(e.core, {t, m}, {t, m}) && t in e.core.orders && m in e.core.orders && m != t && Dormant(e.core, x)
    requires e.core.orders[t].executed > 0 && e.core.orders[m].executed > 0
    requires Hook(e, t).Ok? && Hook(Hook(e, t).value, m).Ok?
    ensures var e' := Hook(Hook(e, t).value, m).value;
      && e.log <= e'.log
      && (Dormant(e'.core, x) || (Awake(e, e', x) && (Child(e.core, t, x) || Child(e.core, m, x))))
  {
    assert OrderInv(e.core, x, {t, m}, {t, m});
    HookAwakes(e, t, {t, m}, {t, m}, x);
    HookKeeps(e.core, t, {t, m}, {t, m});
    HookProjects(e, t);
    assert {t, m} - {t} == {m};
    var e1 := Hook(e, t).value;
    if Dormant(e1.core, x) {
      HookAwakes(e1, m, {m}, {t, m}, x);
      var e' := Hook(e1, m).value;
      if !Dormant(e'.core, x) { AwakeSince(e, e1, e', x); }
    } else {
      MakerHookSpares(e1, m, {t, m}, x);
      AwakeStays(e, e1, Hook(e1, m).value, x);
    }
  }

  lemma {:induction false} FilledFacts(c: Core, t: OrderId, m: OrderId, q: int, p: Price)
    requires Meets(c, t, m) && q == TradeQuantity(c, t, m)
    ensures var c1 := Filled(c, t, m, q, p);
      && MidInv(c1, {t, m}, {t, m}) && t != m && c1.Get(t).executed > 0 && c1.Get(m).executed > 0
      && c1.orders.Keys == c.orders.Keys
  {
    FillsKeep(c, t, m, q, p);
    assert OrderInv(c, t, {}, {}) && OrderInv(c, m, {}, {});
  }

  /** A trade is events and fills, then both reactions, then retirement and settlement. */
  lemma {:induction false} TradeSplits(e: Engine, t: OrderId, m: OrderId, q: int, p: Price)
    returns (filled: Engine, told: Engine)
    requires Trade(e, t, m, q, p).Ok?
    ensures filled.core == Filled(e.core, t, m, q, p) && e.log <= filled.log
    ensures Hook(filled, t).Ok? && Hook(Hook(filled, t).value, m) == Ok(told)
    ensures var e' := Trade(e, t, m, q, p).value; RetireCore(told.core, m) == Ok(e'.core) && told.log <= e'.log
  {
    var taker, maker := e.core.Get(t), e.core.Get(m);
    filled := FillBoth(TradeEvents(e, taker, maker, q, p), t, m, q, p);
    FillEventsGrow(e, filled, t, m, q, p);
    told := Hook(Hook(filled, t).value, m).value;
    var e4 := told.(core := RetireCore(told.core, m).value);
    SettleGrows(e4, taker, maker, q, p);
    SettleProjects(e4, taker, maker, q, p);
    assert Trade(e, t, m, q, p) == Ok(Settle(e4, taker, maker, q, p));
  }

  lemma {:induction false} TradeAwakes(e: Engine, t: OrderId, m: OrderId, p: Price, x: OrderId)
    requires Meets(e.core, t, m) && Trade(e, t, m, TradeQuantity(e.core, t, m), p).Ok? && Dormant(e.core, x)
    ensures var e' := Trade(e, t, m, TradeQuantity(e.core, t, m), p).value;
      && e.log <= e'.log
      && (Dormant(e'.core, x)
          || (Awake(e, e', x) && (e'.core.Get(t).Complete() || e'.core.Get(x).side == e'.core.Get(t).side)))
  {
    var q := TradeQuantity(e.core, t, m);
    var filled, told := TradeSplits(e, t, m, q, p);
    FilledFacts(e.core, t, m, q, p);
    DormantIsOther(e.core, t, m, q, p, x);
    HooksAwake(filled, t, m, x);
    RetiredOrders(told.core, m);
    if !Dormant(told.core, x) {
      TradeProjects(e, t, m, q, p);
      ChildSide(e.core, t, m, q, p, x);
      AwakeSince(e, filled, told, x);
      RetiredSpares(e.core, filled, told, t, m, q, p, x);
      AwakeStays(e, told, Trade(e, t, m, q, p).value, x);
    }
  }

  lemma {:induction false} DormantIsOther(c: Core, t: OrderId, m: OrderId, q: int, p: Price, x: OrderId)
    requires Meets(c, t, m) && Dormant(c, x)
    ensures x != t && x != m && Dormant(Filled(c, t, m, q, p), x)
  {
    assert OrderInv(c, m, {}, {}) && OrderInv(c, t, {}, {});
  }

  /** Retiring the maker leaves everybody else at rest. */
  lemma {:induction false} RetiredSpares(c: Core, filled: Engine, told: Engine, t: OrderId, m: OrderId, q: int,
                                         p: Price, x: OrderId)
    requires Meets(c, t, m) && q == TradeQuantity(c, t, m) && TradeCore(c, t, m, q, p).Ok?
    requires filled.core == Filled(c, t, m, q, p)
    requires Hook(filled, t).Ok? && Hook(Hook(filled, t).value, m) == Ok(told)
    requires x != m && told.core.Resting(x) && x in told.core.store && RetireCore(told.core, m).Ok?
    ensures RetireCore(told.core, m).value.Resting(x) && x in RetireCore(told.core, m).value.store
  {
    HookProjects(filled, t);
    HookProjects(Hook(filled, t).value, m);
    ReactKeeps(c, t, m, q, p);
    RetireKeeps(told.core, m, {t, m});
  }

  lemma {:induction false} FillEventsGrow(e: Engine, e1: Engine, t: OrderId, m: OrderId, q: int, p: Price)
    requires e1 == FillBoth(TradeEvents(e, e.core.Get(t), e.core.Get(m), q, p), t, m, q, p)
    ensures e.log <= e1.log
  {
    var taker, maker := e.core.Get(t), e.core.Get(m);
    var a := Emit(e, taker.user, [NewTrade(taker.id, q, p, Taker)]);
    assert e.log <= a.log <= TradeEvents(e, taker, maker, q, p).log;
    FillBothGrows(TradeEvents(e, taker, maker, q, p), t, m, q, p);
  }

  lemma {:induction false} RetiredOrders(c: Core, m: OrderId)
    requires RetireCore(c, m).Ok?
    ensures RetireCore(c, m).value.orders == c.orders
  {
  }

  /** The child of the taker appears when the taker is complete, the child of the maker on the taker's side. */
  lemma {:induction false} ChildSide(c: Core, t: OrderId, m: OrderId, q: int, p: Price, x: OrderId)
    requires Meets(c, t, m) && TradeCore(c, t, m, q, p).Ok? && q == TradeQuantity(c, t, m) && x in c.orders
    requires Child(Filled(c, t, m, q, p), t, x) || Child(Filled(c, t, m, q, p), m, x)
    ensures var c' := TradeCore(c, t, m, q, p).value;
      c'.Get(t).Complete() || c'.Get(x).side == c'.Get(t).side
  {
    assert OrderInv(c, t, {}, {}) && OrderInv(c, m, {}, {}) && OrderInv(c, x, {}, {});
    TradeKeeps(c, t, m, q, p);
    var c' := TradeCore(c, t, m, q, p).value;
    assert Terms(c'.orders[x]).side == Terms(c.orders[x]).side;
  }

  // ---- ... and stay there ----

  /** An active child of a filled parent, at rest on the side of an incoming order. */
  ghost predicate Beside(c: Core, t: OrderId, x: OrderId) {
    && x in c.orders && c.orders[x].strategy.OtoChild? && c.Resting(x) && c.orders[x].active
    && c.orders[x].side == c.Get(t).side
  }

  lemma {:induction false} TradeSpares(c: Core, t: OrderId, m: OrderId, p: Price, x: OrderId)
    requires Meets(c, t, m) && TradeCore(c, t, m, TradeQuantity(c, t, m), p).Ok? && Beside(c, t, x)
    ensures var c' := TradeCore(c, t, m, TradeQuantity(c, t, m), p).value;
      Beside(c', t, x) && c'.orders[x] == c.orders[x]
  {
    TradeExcuses(c, t, m, p, x);
    TradeKeeps(c, t, m, TradeQuantity(c, t, m), p);
    var c' := TradeCore(c, t, m, TradeQuantity(c, t, m), p).value;
    assert OrderInv(c, x, {}, {});
    StaysActive(c, c', x);
    SameButFills(c.orders[x], c'.orders[x]);
  }

  lemma {:induction false} SameButFills(o: Order, o': Order)
    requires Terms(o) == Terms(o') && o.active == o'.active && o.executed == o'.executed && o.fills == o'.fills
    ensures o == o'
  {
    assert o == Terms(o).(active := o.active, executed := o.executed, fills := o.fills);
    assert o' == Terms(o').(active := o'.active, executed := o'.executed, fills := o'.fills);
  }

  lemma {:induction false} CancelSpares(c: Core, t: OrderId, m: OrderId, x: OrderId)
    requires Meets(c, t, m) && CancelCore(c, m).Ok? && Beside(c, t, x)
    ensures Beside(CancelCore(c, m).value, t, x) && CancelCore(c, m).value.orders[x] == c.orders[x]
  {
    assert OrderInv(c, m, {}, {});
    CancelKeeps(c, m);
  }

  lemma {:induction false} FrontSpares(e: Engine, t: OrderId, x: OrderId)
    requires Inv(e.core) && Entering(e.core, t) && !Stops(e.core, t) && MeetFront(e, t).Ok? && Beside(e.core, t, x)
    ensures var c' := MeetFront(e, t).value.core; Beside(c', t, x) && c'.orders[x] == e.core.orders[x]
  {
    var side := e.core.Get(t).side.Opposite();
    var m, p := Front(e.core.book, side).value, Best(e.core.book, side).value;
    FrontMeets(e.core, t);
    EncounterProjects(e, t, m, p);
    if FrontPasses(e, t) { TradeSpares(e.core, t, m, p, x); } else { CancelSpares(e.core, t, m, x); }
  }

  lemma {:induction false} SweepSpares(e: Engine, t: OrderId, x: OrderId)
    requires Inv(e.core) && Entering(e.core, t) && Sweep(e, t).Ok? && Beside(e.core, t, x)
    ensures var c' := Sweep(e, t).value.core; Beside(c', t, x) && c'.orders[x] == e.core.orders[x]
    decreases RestingOn(e.core.book, e.core.Get(t).side.Opposite())
  {
    if Stops(e.core, t) {
      SweepEnds(e, t);
    } else {
      FirstMeetingIsOk(e, t);
      FrontKeeps(e, t);
      FrontSpares(e, t, x);
      var e1 := MeetFront(e, t).value;
      if Stops(e1.core, t) { SweepEnds(e1, t); } else { SweepSpares(e1, t, x); }
    }
  }

  lemma {:induction false} FrontAwakes(e: Engine, t: OrderId, x: OrderId)
    requires Inv(e.core) && Entering(e.core, t) && !Stops(e.core, t) && MeetFront(e, t).Ok? && Dormant(e.core, x)
    ensures var e1 := MeetFront(e, t).value;
      Dormant(e1.core, x) || (Awake(e, e1, x) && (Stops(e1.core, t) || Beside(e1.core, t, x)))
  {
    var side := e.core.Get(t).side.Opposite();
    var m, p := Front(e.core.book, side).value, Best(e.core.book, side).value;
    var q := TradeQuantity(e.core, t, m);
    FrontMeets(e.core, t);
    EncounterProjects(e, t, m, p);
    FrontEvolves(e, t);
    assert OrderInv(e.core, x, {}, {});
    if FrontPasses(e, t) {
      var e0 := Checked(e, e.core.Get(m), q, p);
      TradeAwakes(e0, t, m, p, x);
      var e1 := MeetFront(e, t).value;
      assert e1 == Trade(e0, t, m, q, p).value;
      if !Dormant(e1.core, x) {
        AwakeSince(e, e0, e1, x);
        assert Terms(e1.core.orders[x]).strategy == Terms(e.core.orders[x]).strategy;
      }
    } else {
      CancelKeeps(e.core, m);
    }
  }

  lemma {:induction false} SweepAwakes(e: Engine, t: OrderId, x: OrderId)
    requires Inv(e.core) && Entering(e.core, t) && Sweep(e, t).Ok? && Dormant(e.core, x)
    ensures var e' := Sweep(e, t).value; Dormant(e'.core, x) || Awake(e, e', x)
    decreases RestingOn(e.core.book, e.core.Get(t).side.Opposite())
  {
    if Stops(e.core, t) {
      SweepEnds(e, t);
    } else {
      FirstMeetingIsOk(e, t);
      FrontKeeps(e, t);
      FrontGrows(e, t);
      FrontAwakes(e, t, x);
      var e1 := MeetFront(e, t).value;
      if Stops(e1.core, t) {
        SweepEnds(e1, t);
      } else if Dormant(e1.core, x) {
        SweepAwakes(e1, t, x);
        SweepGrows(e1, t);
        if !Dormant(Sweep(e1, t).value.core, x) { AwakeSince(e, e1, Sweep(e1, t).value, x); }
      } else {
        SweepSpares(e1, t, x);
        SweepGrows(e1, t);
        SweepKeeps(e1, t);
        AwakeStays(e, e1, Sweep(e1, t).value, x);
      }
    }
  }

  lemma {:induction false} RestAwakes(e: Engine, id: OrderId, stored: set<OrderId>, x: OrderId)
    requires Inv(e.core) && Entering(e.core, id) && MatchOrRest(e, id, stored).Ok? && Dormant(e.core, x)
    ensures var e' := MatchOrRest(e, id, stored).value; Dormant(e'.core, x) || Awake(e, e', x)
  {
    SweepAwakes(e, id, x);
    SweepGrows(e, id);
    var e2 := Sweep(e, id).value;
    if !e2.core.Get(id).Complete() {
      PlacedCore(e2, id, stored);
      if !Dormant(e2.core, x) { AwakeStays(e, e2, Place(e2, id, stored).value, x); }
    }
  }

  /** A child that is active after a command and was not before. */
  ghost predicate Awakened(c: Core, c': Core, x: OrderId) {
    && x in c'.orders && c'.orders[x].strategy.OtoChild? && c'.orders[x].active
    && (x in c.orders ==> !c.orders[x].active)
  }

  lemma {:induction false} DormantAtIntake(e: Engine, cmd: Command, x: OrderId)
    requires Inv(e.core) && CmdOk(e.core, cmd) && Handle(e, cmd).Ok? && Awakened(e.core, Handle(e, cmd).value.core, x)
    ensures Submits(cmd) && Dormant(Intake(e.core, cmd), x)
  {
    match cmd
    case NewSingle(s) => DormantIfSubmitted(e, cmd, x);
    case NewOto(p, ch) => DormantIfSubmitted(e, cmd, x);
    case NewOco(a, b) => LegsRest(e, a, b);
    case Cancel(id) => CancelLeaves(e, id);
  }

  lemma {:induction false} DormantIfSubmitted(e: Engine, cmd: Command, x: OrderId)
    requires Inv(e.core) && CmdOk(e.core, cmd) && Handle(e, cmd).Ok? && Awakened(e.core, Handle(e, cmd).value.core, x)
    requires Submits(cmd)
    ensures Dormant(Intake(e.core, cmd), x)
  {
    HandleSubmits(e, cmd);
    IntakeIs(e.core, cmd);
    var e0 := e.(core := Intake(e.core, cmd));
    SubmitKeys(e0, NewId(cmd), StoredBy(cmd));
    SubmitKeeps(e0, NewId(cmd), StoredBy(cmd));
    var c' := Handle(e, cmd).value.core;
    assert Terms(c'.orders[x]).strategy == Terms(e0.core.orders[x]).strategy;
  }

  /**
   * The child of an OTO parent that a command completes comes to rest, unfilled and stored, and its owner, if
   * an ordinary user, is told so, whether the parent was resting or has only just arrived.
   */
  lemma {:induction false} ChildComesToRest(e: Engine, cmd: Command, x: OrderId)
    requires Inv(e.core) && CmdOk(e.core, cmd) && Handle(e, cmd).Ok? && Awakened(e.core, Handle(e, cmd).value.core, x)
    ensures var e' := Handle(e, cmd).value;
      var parent := e'.core.Get(e'.core.Get(x).strategy.parent);
      && parent.executed == parent.quantity && e'.core.orders[x].executed == 0
      && e'.core.Resting(x) && x in e'.core.store
      && (e'.core.orders[x].user != SYSTEM_USER_ID ==> Reported(e, e', OrderPlaced(x, e'.core.orders[x])))
  {
    DormantAtIntake(e, cmd, x);
    HandleSubmits(e, cmd);
    HandleKeeps(e, cmd);
    TurnedAwayIs(e, cmd);
    var e0 := e.(core := Intake(e.core, cmd));
    var e' := Handle(e, cmd).value;
    assert OrderInv(e'.core, x, {}, {}) && OrderInv(e'.core, e'.core.orders[x].strategy.parent, {}, {});
    if TurnedAway(e, cmd, e') {
      TurnedAwayLeavesNothing(e, cmd);
      IntakeIs(e.core, cmd);
    } else if Reaches(e.core.book, Newcomer(cmd)) {
      RestAwakes(Entered(e0, NewId(cmd)), NewId(cmd), StoredBy(cmd), x);
      AwakeFrom(e, Entered(e0, NewId(cmd)), e', x);
    } else {
      PlacedCore(e0, NewId(cmd), StoredBy(cmd));
    }
  }

  lemma {:induction false} AwakeFrom(e: Engine, e1: Engine, e': Engine, x: OrderId)
    requires e1.log == e.log && Awake(e1, e', x)
    ensures Awake(e, e', x)
  {
    if e'.core.orders[x].user != SYSTEM_USER_ID {
      assert Reported(e1, e', OrderPlaced(x, e'.core.orders[x]));
    }
  }
}
