/**
 * The logger that ships encodes an order event as JSON with all fields of the order. An order of a group keeps
 * the order object it is linked to among its fields, so its events cannot be encoded and logging them raises.
 * For the system user nothing is logged. This module says exactly which commands raise with that logger.
 */
module Logging {
  import opened Types
  import opened Collections
  import opened BookModel
  import opened EngineSpec
  import opened Invariants
  import opened Matching
  import opened Runs
  import opened PlainRuns
  import opened Conservation
  import opened Accounting
  import opened Escrow
  import opened Priority
  import opened Raising
  import opened Replay
  import opened Determinism
  import opened Departed
  import opened Divergence

  /** An event that carries the fields of an order. */
  predicate OrderEvent(ev: Event) {
    ev.OrderPlaced? || ev.OrderCancelled? || ev.OrderFilled? || ev.OrderPartiallyFilled?
  }

  ghost predicate Encodable(ev: Event, c: Core) { OrderEvent(ev) ==> c.Get(ev.id).strategy.Single? }

  /** Everything logged between two states can be encoded. */
  ghost predicate AllEncodable(e: Engine, e': Engine) {
    forall i :: |e.log| <= i < |e'.log| ==> Encodable(e'.log[i], e'.core)
  }

  /** A command with the logger that ships: the first event it cannot encode raises. */
  ghost function HandleShipped(e: Engine, cmd: Command): Result<Engine> {
    var e' :- Handle(e, cmd);
    if AllEncodable(e, e') then Ok(e') else Raised(TypeError)
  }

  ghost function RunShipped(e: Engine, cmds: seq<Command>): Result<Engine> {
    if cmds == [] then Ok(e)
    else
      var e' :- RunShipped(e, cmds[..|cmds| - 1]);
      HandleShipped(e', cmds[|cmds| - 1])
  }

  /** A New command for a group of an ordinary user. */
  predicate OrdinaryGroup(cmd: Command) {
    (cmd.NewOto? && cmd.parent.user != SYSTEM_USER_ID) || (cmd.NewOco? && cmd.legA.user != SYSTEM_USER_ID)
  }

  /** Every order of a group belongs to the system user. */
  ghost predicate GroupsAreSystem(c: Core) {
    forall id :: id in c.orders && !c.orders[id].strategy.Single? ==> c.orders[id].user == SYSTEM_USER_ID
  }

  // ---- What is logged is about orders of ordinary users ----

  ghost predicate About(ev: Event, c: Core) {
    OrderEvent(ev) ==> ev.id in c.orders && c.orders[ev.id].user != SYSTEM_USER_ID
  }

  /** The log grew by events about orders of ordinary users, and no order changed hands. */
  ghost predicate Owned(e: Engine, e': Engine) {
    && e.log <= e'.log && SameUsers(e.core, e'.core)
    && forall i :: |e.log| <= i < |e'.log| ==> About(e'.log[i], e'.core)
  }

  ghost predicate SameUsers(c: Core, c': Core) {
    forall x :: x in c.orders ==> x in c'.orders && c'.orders[x].user == c.orders[x].user
  }

  lemma {:induction false} EvolvesSameUsers(c: Core, c': Core)
    requires Evolves(c, c')
    ensures SameUsers(c, c')
  {
    forall x | x in c.orders
      ensures x in c'.orders && c'.orders[x].user == c.orders[x].user
    {
      assert Terms(c'.orders[x]).user == Terms(c.orders[x]).user;
    }
  }

  lemma {:induction false} OwnedThen(e: Engine, e1: Engine, e': Engine)
    requires Owned(e, e1) && Owned(e1, e')
    ensures Owned(e, e')
  {
    forall i | |e.log| <= i < |e'.log|
      ensures About(e'.log[i], e'.core)
    {
      if i < |e1.log| { assert About(e1.log[i], e1.core) && e'.log[i] == e1.log[i]; }
    }
  }

  lemma {:induction false} EmitOwned(e: Engine, u: UserId, events: seq<Event>)
    requires forall i :: 0 <= i < |events| && OrderEvent(events[i]) ==>
      events[i].id in e.core.orders && e.core.orders[events[i].id].user == u
    ensures Owned(e, Emit(e, u, events))
  {
    var e' := Emit(e, u, events);
    forall i | |e.log| <= i < |e'.log|
      ensures About(e'.log[i], e'.core)
    {
      assert e'.log[i] == events[i - |e.log|];
    }
  }

  lemma {:induction false} DoOwned(e: Engine, op: BalanceOp)
    ensures Owned(e, Do(e, op))
  {
  }

  lemma {:induction false} CoreOwned(e: Engine, c: Core)
    requires SameUsers(e.core, c)
    ensures Owned(e, e.(core := c))
  {
  }

  lemma {:induction false} FillUsers(c: Core, t: OrderId, m: OrderId, q: int, p: Price)
    requires t in c.orders && m in c.orders && c.orders[t].id == t && c.orders[m].id == m
    ensures SameUsers(c, Filled(c, t, m, q, p))
    ensures var c' := Filled(c, t, m, q, p); c'.Get(t).id == t && c'.Get(m).id == m && t in c'.orders && m in c'.orders
  {
  }

  lemma {:induction false} FillsOwned(e: Engine, t: OrderId, m: OrderId, q: int, p: Price)
    requires t in e.core.orders && m in e.core.orders && e.core.orders[t].id == t && e.core.orders[m].id == m
    ensures Owned(e, FillBoth(TradeEvents(e, e.core.Get(t), e.core.Get(m), q, p), t, m, q, p))
  {
    var taker, maker := e.core.Get(t), e.core.Get(m);
    var x, y := [NewTrade(taker.id, q, p, Taker)], [NewTrade(maker.id, q, p, Maker)];
    EmitOwned(e, taker.user, x);
    EmitOwned(Emit(e, taker.user, x), maker.user, y);
    var e1 := TradeEvents(e, taker, maker, q, p);
    OwnedThen(e, Emit(e, taker.user, x), e1);
    var c := Filled(e1.core, t, m, q, p);
    FillUsers(e1.core, t, m, q, p);
    CoreOwned(e1, c);
    var e2 := e1.(core := c);
    OwnedThen(e, e1, e2);
    var t', m' := c.Get(t), c.Get(m);
    EmitOwned(e2, t'.user, [FillEvent(t')]);
    var e3 := Emit(e2, t'.user, [FillEvent(t')]);
    OwnedThen(e, e2, e3);
    EmitOwned(e3, m'.user, [FillEvent(m')]);
    OwnedThen(e, e3, Emit(e3, m'.user, [FillEvent(m')]));
  }

  lemma {:induction false} ReleaseOwned(e: Engine, o: Order)
    ensures Owned(e, Release(e, o))
  {
    DoOwned(e, ReleaseOp(o));
  }

  lemma {:induction false} HookOwned(e: Engine, id: OrderId, hook: set<OrderId>, full: set<OrderId>)
    requires MidInv(e.core, hook, full) && id in e.core.orders && id in hook && e.core.orders[id].executed > 0
    requires Hook(e, id).Ok?
    ensures Owned(e, Hook(e, id).value)
  {
    var c, o := e.core, e.core.orders[id];
    assert OrderInv(c, id, hook, full);
    HookProjects(e, id);
    HookKeeps(c, id, hook, full);
    var c' := HookCore(c, id).value;
    CoreOwned(e, c');
    var e1 := e.(core := c');
    match o.strategy
    case OtoParent(child) =>
      if o.Complete() {
        assert OrderInv(c, child, hook, full);
        EmitOwned(e1, c'.Get(child).user, [OrderPlaced(child, c'.Get(child))]);
        OwnedThen(e, e1, Hook(e, id).value);
      }
    case OcoLeg(peer) =>
      EmitOwned(e1, o.user, [OrderCancelled(peer)]);
      var e2 := Emit(e1, o.user, [OrderCancelled(peer)]);
      OwnedThen(e, e1, e2);
      ReleaseOwned(e2, o);
      OwnedThen(e, e2, Release(e2, o));
    case _ =>
  }

  lemma {:induction false} SettleOwned(e: Engine, t: Order, m: Order, q: int, p: Price)
    ensures Owned(e, Settle(e, t, m, q, p))
  {
    var e1 := HoldOnFirstFill(e, m);
    DoOwned(e, HoldOp(m));
    CoreOwned(e, e.core);
    var e2 := HoldOnFirstFill(e1, t);
    DoOwned(e1, HoldOp(t));
    CoreOwned(e1, e1.core);
    OwnedThen(e, e1, e2);
    var e3 := Do(e2, SettleOp(t, q, p));
    DoOwned(e2, SettleOp(t, q, p));
    OwnedThen(e, e2, e3);
    DoOwned(e3, SettleOp(m, q, p));
    OwnedThen(e, e3, Do(e3, SettleOp(m, q, p)));
  }

  lemma {:induction false} TradeOwned(e: Engine, t: OrderId, m: OrderId, q: int, p: Price)
    requires Meets(e.core, t, m) && q == TradeQuantity(e.core, t, m) && Trade(e, t, m, q, p).Ok?
    ensures Owned(e, Trade(e, t, m, q, p).value)
  {
    var c, taker, maker := e.core, e.core.orders[t], e.core.orders[m];
    assert OrderInv(c, t, {}, {}) && OrderInv(c, m, {}, {});
    FillsOwned(e, t, m, q, p);
    var e1 := FillBoth(TradeEvents(e, taker, maker, q, p), t, m, q, p);
    FillsKeep(c, t, m, q, p);
    assert e1.core == Filled(c, t, m, q, p);
    ReactOwned(e1, t, m);
    var e3 := Hook(Hook(e1, t).value, m).value;
    OwnedThen(e, e1, e3);
    CloseOwned(e3, m, taker, maker, q, p);
    OwnedThen(e, e3, Settle(e3.(core := RetireCore(e3.core, m).value), taker, maker, q, p));
  }

  lemma {:induction false} CloseOwned(e: Engine, m: OrderId, taker: Order, maker: Order, q: int, p: Price)
    requires RetireCore(e.core, m).Ok?
    ensures Owned(e, Settle(e.(core := RetireCore(e.core, m).value), taker, maker, q, p))
  {
    var c := RetireCore(e.core, m).value;
    assert c.orders == e.core.orders;
    CoreOwned(e, c);
    SettleOwned(e.(core := c), taker, maker, q, p);
    OwnedThen(e, e.(core := c), Settle(e.(core := c), taker, maker, q, p));
  }

  lemma {:induction false} ReactOwned(e: Engine, t: OrderId, m: OrderId)
    requires MidInv(e.core, {t, m}, {t, m}) && t in e.core.orders && m in e.core.orders && t != m
    requires e.core.orders[t].executed > 0 && e.core.orders[m].executed > 0
    requires Hook(e, t).Ok? && Hook(Hook(e, t).value, m).Ok?
    ensures Owned(e, Hook(Hook(e, t).value, m).value)
  {
    HookOwned(e, t, {t, m}, {t, m});
    HookProjects(e, t);
    HookKeeps(e.core, t, {t, m}, {t, m});
    assert {t, m} - {t} == {m};
    var e2 := Hook(e, t).value;
    HookOwned(e2, m, {m}, {t, m});
    OwnedThen(e, e2, Hook(e2, m).value);
  }

  lemma {:induction false} CancelOwned(e: Engine, id: OrderId)
    requires Inv(e.core) && id in e.core.orders && CancelOrder(e, id).Ok?
    ensures Owned(e, CancelOrder(e, id).value)
  {
    var o := e.core.orders[id];
    assert OrderInv(e.core, id, {}, {});
    if o.strategy.OtoChild? { assert OrderInv(e.core, o.strategy.parent, {}, {}); }
    UnbookAllOrders(e.core, CancelTargets(o));
    var c := CancelCore(e.core, id).value;
    CoreOwned(e, c);
    var e1 := e.(core := c);
    CancellationsOwned(e1, o);
    var e2 := Emit(e1, o.user, Cancellations(CancelTargets(o)));
    OwnedThen(e, e1, e2);
    ReleaseOwned(e2, c.Get(CancelReleases(o)));
    OwnedThen(e, e2, CancelOrder(e, id).value);
  }

  lemma {:induction false} CancellationsOwned(e: Engine, o: Order)
    requires forall x :: x in CancelTargets(o) ==> x in e.core.orders && e.core.orders[x].user == o.user
    ensures Owned(e, Emit(e, o.user, Cancellations(CancelTargets(o))))
  {
    CancellationIds(CancelTargets(o));
    EmitOwned(e, o.user, Cancellations(CancelTargets(o)));
  }

  lemma {:induction false} CancellationIds(ids: seq<OrderId>)
    ensures |Cancellations(ids)| == |ids|
    ensures forall i :: 0 <= i < |ids| ==> Cancellations(ids)[i] == OrderCancelled(ids[i])
  {
    if ids != [] { CancellationIds(ids[1..]); }
  }

  lemma {:induction false} FrontOwned(e: Engine, t: OrderId)
    requires Inv(e.core) && Entering(e.core, t) && !Stops(e.core, t) && MeetFront(e, t).Ok?
    ensures Owned(e, MeetFront(e, t).value)
  {
    var side := e.core.Get(t).side.Opposite();
    var m, p := Front(e.core.book, side).value, Best(e.core.book, side).value;
    var q := TradeQuantity(e.core, t, m);
    var e1 := Checked(e, e.core.Get(m), q, p);
    FrontMeets(e.core, t);
    assert OrderInv(e.core, m, {}, {});
    if Answer(e, e.core.Get(m), q, p) { TradeOwned(e1, t, m, q, p); } else { CancelOwned(e1, m); }
  }

  lemma {:induction false} SweepOwned(e: Engine, t: OrderId)
    requires Inv(e.core) && Entering(e.core, t) && Sweep(e, t).Ok?
    ensures Owned(e, Sweep(e, t).value)
    decreases RestingOn(e.core.book, e.core.Get(t).side.Opposite())
  {
    if Stops(e.core, t) {
      SweepEnds(e, t);
      CoreOwned(e, e.core);
    } else {
      FirstMeetingIsOk(e, t);
      FrontKeeps(e, t);
      FrontOwned(e, t);
      var e1 := MeetFront(e, t).value;
      if Stops(e1.core, t) { SweepEnds(e1, t); } else {
        SweepOwned(e1, t);
        OwnedThen(e, e1, Sweep(e1, t).value);
      }
    }
  }

  lemma {:induction false} PlaceOwned(e: Engine, id: OrderId, stored: set<OrderId>)
    requires id in e.core.orders && Place(e, id, stored).Ok?
    ensures Owned(e, Place(e, id, stored).value)
  {
    var c := Enbook(e.core, id).value;
    var c' := c.(store := c.store + stored);
    CoreOwned(e, c');
    EmitOwned(e.(core := c'), e.core.orders[id].user, [OrderPlaced(id, e.core.orders[id])]);
    OwnedThen(e, e.(core := c'), Place(e, id, stored).value);
  }

  lemma {:induction false} MatchOrRestOwned(e: Engine, id: OrderId, stored: set<OrderId>)
    requires Inv(e.core) && Entering(e.core, id) && MatchOrRest(e, id, stored).Ok?
    ensures Owned(e, MatchOrRest(e, id, stored).value)
  {
    SweepOwned(e, id);
    SweepKeeps(e, id);
    var e2 := Sweep(e, id).value;
    if !e2.core.Get(id).Complete() {
      PlaceOwned(e2, id, stored);
      OwnedThen(e, e2, Place(e2, id, stored).value);
    }
  }

  lemma {:induction false} RejectOwned(e: Engine, id: OrderId)
    requires Inv(e.core) && Entering(e.core, id) && Reject(e, id).Ok?
    ensures Owned(e, Reject(e, id).value)
  {
    var o := e.core.orders[id];
    CancelOwned(e, id);
    var e1 := CancelOrder(e, id).value;
    EmitOwned(e1, o.user, [OrderCancelled(id)]);
    var e2 := Emit(e1, o.user, [OrderCancelled(id)]);
    OwnedThen(e, e1, e2);
    ReleaseOwned(e2, o);
    OwnedThen(e, e2, Release(e2, o));
  }

  lemma {:induction false} SubmitOwned(e: Engine, id: OrderId, stored: set<OrderId>)
    requires Inv(e.core) && Entering(e.core, id) && Submit(e, id, stored).Ok?
    ensures Owned(e, Submit(e, id, stored).value)
  {
    SubmitCases(e, id, stored);
    if !Crossable(e.core.book, e.core.Get(id)) {
      PlaceOwned(e, id, stored);
    } else if EntryAnswer(e, id) {
      MatchOrRestOwned(Entered(e, id), id, stored);
    } else {
      RejectOwned(Entered(e, id), id);
    }
  }

  /** Every order event is about an order of an ordinary user. */
  lemma {:induction false} HandleOwned(e: Engine, cmd: Command)
    requires Inv(e.core) && CmdOk(e.core, cmd) && Handle(e, cmd).Ok?
    ensures Owned(e.(core := Intake(e.core, cmd)), Handle(e, cmd).value)
  {
    IntakeKeeps(e.core, cmd);
    var e0 := e.(core := Intake(e.core, cmd));
    if Submits(cmd) {
      HandleSubmits(e, cmd);
      SubmitOwned(e0, NewId(cmd), StoredBy(cmd));
    } else if cmd.NewOco? {
      PlaceOwned(e0, cmd.legA.id, {cmd.legA.id});
      var e1 := Place(e0, cmd.legA.id, {cmd.legA.id}).value;
      PlaceOwned(e1, cmd.legB.id, {cmd.legB.id});
      OwnedThen(e0, e1, Handle(e, cmd).value);
    } else if cmd.orderId in e.core.store {
      CancelOwned(e, cmd.orderId);
    } else {
      CoreOwned(e, e.core);
    }
  }

  // ---- A group of an ordinary user always has to be logged ----

  /** An event about order `id` was logged between the two states. */
  ghost predicate Mentions(e: Engine, e': Engine, id: OrderId) {
    e.log <= e'.log && exists i :: |e.log| <= i < |e'.log| && OrderEvent(e'.log[i]) && e'.log[i].id == id
  }

  lemma {:induction false} MentionsLater(e: Engine, e1: Engine, e2: Engine, e': Engine, id: OrderId)
    requires e.log <= e1.log && Mentions(e1, e2, id) && e2.log <= e'.log
    ensures Mentions(e, e', id)
  {
    var i :| |e1.log| <= i < |e2.log| && OrderEvent(e2.log[i]) && e2.log[i].id == id;
    assert e'.log[i] == e2.log[i];
  }

  lemma {:induction false} EmitMentions(e: Engine, u: UserId, ev: Event)
    requires u != SYSTEM_USER_ID && OrderEvent(ev)
    ensures Mentions(e, Emit(e, u, [ev]), ev.id)
  {
    assert Emit(e, u, [ev]).log[|e.log|] == ev;
  }

  lemma {:induction false} PlaceMentions(e: Engine, id: OrderId, stored: set<OrderId>)
    requires Place(e, id, stored).Ok? && e.core.Get(id).user != SYSTEM_USER_ID
    ensures Mentions(e, Place(e, id, stored).value, id)
  {
    var c := Enbook(e.core, id).value;
    EmitMentions(e.(core := c.(store := c.store + stored)), e.core.Get(id).user, OrderPlaced(id, e.core.Get(id)));
  }

  lemma {:induction false} FillsMention(e: Engine, t: OrderId, m: OrderId, q: int, p: Price)
    requires t in e.core.orders && m in e.core.orders && e.core.orders[t].id == t && e.core.orders[m].id == m && t != m
    requires e.core.orders[t].user != SYSTEM_USER_ID
    ensures Mentions(e, FillBoth(e, t, m, q, p), t)
  {
    var e1 := e.(core := Filled(e.core, t, m, q, p));
    var t' := e1.core.Get(t);
    assert t'.id == t && t'.user == e.core.orders[t].user;
    EmitMentions(e1, t'.user, FillEvent(t'));
    var e2 := Emit(e1, t'.user, [FillEvent(t')]);
    MentionsLater(e, e1, e2, FillBoth(e, t, m, q, p), t);
  }

  lemma {:induction false} TradeMentions(e: Engine, t: OrderId, m: OrderId, q: int, p: Price)
    requires Meets(e.core, t, m) && Trade(e, t, m, q, p).Ok? && e.core.orders[t].user != SYSTEM_USER_ID
    ensures Mentions(e, Trade(e, t, m, q, p).value, t)
  {
    var taker, maker := e.core.orders[t], e.core.orders[m];
    assert OrderInv(e.core, t, {}, {}) && OrderInv(e.core, m, {}, {});
    var e0 := TradeEvents(e, taker, maker, q, p);
    var e1 := FillBoth(e0, t, m, q, p);
    FillsMention(e0, t, m, q, p);
    HookGrows(e1, t);
    var e2 := Hook(e1, t).value;
    HookGrows(e2, m);
    var e3 := Hook(e2, m).value;
    var e4 := e3.(core := RetireCore(e3.core, m).value);
    SettleGrows(e4, taker, maker, q, p);
    PrefixThen(e1.log, e2.log, e3.log);
    PrefixThen(e1.log, e3.log, Settle(e4, taker, maker, q, p).log);
    MentionsLater(e, e0, e1, Settle(e4, taker, maker, q, p), t);
  }

  /** A taker that was filled was mentioned. */
  lemma {:induction false} SweepMentions(e: Engine, t: OrderId)
    requires Inv(e.core) && Entering(e.core, t) && Sweep(e, t).Ok? && e.core.orders[t].user != SYSTEM_USER_ID
    ensures Mentions(e, Sweep(e, t).value, t) || Sweep(e, t).value.core.Get(t).executed == e.core.Get(t).executed
    decreases RestingOn(e.core.book, e.core.Get(t).side.Opposite())
  {
    if Stops(e.core, t) {
      SweepEnds(e, t);
    } else {
      FirstMeetingIsOk(e, t);
      FrontKeeps(e, t);
      FrontGrows(e, t);
      FrontOwned(e, t);
      var e1 := MeetFront(e, t).value;
      FrontMentions(e, t);
      if Stops(e1.core, t) { SweepEnds(e1, t); } else {
        SweepGrows(e1, t);
        SweepMentions(e1, t);
      }
      if Mentions(e, e1, t) {
        MentionsLater(e, e, e1, Sweep(e1, t).value, t);
      } else if Mentions(e1, Sweep(e1, t).value, t) {
        MentionsLater(e, e1, Sweep(e1, t).value, Sweep(e1, t).value, t);
      }
    }
  }

  lemma {:induction false} FrontMentions(e: Engine, t: OrderId)
    requires Inv(e.core) && Entering(e.core, t) && !Stops(e.core, t) && MeetFront(e, t).Ok?
    requires e.core.orders[t].user != SYSTEM_USER_ID
    ensures var e1 := MeetFront(e, t).value;
      Mentions(e, e1, t) || e1.core.Get(t).executed == e.core.Get(t).executed
  {
    var side := e.core.Get(t).side.Opposite();
    var m, p := Front(e.core.book, side).value, Best(e.core.book, side).value;
    var q := TradeQuantity(e.core, t, m);
    var e1 := Checked(e, e.core.Get(m), q, p);
    FrontMeets(e.core, t);
    if Answer(e, e.core.Get(m), q, p) {
      TradeMentions(e1, t, m, q, p);
      MentionsLater(e, e1, MeetFront(e, t).value, MeetFront(e, t).value, t);
    } else {
      EncounterProjects(e, t, m, p);
      assert OrderInv(e.core, m, {}, {});
      CancelKeeps(e.core, m);
    }
  }

  lemma {:induction false} CancelMentions(e: Engine, id: OrderId)
    requires Entering(e.core, id) && e.core.orders[id].id == id && CancelOrder(e, id).Ok?
    requires e.core.orders[id].user != SYSTEM_USER_ID
    ensures Mentions(e, CancelOrder(e, id).value, id)
  {
    var o := e.core.orders[id];
    var c := CancelCore(e.core, id).value;
    var e1 := e.(core := c);
    assert Cancellations([id]) == [OrderCancelled(id)] + Cancellations([]);
    EmitMentions(e1, o.user, OrderCancelled(id));
    var e2 := Emit(e1, o.user, [OrderCancelled(id)]);
    assert CancelTargets(o) == [id] && Cancellations(CancelTargets(o)) == [OrderCancelled(id)];
    assert CancelOrder(e, id) == Ok(Release(e2, c.Get(CancelReleases(o))));
    ReleaseGrows(e2, c.Get(CancelReleases(o)));
    MentionsLater(e, e1, e2, Release(e2, c.Get(CancelReleases(o))), id);
  }

  /** However a submitted order of an ordinary user fares, it is logged. */
  lemma {:induction false} SubmitMentions(e: Engine, id: OrderId, stored: set<OrderId>)
    requires Inv(e.core) && Entering(e.core, id) && Submit(e, id, stored).Ok?
    requires e.core.orders[id].executed == 0 < e.core.orders[id].quantity && e.core.orders[id].user != SYSTEM_USER_ID
    ensures Mentions(e, Submit(e, id, stored).value, id)
  {
    SubmitCases(e, id, stored);
    assert OrderInv(e.core, id, {}, {});
    if !Crossable(e.core.book, e.core.Get(id)) {
      PlaceMentions(e, id, stored);
    } else if EntryAnswer(e, id) {
      MatchOrRestMentions(Entered(e, id), id, stored);
      MentionsLater(e, Entered(e, id), Submit(e, id, stored).value, Submit(e, id, stored).value, id);
    } else {
      RejectMentions(Entered(e, id), id);
      MentionsLater(e, Entered(e, id), Submit(e, id, stored).value, Submit(e, id, stored).value, id);
    }
  }

  lemma {:induction false} RejectMentions(e: Engine, id: OrderId)
    requires Entering(e.core, id) && e.core.orders[id].id == id && Reject(e, id).Ok?
    requires e.core.orders[id].user != SYSTEM_USER_ID
    ensures Mentions(e, Reject(e, id).value, id)
  {
    var o := e.core.orders[id];
    CancelMentions(e, id);
    var e1 := CancelOrder(e, id).value;
    var e2 := Emit(e1, o.user, [OrderCancelled(id)]);
    ReleaseGrows(e2, o);
    PrefixThen(e1.log, e2.log, Release(e2, o).log);
    MentionsLater(e, e, e1, Release(e2, o), id);
  }

  lemma {:induction false} MatchOrRestMentions(e: Engine, id: OrderId, stored: set<OrderId>)
    requires Inv(e.core) && Entering(e.core, id) && MatchOrRest(e, id, stored).Ok?
    requires e.core.orders[id].executed == 0 < e.core.orders[id].quantity && e.core.orders[id].user != SYSTEM_USER_ID
    ensures Mentions(e, MatchOrRest(e, id, stored).value, id)
  {
    SweepMentions(e, id);
    SweepGrows(e, id);
    SweepKeeps(e, id);
    var e2 := Sweep(e, id).value;
    EvolvesSameUsers(e.core, e2.core);
    assert Terms(e2.core.orders[id]).quantity == Terms(e.core.orders[id]).quantity;
    if !e2.core.Get(id).Complete() {
      PlaceMentions(e2, id, stored);
      MentionsLater(e, e2, Place(e2, id, stored).value, Place(e2, id, stored).value, id);
    }
  }

  /** So a group of an ordinary user cannot get past the logger. */
  lemma {:induction false} GroupIsMentioned(e: Engine, cmd: Command)
    requires Inv(e.core) && CmdOk(e.core, cmd) && OrdinaryGroup(cmd) && Handle(e, cmd).Ok?
    ensures !AllEncodable(e, Handle(e, cmd).value)
  {
    var e' := Handle(e, cmd).value;
    IntakeKeeps(e.core, cmd);
    HandleKeeps(e, cmd);
    var e0 := e.(core := Intake(e.core, cmd));
    var id := if cmd.NewOto? then cmd.parent.id else cmd.legA.id;
    if cmd.NewOto? {
      HandleSubmits(e, cmd);
      SubmitMentions(e0, id, StoredBy(cmd));
    } else {
      PlaceMentions(e0, id, {id});
      var e1 := Place(e0, id, {id}).value;
      MentionsLater(e0, e0, e1, e', id);
    }
    IntakeStrategy(e, cmd, id);
    var i :| |e.log| <= i < |e'.log| && OrderEvent(e'.log[i]) && e'.log[i].id == id;
    assert !Encodable(e'.log[i], e'.core);
  }

  /** Its order is still an order of a group afterwards. */
  lemma {:induction false} IntakeStrategy(e: Engine, cmd: Command, id: OrderId)
    requires Inv(e.core) && CmdOk(e.core, cmd) && Handle(e, cmd).Ok? && id in Intake(e.core, cmd).orders
    ensures id in Handle(e, cmd).value.core.orders
    ensures Handle(e, cmd).value.core.orders[id].strategy == Intake(e.core, cmd).orders[id].strategy
    ensures Handle(e, cmd).value.core.orders[id].user == Intake(e.core, cmd).orders[id].user
    ensures SingleOrGroupKeys(e, cmd)
  {
    IntakeKeeps(e.core, cmd);
    HandleEvolves(e, cmd);
    var o, o' := Intake(e.core, cmd).orders[id], Handle(e, cmd).value.core.orders[id];
    assert Terms(o') == Terms(o) && Terms(o').strategy == o'.strategy && Terms(o).strategy == o.strategy;
    assert Terms(o').user == o'.user && Terms(o).user == o.user;
  }

  /** A command creates the orders of its intake and no others. */
  ghost predicate SingleOrGroupKeys(e: Engine, cmd: Command)
    requires Handle(e, cmd).Ok?
  {
    Handle(e, cmd).value.core.orders.Keys == Intake(e.core, cmd).orders.Keys
  }

  lemma {:induction false} HandleEvolves(e: Engine, cmd: Command)
    requires Inv(e.core) && CmdOk(e.core, cmd) && Handle(e, cmd).Ok?
    ensures Evolves(Intake(e.core, cmd), Handle(e, cmd).value.core) && SingleOrGroupKeys(e, cmd)
  {
    IntakeKeeps(e.core, cmd);
    var e0 := e.(core := Intake(e.core, cmd));
    if Submits(cmd) {
      HandleSubmits(e, cmd);
      SubmitKeeps(e0, NewId(cmd), StoredBy(cmd));
      SubmitOrderKeys(e0, NewId(cmd), StoredBy(cmd));
    } else if cmd.Cancel? && cmd.orderId in e.core.store {
      CancelProjects(e, cmd.orderId);
      UnbookAllOrders(e.core, CancelTargets(e.core.Get(cmd.orderId)));
    }
  }

  lemma {:induction false} SubmitOrderKeys(e: Engine, id: OrderId, stored: set<OrderId>)
    requires Inv(e.core) && Entering(e.core, id) && Submit(e, id, stored).Ok?
    ensures Submit(e, id, stored).value.core.orders.Keys == e.core.orders.Keys
  {
    SubmitOrders(e, id, stored);
    if Crossable(e.core.book, e.core.Get(id)) && EntryAnswer(e, id) { SweepKeeps(Entered(e, id), id); }
  }

  // ---- Exactly which commands raise ----

  lemma {:induction false} OthersAreEncodable(e: Engine, cmd: Command)
    requires Inv(e.core) && CmdOk(e.core, cmd) && GroupsAreSystem(e.core) && !OrdinaryGroup(cmd) && Handle(e, cmd).Ok?
    ensures AllEncodable(e, Handle(e, cmd).value) && GroupsAreSystem(Handle(e, cmd).value.core)
  {
    var e' := Handle(e, cmd).value;
    HandleOwned(e, cmd);
    StaysSystem(e, cmd);
    forall i | |e.log| <= i < |e'.log|
      ensures Encodable(e'.log[i], e'.core)
    {
      assert About(e'.log[i], e'.core);
    }
  }

  lemma {:induction false} StaysSystem(e: Engine, cmd: Command)
    requires Inv(e.core) && CmdOk(e.core, cmd) && GroupsAreSystem(e.core) && !OrdinaryGroup(cmd) && Handle(e, cmd).Ok?
    ensures GroupsAreSystem(Handle(e, cmd).value.core)
  {
    var c0, c' := Intake(e.core, cmd), Handle(e, cmd).value.core;
    HandleEvolves(e, cmd);
    assert GroupsAreSystem(c0);
    forall id | id in c'.orders && !c'.orders[id].strategy.Single?
      ensures c'.orders[id].user == SYSTEM_USER_ID
    {
      assert id in c'.orders.Keys && id in c0.orders.Keys;
      IntakeStrategy(e, cmd, id);
    }
  }

  /**
   * With the logger that ships, while every order of a group belongs to the system user: a command raises if
   * and only if it is a New for a group of an ordinary user or raises anyway.
   */
  lemma {:induction false} ShippedRaisesIff(e: Engine, cmd: Command)
    requires Inv(e.core) && CmdOk(e.core, cmd) && GroupsAreSystem(e.core)
    ensures HandleShipped(e, cmd).Raised? <==> OrdinaryGroup(cmd) || Handle(e, cmd).Raised?
    ensures HandleShipped(e, cmd).Ok? ==> HandleShipped(e, cmd) == Handle(e, cmd)
    ensures HandleShipped(e, cmd).Ok? ==> GroupsAreSystem(Handle(e, cmd).value.core)
  {
    if Handle(e, cmd).Ok? {
      if OrdinaryGroup(cmd) { GroupIsMentioned(e, cmd); } else { OthersAreEncodable(e, cmd); }
    }
  }

  /**
   * Whole runs from the empty engine: with the logger that ships a run succeeds if and only if it contains
   * no group of an ordinary user and succeeds with a logger that encodes everything; it then does the same.
   */
  lemma {:induction false} ShippedRunRaisesIff(e: Engine, cmds: seq<Command>)
    requires e.core == EMPTY_CORE && Admissible(e, cmds)
    ensures RunShipped(e, cmds).Ok? <==> Run(e, cmds).Ok? && NoOrdinaryGroup(cmds)
    ensures RunShipped(e, cmds).Ok? ==> RunShipped(e, cmds) == Run(e, cmds) && GroupsAreSystem(Run(e, cmds).value.core)
  {
    if cmds != [] {
      var n := |cmds| - 1;
      ShippedRunRaisesIff(e, cmds[..n]);
      if Run(e, cmds[..n]).Ok? && RunShipped(e, cmds[..n]).Ok? {
        RunKeeps(e, cmds[..n]);
        ShippedRaisesIff(Run(e, cmds[..n]).value, cmds[n]);
        AllButLast(cmds);
      } else if Run(e, cmds[..n]).Ok? {
        AllButLast(cmds);
      }
    }
  }

  ghost predicate NoOrdinaryGroup(cmds: seq<Command>) {
    forall i :: 0 <= i < |cmds| ==> !OrdinaryGroup(cmds[i])
  }

  lemma {:induction false} AllButLast(cmds: seq<Command>)
    requires cmds != []
    ensures NoOrdinaryGroup(cmds) <==> NoOrdinaryGroup(cmds[..|cmds| - 1]) && !OrdinaryGroup(cmds[|cmds| - 1])
  {
    var older := cmds[..|cmds| - 1];
    if NoOrdinaryGroup(older) {
      forall i | 0 <= i < |cmds| - 1
        ensures !OrdinaryGroup(cmds[i])
      {
        assert older[i] == cmds[i];
      }
    }
  }
}
