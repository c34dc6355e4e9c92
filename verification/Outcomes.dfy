/**
 * What each command leaves behind, told from the state before it: what rests and where, what is stored, asked,
 * filled and logged.
 */
module Outcomes {
  import opened Types
  import opened Collections
  import opened BookModel
  import opened Ledgers
  import opened EngineSpec
  import opened Admission
  import opened Invariants
  import opened Matching
  import opened Runs
  import opened Conservation
  import opened Determinism
  import opened Replay
  import opened Raising
  import opened Departed
  import opened Divergence

  // ---- What a New command brings ----

  function Unfilled(s: OrderSpec, strategy: Strategy, active: bool): Order {
    Order(s.id, s.user, s.orderType, s.side, s.price, s.quantity, strategy, active, 0, [])
  }

  function NewOrders(cmd: Command): map<OrderId, Order> {
    match cmd
    case NewSingle(s) => map[s.id := Unfilled(s, Single, true)]
    case NewOto(p, ch) => map[p.id := Unfilled(p, OtoParent(ch.id), true), ch.id := Unfilled(ch, OtoChild(p.id), false)]
    case NewOco(a, b) => map[a.id := Unfilled(a, OcoLeg(b.id), true), b.id := Unfilled(b, OcoLeg(a.id), true)]
    case Cancel(_) => map[]
  }

  /** The order that may match on entry. */
  function Newcomer(cmd: Command): Order
    requires Submits(cmd)
  {
    match cmd
    case NewSingle(s) => Unfilled(s, Single, true)
    case NewOto(p, ch) => Unfilled(p, OtoParent(ch.id), true)
  }

  lemma {:induction false} IntakeIs(c: Core, cmd: Command)
    requires CmdOk(c, cmd)
    ensures Intake(c, cmd) == c.(orders := c.orders + NewOrders(cmd))
    ensures Submits(cmd) ==> NewId(cmd) == Newcomer(cmd).id && Intake(c, cmd).Get(NewId(cmd)) == Newcomer(cmd)
  {
    assert Intake(c, cmd).orders == c.orders + NewOrders(cmd);
  }

  // ---- Resting ----

  /** The order is the youngest of the level that its own side and price name. */
  ghost predicate RestsLast(c: Core, id: OrderId) {
    && id in c.orders
    && var k := LevelKey(c.orders[id].side, c.orders[id].price);
    k in c.book && c.book[k] != [] && c.book[k][|c.book[k]| - 1] == id
  }

  /** `book` with `id` at the end of level `k`. */
  function Joined(book: Book, k: LevelKey, id: OrderId): Book { book[k := Level(book, k) + [id]] }

  /** Logged unless the owner is the system user. */
  function Told(u: UserId, events: seq<Event>): seq<Event> { if u == SYSTEM_USER_ID then [] else events }

  lemma {:induction false} PlaceIs(e: Engine, id: OrderId, stored: set<OrderId>)
    requires !e.core.Resting(id) && id in e.core.orders
    ensures var o := e.core.orders[id];
      Place(e, id, stored) == Ok(Engine(
        Core(Joined(e.core.book, o.Key(), id), e.core.orders, e.core.store + stored), e.wiring,
        e.log + Told(o.user, [OrderPlaced(id, o)]), e.answers))
  {
    assert id !in Level(e.core.book, e.core.orders[id].Key());
    assert e.log + [] == e.log;
  }

  /** A new order that does not reach the other side: nobody is asked, nothing is filled, it rests. */
  lemma {:induction false} UnreachedRests(e: Engine, cmd: Command)
    requires Inv(e.core) && CmdOk(e.core, cmd) && Submits(cmd) && !Reaches(e.core.book, Newcomer(cmd))
    ensures var o := Newcomer(cmd);
      Handle(e, cmd) == Ok(Engine(
        Core(Joined(e.core.book, LevelKey(o.side, o.price), o.id), e.core.orders + NewOrders(cmd),
             e.core.store + StoredBy(cmd)),
        e.wiring, e.log + Told(o.user, [OrderPlaced(o.id, o)]), e.answers))
  {
    HandleSubmits(e, cmd);
    IntakeIs(e.core, cmd);
    CrossesIffReaches(e.core.book, Newcomer(cmd));
    var e0 := e.(core := Intake(e.core, cmd));
    SubmitCases(e0, NewId(cmd), StoredBy(cmd));
    PlaceIs(e0, NewId(cmd), StoredBy(cmd));
  }

  // ---- Being asked ----

  /** One that reaches it is first asked for its whole quantity at its own price. */
  lemma {:induction false} EntryAsked(e: Engine, cmd: Command)
    requires Inv(e.core) && CmdOk(e.core, cmd) && Submits(cmd) && Handle(e, cmd).Ok?
    ensures var o, e' := Newcomer(cmd), Handle(e, cmd).value;
      && e.answers <= e'.answers
      && (Reaches(e.core.book, o) <==> |e.answers| < |e'.answers|)
      && (Reaches(e.core.book, o) && e.wiring.Live? ==>
            (e'.answers[|e.answers|]
             <==> o.user == SYSTEM_USER_ID || CanPay(e.wiring.ledger, o.user, o.side, o.quantity, o.price)))
  {
    var o := Newcomer(cmd);
    HandleAnswers(e, cmd);
    if Reaches(e.core.book, o) {
      HandleSubmits(e, cmd);
      IntakeIs(e.core, cmd);
      CrossesIffReaches(e.core.book, o);
      var e0 := e.(core := Intake(e.core, cmd));
      CrossingAnswers(e0, NewId(cmd), StoredBy(cmd));
      if e.wiring.Live? { AnswerIffCanPay(e0, o, o.quantity, o.price); }
    } else {
      UnreachedRests(e, cmd);
    }
  }

  /** It reached the other side and the first answer was no. */
  ghost predicate TurnedAway(e: Engine, cmd: Command, e': Engine)
    requires Submits(cmd)
  {
    Reaches(e.core.book, Newcomer(cmd)) && |e.answers| < |e'.answers| && !e'.answers[|e.answers|]
  }

  lemma {:induction false} TurnedAwayIs(e: Engine, cmd: Command)
    requires Inv(e.core) && CmdOk(e.core, cmd) && Submits(cmd) && Handle(e, cmd).Ok?
    ensures var e0 := e.(core := Intake(e.core, cmd));
      var o, e' := Newcomer(cmd), Handle(e, cmd).value;
      && e0.core.Get(NewId(cmd)) == o && Crossable(e.core.book, o) == Reaches(e.core.book, o)
      && TurnedAway(e, cmd, e') == (Reaches(e.core.book, o) && !Answer(e0, o, o.quantity, o.price))
      && Handle(e, cmd) ==
           if TurnedAway(e, cmd, e') then Reject(Entered(e0, NewId(cmd)), NewId(cmd))
           else if Reaches(e.core.book, o) then MatchOrRest(Entered(e0, NewId(cmd)), NewId(cmd), StoredBy(cmd))
           else Place(e0, NewId(cmd), StoredBy(cmd))
  {
    HandleSubmits(e, cmd);
    IntakeIs(e.core, cmd);
    CrossesIffReaches(e.core.book, Newcomer(cmd));
    var e0 := e.(core := Intake(e.core, cmd));
    SubmitCases(e0, NewId(cmd), StoredBy(cmd));
    if Reaches(e.core.book, Newcomer(cmd)) { CrossingAnswers(e0, NewId(cmd), StoredBy(cmd)); }
  }

  // ---- What is left comes to rest ----

  /**
   * The order rests, and is stored, exactly if something of it is left. Then it is the youngest of its level,
   * `stored` is in the store, and an ordinary user was told last of all that it was placed.
   */
  ghost predicate RestsIfOpen(e: Engine, id: OrderId, stored: set<OrderId>) {
    && id in e.core.orders
    && var o := e.core.orders[id];
    && 0 <= o.executed <= o.quantity
    && (e.core.Resting(id) <==> o.executed < o.quantity)
    && (id in e.core.store <==> o.executed < o.quantity)
    && (o.executed < o.quantity ==>
          && RestsLast(e.core, id) && stored <= e.core.store
          && (o.user != SYSTEM_USER_ID ==> e.log != [] && e.log[|e.log| - 1] == OrderPlaced(id, o)))
  }

  lemma {:induction false} PlacedRests(e: Engine, id: OrderId, stored: set<OrderId>)
    requires Inv(e.core) && Entering(e.core, id) && id in stored
    requires e.core.orders[id].executed < e.core.orders[id].quantity
    ensures Place(e, id, stored).Ok? && RestsIfOpen(Place(e, id, stored).value, id, stored)
    ensures Place(e, id, stored).value.core.orders == e.core.orders
  {
    assert OrderInv(e.core, id, {}, {});
    PlaceIs(e, id, stored);
  }

  lemma {:induction false} RemainderPlaced(e: Engine, id: OrderId, stored: set<OrderId>)
    requires Inv(e.core) && Entering(e.core, id) && id in stored && MatchOrRest(e, id, stored).Ok?
    ensures RestsIfOpen(MatchOrRest(e, id, stored).value, id, stored)
    ensures Terms(MatchOrRest(e, id, stored).value.core.Get(id)) == Terms(e.core.orders[id])
  {
    SweepKeeps(e, id);
    var e2 := Sweep(e, id).value;
    assert OrderInv(e2.core, id, {}, {});
    if e2.core.orders[id].executed < e2.core.orders[id].quantity {
      PlacedRests(e2, id, stored);
      assert MatchOrRest(e, id, stored) == Place(e2, id, stored);
    } else {
      assert MatchOrRest(e, id, stored) == Ok(e2);
    }
  }

  /**
   * Whatever a SINGLE order or an OTO parent that is let in trades on entry, exactly what is left of it rests,
   * with the child that waits on it in the store.
   */
  lemma {:induction false} RemainderRests(e: Engine, cmd: Command)
    requires Inv(e.core) && CmdOk(e.core, cmd) && Submits(cmd) && Handle(e, cmd).Ok?
    requires !TurnedAway(e, cmd, Handle(e, cmd).value)
    ensures RestsIfOpen(Handle(e, cmd).value, NewId(cmd), StoredBy(cmd))
    ensures Terms(Handle(e, cmd).value.core.Get(NewId(cmd))) == Terms(Newcomer(cmd))
  {
    var e0 := e.(core := Intake(e.core, cmd));
    HandleSubmits(e, cmd);
    TurnedAwayIs(e, cmd);
    if Reaches(e.core.book, Newcomer(cmd)) {
      RemainderPlaced(Entered(e0, NewId(cmd)), NewId(cmd), StoredBy(cmd));
    } else {
      PlacedRests(e0, NewId(cmd), StoredBy(cmd));
    }
  }

  // ---- Turned away ----

  /** What a release of everything unfilled asks for. */
  function ReleaseAll(o: Order): BalanceOp {
    if o.side.Bid? then ReleaseCash(o.user, (o.quantity - o.executed) * o.price)
    else ReleaseAsset(o.user, o.quantity - o.executed)
  }

  /** Cancelling an entering order leaves the core alone, unless it raises. */
  lemma {:induction false} CancelEntering(c: Core, id: OrderId)
    requires Inv(c) && Entering(c, id) && CancelCore(c, id).Ok?
    requires forall x :: x in CancelForgets(c.orders[id]) ==> x !in c.store
    ensures CancelCore(c, id).value == c
  {
    assert OrderInv(c, id, {}, {});
    assert UnbookAll(c, [id]) == UnbookAll(Unbook(c, id).value, []);
    assert c.store - CancelForgets(c.orders[id]) == c.store;
  }

  /**
   * An order that is turned away, and the child that waits on it, are left unfilled, out of the book and out
   * of the store; its owner is told twice, and its escrow released twice. Nothing else happens.
   */
  lemma {:induction false} TurnedAwayLeavesNothing(e: Engine, cmd: Command)
    requires Inv(e.core) && CmdOk(e.core, cmd) && Submits(cmd) && Handle(e, cmd).Ok?
    requires TurnedAway(e, cmd, Handle(e, cmd).value)
    ensures var e' := Handle(e, cmd).value;
      var o := Newcomer(cmd);
      && e'.core == e.core.(orders := e.core.orders + NewOrders(cmd))
      && (e.wiring.Live? ==>
            && o.user != SYSTEM_USER_ID
            && e'.log == e.log + [OrderCancelled(o.id), BalanceChanged(ReleaseAll(o)),
                                  OrderCancelled(o.id), BalanceChanged(ReleaseAll(o))])
  {
    var e0 := e.(core := Intake(e.core, cmd));
    HandleSubmits(e, cmd);
    IntakeIs(e.core, cmd);
    TurnedAwayIs(e, cmd);
    var e1 := Entered(e0, NewId(cmd));
    CancelProjects(e1, NewId(cmd));
    CancelEntering(e1.core, NewId(cmd));
    if e.wiring.Live? {
      EntryAsked(e, cmd);
      RejectionEvents(e1, NewId(cmd));
    }
  }

  // ---- OCO ----

  /** Both legs of a new OCO pair rest last in their levels and are stored; nobody is asked, nothing is filled. */
  lemma {:induction false} LegsRest(e: Engine, a: OrderSpec, b: OrderSpec)
    requires Inv(e.core) && CmdOk(e.core, NewOco(a, b))
    ensures var legA, legB := Unfilled(a, OcoLeg(b.id), true), Unfilled(b, OcoLeg(a.id), true);
      && Handle(e, NewOco(a, b)) == Ok(Engine(
           Core(Joined(Joined(e.core.book, LevelKey(a.side, a.price), a.id), LevelKey(b.side, b.price), b.id),
                e.core.orders + NewOrders(NewOco(a, b)), e.core.store + {a.id} + {b.id}),
           e.wiring, e.log + Told(a.user, [OrderPlaced(a.id, legA)]) + Told(b.user, [OrderPlaced(b.id, legB)]),
           e.answers))
      && RestsLast(Handle(e, NewOco(a, b)).value.core, a.id) && RestsLast(Handle(e, NewOco(a, b)).value.core, b.id)
  {
    var cmd := NewOco(a, b);
    IntakeIs(e.core, cmd);
    IntakeKeeps(e.core, cmd);
    var e0 := e.(core := Intake(e.core, cmd));
    assert OrderInv(e0.core, a.id, {}, {}) && OrderInv(e0.core, b.id, {}, {});
    assert e0.core.orders[a.id] == Unfilled(a, OcoLeg(b.id), true);
    assert e0.core.orders[b.id] == Unfilled(b, OcoLeg(a.id), true);
    LegsFresh(e.core, cmd);
    PlaceIs(e0, a.id, {a.id});
    var e1 := Place(e0, a.id, {a.id}).value;
    PlaceIs(e1, b.id, {b.id});
  }

  lemma {:induction false} LegsFresh(c: Core, cmd: Command)
    requires Inv(c) && CmdOk(c, cmd)
    ensures forall x :: x in NewOrders(cmd) ==> !Intake(c, cmd).Resting(x)
  {
    var c0 := Intake(c, cmd);
    forall x | x in NewOrders(cmd)
      ensures !c0.Resting(x)
    {
      assert !InLevel(c.book, c0.Get(x).Key(), x);
    }
  }

  // ---- Cancels ----

  /** What a client's cancel takes out of the book; the first of them gets its escrow back. */
  ghost function Leaving(c: Core, id: OrderId): seq<OrderId> {
    match c.Get(id).strategy
    case OcoLeg(peer) => [id, peer]
    case OtoChild(parent) => if c.Resting(id) then [id] else [parent]
    case _ => [id]
  }

  /** ... and what it takes out of the store: the whole group, but of a filled parent's child only itself. */
  ghost function Leavers(c: Core, id: OrderId): set<OrderId> {
    match c.Get(id).strategy
    case Single => {id}
    case OtoParent(child) => {id, child}
    case OtoChild(parent) => if c.Resting(id) then {id} else {id, parent}
    case OcoLeg(peer) => {id, peer}
  }

  /** The events of a cancel: one per order that leaves the book, then the release. */
  ghost function CancelEvents(c: Core, id: OrderId): seq<Event> {
    var ids := Leaving(c, id);
    [OrderCancelled(ids[0])] + (if |ids| > 1 then [OrderCancelled(ids[1])] else [])
    + [BalanceChanged(ReleaseAll(c.Get(ids[0])))]
  }

  lemma {:induction false} StoredCancel(c: Core, id: OrderId)
    requires Inv(c) && id in c.store
    ensures id in c.orders && c.orders[id].id == id && c.orders[id].executed < c.orders[id].quantity
    ensures CancelTargets(c.orders[id]) == Leaving(c, id) && CancelForgets(c.orders[id]) == Leavers(c, id)
    ensures var x := Leaving(c, id)[0];
      x in c.orders && c.orders[x].Remaining() > 0 && c.orders[x].user == c.orders[id].user
  {
    var o := c.orders[id];
    assert OrderInv(c, id, {}, {});
    if o.strategy.OtoChild? { assert OrderInv(c, o.strategy.parent, {}, {}); }
  }

  /**
   * A Cancel of an id that is not stored does nothing. Any other takes the order's group out of book and store
   * as described, changes no order, asks nobody, and reports exactly what left.
   */
  lemma {:induction false} CancelLeaves(e: Engine, id: OrderId)
    requires Inv(e.core) && Handle(e, Cancel(id)).Ok?
    ensures var e' := Handle(e, Cancel(id)).value;
      if id !in e.core.store then e' == e
      else
        && e'.core.orders == e.core.orders && e'.answers == e.answers
        && (forall x :: e'.core.Resting(x) <==> e.core.Resting(x) && x !in Leaving(e.core, id))
        && e'.core.store == e.core.store - Leavers(e.core, id)
        && (e.wiring.Live? ==> e'.log == e.log + Told(e.core.Get(id).user, CancelEvents(e.core, id)))
  {
    if id in e.core.store {
      StoredCancel(e.core, id);
      CancelProjects(e, id);
      CancelKeeps(e.core, id);
      if e.wiring.Live? { CancelTells(e, id); }
    }
  }

  lemma {:induction false} CancellationsAre(ids: seq<OrderId>)
    requires 1 <= |ids| <= 2
    ensures Cancellations(ids) == [OrderCancelled(ids[0])] + (if |ids| > 1 then [OrderCancelled(ids[1])] else [])
  {
    assert Cancellations(ids) == [OrderCancelled(ids[0])] + Cancellations(ids[1..]);
    if |ids| > 1 { assert Cancellations(ids[1..]) == [OrderCancelled(ids[1])] + Cancellations(ids[1..][1..]); }
  }

  lemma {:induction false} CancelTells(e: Engine, id: OrderId)
    requires Inv(e.core) && id in e.core.store && e.wiring.Live? && CancelOrder(e, id).Ok?
    ensures CancelOrder(e, id).value.log == e.log + Told(e.core.Get(id).user, CancelEvents(e.core, id))
    ensures CancelOrder(e, id).value.answers == e.answers
  {
    var o, ids := e.core.orders[id], Leaving(e.core, id);
    StoredCancel(e.core, id);
    CancelProjects(e, id);
    CancelKeeps(e.core, id);
    CancellationsAre(ids);
    var c := CancelCore(e.core, id).value;
    var e1 := Emit(e.(core := c), o.user, Cancellations(ids));
    assert c.Get(CancelReleases(o)) == e.core.orders[ids[0]];
    assert CancelOrder(e, id) == Ok(Release(e1, e.core.orders[ids[0]]));
    assert o.user == SYSTEM_USER_ID ==> e.log + [] == e.log;
  }
}
