/**
 * The spot engine as functions on values. `SpotEngines` contains the step-by-step methods and shows
 * that they compute exactly these functions; the other modules prove what the functions guarantee.
 */
module EngineSpec {
  import opened Types
  import opened Collections
  import opened BookModel
  import opened Ledgers

  const NO_ORDER: Order := Order(-1, -1, Limit, Bid, 0, 0, Single, false, 0, [])

  /**
   * Book, order objects and order store. Orders are shared objects in the program, so here they live
   * in one map from id to object (ids are fresh) and book and store hold ids.
   */
  datatype Core = Core(book: Book, orders: map<OrderId, Order>, store: set<OrderId>) {
    function Get(id: OrderId): Order { if id in orders then orders[id] else NO_ORDER }

    function Put(o: Order): Core { this.(orders := orders[o.id := o]) }

    ghost predicate Resting(id: OrderId) { InLevel(book, Get(id).Key(), id) }
  }

  /**
   * How the engine is wired: to the balance store and the event log, or, inside the shadow process,
   * to stubs that answer balance checks from the batch of events the main engine emitted.
   */
  datatype Wiring = Live(ledger: Ledger) | Patched(batch: seq<Event>, start: nat)

  /** `log` lists the events logged so far and `answers` the balance-check answers so far. */
  datatype Engine = Engine(core: Core, wiring: Wiring, log: seq<Event>, answers: seq<bool>)

  // ---- Core transitions: book, orders, store ----

  function Unbook(c: Core, id: OrderId): Result<Core> {
    var b :- RemoveFrom(c.book, c.Get(id).Key(), id);
    Ok(c.(book := b))
  }

  function Enbook(c: Core, id: OrderId): Result<Core> {
    var b :- AppendTo(c.book, c.Get(id).Key(), id);
    Ok(c.(book := b))
  }

  /** The orders a cancel takes out of the book, in the order their events are logged. */
  function CancelTargets(o: Order): seq<OrderId> {
    match o.strategy
    case Single => [o.id]
    case OtoParent(_) => [o.id]
    case OtoChild(parent) => if o.active then [o.id] else [parent]
    case OcoLeg(peer) => [o.id, peer]
  }

  /** The orders a cancel takes out of the store. */
  function CancelForgets(o: Order): set<OrderId> {
    match o.strategy
    case Single => {o.id}
    case OtoParent(child) => {o.id, child}
    case OtoChild(parent) => if o.active then {o.id} else {o.id, parent}
    case OcoLeg(peer) => {o.id, peer}
  }

  function UnbookAll(c: Core, ids: seq<OrderId>): Result<Core>
    decreases |ids|
  {
    if ids == [] then Ok(c)
    else
      var c' :- Unbook(c, ids[0]);
      UnbookAll(c', ids[1..])
  }

  function CancelCore(c: Core, id: OrderId): Result<Core> {
    var c' :- UnbookAll(c, CancelTargets(c.Get(id)));
    Ok(c'.(store := c.store - CancelForgets(c.Get(id))))
  }

  function FillCore(c: Core, id: OrderId, q: int, p: Price): Core {
    c.Put(c.Get(id).AddFill(q, p))
  }

  /** `handle_filled` of the order's strategy. */
  function HookCore(c: Core, id: OrderId): Result<Core> {
    var o := c.Get(id);
    match o.strategy
    case Single => Ok(c)
    case OtoChild(_) => Ok(c)
    case OtoParent(child) =>
      if o.Complete() then
        var c' :- Enbook(c.Put(c.Get(child).(active := true)), child);
        Ok(c'.(store := c.store + {child}))
      else Ok(c)
    case OcoLeg(peer) =>
      var c' :- Unbook(c, peer);
      Ok(c'.(store := c.store - {peer}))
  }

  /** The engine takes a completed maker out of book and store. */
  function RetireCore(c: Core, m: OrderId): Result<Core> {
    if c.Get(m).Complete() then
      var c' :- Unbook(c, m);
      Ok(c'.(store := c.store - {m}))
    else Ok(c)
  }

  function TradeCore(c: Core, t: OrderId, m: OrderId, q: int, p: Price): Result<Core> {
    var c1 := FillCore(FillCore(c, t, q, p), m, q, p);
    var c2 :- HookCore(c1, t);
    var c3 :- HookCore(c2, m);
    RetireCore(c3, m)
  }

  /** A maker met during matching is either traded with or, failing its balance check, cancelled. */
  function EncounterCore(c: Core, t: OrderId, m: OrderId, q: int, p: Price, pass: bool): Result<Core> {
    if pass then TradeCore(c, t, m, q, p) else CancelCore(c, m)
  }

  // ---- Events and balances ----

  /** Nothing is logged for the system user. */
  function Emit(e: Engine, u: UserId, events: seq<Event>): Engine {
    if u == SYSTEM_USER_ID then e else e.(log := e.log + events)
  }

  /** A balance-manager call: ignored for the system user and by the shadow's stubs. */
  function Do(e: Engine, op: BalanceOp): Engine {
    if e.wiring.Patched? || op.user == SYSTEM_USER_ID then e
    else e.(wiring := Live(ApplyOp(e.wiring.ledger, op)), log := e.log + [BalanceChanged(op)])
  }

  function ReleaseOp(o: Order): BalanceOp {
    if o.side.Bid? then ReleaseCash(o.user, o.Remaining() * o.price) else ReleaseAsset(o.user, o.Remaining())
  }

  /** `_release_escrow`. */
  function Release(e: Engine, o: Order): Engine {
    if o.Remaining() > 0 then Do(e, ReleaseOp(o)) else e
  }

  function HoldOp(o: Order): BalanceOp {
    if o.side.Bid? then HoldCash(o.user, o.quantity * o.price) else HoldAsset(o.user, o.quantity)
  }

  /** Escrow is taken for the whole order on its first fill. */
  function HoldOnFirstFill(e: Engine, before: Order): Engine {
    if before.executed == 0 then Do(e, HoldOp(before)) else e
  }

  function SettleOp(o: Order, q: int, p: Price): BalanceOp {
    if o.side.Bid? then SettleBid(o.user, q, p) else SettleAsk(o.user, q, p)
  }

  function Cancellations(ids: seq<OrderId>): seq<Event> {
    if ids == [] then [] else [OrderCancelled(ids[0])] + Cancellations(ids[1..])
  }

  /** The order whose escrow a cancel releases. */
  function CancelReleases(o: Order): OrderId { CancelTargets(o)[0] }

  /** `handle_cancel` of the order's strategy. */
  function CancelOrder(e: Engine, id: OrderId): Result<Engine> {
    var o := e.core.Get(id);
    var c :- CancelCore(e.core, id);
    Ok(Release(Emit(e.(core := c), o.user, Cancellations(CancelTargets(o))), c.Get(CancelReleases(o))))
  }

  function FillEvent(o: Order): Event {
    if o.Complete() then OrderFilled(o.id) else OrderPartiallyFilled(o.id)
  }

  /** `handle_filled`, with its events and the escrow that an OCO leg releases. */
  function Hook(e: Engine, id: OrderId): Result<Engine> {
    var o := e.core.Get(id);
    var c :- HookCore(e.core, id);
    var e' := e.(core := c);
    match o.strategy
    case Single => Ok(e')
    case OtoChild(_) => Ok(e')
    case OtoParent(child) =>
      Ok(if o.Complete() then Emit(e', c.Get(child).user, [OrderPlaced(child, c.Get(child))]) else e')
    case OcoLeg(peer) =>
      Ok(Release(Emit(e', o.user, [OrderCancelled(peer)]), o))
  }

  function TradeEvents(e: Engine, t: Order, m: Order, q: int, p: Price): Engine {
    Emit(Emit(e, t.user, [NewTrade(t.id, q, p, Taker)]), m.user, [NewTrade(m.id, q, p, Maker)])
  }

  function FillBoth(e: Engine, t: OrderId, m: OrderId, q: int, p: Price): Engine {
    var e1 := e.(core := FillCore(FillCore(e.core, t, q, p), m, q, p));
    var t' := e1.core.Get(t);
    var m' := e1.core.Get(m);
    Emit(Emit(e1, t'.user, [FillEvent(t')]), m'.user, [FillEvent(m')])
  }

  /** First-fill escrow for maker then taker, then settlement of taker then maker. */
  function Settle(e: Engine, t: Order, m: Order, q: int, p: Price): Engine {
    var held := HoldOnFirstFill(HoldOnFirstFill(e, m), t);
    Do(Do(held, SettleOp(t, q, p)), SettleOp(m, q, p))
  }

  /** `_process_trade`. */
  function Trade(e: Engine, t: OrderId, m: OrderId, q: int, p: Price): Result<Engine> {
    var taker, maker := e.core.Get(t), e.core.Get(m);
    var e1 := FillBoth(TradeEvents(e, taker, maker, q, p), t, m, q, p);
    var e2 :- Hook(e1, t);
    var e3 :- Hook(e2, m);
    var c :- RetireCore(e3.core, m);
    Ok(Settle(e3.(core := c), taker, maker, q, p))
  }

  /** The answer of `_check_sufficient_balance` under this wiring. */
  function Answer(e: Engine, o: Order, q: int, p: Price): bool {
    match e.wiring
    case Live(l) => o.user == SYSTEM_USER_ID || Affords(l, o, q, p)
    case Patched(batch, start) =>
      var next := |e.log| - start + 1;
      !(0 <= next < |batch|) || !batch[next].OrderCancelled?
  }

  /** The engine after that check: the answer is recorded and missing balances are stored. */
  function Checked(e: Engine, o: Order, q: int, p: Price): Engine {
    var e' := e.(answers := e.answers + [Answer(e, o, q, p)]);
    if e.wiring.Live? && o.user != SYSTEM_USER_ID then
      e'.(wiring := Live(Consult(e.wiring.ledger, o.user, o.side)))
    else e'
  }

  function TradeQuantity(c: Core, t: OrderId, m: OrderId): int {
    Min(c.Get(m).Remaining(), c.Get(t).Remaining())
  }

  /** One pass of the loop body of `_match`. */
  function Encounter(e: Engine, t: OrderId, m: OrderId, p: Price): Result<Engine> {
    var q := TradeQuantity(e.core, t, m);
    var maker := e.core.Get(m);
    var e' := Checked(e, maker, q, p);
    if Answer(e, maker, q, p) then Trade(e', t, m, q, p) else CancelOrder(e', m)
  }

  /** The order at the front of the queue on this side: oldest at the best price. */
  ghost function Front(b: Book, side: Side): Option<OrderId> {
    match Best(b, side)
    case None => None
    case Some(p) => if Level(b, LevelKey(side, p)) == [] then None else Some(b[LevelKey(side, p)][0])
  }

  ghost function RestingOn(b: Book, side: Side): set<OrderId> {
    set k, id | k in b && id in b[k] && k.side == side :: id
  }

  /**
   * Reference matching: as long as the taker is incomplete, meet the order at the front of the
   * opposite side. It stops early only if that side stopped shrinking, which `Matching` shows never
   * happens while the taker is incomplete.
   */
  ghost function Sweep(e: Engine, t: OrderId): Result<Engine>
    decreases RestingOn(e.core.book, e.core.Get(t).side.Opposite())
  {
    var taker := e.core.Get(t);
    var side := taker.side.Opposite();
    if taker.executed >= taker.quantity || Front(e.core.book, side).None? then Ok(e)
    else
      var e' :- Encounter(e, t, Front(e.core.book, side).value, Best(e.core.book, side).value);
      if e'.core.Get(t).side == taker.side && RestingOn(e'.core.book, side) < RestingOn(e.core.book, side)
      then Sweep(e', t)
      else Ok(e')
  }

  // ---- Commands ----

  /** `limit_crossable` and `stop_crossable`. */
  ghost predicate Crossable(b: Book, o: Order) {
    var best := Best(b, o.side.Opposite());
    best.Some? && ((o.orderType.Limit? == o.side.Bid?) ==> o.price >= best.value)
               && ((o.orderType.Limit? != o.side.Bid?) ==> o.price <= best.value)
  }

  /** Rest the order: log it, store it and whatever waits on it, append it to the book. */
  function Place(e: Engine, id: OrderId, stored: set<OrderId>): Result<Engine> {
    var o := e.core.Get(id);
    var c :- Enbook(e.core, id);
    Ok(Emit(e.(core := c.(store := c.store + stored)), o.user, [OrderPlaced(id, o)]))
  }

  /** An entering order whose owner cannot pay: cancelled by its strategy, then cancelled again. */
  function Reject(e: Engine, id: OrderId): Result<Engine> {
    var o := e.core.Get(id);
    var e' :- CancelOrder(e, id);
    Ok(Release(Emit(e', o.user, [OrderCancelled(id)]), o))
  }

  /** Match an entering order and rest what is left of it. */
  ghost function MatchOrRest(e: Engine, id: OrderId, stored: set<OrderId>): Result<Engine> {
    var e' :- Sweep(e, id);
    if e'.core.Get(id).Complete() then Ok(e') else Place(e', id, stored)
  }

  /** A new order that may match on entry; `stored` is what the store keeps if it rests. */
  ghost function Submit(e: Engine, id: OrderId, stored: set<OrderId>): Result<Engine> {
    var o := e.core.Get(id);
    if !Crossable(e.core.book, o) then Place(e, id, stored)
    else if Answer(e, o, o.quantity, o.price) then MatchOrRest(Checked(e, o, o.quantity, o.price), id, stored)
    else Reject(Checked(e, o, o.quantity, o.price), id)
  }

  ghost function Handle(e: Engine, cmd: Command): Result<Engine> {
    match cmd
    case NewSingle(s) =>
      Submit(e.(core := e.core.Put(s.ToOrder(Single, true))), s.id, {s.id})
    case NewOto(p, ch) =>
      var core := e.core.Put(p.ToOrder(OtoParent(ch.id), true)).Put(ch.ToOrder(OtoChild(p.id), false));
      Submit(e.(core := core), p.id, {p.id, ch.id})
    case NewOco(a, b) =>
      var core := e.core.Put(a.ToOrder(OcoLeg(b.id), true)).Put(b.ToOrder(OcoLeg(a.id), true));
      var e1 :- Place(e.(core := core), a.id, {a.id});
      Place(e1, b.id, {b.id})
    case Cancel(id) =>
      if id in e.core.store then CancelOrder(e, id) else Ok(e)
  }

  ghost function Run(e: Engine, cmds: seq<Command>): Result<Engine> {
    if cmds == [] then Ok(e)
    else
      var e' :- Run(e, cmds[..|cmds| - 1]);
      Handle(e', cmds[|cmds| - 1])
  }
}
