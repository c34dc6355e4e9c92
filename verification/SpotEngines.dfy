/**
 * The spot engine object, step by step as the program works: every method is proved to do exactly what
 * the corresponding function of `EngineSpec` says, exceptions included.
 */
module SpotEngines {
  import opened Types
  import opened Collections
  import opened BookModel
  import opened Ledgers
  import opened Admission
  import opened OrderBooks
  import Spec = EngineSpec
  import opened Invariants
  import opened Matching
  import opened Runs
  import opened Priority
  import opened Walks

  class SpotEngine {
    const book: OrderBook
    var orders: map<OrderId, Order>
    var store: set<OrderId>
    var wiring: Spec.Wiring
    var log: seq<Event>
    var answers: seq<bool>

    ghost predicate Valid()
      reads this, book
    {
      book.Valid()
    }

    ghost function Core(): Spec.Core
      reads this, book
    {
      Spec.Core(book.levels, orders, store)
    }

    ghost function State(): Spec.Engine
      reads this, book
    {
      Spec.Engine(Core(), wiring, log, answers)
    }

    /** The method returned what the specification returns and left the state it describes. */
    ghost predicate Did(spec: Result<Spec.Engine>, r: Result<()>)
      reads this, book
    {
      match spec
      case Ok(e) => r.Ok? && State() == e
      case Raised(x) => r == Raised(x)
    }

    constructor (wiring: Spec.Wiring)
      ensures Valid() && fresh(book) && State() == Spec.Engine(Spec.Core(map[], map[], {}), wiring, [], [])
    {
      book := new OrderBook();
      orders, store, this.wiring, log, answers := map[], {}, wiring, [], [];
    }

    function Get(id: OrderId): Order
      reads this
    {
      if id in orders then orders[id] else Spec.NO_ORDER
    }

    // ---- Logging and balances ----

    method Emit(u: UserId, event: Event)
      requires Valid()
      modifies this
      ensures Valid() && State() == Spec.Emit(old(State()), u, [event])
    {
      if u != SYSTEM_USER_ID {
        log := log + [event];
      }
    }

    method Do(op: BalanceOp)
      requires Valid()
      modifies this
      ensures Valid() && State() == Spec.Do(old(State()), op)
    {
      if wiring.Live? && op.user != SYSTEM_USER_ID {
        log := log + [BalanceChanged(op)];
        wiring := Spec.Live(ApplyOp(wiring.ledger, op));
      }
    }

    /** `_release_escrow`. */
    method ReleaseEscrow(o: Order)
      requires Valid()
      modifies this
      ensures Valid() && State() == Spec.Release(old(State()), o)
    {
      var unfilled := o.quantity - o.executed;
      if unfilled > 0 {
        if o.side.Bid? {
          Do(ReleaseCash(o.user, unfilled * o.price));
        } else {
          Do(ReleaseAsset(o.user, unfilled));
        }
      }
    }

    /** `_check_sufficient_balance`, or the shadow's stub for it. */
    method CheckSufficientBalance(o: Order, quantity: int, price: Price) returns (enough: bool)
      requires Valid()
      modifies this
      ensures Valid() && State() == Spec.Checked(old(State()), o, quantity, price)
      ensures enough == Spec.Answer(old(State()), o, quantity, price)
      ensures old(wiring).Live? ==>
        (enough <==> o.user == SYSTEM_USER_ID || CanPay(old(wiring).ledger, o.user, o.side, quantity, price))
    {
      if wiring.Live? { AnswerIffCanPay(State(), o, quantity, price); }
      match wiring {
        case Live(ledger) =>
          if o.user == SYSTEM_USER_ID {
            enough := true;
          } else {
            wiring := Spec.Live(Consult(ledger, o.user, o.side));
            var needed := if o.side.Ask? then quantity else quantity * price;
            enough := needed <= Available(wiring.ledger, o.user, o.side);
          }
        case Patched(batch, start) =>
          var next := |log| - start + 1;
          enough := !(0 <= next < |batch|) || !batch[next].OrderCancelled?;
      }
      answers := answers + [enough];
    }

    // ---- Strategies ----

    /** Take one order out of the book. */
    method Unbook(id: OrderId) returns (r: Result<()>)
      requires Valid()
      modifies book
      ensures Valid()
      ensures match Spec.Unbook(old(Core()), id)
              case Ok(c) => r.Ok? && Core() == c
              case Raised(x) => r == Raised(x)
    {
      var o := Get(id);
      r := book.Remove(o.side, o.price, id);
    }

    /** `handle_cancel` of the strategy of the order. */
    method HandleCancel(id: OrderId) returns (r: Result<()>)
      requires Valid() && id in orders && orders[id].id == id
      modifies this, book
      ensures Valid() && Did(Spec.CancelOrder(old(State()), id), r)
    {
      var o := Get(id);
      match o.strategy {
        case OcoLeg(peer) =>
          r := CancelLegs(id, peer);
        case OtoChild(parent) =>
          if o.active {
            r := CancelOne(id, id, {id});
          } else {
            r := CancelOne(id, parent, {id, parent});
          }
        case OtoParent(child) =>
          r := CancelOne(id, id, {id, child});
        case Single =>
          r := CancelOne(id, id, {id});
      }
    }

    /** Cancel `target` on behalf of `id`, dropping `forget` from the store. */
    method CancelOne(id: OrderId, target: OrderId, forget: set<OrderId>) returns (r: Result<()>)
      requires Valid() && id in orders && orders[id].id == id
      requires Spec.CancelTargets(orders[id]) == [target] && Spec.CancelForgets(orders[id]) == forget
      modifies this, book
      ensures Valid() && Did(Spec.CancelOrder(old(State()), id), r)
    {
      assert Spec.Cancellations([target]) == [OrderCancelled(target)] + Spec.Cancellations([]);
      ghost var c := Core();
      Emit(orders[id].user, OrderCancelled(target));
      r := Unbook(target);
      if r.Ok? {
        assert Spec.UnbookAll(c, [target]) == Spec.UnbookAll(Spec.Unbook(c, target).value, []);
        store := store - forget;
        ReleaseEscrow(Get(target));
      }
    }

    /** Cancel both legs of an OCO pair. */
    method CancelLegs(id: OrderId, peer: OrderId) returns (r: Result<()>)
      requires Valid() && id in orders && orders[id].id == id && orders[id].strategy == OcoLeg(peer)
      modifies this, book
      ensures Valid() && Did(Spec.CancelOrder(old(State()), id), r)
    {
      ghost var c := Core();
      ghost var l := log;
      var o := Get(id);
      TwoCancellations(id, peer);
      Emit(o.user, OrderCancelled(id));
      Emit(o.user, OrderCancelled(peer));
      assert o.user != SYSTEM_USER_ID ==> log == l + [OrderCancelled(id), OrderCancelled(peer)];
      r := Unbook(id);
      if r.Raised? { return; }
      assert Spec.UnbookAll(c, [id, peer]) == Spec.UnbookAll(Core(), [peer]);
      ghost var c1 := Core();
      r := Unbook(peer);
      if r.Raised? { return; }
      assert Spec.UnbookAll(c1, [peer]) == Spec.UnbookAll(Core(), []);
      store := store - {id, peer};
      ReleaseEscrow(o);
    }

    /** `handle_filled` of the strategy of the order. */
    method HandleFilled(id: OrderId) returns (r: Result<()>)
      requires Valid()
      modifies this, book
      ensures Valid() && Did(Spec.Hook(old(State()), id), r)
    {
      var o := Get(id);
      match o.strategy {
        case OtoParent(child) =>
          if o.executed == o.quantity {
            r := ActivateChild(id, child);
          } else {
            r := Ok(());
          }
        case OcoLeg(peer) =>
          Emit(o.user, OrderCancelled(peer));
          r := Unbook(peer);
          if r.Ok? {
            store := store - {peer};
            ReleaseEscrow(o);
          }
        case _ =>
          r := Ok(());
      }
    }

    method ActivateChild(id: OrderId, childId: OrderId) returns (r: Result<()>)
      requires Valid() && Get(id).strategy == OtoParent(childId) && Get(id).Complete()
      modifies this, book
      ensures Valid() && Did(Spec.Hook(old(State()), id), r)
    {
      var child := Get(childId).(active := true);
      orders := orders[child.id := child];
      var rested := Get(childId);
      Emit(rested.user, OrderPlaced(childId, rested));
      r := book.Append(rested.side, rested.price, childId);
      if r.Ok? {
        store := store + {childId};
      }
    }

    // ---- Matching ----

    method LogFill(id: OrderId)
      requires Valid()
      modifies this
      ensures Valid()
      ensures var o := old(Core()).Get(id); State() == Spec.Emit(old(State()), o.user, [Spec.FillEvent(o)])
      ensures var o := old(Get(id));
        o.user != SYSTEM_USER_ID ==>
          log == old(log) + [if o.executed == o.quantity then OrderFilled(o.id) else OrderPartiallyFilled(o.id)]
    {
      var o := Get(id);
      if o.executed == o.quantity {
        Emit(o.user, OrderFilled(o.id));
      } else {
        Emit(o.user, OrderPartiallyFilled(o.id));
      }
    }

    method AddFill(id: OrderId, quantity: int, price: Price)
      requires Valid()
      modifies this
      ensures Valid()
      ensures State() == old(State()).(core := Spec.FillCore(old(Core()), id, quantity, price))
    {
      var o := Get(id);
      orders := orders[o.id := o.(executed := o.executed + quantity, fills := o.fills + [Fill(quantity, price)])];
    }

    /** The first half of `_process_trade`: events and fills. */
    method RecordFills(t: OrderId, m: OrderId, quantity: int, price: Price)
      requires Valid()
      modifies this
      ensures Valid()
      ensures var e := old(State());
        State() == Spec.FillBoth(Spec.TradeEvents(e, e.core.Get(t), e.core.Get(m), quantity, price), t, m, quantity,
            price)
    {
      var taker, maker := Get(t), Get(m);
      Emit(taker.user, NewTrade(taker.id, quantity, price, Taker));
      Emit(maker.user, NewTrade(maker.id, quantity, price, Maker));
      AddFill(t, quantity, price);
      AddFill(m, quantity, price);
      LogFill(t);
      LogFill(m);
    }

    method Hold(o: Order)
      requires Valid()
      modifies this
      ensures Valid() && State() == Spec.Do(old(State()), Spec.HoldOp(o))
    {
      if o.side.Bid? {
        Do(HoldCash(o.user, o.quantity * o.price));
      } else {
        Do(HoldAsset(o.user, o.quantity));
      }
    }

    /** The last part of `_process_trade`: escrow on first fills, then settlement of both sides. */
    method SettleTrade(taker: Order, maker: Order, quantity: int, price: Price)
      requires Valid() && taker.side != maker.side
      modifies this
      ensures Valid() && State() == Spec.Settle(old(State()), taker, maker, quantity, price)
    {
      if maker.executed == 0 {
        Hold(maker);
      }
      if taker.executed == 0 {
        Hold(taker);
      }
      if taker.side.Bid? {
        Do(SettleBid(taker.user, quantity, price));
        Do(SettleAsk(maker.user, quantity, price));
      } else {
        Do(SettleAsk(taker.user, quantity, price));
        Do(SettleBid(maker.user, quantity, price));
      }
    }

    /** Both strategies are told, taker first. */
    method ReactToFill(t: OrderId, m: OrderId) returns (r: Result<()>)
      requires Valid()
      modifies this, book
      ensures Valid()
      ensures var first := Spec.Hook(old(State()), t);
        if first.Ok? then Did(Spec.Hook(first.value, m), r) else r == Raised(first.error)
    {
      r := HandleFilled(t);
      if r.Ok? {
        r := HandleFilled(m);
      }
    }

    /** A completed maker leaves book and store. */
    method RetireMaker(m: OrderId, price: Price) returns (r: Result<()>)
      requires Valid() && Get(m).price == price
      modifies this, book
      ensures Valid()
      ensures match Spec.RetireCore(old(Core()), m)
              case Ok(c) => r.Ok? && State() == old(State()).(core := c)
              case Raised(x) => r == Raised(x)
    {
      var maker := Get(m);
      r := Ok(());
      if maker.executed == maker.quantity {
        r := book.Remove(maker.side, price, m);
        if r.Ok? {
          store := store - {m};
        }
      }
    }

    /** `_process_trade`. */
    method ProcessTrade(t: OrderId, m: OrderId, quantity: int, price: Price) returns (r: Result<()>)
      requires Valid() && Meets(Core(), t, m)
      requires quantity == Spec.TradeQuantity(Core(), t, m) && orders[m].price == price
      modifies this, book
      ensures Valid() && Did(Spec.Trade(old(State()), t, m, quantity, price), r)
    {
      var taker, maker := Get(t), Get(m);
      RecordFills(t, m, quantity, price);
      ghost var filled := State();
      r := ReactToFill(t, m);
      if r.Raised? { return; }
      MakerPriceStays(old(State()), filled, State(), t, m, quantity, price);
      r := RetireMaker(m, price);
      if r.Raised? { return; }
      SettleTrade(taker, maker, quantity, price);
    }

    /** The loop body of `_match`: trade with a maker, or cancel one that cannot pay. */
    method MeetMaker(t: OrderId, m: OrderId, price: Price) returns (r: Result<()>)
      requires Valid() && Meets(Core(), t, m) && orders[m].price == price
      modifies this, book
      ensures Valid() && Did(Spec.Encounter(old(State()), t, m, price), r)
    {
      var taker, maker := Get(t), Get(m);
      var quantity := Min(maker.quantity - maker.executed, taker.quantity - taker.executed);
      assert OrderInv(Core(), m, {}, {});
      ghost var e := State();
      var enough := CheckSufficientBalance(maker, quantity, price);
      EncounterSplits(e, State(), t, m, quantity, price, enough);
      if enough {
        r := ProcessTrade(t, m, quantity, price);
      } else {
        r := HandleCancel(m);
      }
    }

    /** The inner loop of `_match`: meet the orders of one level in arrival order. */
    method WalkLevel(t: OrderId, price: Price) returns (r: Result<()>)
      requires Valid() && Inv(Core()) && Entering(Core(), t) && orders[t].executed < orders[t].quantity
      requires Best(book.levels, orders[t].side.Opposite()) == Some(price)
      modifies this, book
      ensures Valid()
      ensures r.Raised? ==> Spec.Sweep(old(State()), t) == Raised(r.error)
      ensures r.Ok? ==> Walked(old(State()), State(), t, price)
    {
      ghost var start := State();
      var makers := book.GetOrders(orders[t].side.Opposite(), price);
      var i := 0;
      r := Ok(());
      WalkStarts(start, t, price);
      while i < |makers| && orders[t].executed < orders[t].quantity
        invariant r.Ok? && Valid() && Walking(start, State(), t, price, makers, i)
      {
        r := WalkOne(start, t, price, makers, i);
        if r.Raised? { return; }
        i := i + 1;
      }
      WalkEnds(start, State(), t, price, makers, i);
    }

    method WalkOne(ghost start: Spec.Engine, t: OrderId, price: Price, makers: seq<OrderId>, i: int)
      returns (r: Result<()>)
      requires Valid() && Walking(start, State(), t, price, makers, i) && i < |makers|
      requires orders[t].executed < orders[t].quantity
      modifies this, book
      ensures Valid()
      ensures r.Ok? ==> Walking(start, State(), t, price, makers, i + 1)
      ensures r.Raised? ==> Spec.Sweep(start, t) == Raised(r.error)
    {
      ghost var before := State();
      WalkContinues(start, before, t, price, makers, i);
      r := MeetMaker(t, makers[i], price);
      if r.Ok? {
        WalkStep(before, State(), t, makers[i], price);
        WalkAdvances(start, before, State(), t, price, makers, i);
      } else {
        WalkRaises(before, t, makers[i], price);
      }
    }

    /**
     * `_match`: sweep the opposite side level by level. The test that the best price has changed since
     * the last pass is proved never to fire.
     */
    method MatchLevels(t: OrderId) returns (r: Result<()>, last: Option<Price>)
      requires Valid() && Inv(Core()) && Entering(Core(), t)
      modifies this, book
      ensures Valid() && Did(Spec.Sweep(old(State()), t), r)
      ensures r.Ok? ==> Inv(Core()) && Entering(Core(), t)
    {
      var side := orders[t].side.Opposite();
      ghost var start := State();
      r, last := Ok(()), None;
      while orders[t].executed < orders[t].quantity
        invariant r.Ok? && Valid() && Sweeping(start, State(), t, side, last)
        decreases !orders[t].Complete(), Spec.RestingOn(book.levels, side)
      {
        ghost var before := State();
        var best := book.BestPrice(side);
        if best.None? { break; }
        BestIsNew(start, before, t, side, last, best.value);
        if last == best { break; }
        r := WalkLevel(t, best.value);
        if r.Raised? { return; }
        SweepAdvances(start, before, State(), t, side, last, best.value);
        last := best;
      }
      SweepIsDone(start, State(), t, side, last);
    }

    /** What `_match` reports: how much of the taker it filled. */
    method MatchTaker(t: OrderId) returns (r: Result<()>, outcome: MatchOutcome, filled: int)
      requires Valid() && Inv(Core()) && Entering(Core(), t)
      modifies this, book
      ensures Valid() && Did(Spec.Sweep(old(State()), t), r)
      ensures r.Ok? ==> Inv(Core()) && Entering(Core(), t) && filled == orders[t].executed
      ensures r.Ok? ==> (outcome.Success? <==> orders[t].Complete())
      ensures r.Ok? ==> (outcome.Failure? <==> orders[t].executed == 0)
      ensures r.Ok? ==> !outcome.InsufficientBalance?
      ensures r.Ok? && !outcome.Success? ==> SideEmpty(book.levels, orders[t].side.Opposite())
    {
      var last;
      outcome, filled := Failure, 0;
      r, last := MatchLevels(t);
      if r.Ok? {
        assert OrderInv(Core(), t, {}, {});
        SweepKeeps(old(State()), t);
        if orders[t].executed == orders[t].quantity {
          outcome, filled := Success, orders[t].quantity;
        } else if orders[t].executed > 0 {
          outcome, filled := Partial, orders[t].executed;
        }
      }
    }

    // ---- Commands ----

    /** `limit_crossable` or `stop_crossable`, from the cached best price of the other side. */
    method IsMatchable(o: Order) returns (matchable: bool)
      requires Valid()
      ensures matchable == Spec.Crossable(book.levels, o)
      ensures matchable <==> Reaches(book.levels, o)
    {
      CrossesIffReaches(book.levels, o);
      var best := book.BestPrice(o.side.Opposite());
      if best.None? {
        return false;
      }
      if o.orderType.Limit? {
        matchable := if o.side.Bid? then o.price >= best.value else o.price <= best.value;
      } else {
        matchable := if o.side.Bid? then o.price <= best.value else o.price >= best.value;
      }
    }

    /** Log the order as placed, store it, and append it to the book. */
    method PlaceOrder(id: OrderId, stored: set<OrderId>) returns (r: Result<()>)
      requires Valid()
      modifies this, book
      ensures Valid() && Did(Spec.Place(old(State()), id, stored), r)
      ensures var o := old(Get(id));
        r.Ok? ==> Level(book.levels, o.Key()) == Level(old(book.levels), o.Key()) + [id] && store == old(store) + stored
                  && log == old(log) + if o.user == SYSTEM_USER_ID then [] else [OrderPlaced(id, o)]
    {
      var o := Get(id);
      Emit(o.user, OrderPlaced(id, o));
      store := store + stored;
      r := book.Append(o.side, o.price, id);
    }

    /** An order that cannot be paid for: its strategy cancels it, then the handler reports it again. */
    method RejectOrder(id: OrderId) returns (r: Result<()>)
      requires Valid() && id in orders && orders[id].id == id
      modifies this, book
      ensures Valid() && Did(Spec.Reject(old(State()), id), r)
    {
      var o := Get(id);
      r := HandleCancel(id);
      if r.Ok? {
        Emit(o.user, OrderCancelled(id));
        ReleaseEscrow(o);
      }
    }

    /** Match what can be matched on entry and rest the remainder. */
    method MatchOrRest(id: OrderId, stored: set<OrderId>) returns (r: Result<()>)
      requires Valid() && Inv(Core()) && Entering(Core(), id)
      modifies this, book
      ensures Valid() && Did(Spec.MatchOrRest(old(State()), id, stored), r)
    {
      var outcome, filled;
      r, outcome, filled := MatchTaker(id);
      if r.Raised? { return; }
      assert OrderInv(Core(), id, {}, {});
      ghost var matched := State();
      RestSplits(old(State()), matched, id, stored);
      RewriteExecuted(orders, id, filled);
      orders := orders[id := orders[id].(executed := filled)];
      assert State() == matched;
      if !outcome.Success? {
        r := PlaceOrder(id, stored);
      }
    }

    /** `handle_new` of the SINGLE and OTO strategies, once the order objects exist. */
    method SubmitOrder(id: OrderId, stored: set<OrderId>) returns (r: Result<()>)
      requires Valid() && Inv(Core()) && Entering(Core(), id)
      modifies this, book
      ensures Valid() && Did(Spec.Submit(old(State()), id, stored), r)
    {
      var o := Get(id);
      assert OrderInv(Core(), id, {}, {});
      ghost var e := State();
      var matchable := IsMatchable(o);
      if !matchable {
        r := PlaceOrder(id, stored);
        return;
      }
      var enough := CheckSufficientBalance(o, o.quantity, o.price);
      SubmitSplits(e, State(), id, stored, enough);
      if enough {
        r := MatchOrRest(id, stored);
      } else {
        r := RejectOrder(id);
      }
    }

    method Put(o: Order)
      requires Valid()
      modifies this
      ensures Valid() && State() == old(State()).(core := old(Core()).Put(o))
    {
      orders := orders[o.id := o];
    }

    method NewSingleOrder(s: OrderSpec) returns (r: Result<()>)
      requires Valid() && Inv(Core()) && CmdOk(Core(), NewSingle(s))
      modifies this, book
      ensures Valid() && Did(Spec.Handle(old(State()), NewSingle(s)), r)
    {
      IntakeKeeps(Core(), NewSingle(s));
      Put(s.ToOrder(Single, true));
      r := SubmitOrder(s.id, {s.id});
    }

    method NewOtoOrder(parent: OrderSpec, child: OrderSpec) returns (r: Result<()>)
      requires Valid() && Inv(Core()) && CmdOk(Core(), NewOto(parent, child))
      modifies this, book
      ensures Valid() && Did(Spec.Handle(old(State()), NewOto(parent, child)), r)
    {
      IntakeKeeps(Core(), NewOto(parent, child));
      Put(parent.ToOrder(OtoParent(child.id), true));
      Put(child.ToOrder(OtoChild(parent.id), false));
      r := SubmitOrder(parent.id, {parent.id, child.id});
    }

    method NewOcoOrder(a: OrderSpec, b: OrderSpec) returns (r: Result<()>)
      requires Valid()
      modifies this, book
      ensures Valid() && Did(Spec.Handle(old(State()), NewOco(a, b)), r)
    {
      Put(a.ToOrder(OcoLeg(b.id), true));
      Put(b.ToOrder(OcoLeg(a.id), true));
      r := PlaceOrder(a.id, {a.id});
      if r.Ok? {
        r := PlaceOrder(b.id, {b.id});
      }
    }

    /** `handle_command`: dispatch a New or Cancel command. */
    method HandleCommand(cmd: Command) returns (r: Result<()>)
      requires Valid() && Inv(Core()) && CmdOk(Core(), cmd)
      modifies this, book
      ensures Valid() && Did(Spec.Handle(old(State()), cmd), r)
      ensures r.Ok? ==> Inv(Core())
    {
      ghost var e := State();
      match cmd {
        case NewSingle(s) => r := NewSingleOrder(s);
        case NewOto(parent, child) => r := NewOtoOrder(parent, child);
        case NewOco(a, b) => r := NewOcoOrder(a, b);
        case Cancel(id) => r := CancelStored(id);
      }
      if r.Ok? { HandleKeeps(e, cmd); }
    }

    /** `_handle_cancel_order`: only an order still in the store can be cancelled. */
    method CancelStored(id: OrderId) returns (r: Result<()>)
      requires Valid() && Inv(Core())
      modifies this, book
      ensures Valid() && Did(Spec.Handle(old(State()), Cancel(id)), r)
    {
      if id !in store {
        return Ok(());
      }
      assert OrderInv(Core(), id, {}, {});
      r := HandleCancel(id);
    }
  }

  /**
   * The state of the inner loop after `i` makers of the level: the matching still to be done is what
   * the reference does from here, and, while the taker is incomplete, exactly the makers not yet met
   * are left in the level, which is still the best one.
   */
  ghost predicate Walking(start: Spec.Engine, e: Spec.Engine, t: OrderId, price: Price, makers: seq<OrderId>, i: int) {
    && 0 <= i <= |makers| && Inv(e.core) && Entering(e.core, t)
    && var side := start.core.Get(t).side.Opposite();
    && e.core.Get(t).side.Opposite() == side
    && Spec.Sweep(e, t) == Spec.Sweep(start, t)
    && (!e.core.Get(t).Complete() ==>
          && Level(e.core.book, LevelKey(side, price)) == makers[i..]
          && (i < |makers| ==> Best(e.core.book, side) == Some(price))
          && Shrunk(start.core.book, e.core.book, side, i))
  }

  ghost predicate Shrunk(b: Book, b': Book, side: Side, steps: int) {
    Spec.RestingOn(b', side) <= Spec.RestingOn(b, side)
    && (steps > 0 ==> Spec.RestingOn(b', side) < Spec.RestingOn(b, side))
  }

  /** The walk has done its share of the matching: the taker is complete or the level is used up. */
  ghost predicate Walked(e: Spec.Engine, e': Spec.Engine, t: OrderId, price: Price) {
    && Inv(e'.core) && Entering(e'.core, t)
    && var side := e.core.Get(t).side.Opposite();
    && e'.core.Get(t).side.Opposite() == side
    && Spec.Sweep(e', t) == Spec.Sweep(e, t)
    && (!e'.core.Get(t).Complete() ==>
          LevelKey(side, price) !in e'.core.book
          && Spec.RestingOn(e'.core.book, side) < Spec.RestingOn(e.core.book, side))
  }

  lemma {:induction false} WalkStarts(e: Spec.Engine, t: OrderId, price: Price)
    requires Inv(e.core) && Entering(e.core, t)
    requires Best(e.core.book, e.core.orders[t].side.Opposite()) == Some(price)
    ensures var makers := Level(e.core.book, LevelKey(e.core.orders[t].side.Opposite(), price));
      makers != [] && Walking(e, e, t, price, makers, 0)
  {
    var makers := Level(e.core.book, LevelKey(e.core.orders[t].side.Opposite(), price));
    assert IsBest(e.core.book, e.core.orders[t].side.Opposite(), price);
    assert makers[0..] == makers;
  }

  lemma {:induction false} WalkContinues(start: Spec.Engine, e: Spec.Engine, t: OrderId, price: Price,
                                         makers: seq<OrderId>, i: int)
    requires Walking(start, e, t, price, makers, i) && i < |makers|
    requires e.core.orders[t].executed < e.core.orders[t].quantity
    ensures AtHead(e.core, t, makers[i], price) && Meets(e.core, t, makers[i])
    ensures e.core.orders[makers[i]].price == price
  {
    HeadMeets(e.core, t, makers[i], price);
  }

  lemma {:induction false} WalkAdvances(start: Spec.Engine, e: Spec.Engine, e1: Spec.Engine, t: OrderId, price: Price,
                                        makers: seq<OrderId>, i: int)
    requires Walking(start, e, t, price, makers, i) && i < |makers| && !e.core.Get(t).Complete()
    requires Inv(e1.core) && Entering(e1.core, t) && e1.core.Get(t).side == e.core.Get(t).side
    requires Spec.Sweep(e, t) == Spec.Sweep(e1, t)
    requires !e1.core.Get(t).Complete() ==>
      var side := e.core.Get(t).side.Opposite();
      var k := LevelKey(side, price);
      && Level(e1.core.book, k) == Level(e.core.book, k)[1..]
      && (Level(e1.core.book, k) != [] ==> Best(e1.core.book, side) == Some(price))
      && Spec.RestingOn(e1.core.book, side) < Spec.RestingOn(e.core.book, side)
    ensures Walking(start, e1, t, price, makers, i + 1)
  {
    assert makers[i..][1..] == makers[i + 1..];
  }

  lemma {:induction false} WalkEnds(start: Spec.Engine, e: Spec.Engine, t: OrderId, price: Price,
                                    makers: seq<OrderId>, i: int)
    requires Walking(start, e, t, price, makers, i) && makers != []
    requires i == |makers| || e.core.orders[t].executed >= e.core.orders[t].quantity
    ensures Walked(start, e, t, price)
  {
    assert OrderInv(e.core, t, {}, {});
  }

  /** The state of the outer loop: the rest of the sweep is still to be done, and the last level is gone. */
  ghost predicate Sweeping(start: Spec.Engine, e: Spec.Engine, t: OrderId, side: Side, last: Option<Price>) {
    && Inv(e.core) && Entering(e.core, t) && e.core.Get(t).side.Opposite() == side
    && Spec.Sweep(e, t) == Spec.Sweep(start, t)
    && (last.Some? && !e.core.Get(t).Complete() ==> LevelKey(side, last.value) !in e.core.book)
  }

  /** The best price is never the one of the level just walked. */
  lemma {:induction false} BestIsNew(start: Spec.Engine, e: Spec.Engine, t: OrderId, side: Side, last: Option<Price>,
                                     best: Price)
    requires Sweeping(start, e, t, side, last) && Best(e.core.book, side) == Some(best)
    requires e.core.orders[t].executed < e.core.orders[t].quantity
    ensures last != Some(best)
  {
    assert IsBest(e.core.book, side, best);
  }

  lemma {:induction false} SweepAdvances(start: Spec.Engine, e: Spec.Engine, e': Spec.Engine, t: OrderId, side: Side,
                                         last: Option<Price>, best: Price)
    requires Sweeping(start, e, t, side, last) && Walked(e, e', t, best)
    ensures Sweeping(start, e', t, side, Some(best))
  {
  }

  lemma {:induction false} SweepIsDone(start: Spec.Engine, e: Spec.Engine, t: OrderId, side: Side, last: Option<Price>)
    requires Sweeping(start, e, t, side, last)
    requires e.core.orders[t].executed >= e.core.orders[t].quantity || Best(e.core.book, side).None?
    ensures Spec.Sweep(start, t) == Ok(e)
  {
    SweepEnds(e, t);
  }

  lemma {:induction false} SubmitSplits(e: Spec.Engine, e': Spec.Engine, id: OrderId, stored: set<OrderId>,
                                        enough: bool)
    requires var o := e.core.Get(id);
      && Spec.Crossable(e.core.book, o) && enough == Spec.Answer(e, o, o.quantity, o.price)
      && e' == Spec.Checked(e, o, o.quantity, o.price)
    ensures e'.core == e.core
    ensures Spec.Submit(e, id, stored) == if enough then Spec.MatchOrRest(e', id, stored) else Spec.Reject(e', id)
  {
  }

  /** Writing back the executed quantity that an order already has changes nothing. */
  lemma {:induction false} RewriteExecuted(orders: map<OrderId, Order>, id: OrderId, filled: int)
    requires id in orders && orders[id].executed == filled
    ensures orders[id := orders[id].(executed := filled)] == orders
  {
    assert orders[id].(executed := filled) == orders[id];
  }

  lemma {:induction false} RestSplits(e: Spec.Engine, e': Spec.Engine, id: OrderId, stored: set<OrderId>)
    requires Spec.Sweep(e, id) == Ok(e')
    ensures Spec.MatchOrRest(e, id, stored) == if e'.core.Get(id).Complete() then Ok(e') else Spec.Place(e', id, stored)
  {
  }

  lemma {:induction false} EncounterSplits(e: Spec.Engine, e': Spec.Engine, t: OrderId, m: OrderId, q: int, p: Price,
                                           enough: bool)
    requires q == Spec.TradeQuantity(e.core, t, m) && e' == Spec.Checked(e, e.core.Get(m), q, p)
    requires enough == Spec.Answer(e, e.core.Get(m), q, p)
    ensures e'.core == e.core
    ensures Spec.Encounter(e, t, m, p) == if enough then Spec.Trade(e', t, m, q, p) else Spec.CancelOrder(e', m)
  {
  }

  /** Reacting to fills never moves the maker's price. */
  lemma {:induction false} MakerPriceStays(e: Spec.Engine, e1: Spec.Engine, e3: Spec.Engine, t: OrderId, m: OrderId,
                                           q: int, p: Price)
    requires Meets(e.core, t, m) && q == Spec.TradeQuantity(e.core, t, m)
    requires e1.core == Filled(e.core, t, m, q, p)
    requires Spec.Hook(e1, t).Ok? && Spec.Hook(Spec.Hook(e1, t).value, m) == Ok(e3)
    ensures e3.core.Get(m).price == e.core.orders[m].price
  {
    FillsKeep(e.core, t, m, q, p);
    assert OrderInv(e.core, t, {}, {}) && OrderInv(e.core, m, {}, {});
    HookProjects(e1, t);
    HookKeeps(e1.core, t, {t, m}, {t, m});
    assert {t, m} - {t} == {m};
    HookProjects(Spec.Hook(e1, t).value, m);
    HookKeeps(Spec.Hook(e1, t).value.core, m, {m}, {t, m});
  }

  lemma TwoCancellations(a: OrderId, b: OrderId)
    ensures Spec.Cancellations([a, b]) == [OrderCancelled(a), OrderCancelled(b)]
  {
    assert Spec.Cancellations([a, b]) == [OrderCancelled(a)] + Spec.Cancellations([b]);
    assert Spec.Cancellations([b]) == [OrderCancelled(b)] + Spec.Cancellations([]);
  }
}
