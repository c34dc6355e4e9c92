/** What the event log says about fills: the trades of every order, and whether it was reported as filled. */
module Traces {
  import opened Types
  import opened Collections
  import opened BookModel
  import opened Ledgers
  import opened EngineSpec
  import opened Invariants
  import opened Matching
  import opened Runs
  import opened PlainRuns
  import opened Accounting
  import opened Conservation
  import opened Determinism
  import opened Priority
  import opened Raising
  import opened Departed
  import opened Escrow
  import opened Departures
  import opened Outcomes

  // ---- Reading the log ----

  /** The fill that an event reports for the order, if it is one of its trades. */
  ghost function TradeIn(ev: Event, id: OrderId): seq<Fill> {
    match ev
    case NewTrade(x, q, p, _) => if x == id then [Fill(q, p)] else []
    case _ => []
  }

  /** Whether an event says that the order is now filled, if it is one of its fill events. */
  ghost function ReportIn(ev: Event, id: OrderId): seq<bool> {
    match ev
    case OrderFilled(x) => if x == id then [true] else []
    case OrderPartiallyFilled(x) => if x == id then [false] else []
    case _ => []
  }

  /** The fills that the trade events of the order report, in order. */
  ghost function TradesOf(log: seq<Event>, id: OrderId): seq<Fill> {
    if log == [] then [] else TradesOf(log[..|log| - 1], id) + TradeIn(log[|log| - 1], id)
  }

  /** Its fill events, in order: true for filled, false for partially filled. */
  ghost function ReportsOf(log: seq<Event>, id: OrderId): seq<bool> {
    if log == [] then [] else ReportsOf(log[..|log| - 1], id) + ReportIn(log[|log| - 1], id)
  }

  lemma {:induction false} OneMoreEvent(log: seq<Event>, ev: Event, id: OrderId)
    ensures TradesOf(log + [ev], id) == TradesOf(log, id) + TradeIn(ev, id)
    ensures ReportsOf(log + [ev], id) == ReportsOf(log, id) + ReportIn(ev, id)
  {
    assert (log + [ev])[..|log|] == log;
  }

  lemma {:induction false} FilledIff(log: seq<Event>, id: OrderId)
    ensures OrderFilled(id) in log <==> true in ReportsOf(log, id)
  {
    if log != [] {
      var n := |log| - 1;
      FilledIff(log[..n], id);
      assert log == log[..n] + [log[n]];
      assert true in ReportIn(log[n], id) <==> log[n] == OrderFilled(id);
    }
  }

  // ---- The law ----

  /** One report per fill, all of them partial, except that the last one completes a complete order. */
  ghost predicate Reports(r: seq<bool>, o: Order) {
    && |r| == |o.fills|
    && forall i :: 0 <= i < |r| ==> (r[i] <==> i == |r| - 1 && o.executed == o.quantity)
  }

  /** The log tells the fills of an order of an ordinary user, and nothing of any other id. */
  ghost predicate Recorded(e: Engine, id: OrderId) {
    if id in e.core.orders && e.core.orders[id].user != SYSTEM_USER_ID
    then TradesOf(e.log, id) == e.core.orders[id].fills && Reports(ReportsOf(e.log, id), e.core.orders[id])
    else TradesOf(e.log, id) == [] && ReportsOf(e.log, id) == []
  }

  // ---- Steps that fill nothing ----

  predicate Plain(ev: Event) { !ev.NewTrade? && !ev.OrderFilled? && !ev.OrderPartiallyFilled? }

  /** The same orders with the same owners, quantities and fills. */
  ghost predicate SameFills(c: Core, c': Core) {
    c'.orders.Keys == c.orders.Keys && forall x :: x in c.orders ==>
      && x in c'.orders && c'.orders[x].user == c.orders[x].user && c'.orders[x].quantity == c.orders[x].quantity
      && c'.orders[x].executed == c.orders[x].executed && c'.orders[x].fills == c.orders[x].fills
  }

  ghost predicate PlainSince(log: seq<Event>, log': seq<Event>) {
    log <= log' && forall i :: |log| <= i < |log'| ==> Plain(log'[i])
  }

  ghost predicate Quiet(e: Engine, e': Engine) { PlainSince(e.log, e'.log) && SameFills(e.core, e'.core) }

  lemma {:induction false} QuietThen(e: Engine, e1: Engine, e': Engine)
    requires Quiet(e, e1) && Quiet(e1, e')
    ensures Quiet(e, e')
  {
  }

  lemma {:induction false} PlainTellsNothing(log: seq<Event>, log': seq<Event>, id: OrderId)
    requires PlainSince(log, log')
    ensures TradesOf(log', id) == TradesOf(log, id) && ReportsOf(log', id) == ReportsOf(log, id)
    decreases |log'|
  {
    if |log'| == |log| {
      assert log' == log;
    } else {
      var n := |log'| - 1;
      assert log <= log'[..n];
      PlainTellsNothing(log, log'[..n], id);
      assert Plain(log'[n]);
    }
  }

  lemma {:induction false} QuietKeepsRecorded(e: Engine, e': Engine, id: OrderId)
    requires Recorded(e, id) && Quiet(e, e')
    ensures Recorded(e', id)
  {
    PlainTellsNothing(e.log, e'.log, id);
  }

  lemma {:induction false} EmitQuiet(e: Engine, u: UserId, events: seq<Event>)
    requires forall i :: 0 <= i < |events| ==> Plain(events[i])
    ensures Quiet(e, Emit(e, u, events))
  {
  }

  lemma {:induction false} DoQuiet(e: Engine, op: BalanceOp)
    ensures Quiet(e, Do(e, op))
  {
  }

  lemma {:induction false} ReleaseQuiet(e: Engine, o: Order)
    ensures Quiet(e, Release(e, o))
  {
    DoQuiet(e, ReleaseOp(o));
  }

  lemma {:induction false} SettleQuiet(e: Engine, t: Order, m: Order, q: int, p: Price)
    ensures Quiet(e, Settle(e, t, m, q, p))
  {
    var e1 := HoldOnFirstFill(e, m);
    DoQuiet(e, HoldOp(m));
    var e2 := HoldOnFirstFill(e1, t);
    DoQuiet(e1, HoldOp(t));
    QuietThen(e, e1, e2);
    var e3 := Do(e2, SettleOp(t, q, p));
    DoQuiet(e2, SettleOp(t, q, p));
    QuietThen(e, e2, e3);
    DoQuiet(e3, SettleOp(m, q, p));
    QuietThen(e, e3, Do(e3, SettleOp(m, q, p)));
  }

  lemma {:induction false} CancellationsPlain(ids: seq<OrderId>)
    ensures forall i :: 0 <= i < |Cancellations(ids)| ==> Plain(Cancellations(ids)[i])
  {
    if ids != [] { CancellationsPlain(ids[1..]); }
  }

  lemma {:induction false} CancelQuiet(e: Engine, id: OrderId)
    requires CancelOrder(e, id).Ok?
    ensures Quiet(e, CancelOrder(e, id).value)
  {
    var o := e.core.Get(id);
    var c := CancelCore(e.core, id).value;
    UnbookAllOrders(e.core, CancelTargets(o));
    assert Quiet(e, e.(core := c));
    CancellationsPlain(CancelTargets(o));
    var e1 := Emit(e.(core := c), o.user, Cancellations(CancelTargets(o)));
    EmitQuiet(e.(core := c), o.user, Cancellations(CancelTargets(o)));
    QuietThen(e, e.(core := c), e1);
    ReleaseQuiet(e1, c.Get(CancelReleases(o)));
    QuietThen(e, e1, Release(e1, c.Get(CancelReleases(o))));
  }

  lemma {:induction false} HookQuiet(e: Engine, id: OrderId, hook: set<OrderId>, full: set<OrderId>)
    requires MidInv(e.core, hook, full) && id in e.core.orders && id in hook && e.core.orders[id].executed > 0
    requires Hook(e, id).Ok?
    ensures Quiet(e, Hook(e, id).value)
  {
    HookProjects(e, id);
    HookKeeps(e.core, id, hook, full);
    var o, c := e.core.orders[id], HookCore(e.core, id).value;
    assert Quiet(e, e.(core := c));
    if o.strategy.OcoLeg? {
      var e1 := Emit(e.(core := c), o.user, [OrderCancelled(o.strategy.peer)]);
      EmitQuiet(e.(core := c), o.user, [OrderCancelled(o.strategy.peer)]);
      ReleaseQuiet(e1, o);
      QuietThen(e, e.(core := c), e1);
      QuietThen(e, e1, Release(e1, o));
    }
  }

  lemma {:induction false} PlaceQuiet(e: Engine, id: OrderId, stored: set<OrderId>)
    requires Place(e, id, stored).Ok?
    ensures Quiet(e, Place(e, id, stored).value)
  {
  }

  // ---- Trades ----

  lemma {:induction false} EmitOne(e: Engine, u: UserId, ev: Event, id: OrderId)
    ensures TradesOf(Emit(e, u, [ev]).log, id)
         == TradesOf(e.log, id) + if u == SYSTEM_USER_ID then [] else TradeIn(ev, id)
    ensures ReportsOf(Emit(e, u, [ev]).log, id)
         == ReportsOf(e.log, id) + if u == SYSTEM_USER_ID then [] else ReportIn(ev, id)
  {
    OneMoreEvent(e.log, ev, id);
  }

  /** Two events in a row, each about its own order, tell of `id` what the one about it tells. */
  lemma {:induction false} EmitTwo(e: Engine, x: Order, ev: Event, y: Order, ev': Event, id: OrderId)
    requires x.id != y.id
    requires forall j :: j != x.id ==> TradeIn(ev, j) == [] && ReportIn(ev, j) == []
    requires forall j :: j != y.id ==> TradeIn(ev', j) == [] && ReportIn(ev', j) == []
    ensures var e' := Emit(Emit(e, x.user, [ev]), y.user, [ev']);
      && TradesOf(e'.log, id) == TradesOf(e.log, id)
           + (if id == x.id && x.user != SYSTEM_USER_ID then TradeIn(ev, id)
              else if id == y.id && y.user != SYSTEM_USER_ID then TradeIn(ev', id) else [])
      && ReportsOf(e'.log, id) == ReportsOf(e.log, id)
           + (if id == x.id && x.user != SYSTEM_USER_ID then ReportIn(ev, id)
              else if id == y.id && y.user != SYSTEM_USER_ID then ReportIn(ev', id) else [])
  {
    EmitOne(e, x.user, ev, id);
    EmitOne(Emit(e, x.user, [ev]), y.user, ev', id);
    Empties(TradesOf(e.log, id), ReportsOf(e.log, id));
  }

  lemma Empties(x: seq<Fill>, y: seq<bool>)
    ensures x + [] == x && y + [] == y
  {
  }

  lemma {:induction false} TradeEventsTell(e: Engine, t: Order, m: Order, q: int, p: Price, id: OrderId)
    requires t.id != m.id
    ensures var e' := TradeEvents(e, t, m, q, p);
      var told := (id == t.id && t.user != SYSTEM_USER_ID) || (id == m.id && m.user != SYSTEM_USER_ID);
      && TradesOf(e'.log, id) == TradesOf(e.log, id) + (if told then [Fill(q, p)] else [])
      && ReportsOf(e'.log, id) == ReportsOf(e.log, id) && e'.core == e.core
  {
    EmitTwo(e, t, NewTrade(t.id, q, p, Taker), m, NewTrade(m.id, q, p, Maker), id);
    Empties(TradesOf(e.log, id), ReportsOf(e.log, id));
  }

  lemma {:induction false} FillEventsTell(e: Engine, t: OrderId, m: OrderId, q: int, p: Price, id: OrderId)
    requires t in e.core.orders && m in e.core.orders && t != m
    requires e.core.orders[t].id == t && e.core.orders[m].id == m
    ensures var e', o := FillBoth(e, t, m, q, p), e.core.Get(id);
      var told := (id == t || id == m) && o.user != SYSTEM_USER_ID;
      && ReportsOf(e'.log, id) == ReportsOf(e.log, id) + (if told then [o.executed + q == o.quantity] else [])
      && TradesOf(e'.log, id) == TradesOf(e.log, id) && e'.core == Filled(e.core, t, m, q, p)
  {
    var t', m' := e.core.orders[t].AddFill(q, p), e.core.orders[m].AddFill(q, p);
    var e1 := e.(core := Filled(e.core, t, m, q, p));
    assert e1.core.Get(t) == t' && e1.core.Get(m) == m';
    EmitTwo(e1, t', FillEvent(t'), m', FillEvent(m'), id);
    Empties(TradesOf(e.log, id), ReportsOf(e.log, id));
  }

  lemma {:induction false} FillsRecorded(e: Engine, t: OrderId, m: OrderId, q: int, p: Price, id: OrderId)
    requires Meets(e.core, t, m) && q == TradeQuantity(e.core, t, m) && Recorded(e, id)
    ensures Recorded(FillBoth(TradeEvents(e, e.core.orders[t], e.core.orders[m], q, p), t, m, q, p), id)
  {
    assert OrderInv(e.core, t, {}, {}) && OrderInv(e.core, m, {}, {});
    var e1 := TradeEvents(e, e.core.orders[t], e.core.orders[m], q, p);
    TradeEventsTell(e, e.core.orders[t], e.core.orders[m], q, p, id);
    FillEventsTell(e1, t, m, q, p, id);
    var o, o' := e.core.Get(id), FillBoth(e1, t, m, q, p).core.Get(id);
    if id == t || id == m {
      assert o' == o.AddFill(q, p);
      if o.user != SYSTEM_USER_ID { ReportsMore(ReportsOf(e.log, id), o, q, p); }
    } else {
      assert o' == o;
      Empties(TradesOf(e.log, id), ReportsOf(e.log, id));
    }
  }

  /** One more fill of an open order, with its report. */
  lemma {:induction false} ReportsMore(r: seq<bool>, o: Order, q: int, p: Price)
    requires Reports(r, o) && o.executed < o.quantity
    ensures Reports(r + [o.executed + q == o.quantity], o.AddFill(q, p))
  {
  }

  /** After the fills, both reactions, the retirement and the settlement are quiet. */
  lemma {:induction false} RestOfTradeQuiet(e: Engine, t: OrderId, m: OrderId, taker: Order, maker: Order, q: int,
                                            p: Price)
    requires MidInv(e.core, {t, m}, {t, m}) && t in e.core.orders && m in e.core.orders && t != m
    requires e.core.orders[t].executed > 0 && e.core.orders[m].executed > 0
    requires Hook(e, t).Ok? && Hook(Hook(e, t).value, m).Ok?
    requires RetireCore(Hook(Hook(e, t).value, m).value.core, m).Ok?
    ensures var told := Hook(Hook(e, t).value, m).value;
      Quiet(e, Settle(told.(core := RetireCore(told.core, m).value), taker, maker, q, p))
  {
    HookQuiet(e, t, {t, m}, {t, m});
    HookProjects(e, t);
    HookKeeps(e.core, t, {t, m}, {t, m});
    assert {t, m} - {t} == {m};
    var e1 := Hook(e, t).value;
    HookQuiet(e1, m, {m}, {t, m});
    var told := Hook(e1, m).value;
    QuietThen(e, e1, told);
    var retired := told.(core := RetireCore(told.core, m).value);
    assert Quiet(told, retired);
    QuietThen(e, told, retired);
    SettleQuiet(retired, taker, maker, q, p);
    QuietThen(e, retired, Settle(retired, taker, maker, q, p));
  }

  lemma {:induction false} TradeRecorded(e: Engine, t: OrderId, m: OrderId, q: int, p: Price, id: OrderId)
    requires Meets(e.core, t, m) && q == TradeQuantity(e.core, t, m) && Trade(e, t, m, q, p).Ok? && Recorded(e, id)
    ensures Recorded(Trade(e, t, m, q, p).value, id)
  {
    var taker, maker := e.core.orders[t], e.core.orders[m];
    var e1 := FillBoth(TradeEvents(e, taker, maker, q, p), t, m, q, p);
    FilledFacts(e.core, t, m, q, p);
    assert e1.core == Filled(e.core, t, m, q, p);
    FillsRecorded(e, t, m, q, p, id);
    RestOfTradeQuiet(e1, t, m, taker, maker, q, p);
    QuietKeepsRecorded(e1, Trade(e, t, m, q, p).value, id);
  }

  // ---- Matching and commands ----

  lemma {:induction false} FrontRecorded(e: Engine, t: OrderId, id: OrderId)
    requires Inv(e.core) && Entering(e.core, t) && !Stops(e.core, t) && MeetFront(e, t).Ok? && Recorded(e, id)
    ensures Recorded(MeetFront(e, t).value, id)
  {
    var side := e.core.Get(t).side.Opposite();
    var m, p := Front(e.core.book, side).value, Best(e.core.book, side).value;
    var q := TradeQuantity(e.core, t, m);
    FrontMeets(e.core, t);
    var e1 := Checked(e, e.core.Get(m), q, p);
    QuietKeepsRecorded(e, e1, id);
    if FrontPasses(e, t) {
      TradeRecorded(e1, t, m, q, p, id);
    } else {
      CancelQuiet(e1, m);
      QuietKeepsRecorded(e1, CancelOrder(e1, m).value, id);
    }
  }

  lemma {:induction false} SweepRecorded(e: Engine, t: OrderId, id: OrderId)
    requires Inv(e.core) && Entering(e.core, t) && Sweep(e, t).Ok? && Recorded(e, id)
    ensures Recorded(Sweep(e, t).value, id)
    decreases RestingOn(e.core.book, e.core.Get(t).side.Opposite())
  {
    if Stops(e.core, t) {
      SweepEnds(e, t);
    } else {
      FirstMeetingIsOk(e, t);
      FrontKeeps(e, t);
      FrontRecorded(e, t, id);
      var e1 := MeetFront(e, t).value;
      if Stops(e1.core, t) { SweepEnds(e1, t); } else { SweepRecorded(e1, t, id); }
    }
  }

  lemma {:induction false} RestRecorded(e: Engine, t: OrderId, stored: set<OrderId>, id: OrderId)
    requires Inv(e.core) && Entering(e.core, t) && MatchOrRest(e, t, stored).Ok? && Recorded(e, id)
    ensures Recorded(MatchOrRest(e, t, stored).value, id)
  {
    SweepRecorded(e, t, id);
    var e2 := Sweep(e, t).value;
    if !e2.core.Get(t).Complete() {
      PlaceQuiet(e2, t, stored);
      QuietKeepsRecorded(e2, Place(e2, t, stored).value, id);
    }
  }

  lemma {:induction false} RejectQuiet(e: Engine, t: OrderId)
    requires Reject(e, t).Ok?
    ensures Quiet(e, Reject(e, t).value)
  {
    var o := e.core.Get(t);
    CancelQuiet(e, t);
    var e1 := CancelOrder(e, t).value;
    var e2 := Emit(e1, o.user, [OrderCancelled(t)]);
    EmitQuiet(e1, o.user, [OrderCancelled(t)]);
    QuietThen(e, e1, e2);
    ReleaseQuiet(e2, o);
    QuietThen(e, e2, Release(e2, o));
  }

  lemma {:induction false} SubmitRecorded(e: Engine, t: OrderId, stored: set<OrderId>, id: OrderId)
    requires Inv(e.core) && Entering(e.core, t) && Submit(e, t, stored).Ok? && Recorded(e, id)
    ensures Recorded(Submit(e, t, stored).value, id)
  {
    SubmitCases(e, t, stored);
    var e1 := Entered(e, t);
    QuietKeepsRecorded(e, e1, id);
    if !Crossable(e.core.book, e.core.Get(t)) {
      PlaceQuiet(e, t, stored);
      QuietKeepsRecorded(e, Place(e, t, stored).value, id);
    } else if EntryAnswer(e, t) {
      RestRecorded(e1, t, stored, id);
    } else {
      RejectQuiet(e1, t);
      QuietKeepsRecorded(e1, Reject(e1, t).value, id);
    }
  }

  /** New order objects have no fills, and their ids have not been mentioned. */
  lemma {:induction false} IntakeRecorded(e: Engine, cmd: Command, id: OrderId)
    requires CmdOk(e.core, cmd) && Recorded(e, id)
    ensures Recorded(e.(core := Intake(e.core, cmd)), id)
  {
  }

  lemma {:induction false} LegsQuiet(e: Engine, a: OrderId, b: OrderId)
    requires Place(e, a, {a}).Ok? && Place(Place(e, a, {a}).value, b, {b}).Ok?
    ensures Quiet(e, Place(Place(e, a, {a}).value, b, {b}).value)
  {
    var e1 := Place(e, a, {a}).value;
    PlaceQuiet(e, a, {a});
    PlaceQuiet(e1, b, {b});
    QuietThen(e, e1, Place(e1, b, {b}).value);
  }

  lemma {:induction false} HandleRecorded(e: Engine, cmd: Command, id: OrderId)
    requires Inv(e.core) && CmdOk(e.core, cmd) && Handle(e, cmd).Ok? && Recorded(e, id)
    ensures Recorded(Handle(e, cmd).value, id)
  {
    var e0 := e.(core := Intake(e.core, cmd));
    IntakeRecorded(e, cmd, id);
    match cmd
    case NewSingle(s) =>
      HandleSubmits(e, cmd);
      SubmitRecorded(e0, s.id, {s.id}, id);
    case NewOto(p, ch) =>
      HandleSubmits(e, cmd);
      SubmitRecorded(e0, p.id, {p.id, ch.id}, id);
    case NewOco(a, b) =>
      LegsQuiet(e0, a.id, b.id);
      QuietKeepsRecorded(e0, Handle(e, cmd).value, id);
    case Cancel(x) =>
      if x in e.core.store {
        CancelQuiet(e, x);
        QuietKeepsRecorded(e, CancelOrder(e, x).value, id);
      }
  }

  lemma {:induction false} RunRecorded(e: Engine, cmds: seq<Command>, id: OrderId)
    requires e.core == EMPTY_CORE && e.log == [] && Admissible(e, cmds) && Run(e, cmds).Ok?
    ensures Recorded(Run(e, cmds).value, id)
  {
    if cmds != [] {
      var n := |cmds| - 1;
      RunRecorded(e, cmds[..n], id);
      RunKeeps(e, cmds[..n]);
      HandleRecorded(Run(e, cmds[..n]).value, cmds[n], id);
    }
  }

  /**
   * After every run from the empty engine, and under any wiring: the trade events of an order of an ordinary user
   * tell exactly its fills, quantity and price, in order. Each fill was reported by one event, as partial
   * unless it completed the order; so the order was reported as filled if and only if it is complete.
   */
  lemma {:induction false} FillsAreReported(e: Engine, cmds: seq<Command>, id: OrderId)
    requires e.core == EMPTY_CORE && e.log == [] && Admissible(e, cmds) && Run(e, cmds).Ok?
    requires id in Run(e, cmds).value.core.orders
    requires Run(e, cmds).value.core.orders[id].user != SYSTEM_USER_ID
    ensures var e' := Run(e, cmds).value;
      var o := e'.core.orders[id];
      && TradesOf(e'.log, id) == o.fills
      && |ReportsOf(e'.log, id)| == |o.fills|
      && (forall i :: 0 <= i < |o.fills| ==>
            (ReportsOf(e'.log, id)[i] <==> i == |o.fills| - 1 && o.executed == o.quantity))
      && (OrderFilled(id) in e'.log <==> o.executed == o.quantity)
  {
    RunRecorded(e, cmds, id);
    RunKeeps(e, cmds);
    var e' := Run(e, cmds).value;
    assert OrderInv(e'.core, id, {}, {});
    FilledIff(e'.log, id);
    LastReport(ReportsOf(e'.log, id), e'.core.orders[id]);
  }

  lemma {:induction false} LastReport(r: seq<bool>, o: Order)
    requires Reports(r, o) && OrderOk(o.id, o)
    ensures true in r <==> o.executed == o.quantity
  {
    if o.executed == o.quantity {
      assert o.fills != [];
      assert r[|r| - 1];
    }
  }

  /** Of orders of the system user, and of ids that no order has, the log mentions no fill. */
  lemma {:induction false} OthersAreNotMentioned(e: Engine, cmds: seq<Command>, id: OrderId)
    requires e.core == EMPTY_CORE && e.log == [] && Admissible(e, cmds) && Run(e, cmds).Ok?
    requires var c := Run(e, cmds).value.core; id in c.orders ==> c.orders[id].user == SYSTEM_USER_ID
    ensures TradesOf(Run(e, cmds).value.log, id) == [] && ReportsOf(Run(e, cmds).value.log, id) == []
  {
    RunRecorded(e, cmds, id);
  }

  // ---- The events of one trade ----

  lemma {:induction false} EmitAppends(e: Engine, u: UserId, ev: Event)
    ensures Emit(e, u, [ev]).log == e.log + Told(u, [ev])
  {
    assert e.log + [] == e.log;
  }

  lemma {:induction false} DoAppends(e: Engine, op: BalanceOp)
    requires e.wiring.Live?
    ensures Do(e, op).log == e.log + Told(op.user, [BalanceChanged(op)]) && Do(e, op).wiring.Live?
  {
    assert e.log + [] == e.log;
  }

  lemma {:induction false} HoldAppends(e: Engine, o: Order)
    requires e.wiring.Live?
    ensures HoldOnFirstFill(e, o).log
         == e.log + (if o.executed == 0 then Told(o.user, [BalanceChanged(HoldOp(o))]) else [])
    ensures HoldOnFirstFill(e, o).wiring.Live?
  {
    DoAppends(e, HoldOp(o));
    assert e.log + [] == e.log;
  }

  /** What a trade of `q` at `p` says of an order. */
  function FillNews(o: Order, q: int): Event {
    if o.executed + q == o.quantity then OrderFilled(o.id) else OrderPartiallyFilled(o.id)
  }

  /** The escrow of the whole order, at its own price, and the transfer at the price of the trade. */
  function Escrowed(o: Order): Event {
    BalanceChanged(if o.side.Bid? then HoldCash(o.user, o.quantity * o.price) else HoldAsset(o.user, o.quantity))
  }

  function Settled(o: Order, q: int, p: Price): Event {
    BalanceChanged(if o.side.Bid? then SettleBid(o.user, q, p) else SettleAsk(o.user, q, p))
  }

  /** The first events of a trade; the system user's are missing. */
  function MatchNews(t: Order, m: Order, q: int, p: Price): seq<Event> {
    Told(t.user, [NewTrade(t.id, q, p, Taker)]) + Told(m.user, [NewTrade(m.id, q, p, Maker)])
    + Told(t.user, [FillNews(t, q)]) + Told(m.user, [FillNews(m, q)])
  }

  /** ... and the last. */
  function MoneyNews(t: Order, m: Order, q: int, p: Price): seq<Event> {
    (if m.executed == 0 then Told(m.user, [Escrowed(m)]) else [])
    + (if t.executed == 0 then Told(t.user, [Escrowed(t)]) else [])
    + Told(t.user, [Settled(t, q, p)]) + Told(m.user, [Settled(m, q, p)])
  }

  lemma FourParts(x: seq<Event>, a: seq<Event>, b: seq<Event>, c: seq<Event>, d: seq<Event>)
    ensures x + a + b + c + d == x + (a + b + c + d)
  {
  }

  lemma {:induction false} SettleNews(e: Engine, t: Order, m: Order, q: int, p: Price)
    requires e.wiring.Live?
    ensures Settle(e, t, m, q, p).log == e.log + MoneyNews(t, m, q, p)
  {
    FourParts(e.log, if m.executed == 0 then Told(m.user, [Escrowed(m)]) else [],
              if t.executed == 0 then Told(t.user, [Escrowed(t)]) else [],
              Told(t.user, [Settled(t, q, p)]), Told(m.user, [Settled(m, q, p)]));
    HoldAppends(e, m);
    var e1 := HoldOnFirstFill(e, m);
    HoldAppends(e1, t);
    var e2 := HoldOnFirstFill(e1, t);
    DoAppends(e2, SettleOp(t, q, p));
    DoAppends(Do(e2, SettleOp(t, q, p)), SettleOp(m, q, p));
  }

  lemma {:induction false} FillNewsIs(e: Engine, t: OrderId, m: OrderId, q: int, p: Price)
    requires t in e.core.orders && m in e.core.orders && t != m
    requires e.core.orders[t].id == t && e.core.orders[m].id == m
    ensures var taker, maker := e.core.orders[t], e.core.orders[m];
      var e1 := FillBoth(TradeEvents(e, taker, maker, q, p), t, m, q, p);
      && e1.log == e.log + MatchNews(taker, maker, q, p)
      && e1.core == Filled(e.core, t, m, q, p) && e1.wiring == e.wiring
  {
    var taker, maker := e.core.orders[t], e.core.orders[m];
    var a := Emit(e, taker.user, [NewTrade(t, q, p, Taker)]);
    EmitAppends(e, taker.user, NewTrade(t, q, p, Taker));
    EmitAppends(a, maker.user, NewTrade(m, q, p, Maker));
    var t', m' := taker.AddFill(q, p), maker.AddFill(q, p);
    var c := TradeEvents(e, taker, maker, q, p).(core := Filled(e.core, t, m, q, p));
    assert c.core.Get(t) == t' && c.core.Get(m) == m';
    EmitAppends(c, t'.user, FillEvent(t'));
    EmitAppends(Emit(c, t'.user, [FillEvent(t')]), m'.user, FillEvent(m'));
    FourParts(e.log, Told(taker.user, [NewTrade(t, q, p, Taker)]), Told(maker.user, [NewTrade(m, q, p, Maker)]),
              Told(taker.user, [FillNews(taker, q)]), Told(maker.user, [FillNews(maker, q)]));
  }

  /**
   * A trade between SINGLE orders is told in this order: the trade to both, the state of both orders, escrow taken
   * on first fills, maker before taker, and the settlement, taker before maker.
   */
  lemma {:induction false} TradeIsTold(e: Engine, t: OrderId, m: OrderId, q: int, p: Price)
    requires Meets(e.core, t, m) && q == TradeQuantity(e.core, t, m) && Trade(e, t, m, q, p).Ok? && e.wiring.Live?
    requires e.core.orders[t].strategy.Single? && e.core.orders[m].strategy.Single?
    ensures var taker, maker := e.core.orders[t], e.core.orders[m];
      Trade(e, t, m, q, p).value.log == e.log + MatchNews(taker, maker, q, p) + MoneyNews(taker, maker, q, p)
  {
    var taker, maker := e.core.orders[t], e.core.orders[m];
    assert OrderInv(e.core, t, {}, {}) && OrderInv(e.core, m, {}, {});
    FillNewsIs(e, t, m, q, p);
    var e1 := FillBoth(TradeEvents(e, taker, maker, q, p), t, m, q, p);
    assert Hook(e1, t) == Ok(e1) && Hook(e1, m) == Ok(e1);
    var e2 := e1.(core := RetireCore(e1.core, m).value);
    SettleNews(e2, taker, maker, q, p);
    assert Trade(e, t, m, q, p) == Ok(Settle(e2, taker, maker, q, p));
  }
}
