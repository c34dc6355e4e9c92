/** Single commands worked out: an order that comes to rest, and one that trades with one maker. */
module Steps {
  import opened Types
  import opened BookModel
  import opened Ledgers
  import opened EngineSpec
  import opened Invariants
  import opened Matching
  import opened Runs
  import opened Priority

  const NO_BALANCES: Ledger := Ledger(map[], map[], map[], map[], {})

  /** The core once the order has come to rest. */
  function Rested(c: Core, s: OrderSpec): Core {
    var k := LevelKey(s.side, s.price);
    Core(c.book[k := Level(c.book, k) + [s.id]], c.orders[s.id := s.ToOrder(Single, true)], c.store + {s.id})
  }

  /** An order that does not cross is logged and rests; nobody is asked to pay. */
  lemma {:induction false} ComesToRest(e: Engine, s: OrderSpec)
    requires !Crossable(e.core.book, s.ToOrder(Single, true))
    requires s.id !in Level(e.core.book, LevelKey(s.side, s.price))
    ensures Handle(e, NewSingle(s))
         == Ok(Emit(e.(core := Rested(e.core, s)), s.user, [OrderPlaced(s.id, s.ToOrder(Single, true))]))
  {
    var o := s.ToOrder(Single, true);
    var e0 := e.(core := e.core.Put(o));
    assert e0.core.Get(s.id) == o;
    assert Handle(e, NewSingle(s)) == Submit(e0, s.id, {s.id}) == Place(e0, s.id, {s.id});
  }

  /** `m` is the oldest order at the best price of this side. */
  ghost predicate Leads(c: Core, side: Side, m: OrderId, p: Price) {
    IsBest(c.book, side, p) && c.book[LevelKey(side, p)] != [] && c.book[LevelKey(side, p)][0] == m
  }

  /** A new order met by one maker that covers it: the command is that one encounter. */
  lemma {:induction false} TakesFromFront(e: Engine, s: OrderSpec, m: OrderId, p: Price)
    requires Inv(e.core) && CmdOk(e.core, NewSingle(s))
    requires var o := s.ToOrder(Single, true);
      var e0 := e.(core := e.core.Put(o));
      && Leads(e.core, s.side.Opposite(), m, p) && m in e.core.orders
      && Crossable(e.core.book, o) && Answer(e0, o, o.quantity, o.price)
      && var e1 := Checked(e0, o, o.quantity, o.price);
      && e.core.orders[m].Remaining() >= s.quantity && Answer(e1, e0.core.Get(m), s.quantity, p)
      && TradeCore(e0.core, s.id, m, s.quantity, p).Ok?
    ensures var o := s.ToOrder(Single, true);
      var e0 := e.(core := e.core.Put(o));
      var e1 := Checked(e0, o, o.quantity, o.price);
      && Encounter(e1, s.id, m, p).Ok? && Handle(e, NewSingle(s)) == Encounter(e1, s.id, m, p)
      && Encounter(e1, s.id, m, p).value.core == TradeCore(e0.core, s.id, m, s.quantity, p).value
  {
    var o := s.ToOrder(Single, true);
    var e0 := e.(core := e.core.Put(o));
    var e1 := Checked(e0, o, o.quantity, o.price);
    var c, t := e1.core, s.id;
    IntakeKeeps(e.core, NewSingle(s));
    assert e0.core.Get(t) == o;
    BestIs(c.book, s.side.Opposite(), p);
    FrontMeets(c, t);
    assert TradeQuantity(c, t, m) == s.quantity;
    EncounterProjects(e1, t, m, p);
    TradeKeeps(c, t, m, s.quantity, p);
    var e2 := Encounter(e1, t, m, p).value;
    SweepUnfolds(e1, t, m, e2);
    SweepEnds(e2, t);
    assert Handle(e, NewSingle(s)) == Submit(e0, t, {t}) == MatchOrRest(e1, t, {t});
  }

  /** Nothing is booked for the system user. */
  lemma {:induction false} SystemTrade(e: Engine, t: OrderId, m: OrderId, q: int, p: Price)
    requires Encounter(e, t, m, p).Ok? && q == TradeQuantity(e.core, t, m)
    requires e.core.Get(t).user == SYSTEM_USER_ID && e.core.Get(m).user == SYSTEM_USER_ID
    requires Answer(e, e.core.Get(m), q, p) && e.core.Get(t).strategy.Single? && !e.core.Get(m).strategy.OcoLeg?
    requires t in e.core.orders && m in e.core.orders && e.core.Get(t).id == t && e.core.Get(m).id == m && t != m
    ensures Encounter(e, t, m, p).value.wiring == e.wiring
  {
    var taker, maker := e.core.Get(t), e.core.Get(m);
    var e0 := Checked(e, maker, q, p);
    var e1 := FillBoth(TradeEvents(e0, taker, maker, q, p), t, m, q, p);
    assert e0.wiring == e.wiring && e1.wiring == e.wiring;
    assert e1.core.Get(t).strategy == taker.strategy && e1.core.Get(m).strategy == maker.strategy;
    assert Hook(e1, t) == Ok(e1);
    assert Hook(e1, m).value.wiring == e.wiring;
  }

  /** The same between orders of the system user: nothing is asked, and no balance moves. */
  lemma {:induction false} TakesFromSystem(e: Engine, s: OrderSpec, m: OrderId, p: Price)
    requires Inv(e.core) && CmdOk(e.core, NewSingle(s)) && e.wiring.Live? && s.user == SYSTEM_USER_ID
    requires Leads(e.core, s.side.Opposite(), m, p) && m in e.core.orders && e.core.orders[m].user == SYSTEM_USER_ID
    requires !e.core.orders[m].strategy.OcoLeg? && e.core.orders[m].Remaining() >= s.quantity
    requires Crossable(e.core.book, s.ToOrder(Single, true))
    requires TradeCore(e.core.Put(s.ToOrder(Single, true)), s.id, m, s.quantity, p).Ok?
    ensures Handle(e, NewSingle(s)).Ok? && Handle(e, NewSingle(s)).value.wiring == e.wiring
    ensures Handle(e, NewSingle(s)).value.core
         == TradeCore(e.core.Put(s.ToOrder(Single, true)), s.id, m, s.quantity, p).value
  {
    var o := s.ToOrder(Single, true);
    var e1 := Checked(e.(core := e.core.Put(o)), o, o.quantity, o.price);
    TakesFromFront(e, s, m, p);
    assert OrderInv(e.core, m, {}, {});
    assert e1.core.Get(m) == e.core.orders[m] && e1.core.Get(s.id) == o;
    SystemTrade(e1, s.id, m, s.quantity, p);
  }
}
