/**
 * Exactly when a command raises, groups included. An OCO leg that trades again, or is cancelled after it
 * has traded, removes its peer a second time; that raises if the peer's level is occupied by others.
 */
module Raising {
  import opened Types
  import opened Collections
  import opened BookModel
  import opened EngineSpec
  import opened Invariants
  import opened Matching
  import opened Runs
  import opened Safety

  ghost function PeerKey(c: Core, m: OrderId): LevelKey
    requires c.Get(m).strategy.OcoLeg?
  {
    c.Get(c.Get(m).strategy.peer).Key()
  }

  /** A leg that has traded, with others resting where its peer was. */
  ghost predicate Trips(c: Core, m: OrderId) {
    c.Get(m).strategy.OcoLeg? && c.Get(m).executed > 0 && PeerKey(c, m) in c.book
  }

  /** The taker, completed by `q`, places its child where the peer of `m` was. */
  ghost predicate ChildTrips(c: Core, t: OrderId, m: OrderId, q: int) {
    && c.Get(m).strategy.OcoLeg? && c.Get(m).executed > 0
    && c.Get(t).strategy.OtoParent? && c.Get(t).executed + q == c.Get(t).quantity
    && c.Get(c.Get(t).strategy.child).Key() == PeerKey(c, m)
  }

  // ---- One step ----

  /** Cancelling a resting order raises exactly if it is a leg that trips. */
  lemma {:induction false} CancelRaisesIff(c: Core, m: OrderId)
    requires Inv(c) && m in c.orders && c.Resting(m)
    ensures CancelCore(c, m).Raised? <==> Trips(c, m)
    ensures Trips(c, m) ==> CancelCore(c, m) == Raised(KeyError)
  {
    if Untroubled(c, m) {
      CancelRestingNeverRaises(c, m);
    } else {
      assert OrderInv(c, m, {}, {});
      var peer := c.orders[m].strategy.peer;
      UnbookEffect(c, m);
      var c1 := Unbook(c, m).value;
      assert forall k :: k != c.orders[m].Key() ==> (k in c1.book <==> k in c.book);
      UnbookEffect(c1, peer);
      assert UnbookAll(c, [m, peer]) == UnbookAll(c1, [peer]);
      if Unbook(c1, peer).Ok? { assert UnbookAll(c1, [peer]) == UnbookAll(Unbook(c1, peer).value, []); }
    }
  }

  /** The taker's strategy reacts without raising, and adds at most its child's level. */
  lemma {:induction false} TakerReacts(c: Core, t: OrderId, m: OrderId, q: int, p: Price)
    requires Meets(c, t, m) && q == TradeQuantity(c, t, m)
    ensures var c1 := Filled(c, t, m, q, p);
      && HookCore(c1, t).Ok?
      && var c2 := HookCore(c1, t).value;
      && MidInv(c2, {m}, {t, m}) && OnlyActivates(c1, c2)
      && (forall x :: c2.Resting(x) && !c.Resting(x) ==> Child(c1, t, x))
      && (forall x :: c.Resting(x) ==> c2.Resting(x))
      && c2.book.Keys == c.book.Keys
           + (if c.orders[t].strategy.OtoParent? && c.orders[t].executed + q == c.orders[t].quantity
              then {c.Get(c.orders[t].strategy.child).Key()} else {})
  {
    FillsKeep(c, t, m, q, p);
    var c1 := Filled(c, t, m, q, p);
    assert forall x :: c1.Resting(x) == c.Resting(x);
    assert OrderInv(c, t, {}, {}) && OrderInv(c, m, {}, {}) && OrderInv(c1, t, {t, m}, {t, m});
    HookNeverRaises(c1, t, {t, m}, {t, m});
    HookKeeps(c1, t, {t, m}, {t, m});
    assert {t, m} - {t} == {m};
    if c1.orders[t].strategy.OtoParent? {
      var child := c1.orders[t].strategy.child;
      assert OrderInv(c, child, {}, {});
      assert child != m ==> c1.Get(child).Key() == c.Get(child).Key();
    }
  }

  /** A trade raises exactly if the maker is a leg that trips, or that the taker's new child makes trip. */
  lemma {:induction false} TradeRaisesIff(c: Core, t: OrderId, m: OrderId, q: int, p: Price)
    requires Meets(c, t, m) && q == TradeQuantity(c, t, m)
    ensures TradeCore(c, t, m, q, p).Raised? <==> Trips(c, m) || ChildTrips(c, t, m, q)
  {
    if Untroubled(c, m) {
      TradeNeverRaises(c, t, m, q, p);
    } else {
      var peer := c.orders[m].strategy.peer;
      var c1 := Filled(c, t, m, q, p);
      TakerReacts(c, t, m, q, p);
      var c2 := HookCore(c1, t).value;
      assert OrderInv(c, m, {}, {}) && OrderInv(c, peer, {}, {}) && OrderInv(c, t, {}, {});
      if c.orders[t].strategy.OtoParent? { assert OrderInv(c, c.orders[t].strategy.child, {}, {}); }
      assert c2.Get(peer).Key() == c.Get(peer).Key() && !c2.Resting(peer);
      UnbookEffect(c2, peer);
      if Unbook(c2, peer).Ok? {
        HookKeeps(c2, m, {m}, {t, m});
        assert c2.Resting(m);
        UnbookEffect(HookCore(c2, m).value, m);
      }
    }
  }

  /** For a SINGLE taker the condition is the same as for a cancel. */
  lemma {:induction false} SingleTradeRaisesIff(c: Core, t: OrderId, m: OrderId, q: int, p: Price)
    requires Meets(c, t, m) && q == TradeQuantity(c, t, m) && c.orders[t].strategy.Single?
    ensures TradeCore(c, t, m, q, p).Raised? <==> Trips(c, m)
  {
    TradeRaisesIff(c, t, m, q, p);
  }

  /** Meeting `m` under the given answer. */
  ghost predicate EncounterTrips(c: Core, t: OrderId, m: OrderId, pass: bool) {
    Trips(c, m) || (pass && ChildTrips(c, t, m, TradeQuantity(c, t, m)))
  }

  lemma {:induction false} EncounterRaisesIff(e: Engine, t: OrderId, m: OrderId, p: Price)
    requires Meets(e.core, t, m)
    ensures Encounter(e, t, m, p).Raised?
      <==> EncounterTrips(e.core, t, m, Answer(e, e.core.Get(m), TradeQuantity(e.core, t, m), p))
  {
    EncounterProjects(e, t, m, p);
    TradeRaisesIff(e.core, t, m, TradeQuantity(e.core, t, m), p);
    CancelRaisesIff(e.core, m);
  }

  // ---- Matching ----

  /** The sweep has nothing (more) to do. */
  ghost predicate Stops(c: Core, t: OrderId) {
    c.Get(t).executed >= c.Get(t).quantity || Front(c.book, c.Get(t).side.Opposite()).None?
  }

  /** Meeting the front of the opposite side. */
  ghost function MeetFront(e: Engine, t: OrderId): Result<Engine>
    requires !Stops(e.core, t)
  {
    var side := e.core.Get(t).side.Opposite();
    Encounter(e, t, Front(e.core.book, side).value, Best(e.core.book, side).value)
  }

  /** The answer at the front of the opposite side. */
  ghost predicate FrontPasses(e: Engine, t: OrderId)
    requires !Stops(e.core, t)
  {
    var side := e.core.Get(t).side.Opposite();
    var m, p := Front(e.core.book, side).value, Best(e.core.book, side).value;
    Answer(e, e.core.Get(m), TradeQuantity(e.core, t, m), p)
  }

  /** The sweep's state after `k` makers. */
  ghost function Along(e: Engine, t: OrderId, k: nat): Option<Engine>
    decreases k
  {
    if k == 0 then Some(e)
    else if Stops(e.core, t) || MeetFront(e, t).Raised? then None
    else Along(MeetFront(e, t).value, t, k - 1)
  }

  /** The maker at the front makes the sweep raise. */
  ghost predicate FrontTrips(e: Engine, t: OrderId) {
    && !Stops(e.core, t)
    && var side := e.core.Get(t).side.Opposite();
    && var m, p := Front(e.core.book, side).value, Best(e.core.book, side).value;
    EncounterTrips(e.core, t, m, Answer(e, e.core.Get(m), TradeQuantity(e.core, t, m), p))
  }

  /** At some point of the sweep the next maker trips. */
  ghost predicate MeetsTripping(e: Engine, t: OrderId) {
    exists k: nat :: Along(e, t, k).Some? && FrontTrips(Along(e, t, k).value, t)
  }

  lemma {:induction false} TrippingShifts(e: Engine, t: OrderId)
    requires !Stops(e.core, t) && MeetFront(e, t).Ok? && !FrontTrips(e, t)
    ensures MeetsTripping(e, t) <==> MeetsTripping(MeetFront(e, t).value, t)
  {
    var e1 := MeetFront(e, t).value;
    if MeetsTripping(e, t) {
      var k: nat :| Along(e, t, k).Some? && FrontTrips(Along(e, t, k).value, t);
      assert k > 0;
      assert Along(e, t, k) == Along(e1, t, k - 1);
    }
    if MeetsTripping(e1, t) {
      var k: nat :| Along(e1, t, k).Some? && FrontTrips(Along(e1, t, k).value, t);
      assert Along(e, t, k + 1) == Along(e1, t, k);
    }
  }

  lemma {:induction false} NothingToMeet(e: Engine, t: OrderId)
    requires Stops(e.core, t)
    ensures !MeetsTripping(e, t) && Sweep(e, t) == Ok(e)
  {
  }

  lemma {:induction false} FrontRaisesIff(e: Engine, t: OrderId)
    requires Inv(e.core) && Entering(e.core, t) && !Stops(e.core, t)
    ensures MeetFront(e, t).Raised? <==> FrontTrips(e, t)
  {
    var side := e.core.Get(t).side.Opposite();
    FrontMeets(e.core, t);
    EncounterRaisesIff(e, t, Front(e.core.book, side).value, Best(e.core.book, side).value);
  }

  /** What meeting the front keeps, and how the sweep goes on from there. */
  lemma {:induction false} FrontKeeps(e: Engine, t: OrderId)
    requires Inv(e.core) && Entering(e.core, t) && !Stops(e.core, t) && MeetFront(e, t).Ok?
    ensures var e1 := MeetFront(e, t).value;
      var side := e.core.Get(t).side.Opposite();
      && Inv(e1.core) && Entering(e1.core, t) && e1.core.Get(t).side == e.core.Get(t).side
      && Sweep(e, t) == Sweep(e1, t)
      && (!Stops(e1.core, t) ==> RestingOn(e1.core.book, side) < RestingOn(e.core.book, side))
  {
    var c := e.core;
    var side := c.orders[t].side.Opposite();
    var m, p := Front(c.book, side).value, Best(c.book, side).value;
    FrontMeets(c, t);
    FrontFacts(c, side);
    EncounterProjects(e, t, m, p);
    EncounterCoreKeeps(c, t, m, p, Answer(e, c.Get(m), TradeQuantity(c, t, m), p));
    var e1 := MeetFront(e, t).value;
    assert Terms(e1.core.orders[t]) == Terms(c.orders[t]);
    if e1.core.orders[t].Complete() {
      SweepDone(e1, t);
    } else {
      SideStrictlyShrinks(c, e1.core, t, m);
    }
  }

  lemma {:induction false} FrontNoOco(e: Engine, t: OrderId)
    requires Inv(e.core) && Entering(e.core, t) && NoOco(e.core) && !Stops(e.core, t) && MeetFront(e, t).Ok?
    ensures NoOco(MeetFront(e, t).value.core)
  {
    var side := e.core.Get(t).side.Opposite();
    var m, p := Front(e.core.book, side).value, Best(e.core.book, side).value;
    FrontMeets(e.core, t);
    EncounterProjects(e, t, m, p);
    EncounterCoreKeeps(e.core, t, m, p, FrontPasses(e, t));
    var c1 := MeetFront(e, t).value.core;
    assert forall x :: x in e.core.orders ==> Terms(c1.orders[x]) == Terms(e.core.orders[x]);
    assert forall x :: x in c1.orders ==> Terms(c1.orders[x]).strategy == c1.orders[x].strategy;
  }

  /** Matching raises exactly if it comes to a maker that trips. */
  lemma {:induction false} SweepRaisesIff(e: Engine, t: OrderId)
    requires Inv(e.core) && Entering(e.core, t)
    ensures Sweep(e, t).Raised? <==> MeetsTripping(e, t)
    decreases RestingOn(e.core.book, e.core.Get(t).side.Opposite())
  {
    if Stops(e.core, t) {
      NothingToMeet(e, t);
    } else {
      FrontRaisesIff(e, t);
      if MeetFront(e, t).Raised? {
        assert Along(e, t, 0) == Some(e);
      } else {
        var e1 := MeetFront(e, t).value;
        FrontKeeps(e, t);
        TrippingShifts(e, t);
        if Stops(e1.core, t) { NothingToMeet(e1, t); } else { SweepRaisesIff(e1, t); }
      }
    }
  }

  // ---- Commands ----

  /** The two ways a New command can raise. */
  ghost predicate SubmitTrips(e: Engine, id: OrderId) {
    var o := e.core.Get(id);
    || RemovesUnplaced(e, o)
    || (&& Crossable(e.core.book, o) && Answer(e, o, o.quantity, o.price)
        && MeetsTripping(Checked(e, o, o.quantity, o.price), id))
  }

  lemma {:induction false} MatchOrRestRaisesIff(e: Engine, id: OrderId, stored: set<OrderId>)
    requires Inv(e.core) && Entering(e.core, id) && stored == {id} + CancelForgets(e.core.orders[id])
    ensures MatchOrRest(e, id, stored).Raised? <==> MeetsTripping(e, id)
  {
    SweepRaisesIff(e, id);
    if Sweep(e, id).Ok? {
      SweepKeeps(e, id);
      var e2 := Sweep(e, id).value;
      assert OrderInv(e2.core, id, {}, {}) && Terms(e2.core.orders[id]) == Terms(e.core.orders[id]);
      if !e2.core.orders[id].Complete() { PlaceKeeps(e2.core, id, stored); }
    }
  }

  lemma {:induction false} RejectRaisesIff(e: Engine, id: OrderId)
    requires Inv(e.core) && Entering(e.core, id)
    ensures Reject(e, id).Raised? <==> e.core.orders[id].Key() in e.core.book
    ensures Reject(e, id).Raised? ==> Reject(e, id) == Raised(KeyError)
  {
    CancelProjects(e, id);
    UnbookEffect(e.core, id);
    if e.core.orders[id].Key() !in e.core.book {
      assert UnbookAll(e.core, [id]) == UnbookAll(Unbook(e.core, id).value, []);
    }
    assert OrderInv(e.core, id, {}, {});
  }

  lemma {:induction false} AnySubmitRaisesIff(e: Engine, id: OrderId, stored: set<OrderId>)
    requires Inv(e.core) && Entering(e.core, id) && !e.core.orders[id].Complete()
    requires stored == {id} + CancelForgets(e.core.orders[id])
    ensures Submit(e, id, stored).Raised? <==> SubmitTrips(e, id)
  {
    var o := e.core.orders[id];
    assert OrderInv(e.core, id, {}, {});
    if !Crossable(e.core.book, o) {
      PlaceKeeps(e.core, id, stored);
    } else {
      var e1 := Checked(e, o, o.quantity, o.price);
      if Answer(e, o, o.quantity, o.price) {
        assert Submit(e, id, stored) == MatchOrRest(e1, id, stored);
        MatchOrRestRaisesIff(e1, id, stored);
      } else {
        assert Submit(e, id, stored) == Reject(e1, id);
        RejectRaisesIff(e1, id);
      }
    }
  }

  /** Cancelling by id raises exactly if the id is stored and is a leg that trips. */
  lemma {:induction false} CancelCommandRaisesIff(e: Engine, id: OrderId)
    requires Inv(e.core)
    ensures Handle(e, Cancel(id)).Raised? <==> id in e.core.store && Trips(e.core, id)
  {
    if id in e.core.store {
      var c := e.core;
      assert OrderInv(c, id, {}, {});
      CancelProjects(e, id);
      if c.Resting(id) {
        CancelRaisesIff(c, id);
      } else {
        var parent := c.orders[id].strategy.parent;
        UnbookEffect(c, parent);
        assert UnbookAll(c, [parent]) == UnbookAll(Unbook(c, parent).value, []);
      }
    }
  }

  /** Exactly when a command raises, whatever groups are in the book. */
  lemma {:induction false} HandleRaisesIff(e: Engine, cmd: Command)
    requires Inv(e.core) && CmdOk(e.core, cmd)
    ensures Handle(e, cmd).Raised? <==>
      var e0 := e.(core := Intake(e.core, cmd));
      match cmd
      case NewSingle(s) => SubmitTrips(e0, s.id)
      case NewOto(p, _) => SubmitTrips(e0, p.id)
      case NewOco(_, _) => false
      case Cancel(id) => id in e.core.store && Trips(e.core, id)
  {
    IntakeKeeps(e.core, cmd);
    var e0 := e.(core := Intake(e.core, cmd));
    match cmd
    case NewSingle(s) => AnySubmitRaisesIff(e0, s.id, {s.id});
    case NewOto(p, ch) => AnySubmitRaisesIff(e0, p.id, {p.id, ch.id});
    case NewOco(a, b) =>
      PlaceLegsKeeps(e.core, a.ToOrder(OcoLeg(b.id), true), b.ToOrder(OcoLeg(a.id), true));
    case Cancel(id) => CancelCommandRaisesIff(e, id);
  }
}
