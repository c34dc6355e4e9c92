/** Levels are queues: whoever stays keeps its place, and whoever joins stands behind everyone who stayed. */
module Arrivals {
  import opened Types
  import opened Collections
  import opened BookModel
  import opened EngineSpec
  import opened Invariants
  import opened Matching
  import opened Runs
  import opened Conservation
  import opened Determinism
  import opened Raising
  import opened Departed
  import opened Following
  import opened Priority
  import opened Groups

  ghost predicate Before(s: seq<OrderId>, x: OrderId, y: OrderId) {
    exists i, j :: 0 <= i < j < |s| && s[i] == x && s[j] == y
  }

  /** Whoever stands before `y` at level `k` of `b'`, if `y` stood there in `b`, stood before it there already. */
  ghost predicate KeepsPlace(b: Book, b': Book, k: LevelKey) {
    forall x, y :: Before(Level(b', k), x, y) && y in Level(b, k) ==> Before(Level(b, k), x, y)
  }

  ghost predicate KeepsOrder(b: Book, b': Book) { forall k :: KeepsPlace(b, b', k) }

  lemma {:induction false} AppendedBehind(s: seq<OrderId>, id: OrderId, x: OrderId, y: OrderId)
    requires id !in s && Before(s + [id], x, y) && y in s
    ensures Before(s, x, y)
  {
    var i, j :| 0 <= i < j < |s + [id]| && (s + [id])[i] == x && (s + [id])[j] == y;
    assert j < |s|;
    assert s[i] == x && s[j] == y;
  }

  lemma {:induction false} AppendKeepsOrder(b: Book, k: LevelKey, id: OrderId)
    requires AppendTo(b, k, id).Ok?
    ensures KeepsOrder(b, AppendTo(b, k, id).value)
  {
    var b' := AppendTo(b, k, id).value;
    forall j
      ensures KeepsPlace(b, b', j)
    {
      forall x, y | Before(Level(b', j), x, y) && y in Level(b, j)
        ensures Before(Level(b, j), x, y)
      {
        if j == k { AppendedBehind(Level(b, k), id, x, y); }
      }
    }
  }

  lemma {:induction false} CutBehind(s: seq<OrderId>, n: nat, x: OrderId, y: OrderId)
    requires n < |s| && Before(s[..n] + s[n + 1..], x, y)
    ensures Before(s, x, y)
  {
    var r := s[..n] + s[n + 1..];
    var i, j :| 0 <= i < j < |r| && r[i] == x && r[j] == y;
    var i', j' := if i < n then i else i + 1, if j < n then j else j + 1;
    assert s[i'] == r[i] && s[j'] == r[j];
  }

  lemma {:induction false} CutKeepsOrder(s: seq<OrderId>, id: OrderId, x: OrderId, y: OrderId)
    requires NoDup(s) && Before(Without(s, id), x, y)
    ensures Before(s, x, y)
  {
    if n: nat :| n < |s| && s[n] == id {
      WithoutAt(s, n);
      CutBehind(s, n, x, y);
    }
  }

  lemma {:induction false} RemoveKeepsOrder(b: Book, k: LevelKey, id: OrderId)
    requires BookWf(b) && RemoveFrom(b, k, id).Ok?
    ensures KeepsOrder(b, RemoveFrom(b, k, id).value)
  {
    var b' := RemoveFrom(b, k, id).value;
    forall j
      ensures KeepsPlace(b, b', j)
    {
      forall x, y | Before(Level(b', j), x, y) && y in Level(b, j)
        ensures Before(Level(b, j), x, y)
      {
        if j == k && k in b { CutKeepsOrder(b[k], id, x, y); }
      }
    }
  }

  /** Two changes in a row, of which the second brings back nobody whom the first took out. */
  lemma {:induction false} KeepsOrderThen(b: Book, b1: Book, b': Book)
    requires KeepsOrder(b, b1) && KeepsOrder(b1, b')
    requires forall k, x :: InLevel(b, k, x) && InLevel(b', k, x) ==> InLevel(b1, k, x)
    ensures KeepsOrder(b, b')
  {
    forall k
      ensures KeepsPlace(b, b', k)
    {
      forall x, y | Before(Level(b', k), x, y) && y in Level(b, k)
        ensures Before(Level(b, k), x, y)
      {
        assert InLevel(b, k, y) && InLevel(b', k, y);
        assert KeepsPlace(b1, b', k) && KeepsPlace(b, b1, k);
      }
    }
  }

  lemma {:induction false} SameOrder(b: Book)
    ensures KeepsOrder(b, b)
  {
  }

  // ---- Steps of the engine ----

  lemma {:induction false} UnbookAllKeepsOrder(c: Core, ids: seq<OrderId>)
    requires BookWf(c.book) && BookAgrees(c) && UnbookAll(c, ids).Ok?
    ensures KeepsOrder(c.book, UnbookAll(c, ids).value.book)
    decreases |ids|
  {
    if ids == [] {
      SameOrder(c.book);
    } else {
      UnbookEffect(c, ids[0]);
      var c1 := Unbook(c, ids[0]).value;
      RemoveKeepsOrder(c.book, c.Get(ids[0]).Key(), ids[0]);
      UnbookAllKeepsOrder(c1, ids[1..]);
      UnbookAllEffect(c1, ids[1..]);
      var c' := UnbookAll(c1, ids[1..]).value;
      OnlyRemoved(c1, c');
      KeepsOrderThen(c.book, c1.book, c'.book);
    }
  }

  /** Of two cores with the same orders, the second with fewer resting. */
  lemma {:induction false} OnlyRemoved(c: Core, c': Core)
    requires c' == c.(book := c'.book) && BookAgrees(c) && BookAgrees(c')
    requires forall x :: c'.Resting(x) ==> c.Resting(x)
    ensures forall k, x :: InLevel(c'.book, k, x) ==> InLevel(c.book, k, x)
  {
    forall k, x | InLevel(c'.book, k, x)
      ensures InLevel(c.book, k, x)
    {
      assert c'.Resting(x);
    }
  }

  /** Whoever leaves its level in the first step does not come back in the second. */
  ghost predicate NoReturn(b: Book, b1: Book, b': Book) {
    forall k, x :: InLevel(b, k, x) && InLevel(b', k, x) ==> InLevel(b1, k, x)
  }

  lemma {:induction false} HookKeepsOrder(c: Core, id: OrderId)
    requires BookWf(c.book) && HookCore(c, id).Ok?
    ensures KeepsOrder(c.book, HookCore(c, id).value.book)
  {
    SameOrder(c.book);
    var o := c.Get(id);
    match o.strategy
    case OtoParent(child) =>
      if o.Complete() {
        var c1 := c.Put(c.Get(child).(active := true));
        AppendKeepsOrder(c.book, c1.Get(child).Key(), child);
      }
    case OcoLeg(peer) => RemoveKeepsOrder(c.book, c.Get(peer).Key(), peer);
    case _ =>
  }

  lemma {:induction false} RetireKeepsOrder(c: Core, m: OrderId)
    requires BookWf(c.book) && RetireCore(c, m).Ok?
    ensures KeepsOrder(c.book, RetireCore(c, m).value.book)
    ensures forall k, x :: InLevel(RetireCore(c, m).value.book, k, x) ==> InLevel(c.book, k, x)
  {
    SameOrder(c.book);
    if c.Get(m).Complete() {
      RemoveKeepsOrder(c.book, c.Get(m).Key(), m);
      RemoveEffect(c.book, c.Get(m).Key(), m);
    }
  }

  lemma {:induction false} TradeKeepsOrder(c: Core, t: OrderId, m: OrderId, q: int, p: Price)
    requires Meets(c, t, m) && q == TradeQuantity(c, t, m) && TradeCore(c, t, m, q, p).Ok?
    ensures KeepsOrder(c.book, TradeCore(c, t, m, q, p).value.book)
  {
    assert OrderInv(c, t, {}, {}) && OrderInv(c, m, {}, {});
    FillsKeep(c, t, m, q, p);
    var c1 := Filled(c, t, m, q, p);
    HookKeepsOrder(c1, t);
    HookKeeps(c1, t, {t, m}, {t, m});
    var c2 := HookCore(c1, t).value;
    TakerOnlyAdds(c1, t);
    HookKeepsOrder(c2, m);
    KeepsOrderThen(c1.book, c2.book, HookCore(c2, m).value.book);
    var c3 := HookCore(c2, m).value;
    ReactKeeps(c, t, m, q, p);
    RetireKeepsOrder(c3, m);
    KeepsOrderThen(c1.book, c3.book, RetireCore(c3, m).value.book);
  }

  lemma {:induction false} TakerOnlyAdds(c: Core, t: OrderId)
    requires HookCore(c, t).Ok? && !c.Get(t).strategy.OcoLeg?
    ensures forall k, x :: InLevel(c.book, k, x) ==> InLevel(HookCore(c, t).value.book, k, x)
  {
  }

  lemma {:induction false} FrontKeepsOrder(e: Engine, t: OrderId)
    requires Inv(e.core) && Entering(e.core, t) && !Stops(e.core, t) && MeetFront(e, t).Ok?
    ensures KeepsOrder(e.core.book, MeetFront(e, t).value.core.book)
  {
    var side := e.core.Get(t).side.Opposite();
    var m, p := Front(e.core.book, side).value, Best(e.core.book, side).value;
    FrontMeets(e.core, t);
    EncounterProjects(e, t, m, p);
    if FrontPasses(e, t) {
      TradeKeepsOrder(e.core, t, m, TradeQuantity(e.core, t, m), p);
    } else {
      UnbookAllKeepsOrder(e.core, CancelTargets(e.core.Get(m)));
    }
  }

  /** Leaving the book for good means not to return to a level. */
  lemma {:induction false} GoneForGood(c: Core, c1: Core, c': Core)
    requires Inv(c) && Inv(c1) && Inv(c') && Evolves(c, c1) && Evolves(c1, c')
    requires forall x :: c.Resting(x) && Gone(c1, x) ==> Gone(c', x)
    ensures NoReturn(c.book, c1.book, c'.book)
  {
    forall k, x | InLevel(c.book, k, x) && InLevel(c'.book, k, x)
      ensures InLevel(c1.book, k, x)
    {
      RestingAt(c, k, x);
      RestingAt(c', k, x);
      StillAt(c, c1, x);
      assert !Gone(c', x);
    }
  }

  lemma {:induction false} RestingAt(c: Core, k: LevelKey, x: OrderId)
    requires Inv(c) && InLevel(c.book, k, x)
    ensures x in c.orders && c.Resting(x) && c.orders[x].Key() == k && c.orders[x].active
  {
  }

  /** An order, once active, stays so: a child because its parent stays complete. */
  lemma {:induction false} StaysActive(c: Core, c1: Core, x: OrderId)
    requires Inv(c) && Inv(c1) && Evolves(c, c1) && x in c.orders && c.orders[x].active
    ensures c1.orders[x].active
  {
    assert OrderInv(c, x, {}, {}) && OrderInv(c1, x, {}, {});
    assert Terms(c1.orders[x]).strategy == Terms(c.orders[x]).strategy;
    if c.orders[x].strategy.OtoChild? {
      var parent := c.orders[x].strategy.parent;
      assert OrderInv(c, parent, {}, {}) && OrderInv(c1, parent, {}, {});
      assert Terms(c1.orders[parent]).quantity == Terms(c.orders[parent]).quantity;
    }
  }

  /** A resting order either still rests at its level or is gone. */
  lemma {:induction false} StillAt(c: Core, c1: Core, x: OrderId)
    requires Inv(c) && Inv(c1) && Evolves(c, c1) && c.Resting(x) && x in c.orders
    ensures c1.Resting(x) ==> InLevel(c1.book, c.orders[x].Key(), x)
    ensures !c1.Resting(x) ==> Gone(c1, x)
  {
    assert OrderInv(c1, x, {}, {});
    StaysActive(c, c1, x);
    assert Terms(c1.orders[x]).side == Terms(c.orders[x]).side && Terms(c1.orders[x]).price == Terms(c.orders[x]).price;
  }

  lemma {:induction false} SweepKeepsOrder(e: Engine, t: OrderId)
    requires Inv(e.core) && Entering(e.core, t) && Sweep(e, t).Ok?
    ensures KeepsOrder(e.core.book, Sweep(e, t).value.core.book)
    decreases RestingOn(e.core.book, e.core.Get(t).side.Opposite())
  {
    if Stops(e.core, t) {
      SweepEnds(e, t);
      SameOrder(e.core.book);
    } else {
      FirstMeetingIsOk(e, t);
      FrontKeeps(e, t);
      FrontKeepsOrder(e, t);
      FrontEvolves(e, t);
      var e1 := MeetFront(e, t).value;
      SweepKeeps(e1, t);
      SweepKeeps(e, t);
      if Stops(e1.core, t) { SweepEnds(e1, t); SameOrder(e1.core.book); } else { SweepKeepsOrder(e1, t); }
      LeftForGood(e, t, e1);
      KeepsOrderThen(e.core.book, e1.core.book, Sweep(e1, t).value.core.book);
    }
  }

  lemma {:induction false} FrontEvolves(e: Engine, t: OrderId)
    requires Inv(e.core) && Entering(e.core, t) && !Stops(e.core, t) && MeetFront(e, t).Ok?
    ensures Evolves(e.core, MeetFront(e, t).value.core)
  {
    var side := e.core.Get(t).side.Opposite();
    var m, p := Front(e.core.book, side).value, Best(e.core.book, side).value;
    FrontMeets(e.core, t);
    EncounterProjects(e, t, m, p);
    EncounterCoreKeeps(e.core, t, m, p, FrontPasses(e, t));
  }

  lemma {:induction false} LeftForGood(e: Engine, t: OrderId, e1: Engine)
    requires Inv(e.core) && Entering(e.core, t) && Inv(e1.core) && Entering(e1.core, t) && Evolves(e.core, e1.core)
    requires Sweep(e1, t).Ok?
    ensures NoReturn(e.core.book, e1.core.book, Sweep(e1, t).value.core.book)
  {
    SweepKeeps(e1, t);
    SweepMovesOn(e1, t);
    GoneForGood(e.core, e1.core, Sweep(e1, t).value.core);
  }

  lemma {:induction false} PlaceKeepsOrder(e: Engine, id: OrderId, stored: set<OrderId>)
    requires Place(e, id, stored).Ok?
    ensures KeepsOrder(e.core.book, Place(e, id, stored).value.core.book)
    ensures forall k, x :: InLevel(Place(e, id, stored).value.core.book, k, x) ==> InLevel(e.core.book, k, x) || x == id
  {
    AppendKeepsOrder(e.core.book, e.core.Get(id).Key(), id);
  }

  lemma {:induction false} MatchOrRestKeepsOrder(e: Engine, id: OrderId, stored: set<OrderId>)
    requires Inv(e.core) && Entering(e.core, id) && MatchOrRest(e, id, stored).Ok?
    ensures KeepsOrder(e.core.book, MatchOrRest(e, id, stored).value.core.book)
  {
    SweepKeepsOrder(e, id);
    var e2 := Sweep(e, id).value;
    if !e2.core.Get(id).Complete() {
      PlaceKeepsOrder(e2, id, stored);
      NotYetThere(e.core, id);
      KeepsOrderThen(e.core.book, e2.core.book, Place(e2, id, stored).value.core.book);
    }
  }

  lemma {:induction false} NotYetThere(c: Core, id: OrderId)
    requires Inv(c) && !c.Resting(id)
    ensures forall k :: !InLevel(c.book, k, id)
  {
  }

  lemma {:induction false} CancelKeepsOrder(e: Engine, id: OrderId)
    requires Inv(e.core) && CancelOrder(e, id).Ok?
    ensures KeepsOrder(e.core.book, CancelOrder(e, id).value.core.book)
  {
    CancelProjects(e, id);
    UnbookAllKeepsOrder(e.core, CancelTargets(e.core.Get(id)));
  }

  lemma {:induction false} SubmitKeepsOrder(e: Engine, id: OrderId, stored: set<OrderId>)
    requires Inv(e.core) && Entering(e.core, id) && Submit(e, id, stored).Ok?
    ensures KeepsOrder(e.core.book, Submit(e, id, stored).value.core.book)
  {
    SubmitCases(e, id, stored);
    if !Crossable(e.core.book, e.core.Get(id)) {
      PlaceKeepsOrder(e, id, stored);
    } else if EntryAnswer(e, id) {
      MatchOrRestKeepsOrder(Entered(e, id), id, stored);
    } else {
      CancelKeepsOrder(Entered(e, id), id);
    }
  }

  lemma {:induction false} LegsKeepOrder(e: Engine, a: OrderId, b: OrderId)
    requires Inv(e.core) && !e.core.Resting(b) && Place(e, a, {a}).Ok? && Place(Place(e, a, {a}).value, b, {b}).Ok?
    ensures KeepsOrder(e.core.book, Place(Place(e, a, {a}).value, b, {b}).value.core.book)
  {
    var e1 := Place(e, a, {a}).value;
    PlaceKeepsOrder(e, a, {a});
    PlaceKeepsOrder(e1, b, {b});
    NotYetThere(e.core, b);
    KeepsOrderThen(e.core.book, e1.core.book, Place(e1, b, {b}).value.core.book);
  }

  lemma {:induction false} HandleKeepsOrder(e: Engine, cmd: Command)
    requires Inv(e.core) && CmdOk(e.core, cmd) && Handle(e, cmd).Ok?
    ensures KeepsOrder(e.core.book, Handle(e, cmd).value.core.book)
  {
    var e0 := e.(core := Intake(e.core, cmd));
    match cmd
    case NewSingle(s) =>
      HandleSubmits(e, cmd);
      SubmitKeepsOrder(e0, s.id, {s.id});
    case NewOto(p, ch) =>
      HandleSubmits(e, cmd);
      SubmitKeepsOrder(e0, p.id, {p.id, ch.id});
    case NewOco(a, b) =>
      AddPairKeeps(e.core, a.ToOrder(OcoLeg(b.id), true), b.ToOrder(OcoLeg(a.id), true));
      LegsKeepOrder(e0, a.id, b.id);
    case Cancel(id) =>
      SameOrder(e.core.book);
      if id in e.core.store { CancelKeepsOrder(e, id); }
  }

  /**
   * First come, first served, over whole runs: of two orders that stand in one level at some point of a run,
   * the one in front came first. If the one behind already stood there at any earlier point, so did the one in
   * front, and stood in front of it.
   */
  lemma {:induction false} ArrivalOrderKept(e: Engine, cmds: seq<Command>, k: nat)
    requires Inv(e.core) && Admissible(e, cmds) && Run(e, cmds).Ok? && k <= |cmds|
    ensures Run(e, cmds[..k]).Ok?
    ensures KeepsOrder(Run(e, cmds[..k]).value.core.book, Run(e, cmds).value.core.book)
    decreases |cmds|
  {
    if k == |cmds| {
      assert cmds[..k] == cmds;
      SameOrder(Run(e, cmds).value.core.book);
    } else {
      var n := |cmds| - 1;
      assert cmds[..n][..k] == cmds[..k];
      ArrivalOrderKept(e, cmds[..n], k);
      RunKeeps(e, cmds[..n]);
      OneMoreCommand(e, cmds, k, Run(e, cmds[..k]).value, Run(e, cmds[..n]).value);
    }
  }

  lemma {:induction false} OneMoreCommand(e: Engine, cmds: seq<Command>, k: nat, first: Engine, mid: Engine)
    requires Inv(e.core) && Admissible(e, cmds) && Run(e, cmds).Ok? && k < |cmds|
    requires Run(e, cmds[..k]) == Ok(first) && Run(e, cmds[..|cmds| - 1]) == Ok(mid)
    requires Inv(mid.core) && KeepsOrder(first.core.book, mid.core.book)
    ensures KeepsOrder(first.core.book, Run(e, cmds).value.core.book)
  {
    EarlierState(e, cmds, k, first, mid);
    KeepsOrderOn(first.core, mid, cmds[|cmds| - 1]);
  }

  lemma {:induction false} EarlierState(e: Engine, cmds: seq<Command>, k: nat, first: Engine, mid: Engine)
    requires Inv(e.core) && Admissible(e, cmds) && k < |cmds|
    requires Run(e, cmds[..k]) == Ok(first) && Run(e, cmds[..|cmds| - 1]) == Ok(mid)
    ensures Inv(first.core) && Evolves(first.core, mid.core)
  {
    var n := |cmds| - 1;
    PrefixEvolves(e, cmds[..n], k);
    assert cmds[..n][..k] == cmds[..k];
    PrefixAdmissible(e, cmds, k);
    RunKeeps(e, cmds[..k]);
  }

  lemma {:induction false} KeepsOrderOn(first: Core, mid: Engine, cmd: Command)
    requires Inv(first) && Inv(mid.core) && Evolves(first, mid.core) && KeepsOrder(first.book, mid.core.book)
    requires CmdOk(mid.core, cmd) && Handle(mid, cmd).Ok?
    ensures KeepsOrder(first.book, Handle(mid, cmd).value.core.book)
  {
    HandleKeepsOrder(mid, cmd);
    HandleKeeps(mid, cmd);
    HandleMovesOn(mid, cmd);
    GoneForGood(first, mid.core, Handle(mid, cmd).value.core);
    KeepsOrderThen(first.book, mid.core.book, Handle(mid, cmd).value.core.book);
  }

  lemma {:induction false} PrefixAdmissible(e: Engine, cmds: seq<Command>, k: nat)
    requires Admissible(e, cmds) && k <= |cmds|
    ensures Admissible(e, cmds[..k])
  {
    if k == |cmds| {
      assert cmds[..k] == cmds;
    } else {
      var n := |cmds| - 1;
      assert cmds[..n][..k] == cmds[..k];
      PrefixAdmissible(e, cmds[..n], k);
    }
  }
}
