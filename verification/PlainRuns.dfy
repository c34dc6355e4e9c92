/** Runs of SINGLE LIMIT orders: the book never crosses and nothing ever raises. */
module PlainRuns {
  import opened Types
  import opened Collections
  import opened BookModel
  import opened EngineSpec
  import opened Invariants
  import opened Matching
  import opened Runs
  import opened Safety

  ghost predicate Uncrossed(b: Book) {
    forall p, q :: LevelKey(Bid, p) in b && LevelKey(Ask, q) in b ==> p < q
  }

  ghost predicate Plain(c: Core) {
    forall id :: id in c.orders ==> c.orders[id].strategy.Single? && c.orders[id].orderType.Limit?
  }

  ghost predicate PlainCmd(cmd: Command) {
    cmd.Cancel? || (cmd.NewSingle? && cmd.order.orderType.Limit?)
  }

  /** If nobody new rests, no level appears. */
  lemma NoNewLevels(c: Core, c': Core)
    requires Inv(c) && Inv(c') && Evolves(c, c') && OnlyChildrenJoin(c, c') && Plain(c)
    ensures c'.book.Keys <= c.book.Keys
  {
    forall k | k in c'.book
      ensures k in c.book
    {
      var x := c'.book[k][0];
      assert InLevel(c'.book, k, x) && c'.Resting(x) && c.Resting(x);
    }
  }

  lemma PlaceUncrossed(c: Core, id: OrderId)
    requires Inv(c) && Entering(c, id) && Uncrossed(c.book) && c.orders[id].orderType.Limit?
    requires !Crossable(c.book, c.orders[id]) || SideEmpty(c.book, c.orders[id].side.Opposite())
    ensures Enbook(c, id).Ok? && Uncrossed(Enbook(c, id).value.book)
  {
    var o := c.orders[id];
    AppendEffect(c.book, o.Key(), id);
    forall p | LevelKey(o.side.Opposite(), p) in c.book
      ensures Best(c.book, o.side.Opposite()).Some?
      ensures !Better(o.side.Opposite(), p, Best(c.book, o.side.Opposite()).value)
    {
      BestExists(c.book, o.side.Opposite(), p);
    }
  }

  /** An entering limit order that crosses has no level of its own to be wrongly removed from. */
  lemma NeverRemovesUnplaced(e: Engine, o: Order)
    requires Uncrossed(e.core.book) && o.orderType.Limit?
    ensures !RemovesUnplaced(e, o)
  {
    if p :| LevelKey(o.side.Opposite(), p) in e.core.book {
      BestExists(e.core.book, o.side.Opposite(), p);
    }
  }

  lemma {:induction false} MatchOrRestUncrossed(e: Engine, id: OrderId)
    requires Inv(e.core) && Entering(e.core, id) && Plain(e.core) && Uncrossed(e.core.book)
    requires MatchOrRest(e, id, {id}).Ok?
    ensures Uncrossed(MatchOrRest(e, id, {id}).value.core.book)
    ensures MatchOrRest(e, id, {id}).value.core.orders.Keys == e.core.orders.Keys
  {
    SweepKeeps(e, id);
    var e2 := Sweep(e, id).value;
    NoNewLevels(e.core, e2.core);
    assert OrderInv(e2.core, id, {}, {}) && Terms(e2.core.orders[id]) == Terms(e.core.orders[id]);
    if !e2.core.orders[id].Complete() { PlaceUncrossed(e2.core, id); }
  }

  lemma SubmitUncrossed(e: Engine, id: OrderId)
    requires Inv(e.core) && Entering(e.core, id) && Plain(e.core) && !e.core.orders[id].Complete()
    requires Uncrossed(e.core.book)
    ensures Submit(e, id, {id}).Ok?
    ensures Uncrossed(Submit(e, id, {id}).value.core.book)
    ensures Submit(e, id, {id}).value.core.orders.Keys == e.core.orders.Keys
  {
    var o := e.core.orders[id];
    assert OrderInv(e.core, id, {}, {});
    NeverRemovesUnplaced(e, o);
    SubmitRaisesIff(e, id, {id});
    if !Crossable(e.core.book, o) {
      PlaceUncrossed(e.core, id);
    } else {
      var e1 := Checked(e, o, o.quantity, o.price);
      if Answer(e, o, o.quantity, o.price) {
        assert Submit(e, id, {id}) == MatchOrRest(e1, id, {id});
        MatchOrRestUncrossed(e1, id);
      } else {
        CancelProjects(e1, id);
        CancelKeeps(e1.core, id);
        NoNewLevels(e1.core, CancelCore(e1.core, id).value);
      }
    }
  }

  lemma PlainStep(e: Engine, cmd: Command)
    requires Inv(e.core) && Plain(e.core) && Uncrossed(e.core.book) && CmdOk(e.core, cmd) && PlainCmd(cmd)
    ensures Handle(e, cmd).Ok?
    ensures var c := Handle(e, cmd).value.core; Inv(c) && Plain(c) && Uncrossed(c.book)
  {
    IntakeKeeps(e.core, cmd);
    HandleRaisesIffNoOco(e, cmd);
    match cmd
    case NewSingle(s) =>
      var e0 := e.(core := Intake(e.core, cmd));
      SubmitUncrossed(e0, s.id);
      SubmitKeeps(e0, s.id, {s.id});
    case Cancel(id) =>
      HandleKeeps(e, cmd);
      if id in e.core.store {
        StoredIsOpen(e.core, id);
        CancelProjects(e, id);
        CancelKeeps(e.core, id);
        NoNewLevels(e.core, Handle(e, cmd).value.core);
      }
  }

  const EMPTY_CORE: Core := Core(map[], map[], {})

  /**
   * Whatever the balance checks answer, a run of SINGLE LIMIT commands never raises, and after it
   * every bid is below every ask.
   */
  lemma {:induction false} PlainRunsAreSafe(e: Engine, cmds: seq<Command>)
    requires e.core == EMPTY_CORE && Admissible(e, cmds)
    requires forall i :: 0 <= i < |cmds| ==> PlainCmd(cmds[i])
    ensures Run(e, cmds).Ok?
    ensures var c := Run(e, cmds).value.core; Inv(c) && Plain(c) && Uncrossed(c.book)
  {
    if cmds != [] {
      var n := |cmds| - 1;
      PlainRunsAreSafe(e, cmds[..n]);
      PlainStep(Run(e, cmds[..n]).value, cmds[n]);
    }
  }

  /** In terms of the two cached prices: after any such run the best bid is below the best ask. */
  lemma {:induction false} BestBidBelowBestAsk(e: Engine, cmds: seq<Command>)
    requires e.core == EMPTY_CORE && Admissible(e, cmds)
    requires forall i :: 0 <= i < |cmds| ==> PlainCmd(cmds[i])
    ensures Run(e, cmds).Ok?
    ensures var b := Run(e, cmds).value.core.book;
      Best(b, Bid).Some? && Best(b, Ask).Some? ==> Best(b, Bid).value < Best(b, Ask).value
  {
    PlainRunsAreSafe(e, cmds);
    var b := Run(e, cmds).value.core.book;
    if Best(b, Bid).Some? && Best(b, Ask).Some? {
      assert IsBest(b, Bid, Best(b, Bid).value) && IsBest(b, Ask, Best(b, Ask).value);
    }
  }
}
