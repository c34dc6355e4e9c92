/** The two questions a new order is asked, answered from the keys of the book and from the four balances. */
module Admission {
  import opened Types
  import opened BookModel
  import opened Ledgers
  import opened EngineSpec

  // ---- Does it cross? ----

  /**
   * A limit order reaches the other side if somebody there asks no more, or bids no less, than its price. A
   * stop order reaches it if somebody is there and nobody is beyond its price.
   */
  ghost predicate Reaches(b: Book, o: Order) {
    match (o.orderType, o.side)
    case (Limit, Bid) => exists p :: LevelKey(Ask, p) in b && p <= o.price
    case (Limit, Ask) => exists p :: LevelKey(Bid, p) in b && p >= o.price
    case (Stop, Bid) =>
      (exists p :: LevelKey(Ask, p) in b) && (forall p :: LevelKey(Ask, p) in b ==> o.price <= p)
    case (Stop, Ask) =>
      (exists p :: LevelKey(Bid, p) in b) && (forall p :: LevelKey(Bid, p) in b ==> o.price >= p)
  }

  /** Comparing with the best price of the other side asks exactly that. */
  lemma {:induction false} CrossesIffReaches(b: Book, o: Order)
    ensures Crossable(b, o) <==> Reaches(b, o)
  {
    var side := o.side.Opposite();
    if p :| LevelKey(side, p) in b && (o.orderType.Limit? && Reaches(b, o) ==> !Better(side, o.price, p)) {
      BestExists(b, side, p);
    }
  }

  // ---- Can its owner pay? ----

  /**
   * Cash less escrowed cash covers quantity times price, or asset less escrowed asset the quantity. A user
   * whose cash was never stored has 10,000; every other absent balance is nothing.
   */
  predicate CanPay(l: Ledger, u: UserId, side: Side, q: int, p: Price) {
    match side
    case Bid =>
      q * p <= (if u in l.cash then l.cash[u] else 10_000) - (if u in l.cashEscrow then l.cashEscrow[u] else 0)
    case Ask =>
      q <= (if u in l.asset then l.asset[u] else 0) - (if u in l.assetEscrow then l.assetEscrow[u] else 0)
  }

  /** A priced order of an ordinary user passes exactly if its owner can pay; the system user always passes. */
  lemma {:induction false} AnswerIffCanPay(e: Engine, o: Order, q: int, p: Price)
    requires e.wiring.Live?
    ensures Answer(e, o, q, p) <==> o.user == SYSTEM_USER_ID || CanPay(e.wiring.ledger, o.user, o.side, q, p)
  {
  }

  /** Asking stores missing balances, which changes what nobody can pay. */
  lemma {:induction false} AskingChangesNothing(l: Ledger, u: UserId, side: Side, v: UserId, side': Side, q: int,
                                                p: Price)
    ensures CanPay(Consult(l, u, side), v, side', q, p) <==> CanPay(l, v, side', q, p)
  {
  }
}
