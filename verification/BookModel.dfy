/**
 * The book as a value: each non-empty price level is the FIFO sequence of the orders resting there.
 * `PriceLevels` shows that the linked list behaves as such a sequence, `OrderBooks` that the cached
 * best prices agree with the levels.
 */
module BookModel {
  import opened Types
  import opened Collections

  type Book = map<LevelKey, seq<OrderId>>

  function Level(b: Book, k: LevelKey): seq<OrderId> { if k in b then b[k] else [] }

  ghost predicate InLevel(b: Book, k: LevelKey, id: OrderId) { k in b && id in b[k] }

  ghost predicate BookWf(b: Book) {
    forall k :: k in b ==> b[k] != [] && NoDup(b[k])
  }

  /** `OrderBook.append`. */
  function AppendTo(b: Book, k: LevelKey, id: OrderId): Result<Book> {
    if id in Level(b, k) then Raised(ValueError) else Ok(b[k := Level(b, k) + [id]])
  }

  /** `OrderBook.remove`: a missing level is ignored, a missing id in a present level raises. */
  function RemoveFrom(b: Book, k: LevelKey, id: OrderId): Result<Book> {
    if k !in b then Ok(b)
    else if id !in b[k] then Raised(KeyError)
    else
      var rest := Without(b[k], id);
      Ok(if rest == [] then b - {k} else b[k := rest])
  }

  lemma AppendEffect(b: Book, k: LevelKey, id: OrderId)
    requires BookWf(b) && !InLevel(b, k, id)
    ensures AppendTo(b, k, id).Ok?
    ensures var b' := AppendTo(b, k, id).value;
      && BookWf(b')
      && (forall j, x :: InLevel(b', j, x) <==> InLevel(b, j, x) || (j == k && x == id))
      && b'.Keys == b.Keys + {k}
  {
    var b' := AppendTo(b, k, id).value;
    forall j | j in b'
      ensures b'[j] != [] && NoDup(b'[j])
    {
      if j == k && k in b { assert NoDup(b[k]); }
    }
  }

  lemma RemoveEffect(b: Book, k: LevelKey, id: OrderId)
    requires BookWf(b)
    ensures RemoveFrom(b, k, id).Ok? <==> (k in b ==> InLevel(b, k, id))
    ensures RemoveFrom(b, k, id).Ok? ==>
      var b' := RemoveFrom(b, k, id).value;
      && BookWf(b')
      && (forall j, x :: InLevel(b', j, x) <==> InLevel(b, j, x) && !(j == k && x == id))
      && b'.Keys <= b.Keys && b.Keys <= b'.Keys + {k}
  {
    if InLevel(b, k, id) {
      WithoutProps(b[k], id);
      var b' := RemoveFrom(b, k, id).value;
      forall j | j in b'
        ensures b'[j] != [] && NoDup(b'[j])
      {
        if j != k { assert b'[j] == b[j]; }
      }
    }
  }

  /** `p` is the price at the front of this side. */
  ghost predicate IsBest(b: Book, side: Side, p: Price) {
    LevelKey(side, p) in b && forall q :: LevelKey(side, q) in b ==> !Better(side, q, p)
  }

  ghost function Best(b: Book, side: Side): Option<Price> {
    if exists p :: IsBest(b, side, p) then
      var p :| IsBest(b, side, p);
      Some(p)
    else None
  }

  lemma BestIs(b: Book, side: Side, p: Price)
    requires IsBest(b, side, p)
    ensures Best(b, side) == Some(p)
  {
  }

  /** A side has a best price exactly when it has a level. */
  lemma BestExists(b: Book, side: Side, p: Price)
    requires LevelKey(side, p) in b
    ensures Best(b, side).Some? && IsBest(b, side, Best(b, side).value)
    ensures !Better(side, p, Best(b, side).value)
  {
    var q := BestFrom(b, side, p, b.Keys);
  }

  lemma {:induction false} BestFrom(b: Book, side: Side, p: Price, todo: set<LevelKey>) returns (q: Price)
    requires LevelKey(side, p) in b
    requires forall r :: LevelKey(side, r) in b && Better(side, r, p) ==> LevelKey(side, r) in todo
    ensures IsBest(b, side, q)
    decreases |todo|
  {
    if IsBest(b, side, p) {
      q := p;
    } else {
      var r :| LevelKey(side, r) in b && Better(side, r, p);
      q := BestFrom(b, side, r, todo - {LevelKey(side, r)});
    }
  }

  /** The best price depends on the keys of its side only. */
  lemma SideKeysDecide(b: Book, b': Book, side: Side)
    requires forall p :: LevelKey(side, p) in b <==> LevelKey(side, p) in b'
    ensures Best(b, side) == Best(b', side)
  {
    if p :| LevelKey(side, p) in b {
      BestExists(b, side, p);
      BestIs(b', side, Best(b, side).value);
    } else {
      assert Best(b, side).None? && Best(b', side).None?;
    }
  }
}
