/** The order book object: two price-keyed dictionaries of levels and two cached best prices. */
module OrderBooks {
  import opened Types
  import opened Collections
  import opened BookModel

  /** The dictionary of each side agrees with the book as a value. */
  ghost predicate Shows(bids: map<Price, seq<OrderId>>, asks: map<Price, seq<OrderId>>, b: Book) {
    forall k: LevelKey ::
      var half := if k.side.Bid? then bids else asks;
      (k in b <==> k.price in half) && (k in b ==> b[k] == half[k.price])
  }

  lemma ShowsSet(bids: map<Price, seq<OrderId>>, asks: map<Price, seq<OrderId>>, b: Book, k: LevelKey,
                 level: seq<OrderId>)
    requires Shows(bids, asks, b)
    ensures k.side.Bid? ==> Shows(bids[k.price := level], asks, b[k := level])
    ensures k.side.Ask? ==> Shows(bids, asks[k.price := level], b[k := level])
  {
  }

  lemma ShowsDrop(bids: map<Price, seq<OrderId>>, asks: map<Price, seq<OrderId>>, b: Book, k: LevelKey)
    requires Shows(bids, asks, b)
    ensures k.side.Bid? ==> Shows(bids - {k.price}, asks, b - {k})
    ensures k.side.Ask? ==> Shows(bids, asks - {k.price}, b - {k})
  {
  }

  ghost predicate Ahead(side: Side, keys: set<Price>, p: Price) {
    p in keys && forall q :: q in keys ==> !Better(side, q, p)
  }

  /** `SortedDict.peekitem` at the best end: the key that no other key beats. */
  method PeekBest(side: Side, keys: set<Price>) returns (best: Option<Price>)
    ensures best.None? ==> forall q :: q !in keys
    ensures best.Some? ==> Ahead(side, keys, best.value)
  {
    best := None;
    var rest := keys;
    while exists p :: p in rest
      invariant rest <= keys && (best.None? ==> rest == keys)
      invariant best.Some? ==> best.value in keys
      invariant best.Some? ==> forall q :: q in keys && q !in rest ==> !Better(side, q, best.value)
      decreases |rest|
    {
      var p :| p in rest;
      if best.None? || Better(side, p, best.value) {
        best := Some(p);
      }
      rest := rest - {p};
    }
  }

  class OrderBook {
    var bids: map<Price, seq<OrderId>>
    var asks: map<Price, seq<OrderId>>
    var bestBid: Option<Price>
    var bestAsk: Option<Price>
    ghost var levels: Book

    /**
     * The dictionaries show the book, no level is empty or lists an order twice, and each cached price
     * is the best price of its side, or None exactly when the side is empty.
     */
    ghost predicate Valid()
      reads this
    {
      && Shows(bids, asks, levels) && BookWf(levels)
      && bestBid == Best(levels, Bid) && bestAsk == Best(levels, Ask)
    }

    constructor ()
      ensures Valid() && levels == map[]
    {
      bids, asks, bestBid, bestAsk, levels := map[], map[], None, None, map[];
    }

    method Append(side: Side, price: Price, id: OrderId) returns (r: Result<()>)
      requires Valid()
      modifies this
      ensures Valid()
      ensures match AppendTo(old(levels), LevelKey(side, price), id)
              case Ok(b) => r.Ok? && levels == b
              case Raised(x) => r == Raised(x) && levels == old(levels)
    {
      ghost var k := LevelKey(side, price);
      var half := if side.Bid? then bids else asks;
      if price in half && id in half[price] {
        return Raised(ValueError);
      }
      assert half == if k.side.Bid? then bids else asks;
      assert k in levels <==> price in half;
      BestAfterAppend(levels, k, id);
      var level := (if price in half then half[price] else []) + [id];
      ShowsSet(bids, asks, levels, k, level);
      levels := levels[k := level];
      if side.Bid? {
        if bestBid.None? || price > bestBid.value { bestBid := Some(price); }
        bids := bids[price := level];
      } else {
        if bestAsk.None? || price < bestAsk.value { bestAsk := Some(price); }
        asks := asks[price := level];
      }
      r := Ok(());
    }

    method Remove(side: Side, price: Price, id: OrderId) returns (r: Result<()>)
      requires Valid()
      modifies this
      ensures Valid()
      ensures match RemoveFrom(old(levels), LevelKey(side, price), id)
              case Ok(b) => r.Ok? && levels == b
              case Raised(x) => r == Raised(x) && levels == old(levels)
    {
      var half := if side.Bid? then bids else asks;
      ghost var k := LevelKey(side, price);
      assert half == (if k.side.Bid? then bids else asks) && (k in levels <==> price in half);
      if price !in half {
        return Ok(());
      }
      if id !in half[price] {
        return Raised(KeyError);
      }
      var level := Without(half[price], id);
      if level == [] {
        DropLevel(side, price);
      } else {
        BestAfterShrink(levels, k, id);
        ShowsSet(bids, asks, levels, k, level);
        levels := levels[k := level];
        if side.Bid? { bids := bids[price := level]; } else { asks := asks[price := level]; }
      }
      r := Ok(());
    }

    /** An emptied level leaves the dictionary; if it was the best one, the runner-up takes over. */
    method DropLevel(side: Side, price: Price)
      requires Valid() && LevelKey(side, price) in levels
      modifies this
      ensures Valid() && levels == old(levels) - {LevelKey(side, price)}
    {
      ghost var k := LevelKey(side, price);
      var half := if side.Bid? then bids else asks;
      assert half == (if k.side.Bid? then bids else asks) && price in half;
      var top := PeekBest(side, half.Keys);
      var next := PeekBest(side, half.Keys - {top.value});
      HalfKeys(bids, asks, levels, side, half.Keys);
      BestAfterDrop(levels, k, half.Keys, top.value, next);
      ShowsDrop(bids, asks, levels, k);
      levels := levels - {k};
      if side.Bid? {
        if price == top.value { bestBid := next; }
        bids := bids - {price};
      } else {
        if price == top.value { bestAsk := next; }
        asks := asks - {price};
      }
    }

    /** The cached best price of a side. */
    method BestPrice(side: Side) returns (best: Option<Price>)
      requires Valid()
      ensures best == Best(levels, side)
    {
      best := if side.Ask? then bestAsk else bestBid;
    }

    /** `get_orders`: the orders of a level in arrival order, or none. */
    method GetOrders(side: Side, price: Price) returns (ids: seq<OrderId>)
      requires Valid()
      ensures ids == Level(levels, LevelKey(side, price))
    {
      var half := if side.Bid? then bids else asks;
      assert LevelKey(side, price) in levels <==> price in half;
      ids := if price in half then half[price] else [];
    }
  }

  lemma HalfKeys(bids: map<Price, seq<OrderId>>, asks: map<Price, seq<OrderId>>, b: Book, side: Side, keys: set<Price>)
    requires Shows(bids, asks, b) && keys == (if side.Bid? then bids else asks).Keys
    ensures KeysOf(b, side, keys)
  {
    forall p
      ensures LevelKey(side, p) in b <==> p in keys
    {
      var k := LevelKey(side, p);
      assert k in b <==> k.price in (if k.side.Bid? then bids else asks);
    }
  }

  ghost predicate KeysOf(b: Book, side: Side, keys: set<Price>) { forall p :: LevelKey(side, p) in b <==> p in keys }

  /** The best price is the key that `peekitem` finds. */
  lemma PeekIsBest(b: Book, side: Side, keys: set<Price>, peeked: Option<Price>)
    requires KeysOf(b, side, keys)
    requires peeked.None? ==> forall q :: q !in keys
    requires peeked.Some? ==> Ahead(side, keys, peeked.value)
    ensures Best(b, side) == peeked
  {
    if peeked.Some? {
      BestIs(b, side, peeked.value);
    } else {
      assert Best(b, side).None?;
    }
  }

  /** Removing one of several orders of a level changes no best price. */
  lemma BestAfterShrink(b: Book, k: LevelKey, id: OrderId)
    requires BookWf(b) && InLevel(b, k, id) && Without(b[k], id) != []
    ensures BookWf(RemoveFrom(b, k, id).value)
    ensures forall side :: Best(RemoveFrom(b, k, id).value, side) == Best(b, side)
  {
    RemoveEffect(b, k, id);
    var b' := RemoveFrom(b, k, id).value;
    forall side
      ensures Best(b', side) == Best(b, side)
    {
      SideKeysDecide(b, b', side);
    }
  }

  /** Dropping a level moves the best price of its side only if that level was the best. */
  lemma BestAfterDrop(b: Book, k: LevelKey, keys: set<Price>, top: Price, next: Option<Price>)
    requires BookWf(b) && k in b && KeysOf(b, k.side, keys) && Ahead(k.side, keys, top)
    requires next.None? ==> forall q :: q !in keys - {top}
    requires next.Some? ==> Ahead(k.side, keys - {top}, next.value)
    ensures BookWf(b - {k})
    ensures Best(b - {k}, k.side.Opposite()) == Best(b, k.side.Opposite())
    ensures Best(b - {k}, k.side) == if k.price == top then next else Best(b, k.side)
  {
    var b' := b - {k};
    SideKeysDecide(b, b', k.side.Opposite());
    assert k == LevelKey(k.side, k.price);
    assert KeysOf(b', k.side, keys - {k.price});
    BestIs(b, k.side, top);
    if k.price == top {
      PeekIsBest(b', k.side, keys - {top}, next);
    } else {
      BestIs(b', k.side, top);
    }
  }

  /** Appending moves the best price of its side only, and only forward. */
  lemma BestAfterAppend(b: Book, k: LevelKey, id: OrderId)
    requires BookWf(b) && !InLevel(b, k, id)
    ensures AppendTo(b, k, id).Ok? && BookWf(AppendTo(b, k, id).value)
    ensures var b' := AppendTo(b, k, id).value;
      && Best(b', k.side.Opposite()) == Best(b, k.side.Opposite())
      && Best(b', k.side) == (if Best(b, k.side).None? || Better(k.side, k.price, Best(b, k.side).value)
                              then Some(k.price) else Best(b, k.side))
  {
    AppendEffect(b, k, id);
    var b' := AppendTo(b, k, id).value;
    SideKeysDecide(b, b', k.side.Opposite());
    var best := Best(b, k.side);
    assert k == LevelKey(k.side, k.price);
    forall p | LevelKey(k.side, p) in b
      ensures best.Some? && IsBest(b, k.side, best.value)
    {
      BestExists(b, k.side, p);
    }
    if best.None? || Better(k.side, k.price, best.value) {
      BestIs(b', k.side, k.price);
    } else {
      BestIs(b', k.side, best.value);
    }
  }
}
