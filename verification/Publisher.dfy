/** The depth publisher: it rebuilds aggregate depth from the event stream alone. */
module Publisher {
  import opened Types

  datatype OrderInfo = OrderInfo(key: LevelKey, remaining: int)

  /** Aggregate depth per level and the resting quantity of each order it believes active. */
  datatype Depth = Depth(levels: map<LevelKey, int>, active: map<OrderId, OrderInfo>)

  const NO_DEPTH: Depth := Depth(map[], map[])

  /** `_decrement_level`: a level that drops to nothing is deleted. */
  function Decrement(levels: map<LevelKey, int>, k: LevelKey, q: int): map<LevelKey, int> {
    if k !in levels then levels
    else if levels[k] - q <= 0 then levels - {k}
    else levels[k := levels[k] - q]
  }

  function OnPlaced(d: Depth, id: OrderId, o: Order): Depth {
    if o.Remaining() <= 0 then d
    else
      var had := if o.Key() in d.levels then d.levels[o.Key()] else 0;
      Depth(d.levels[o.Key() := had + o.Remaining()], d.active[id := OrderInfo(o.Key(), o.Remaining())])
  }

  function OnCancelled(d: Depth, id: OrderId): Depth {
    if id !in d.active then d
    else Depth(Decrement(d.levels, d.active[id].key, d.active[id].remaining), d.active - {id})
  }

  function OnTrade(d: Depth, id: OrderId, q: int, role: Role): Depth {
    if role.Taker? || id !in d.active then d
    else
      var info := d.active[id];
      Depth(Decrement(d.levels, info.key, q),
            if info.remaining - q <= 0 then d.active - {id}
            else d.active[id := info.(remaining := info.remaining - q)])
  }

  function OnEvent(d: Depth, ev: Event): Depth {
    match ev
    case OrderPlaced(id, o) => OnPlaced(d, id, o)
    case OrderCancelled(id) => OnCancelled(d, id)
    case NewTrade(id, q, _, role) => OnTrade(d, id, q, role)
    case _ => d
  }

  function Fold(d: Depth, log: seq<Event>): Depth {
    if log == [] then d else OnEvent(Fold(d, log[..|log| - 1]), log[|log| - 1])
  }

  lemma {:induction false} FoldConcat(d: Depth, a: seq<Event>, b: seq<Event>)
    ensures Fold(d, a + b) == Fold(Fold(d, a), b)
  {
    if b == [] {
      assert a + b == a;
    } else {
      var n := |b| - 1;
      assert (a + b)[..|a + b| - 1] == a + b[..n];
      FoldConcat(d, a, b[..n]);
    }
  }

  /** One dictionary per side agrees with a map keyed by level. */
  ghost predicate Shows(bids: map<Price, int>, asks: map<Price, int>, levels: map<LevelKey, int>) {
    forall k: LevelKey ::
      var half := if k.side.Bid? then bids else asks;
      (k in levels <==> k.price in half) && (k in levels ==> levels[k] == half[k.price])
  }

  /** `OrderBookPublisher` for one symbol, updating its dictionaries in place. */
  class OrderBookPublisher {
    var bids: map<Price, int>
    var asks: map<Price, int>
    var activeOrders: map<OrderId, OrderInfo>
    ghost var depth: Depth

    ghost predicate Valid()
      reads this
    {
      Shows(bids, asks, depth.levels) && activeOrders == depth.active
    }

    constructor ()
      ensures Valid() && depth == NO_DEPTH
    {
      bids, asks, activeOrders, depth := map[], map[], map[], NO_DEPTH;
    }

    method HandleOrderPlaced(id: OrderId, o: Order)
      requires Valid()
      modifies this
      ensures Valid() && depth == OnPlaced(old(depth), id, o)
    {
      var resting := o.quantity - o.executed;
      if resting <= 0 {
        return;
      }
      if o.side.Bid? {
        bids := bids[o.price := (if o.price in bids then bids[o.price] else 0) + resting];
      } else {
        asks := asks[o.price := (if o.price in asks then asks[o.price] else 0) + resting];
      }
      activeOrders := activeOrders[id := OrderInfo(o.Key(), resting)];
      depth := OnPlaced(depth, id, o);
    }

    method HandleOrderCancelled(id: OrderId)
      requires Valid()
      modifies this
      ensures Valid() && depth == OnCancelled(old(depth), id)
    {
      if id !in activeOrders {
        return;
      }
      var info := activeOrders[id];
      activeOrders := activeOrders - {id};
      depth := depth.(active := activeOrders);
      DecrementLevel(info.key, info.remaining);
    }

    method HandleTrade(id: OrderId, q: int, role: Role)
      requires Valid()
      modifies this
      ensures Valid() && depth == OnTrade(old(depth), id, q, role)
    {
      if role.Maker? && id in activeOrders {
        var info := activeOrders[id];
        DecrementLevel(info.key, q);
        if info.remaining - q <= 0 {
          activeOrders := activeOrders - {id};
        } else {
          activeOrders := activeOrders[id := OrderInfo(info.key, info.remaining - q)];
        }
        depth := depth.(active := activeOrders);
      }
    }

    method DecrementLevel(k: LevelKey, q: int)
      requires Valid()
      modifies this
      ensures Valid() && depth == old(depth).(levels := Decrement(old(depth).levels, k, q))
    {
      if k.side.Bid? {
        if k.price in bids {
          bids := bids[k.price := bids[k.price] - q];
          if bids[k.price] <= 0 { bids := bids - {k.price}; }
        }
      } else {
        if k.price in asks {
          asks := asks[k.price := asks[k.price] - q];
          if asks[k.price] <= 0 { asks := asks - {k.price}; }
        }
      }
      depth := depth.(levels := Decrement(depth.levels, k, q));
    }

    /** The consumer loop: dispatch every event of the stream in order. */
    method Consume(log: seq<Event>)
      requires Valid()
      modifies this
      ensures Valid() && depth == Fold(old(depth), log)
    {
      for i := 0 to |log|
        invariant Valid() && depth == Fold(old(depth), log[..i])
      {
        assert log[..i + 1][..i] == log[..i];
        match log[i]
        case OrderPlaced(id, o) => HandleOrderPlaced(id, o);
        case OrderCancelled(id) => HandleOrderCancelled(id);
        case NewTrade(id, q, _, role) => HandleTrade(id, q, role);
        case _ =>
      }
      assert log[..|log|] == log;
    }
  }
}
