/**
 * Snapshots of the book: a level is stored as the nested dictionary of its nodes, read back by rebuilding
 * back-links, tail and index, and the whole book returns with the same queues and best prices.
 */
module Snapshots {
  import opened Types
  import opened Collections
  import opened BookModel
  import opened PriceLevels
  import opened OrderBooks

  /** A node as stored: its order's fields and the dictionary of the next node. */
  datatype NodeDict = NodeDict(order: Order, next: Option<NodeDict>)

  type LevelDict = Option<NodeDict>

  type OrderDicts = map<OrderId, Order>

  /** What `Order.to_dict` then `Order.from_dict` keep: every field except the list of fills. */
  function Restored(o: Order): Order { o.(fills := []) }

  /** Every order of the queue is a known object, found under its own id. */
  predicate Known(ids: seq<OrderId>, orders: OrderDicts) {
    forall i :: 0 <= i < |ids| ==> ids[i] in orders && orders[ids[i]].id == ids[i]
  }

  /** The nested dictionary of a queue. */
  function Nested(ids: seq<OrderId>, orders: OrderDicts): LevelDict
    requires Known(ids, orders)
  {
    if ids == [] then None else Some(NodeDict(Restored(orders[ids[0]]), Nested(ids[1..], orders)))
  }

  /** The orders of a stored level, outermost first. */
  function Unnested(d: LevelDict): seq<Order> {
    if d.None? then [] else [d.value.order] + Unnested(d.value.next)
  }

  function IdsOf(orders: seq<Order>): (ids: seq<OrderId>)
    ensures |ids| == |orders|
  {
    seq(|orders|, i requires 0 <= i < |orders| => orders[i].id)
  }

  /** The queue `copy` holds the orders `ids`, in order and field by field, without their fills. */
  ghost predicate CopyOf(copy: seq<Order>, ids: seq<OrderId>, orders: OrderDicts)
    requires Known(ids, orders)
  {
    |copy| == |ids| && forall i :: 0 <= i < |ids| ==> copy[i] == Restored(orders[ids[i]])
  }

  /** Reading back a stored queue gives the same ids in the same order, with the same field values. */
  lemma {:induction false} LevelRoundTrip(ids: seq<OrderId>, orders: OrderDicts)
    requires Known(ids, orders)
    ensures CopyOf(Unnested(Nested(ids, orders)), ids, orders)
    ensures IdsOf(Unnested(Nested(ids, orders))) == ids
  {
    if ids != [] {
      LevelRoundTrip(ids[1..], orders);
      assert IdsOf(Unnested(Nested(ids, orders))) == [ids[0]] + IdsOf(Unnested(Nested(ids[1..], orders)));
    }
  }

  // ---- One level ----

  /** `PriceLevelNode.to_dict`: recursion along the `next` links. */
  method NodeToDict(node: PriceLevelNode, orders: OrderDicts, ghost nodes: seq<PriceLevelNode>, ghost i: nat)
    returns (d: NodeDict)
    requires Linked(nodes) && i < |nodes| && nodes[i] == node
    requires Known(Ids(nodes), orders)
    ensures Known(Ids(nodes)[i..], orders) && Some(d) == Nested(Ids(nodes)[i..], orders)
    decreases |nodes| - i
  {
    assert Ids(nodes)[i] == node.order;
    assert Ids(nodes)[i..][1..] == Ids(nodes)[i + 1..];
    assert node.next == NodeAt(nodes, i + 1);
    if node.next == null {
      d := NodeDict(Restored(orders[node.order]), None);
    } else {
      var rest := NodeToDict(node.next, orders, nodes, i + 1);
      d := NodeDict(Restored(orders[node.order]), Some(rest));
    }
  }

  /** `PriceLevel.to_dict`. */
  method LevelToDict(level: PriceLevel, orders: OrderDicts) returns (d: LevelDict)
    requires level.Valid() && Known(Ids(level.nodes), orders)
    ensures d == Nested(Ids(level.nodes), orders)
  {
    if level.head == null {
      d := None;
    } else {
      assert Ids(level.nodes)[0..] == Ids(level.nodes);
      var head := NodeToDict(level.head, orders, level.nodes, 0);
      d := Some(head);
    }
  }

  /** A chain of nodes hanging off `prev`. */
  ghost predicate Chained(nodes: seq<PriceLevelNode>, prev: PriceLevelNode?)
    reads nodes
  {
    && (forall i {:trigger nodes[i].prev} :: 0 <= i < |nodes| ==>
          nodes[i].prev == if i == 0 then prev else nodes[i - 1])
    && (forall i {:trigger nodes[i].next} :: 0 <= i < |nodes| ==> nodes[i].next == NodeAt(nodes, i + 1))
  }

  /** `PriceLevelNode.from_dict`: the node is built and linked back before its successors. */
  method NodeFromDict(d: LevelDict, prev: PriceLevelNode?)
    returns (node: PriceLevelNode?, ghost nodes: seq<PriceLevelNode>)
    ensures fresh(nodes) && NoDup(nodes) && Chained(nodes, prev)
    ensures node == NodeAt(nodes, 0) && Ids(nodes) == IdsOf(Unnested(d))
    decreases d
  {
    if d.None? {
      return null, [];
    }
    var first := new PriceLevelNode(d.value.order.id);
    first.prev := prev;
    var next, rest := NodeFromDict(d.value.next, first);
    first.next := next;
    node, nodes := first, [first] + rest;
    assert IdsOf(Unnested(d)) == [d.value.order.id] + IdsOf(Unnested(d.value.next));
  }

  /** `PriceLevel.from_dict`: rebuild the list, then walk it once for the index and the tail. */
  method LevelFromDict(d: LevelDict) returns (level: PriceLevel)
    requires NoDup(IdsOf(Unnested(d)))
    ensures fresh(level) && fresh(level.nodes) && level.Valid()
    ensures Ids(level.nodes) == IdsOf(Unnested(d))
  {
    level := new PriceLevel();
    var head, nodes := NodeFromDict(d, null);
    level.head := head;
    var cur := head;
    ghost var i := 0;
    while cur != null
      invariant 0 <= i <= |nodes| && cur == NodeAt(nodes, i) && level.head == head
      invariant level.tail == NodeAt(nodes, i - 1) && Indexed(nodes[..i], level.tracker)
      invariant Chained(nodes, null) && fresh(level)
      decreases |nodes| - i
    {
      IndexNext(nodes, level.tracker, i);
      level.tracker := level.tracker[cur.order := cur];
      level.tail := cur;
      cur := cur.next;
      i := i + 1;
    }
    assert nodes[..i] == nodes;
    level.nodes := nodes;
  }

  lemma DistinctIds(nodes: seq<PriceLevelNode>, j: nat, i: nat)
    requires NoDup(Ids(nodes)) && j < i < |nodes|
    ensures nodes[j].order != nodes[i].order
  {
    assert Ids(nodes)[j] != Ids(nodes)[i];
  }

  lemma IndexNext(nodes: seq<PriceLevelNode>, tracker: map<OrderId, PriceLevelNode>, i: nat)
    requires NoDup(nodes) && NoDup(Ids(nodes)) && i < |nodes| && Indexed(nodes[..i], tracker)
    ensures Indexed(nodes[..i + 1], tracker[nodes[i].order := nodes[i]])
  {
    if nodes[i].order in tracker {
      var j :| 0 <= j < i && nodes[j] == tracker[nodes[i].order];
      DistinctIds(nodes, j, i);
      assert false;
    }
    assert nodes[..i + 1] == nodes[..i] + [nodes[i]];
    AppendFacts(nodes[..i], tracker, nodes[i]);
  }

  /** A level written out and read back is a well-formed list of new nodes with the same queue. */
  method LevelThroughDict(level: PriceLevel, orders: OrderDicts) returns (copy: PriceLevel, d: LevelDict)
    requires level.Valid() && Known(Ids(level.nodes), orders)
    ensures fresh(copy) && fresh(copy.nodes) && copy.Valid() && Ids(copy.nodes) == Ids(level.nodes)
    ensures CopyOf(Unnested(d), Ids(level.nodes), orders)
  {
    d := LevelToDict(level, orders);
    LevelRoundTrip(Ids(level.nodes), orders);
    IdsDistinct(level.nodes, level.tracker);
    copy := LevelFromDict(d);
  }

  // ---- The whole book ----

  datatype BookDict = BookDict(
    bestBid: Option<Price>, bestAsk: Option<Price>, bids: map<Price, LevelDict>, asks: map<Price, LevelDict>)
  {
    function Half(side: Side): map<Price, LevelDict> { if side.Bid? then bids else asks }
  }

  /** The orders of every level are known objects. */
  ghost predicate BookKnown(b: Book, orders: OrderDicts) { forall k :: k in b ==> Known(b[k], orders) }

  /** `d` is the dictionary of the book `b`. */
  ghost predicate Depicts(d: BookDict, b: Book, orders: OrderDicts)
    requires BookKnown(b, orders)
  {
    && d.bestBid == Best(b, Bid) && d.bestAsk == Best(b, Ask)
    && forall k: LevelKey ::
         (k in b <==> k.price in d.Half(k.side))
         && (k in b ==> d.Half(k.side)[k.price] == Nested(b[k], orders))
  }

  /** `OrderBook.to_dict`. */
  method BookToDict(book: OrderBook, orders: OrderDicts) returns (d: BookDict)
    requires book.Valid() && BookKnown(book.levels, orders)
    ensures Depicts(d, book.levels, orders)
  {
    forall p | p in book.bids
      ensures Known(book.bids[p], orders)
    {
      assert LevelKey(Bid, p) in book.levels;
    }
    forall p | p in book.asks
      ensures Known(book.asks[p], orders)
    {
      assert LevelKey(Ask, p) in book.levels;
    }
    d := BookDict(book.bestBid, book.bestAsk,
                  map p | p in book.bids :: Nested(book.bids[p], orders),
                  map p | p in book.asks :: Nested(book.asks[p], orders));
  }

  /** The order objects a restored book holds, per level. */
  type Objects = map<LevelKey, seq<Order>>

  /** `OrderBook.from_dict`: from any dictionary of a well-formed book, that book. */
  method BookFromDict(d: BookDict, ghost b: Book, ghost orders: OrderDicts)
    returns (book: OrderBook, ghost objects: Objects)
    requires BookWf(b) && BookKnown(b, orders) && Depicts(d, b, orders)
    ensures fresh(book) && book.Valid() && book.levels == b
    ensures SameOrders(objects, b, orders)
  {
    ReadBack(d, b, orders);
    objects := map k | k in b :: Unnested(Nested(b[k], orders));
    book := new OrderBook();
    book.bestBid, book.bestAsk := d.bestBid, d.bestAsk;
    book.bids := QueuesOf(d.bids);
    book.asks := QueuesOf(d.asks);
    book.levels := b;
  }

  function QueuesOf(half: map<Price, LevelDict>): map<Price, seq<OrderId>> {
    map p | p in half :: IdsOf(Unnested(half[p]))
  }

  lemma ReadBack(d: BookDict, b: Book, orders: OrderDicts)
    requires BookKnown(b, orders) && Depicts(d, b, orders)
    ensures Shows(QueuesOf(d.bids), QueuesOf(d.asks), b)
    ensures SameOrders(map k | k in b :: Unnested(Nested(b[k], orders)), b, orders)
  {
    forall k | k in b
      ensures IdsOf(Unnested(Nested(b[k], orders))) == b[k]
      ensures CopyOf(Unnested(Nested(b[k], orders)), b[k], orders)
    {
      LevelRoundTrip(b[k], orders);
    }
  }

  ghost predicate SameOrders(objects: Objects, b: Book, orders: OrderDicts)
    requires BookKnown(b, orders)
  {
    objects.Keys == b.Keys && forall k :: k in b ==> CopyOf(objects[k], b[k], orders)
  }

  /** A book written out and read back: same levels, same queues, same best prices, same order fields. */
  method BookThroughDict(book: OrderBook, orders: OrderDicts) returns (copy: OrderBook, ghost objects: Objects)
    requires book.Valid() && BookKnown(book.levels, orders)
    ensures fresh(copy) && copy.Valid() && copy.levels == book.levels
    ensures copy.bestBid == book.bestBid && copy.bestAsk == book.bestAsk
    ensures SameOrders(objects, book.levels, orders)
  {
    var d := BookToDict(book, orders);
    copy, objects := BookFromDict(d, book.levels, orders);
  }
}
