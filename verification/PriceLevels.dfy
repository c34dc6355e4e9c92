/** One price level: a hand-written doubly linked list of orders with a side index. */
module PriceLevels {
  import opened Types
  import opened Collections

  class PriceLevelNode {
    const order: OrderId
    var prev: PriceLevelNode?
    var next: PriceLevelNode?

    constructor (order: OrderId)
      ensures this.order == order && prev == null && next == null
    {
      this.order := order;
      prev, next := null, null;
    }
  }

  /** The order ids held by a list of nodes. */
  ghost function Ids(nodes: seq<PriceLevelNode>): (ids: seq<OrderId>)
    ensures |ids| == |nodes|
  {
    seq(|nodes|, i requires 0 <= i < |nodes| => nodes[i].order)
  }

  ghost function NodeAt(nodes: seq<PriceLevelNode>, i: int): PriceLevelNode? {
    if 0 <= i < |nodes| then nodes[i] else null
  }

  /** The links of `nodes`, read in order, are exactly the list `nodes`. */
  ghost predicate Linked(nodes: seq<PriceLevelNode>)
    reads nodes
  {
    && (forall i {:trigger nodes[i].prev} :: 0 <= i < |nodes| ==> nodes[i].prev == NodeAt(nodes, i - 1))
    && (forall i {:trigger nodes[i].next} :: 0 <= i < |nodes| ==> nodes[i].next == NodeAt(nodes, i + 1))
  }

  /** `tracker` indexes exactly the orders of `nodes`, each under its own id. */
  ghost predicate Indexed(nodes: seq<PriceLevelNode>, tracker: map<OrderId, PriceLevelNode>) {
    && (forall i :: 0 <= i < |nodes| ==> nodes[i].order in tracker && tracker[nodes[i].order] == nodes[i])
    && (forall id :: id in tracker ==> tracker[id] in nodes && tracker[id].order == id)
  }

  /** Head, tail and index all describe the list `nodes`. */
  ghost predicate Shape(head: PriceLevelNode?, tail: PriceLevelNode?, tracker: map<OrderId, PriceLevelNode>,
                        nodes: seq<PriceLevelNode>)
  {
    && NoDup(nodes)
    && head == NodeAt(nodes, 0)
    && tail == NodeAt(nodes, |nodes| - 1)
    && Indexed(nodes, tracker)
  }

  class PriceLevel {
    var head: PriceLevelNode?
    var tail: PriceLevelNode?
    var tracker: map<OrderId, PriceLevelNode>
    /** The sequence that head, tail, links and tracker all describe. */
    ghost var nodes: seq<PriceLevelNode>

    ghost predicate Valid()
      reads this, nodes
    {
      Shape(head, tail, tracker, nodes) && Linked(nodes)
    }

    constructor ()
      ensures Valid() && nodes == []
    {
      head, tail, tracker, nodes := null, null, map[], [];
    }

    /** Adds an order at the end of the queue; a duplicate id raises and changes nothing. */
    method Append(id: OrderId) returns (r: Result<()>)
      requires Valid()
      modifies this, nodes
      ensures Valid()
      ensures r == if id in old(Ids(nodes)) then Raised(ValueError) else Ok(())
      ensures r.Raised? ==> nodes == old(nodes)
      ensures r.Ok? ==> |nodes| == |old(nodes)| + 1 && nodes == old(nodes) + [nodes[|old(nodes)|]]
      ensures r.Ok? ==> fresh(nodes[|old(nodes)|]) && Ids(nodes) == old(Ids(nodes)) + [id]
    {
      TrackerIsIds(nodes, tracker, id);
      if id in tracker {
        return Raised(ValueError);
      }
      var node := new PriceLevelNode(id);
      AppendFacts(nodes, tracker, node);
      var last := tail;
      if head == null {
        head := node;
        tail := node;
      } else {
        tail := node;
      }
      tracker := tracker[id := node];
      nodes := nodes + [node];
      Link(old(nodes), last, node);
      r := Ok(());
    }

    /**
     * Unlinks one order. The removed node keeps its own `prev` and `next`, which is what lets a
     * traversal standing on it continue.
     */
    method Remove(id: OrderId) returns (r: Result<()>, ghost at: int)
      requires Valid()
      modifies this, nodes
      ensures Valid()
      ensures r == if id in old(Ids(nodes)) then Ok(()) else Raised(KeyError)
      ensures r.Raised? ==> nodes == old(nodes)
      ensures r.Ok? ==> 0 <= at < |old(nodes)| && old(nodes)[at].order == id && nodes == Cut(old(nodes), at)
      ensures r.Ok? ==> old(nodes)[at].next == old(nodes[at].next)
    {
      TrackerIsIds(nodes, tracker, id);
      if id !in tracker {
        return Raised(KeyError), 0;
      }
      var node := tracker[id];
      at :| 0 <= at < |nodes| && nodes[at] == node;
      CutFacts(nodes, tracker, at);
      Detach(node, at);
      r := Ok(());
    }

    /** The body of `remove` once the node is found: splice it out of the list and the index. */
    method Detach(node: PriceLevelNode, ghost at: int)
      requires Valid() && 0 <= at < |nodes| && nodes[at] == node
      modifies this, nodes
      ensures Valid() && nodes == Cut(old(nodes), at)
      ensures node.next == old(node.next)
    {
      CutShape(head, tail, tracker, nodes, at);
      Unlink(nodes, at, node);
      head := if head == node then node.next else head;
      tail := if tail == node then node.prev else tail;
      tracker := tracker - {node.order};
      nodes := Cut(nodes, at);
    }
  }

  /** `s` without its `i`-th element. */
  ghost function Cut<T>(s: seq<T>, i: int): seq<T>
    requires 0 <= i < |s|
  {
    s[..i] + s[i + 1..]
  }

  /** The link surgery of `append`: `node` becomes the successor of the last node. */
  method Link(ghost nodes: seq<PriceLevelNode>, last: PriceLevelNode?, node: PriceLevelNode)
    requires Linked(nodes) && last == NodeAt(nodes, |nodes| - 1) && NoDup(nodes)
    requires node !in nodes && node.prev == null && node.next == null
    modifies nodes, node
    ensures Linked(nodes + [node])
  {
    if last != null {
      last.next := node;
      node.prev := last;
    }
  }

  /** The link surgery of `remove`: the neighbours skip `node`, whose own links stay. */
  method Unlink(ghost nodes: seq<PriceLevelNode>, ghost i: int, node: PriceLevelNode)
    requires 0 <= i < |nodes| && nodes[i] == node && NoDup(nodes) && Linked(nodes)
    modifies nodes
    ensures Linked(Cut(nodes, i))
    ensures node.prev == old(node.prev) && node.next == old(node.next)
  {
    assert node.prev == NodeAt(nodes, i - 1) && node.next == NodeAt(nodes, i + 1);
    if node.prev != null {
      node.prev.next := node.next;
    }
    if node.next != null {
      node.next.prev := node.prev;
    }
  }

  lemma AppendFacts(nodes: seq<PriceLevelNode>, tracker: map<OrderId, PriceLevelNode>, node: PriceLevelNode)
    requires NoDup(nodes) && Indexed(nodes, tracker) && node !in nodes && node.order !in tracker
    ensures NoDup(nodes + [node]) && Indexed(nodes + [node], tracker[node.order := node])
    ensures Ids(nodes + [node]) == Ids(nodes) + [node.order]
  {
  }

  lemma CutFacts(nodes: seq<PriceLevelNode>, tracker: map<OrderId, PriceLevelNode>, i: int)
    requires NoDup(nodes) && Indexed(nodes, tracker) && 0 <= i < |nodes|
    ensures Ids(Cut(nodes, i)) == Without(Ids(nodes), nodes[i].order)
    ensures nodes[i] !in Cut(nodes, i)
  {
    CutIds(nodes, tracker, i);
  }

  lemma CutShape(head: PriceLevelNode?, tail: PriceLevelNode?, tracker: map<OrderId, PriceLevelNode>,
                 nodes: seq<PriceLevelNode>, i: int)
    requires Shape(head, tail, tracker, nodes) && 0 <= i < |nodes|
    ensures Shape(if head == nodes[i] then NodeAt(nodes, i + 1) else head,
                  if tail == nodes[i] then NodeAt(nodes, i - 1) else tail,
                  tracker - {nodes[i].order}, Cut(nodes, i))
  {
    var rest := Cut(nodes, i);
    forall id | id in tracker - {nodes[i].order}
      ensures tracker[id] in rest
    {
      var j :| 0 <= j < |nodes| && nodes[j] == tracker[id];
      assert rest[if j < i then j else j - 1] == tracker[id];
    }
  }

  lemma CutIds(nodes: seq<PriceLevelNode>, tracker: map<OrderId, PriceLevelNode>, i: int)
    requires NoDup(nodes) && Indexed(nodes, tracker) && 0 <= i < |nodes|
    ensures Ids(Cut(nodes, i)) == Without(Ids(nodes), nodes[i].order)
  {
    IdsDistinct(nodes, tracker);
    WithoutAt(Ids(nodes), i);
    assert Ids(Cut(nodes, i)) == Cut(Ids(nodes), i);
  }

  lemma TrackerIsIds(nodes: seq<PriceLevelNode>, tracker: map<OrderId, PriceLevelNode>, id: OrderId)
    requires Indexed(nodes, tracker)
    ensures id in tracker <==> id in Ids(nodes)
  {
    if id in tracker {
      var i :| 0 <= i < |nodes| && nodes[i] == tracker[id];
      assert Ids(nodes)[i] == id;
    }
  }

  lemma IdsDistinct(nodes: seq<PriceLevelNode>, tracker: map<OrderId, PriceLevelNode>)
    requires NoDup(nodes) && Indexed(nodes, tracker)
    ensures NoDup(Ids(nodes))
  {
  }

  /** The orders among `ids` that a walk does not drop, in order. */
  function Kept(ids: seq<OrderId>, drop: set<OrderId>): seq<OrderId> {
    if ids == [] then []
    else Kept(ids[..|ids| - 1], drop) + (if ids[|ids| - 1] in drop then [] else [ids[|ids| - 1]])
  }

  /** `ids` up to and including the first one in `stop`. */
  function UpTo(ids: seq<OrderId>, stop: set<OrderId>): seq<OrderId> {
    if ids == [] then [] else [ids[0]] + (if ids[0] in stop then [] else UpTo(ids[1..], stop))
  }

  /**
   * The `get_orders` generator driven by a loop body that may remove the order it was just handed, and that
   * may break off after any order. Whatever the body removes, the walk yields the orders that were there at
   * the start, once and in arrival order, up to where the body breaks off; what stays behind is what was
   * not removed, followed by what was not visited.
   */
  method WalkAndRemove(level: PriceLevel, drop: set<OrderId>, stop: set<OrderId>) returns (visited: seq<OrderId>)
    requires level.Valid()
    modifies level, level.nodes
    ensures level.Valid() && Within(level.nodes, old(level.nodes))
    ensures visited == UpTo(old(Ids(level.nodes)), stop) && visited <= old(Ids(level.nodes))
    ensures Ids(level.nodes) == Kept(visited, drop) + old(Ids(level.nodes))[|visited|..]
  {
    ghost var start := level.nodes;
    ghost var kept: seq<PriceLevelNode>, rest := [], start;
    var cur := level.head;
    var going := true;
    visited := [];
    WalkStarts(start, drop, stop);
    while cur != null && going
      invariant level.Valid() && Within(level.nodes, start)
      invariant level.nodes == kept + rest && cur == NodeAt(rest, 0)
      invariant Walked(start, kept, rest, visited, drop, stop, going)
      decreases |rest|
    {
      going := cur.order !in stop;
      cur, visited, kept := YieldOne(level, cur, visited, drop, stop, start, kept, rest);
      rest := rest[1..];
    }
    WalkEnds(start, kept, rest, visited, drop, stop, going);
  }

  /** One turn of the walk: yield `cur`, let the body act, follow its `next`. */
  method YieldOne(level: PriceLevel, cur: PriceLevelNode, visited: seq<OrderId>, drop: set<OrderId>, stop: set<OrderId>,
                  ghost start: seq<PriceLevelNode>, ghost kept: seq<PriceLevelNode>, ghost rest: seq<PriceLevelNode>)
    returns (next: PriceLevelNode?, visited': seq<OrderId>, ghost kept': seq<PriceLevelNode>)
    requires level.Valid() && Within(level.nodes, start) && level.nodes == kept + rest && rest != [] && rest[0] == cur
    requires Walked(start, kept, rest, visited, drop, stop, true)
    modifies level, level.nodes
    ensures level.Valid() && Within(level.nodes, old(level.nodes))
    ensures level.nodes == kept' + rest[1..] && next == NodeAt(rest[1..], 0)
    ensures Walked(start, kept', rest[1..], visited', drop, stop, cur.order !in stop)
  {
    next, kept' := Visit(level, cur, drop, kept, rest);
    WalkAdvances(start, kept, kept', rest, visited, drop, stop);
    visited' := visited + [cur.order];
  }

  /** The walk has yielded `visited`, kept `kept` of it, and `rest` lies ahead. */
  ghost predicate Walked(start: seq<PriceLevelNode>, kept: seq<PriceLevelNode>, rest: seq<PriceLevelNode>,
                         visited: seq<OrderId>, drop: set<OrderId>, stop: set<OrderId>, going: bool)
  {
    && Ids(start) == visited + Ids(rest) && Ids(kept) == Kept(visited, drop)
    && UpTo(Ids(start), stop) == visited + (if going then UpTo(Ids(rest), stop) else [])
  }

  lemma WalkStarts(start: seq<PriceLevelNode>, drop: set<OrderId>, stop: set<OrderId>)
    ensures [] + start == start && Walked(start, [], start, [], drop, stop, true)
  {
    assert [] + Ids(start) == Ids(start) && [] + UpTo(Ids(start), stop) == UpTo(Ids(start), stop);
  }

  lemma WalkAdvances(start: seq<PriceLevelNode>, kept: seq<PriceLevelNode>, kept': seq<PriceLevelNode>,
                     rest: seq<PriceLevelNode>, visited: seq<OrderId>, drop: set<OrderId>, stop: set<OrderId>)
    requires rest != [] && Walked(start, kept, rest, visited, drop, stop, true)
    requires Ids(kept') == Ids(kept) + (if rest[0].order in drop then [] else [rest[0].order])
    ensures Walked(start, kept', rest[1..], visited + [rest[0].order], drop, stop, rest[0].order !in stop)
  {
    VisitedAdvance(visited, rest, drop);
    UpToAdvance(visited, rest, stop);
  }

  lemma UpToAdvance(visited: seq<OrderId>, rest: seq<PriceLevelNode>, stop: set<OrderId>)
    requires rest != []
    ensures visited + UpTo(Ids(rest), stop)
         == (visited + [rest[0].order]) + (if rest[0].order in stop then [] else UpTo(Ids(rest[1..]), stop))
  {
    assert Ids(rest)[0] == rest[0].order && Ids(rest)[1..] == Ids(rest[1..]);
  }

  lemma WalkEnds(start: seq<PriceLevelNode>, kept: seq<PriceLevelNode>, rest: seq<PriceLevelNode>,
                 visited: seq<OrderId>, drop: set<OrderId>, stop: set<OrderId>, going: bool)
    requires Walked(start, kept, rest, visited, drop, stop, going) && (rest == [] || !going)
    ensures visited == UpTo(Ids(start), stop) && visited <= Ids(start)
    ensures Ids(kept + rest) == Kept(visited, drop) + Ids(start)[|visited|..]
  {
    assert Ids(start)[|visited|..] == Ids(rest);
    assert Ids(kept + rest) == Ids(kept) + Ids(rest);
    if rest == [] { assert visited + UpTo(Ids(rest), stop) == visited; }
  }

  // ---- The walk inside the book ----

  /** The levels of one side, each with nodes of its own. */
  ghost predicate Apart(levels: map<Price, PriceLevel>)
    reads levels.Values
  {
    forall p, q :: p in levels && q in levels && p != q ==>
      levels[p] != levels[q] && forall n :: n in levels[p].nodes ==> n !in levels[q].nodes
  }

  /**
   * One pass of the inner loop of `_match` over the dictionary of one side: the level found at the start is
   * walked live, and leaves the dictionary once its last order is gone. The other levels stay as they are.
   */
  method WalkInBook(levels: map<Price, PriceLevel>, price: Price, drop: set<OrderId>, stop: set<OrderId>)
    returns (levels': map<Price, PriceLevel>, visited: seq<OrderId>)
    requires Apart(levels) && forall p :: p in levels ==> levels[p].Valid() && levels[p].nodes != []
    modifies if price in levels then {levels[price]} else {}, if price in levels then levels[price].nodes else []
    ensures price !in levels ==> visited == [] && levels' == levels
    ensures price in levels ==>
      && levels[price].Valid() && visited == UpTo(old(Ids(levels[price].nodes)), stop)
      && visited <= old(Ids(levels[price].nodes))
      && Ids(levels[price].nodes) == Kept(visited, drop) + old(Ids(levels[price].nodes))[|visited|..]
      && levels' == if levels[price].nodes == [] then levels - {price} else levels
    ensures forall p :: p in levels && p != price ==>
      p in levels' && levels[p].Valid() && levels[p].nodes == old(levels[p].nodes)
  {
    if price !in levels {
      return levels, [];
    }
    var level := levels[price];
    visited := WalkAndRemove(level, drop, stop);
    levels' := if level.head == null then levels - {price} else levels;
  }

  ghost predicate Within(inner: seq<PriceLevelNode>, outer: seq<PriceLevelNode>) {
    forall n | n in inner :: n in outer
  }

  /** One iteration: hand out `cur`, let the body remove it or not, then follow its `next`. */
  method Visit(level: PriceLevel, cur: PriceLevelNode, drop: set<OrderId>,
               ghost kept: seq<PriceLevelNode>, ghost rest: seq<PriceLevelNode>)
    returns (next: PriceLevelNode?, ghost kept': seq<PriceLevelNode>)
    requires level.Valid() && rest != [] && rest[0] == cur && level.nodes == kept + rest
    modifies level, level.nodes
    ensures level.Valid() && next == NodeAt(rest[1..], 0)
    ensures Within(level.nodes, old(level.nodes))
    ensures level.nodes == kept' + rest[1..]
    ensures Ids(kept') == Ids(kept) + (if cur.order in drop then [] else [cur.order])
  {
    Advance(kept, rest);
    assert cur == level.nodes[|kept|] && cur.next == NodeAt(rest, 1);
    if cur.order in drop {
      IndexIsUnique(level.nodes, level.tracker, |kept|);
      var r, at := level.Remove(cur.order);
      kept' := kept;
    } else {
      kept' := kept + [rest[0]];
    }
    next := cur.next;
  }

  lemma Advance<T>(kept: seq<T>, rest: seq<T>)
    requires rest != []
    ensures Cut(kept + rest, |kept|) == kept + rest[1..]
    ensures (kept + [rest[0]]) + rest[1..] == kept + rest
  {
  }

  lemma VisitedAdvance(visited: seq<OrderId>, rest: seq<PriceLevelNode>, drop: set<OrderId>)
    requires rest != []
    ensures visited + Ids(rest) == (visited + [rest[0].order]) + Ids(rest[1..])
    ensures Kept(visited + [rest[0].order], drop)
         == Kept(visited, drop) + (if rest[0].order in drop then [] else [rest[0].order])
  {
    assert (visited + [rest[0].order])[..|visited|] == visited;
  }

  lemma IndexIsUnique(nodes: seq<PriceLevelNode>, tracker: map<OrderId, PriceLevelNode>, i: int)
    requires NoDup(nodes) && Indexed(nodes, tracker) && 0 <= i < |nodes|
    ensures nodes[i].order in Ids(nodes)
    ensures forall j :: 0 <= j < |nodes| && nodes[j].order == nodes[i].order ==> j == i
  {
    assert Ids(nodes)[i] == nodes[i].order;
  }
}
