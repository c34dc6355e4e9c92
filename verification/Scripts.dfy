/** The stored Lua scripts: every update is guarded by the event id it is logged under. */
module Scripts {
  import opened Types
  import opened Collections

  type EventId = int

  /** The stored values; each has a log hash of its own, named after it. */
  datatype Key =
    | CashBalance(user: UserId)
    | CashEscrow(user: UserId)
    | AssetBalance(user: UserId)
    | AssetEscrow(user: UserId)

  datatype Store = Store(values: map<Key, int>, logs: map<Key, set<EventId>>) {
    function Value(k: Key): int { if k in values then values[k] else 0 }

    function Log(k: Key): set<EventId> { if k in logs then logs[k] else {} }
  }

  /** One guarded update: INCRBYFLOAT and HSET unless the event id is in the log already. */
  datatype Delivery = Delivery(key: Key, event: EventId, delta: int)

  function Deliver(s: Store, d: Delivery): Store {
    if d.event in s.Log(d.key) then s
    else Store(s.values[d.key := s.Value(d.key) + d.delta], s.logs[d.key := s.Log(d.key) + {d.event}])
  }

  function DeliverAll(s: Store, ds: seq<Delivery>): Store {
    if ds == [] then s else Deliver(DeliverAll(s, ds[..|ds| - 1]), ds[|ds| - 1])
  }

  /** The three guarded updates of LUA_SETTLE_ASK, in order. */
  function AskDeliveries(u: UserId, q: int, p: Price, escrowId: EventId, assetId: EventId,
                         cashId: EventId): seq<Delivery>
  {
    [Delivery(AssetEscrow(u), escrowId, -q),
     Delivery(AssetBalance(u), assetId, -q),
     Delivery(CashBalance(u), cashId, q * p)]
  }

  /** The three guarded updates of LUA_SETTLE_BID, in order. */
  function BidDeliveries(u: UserId, q: int, p: Price, escrowId: EventId, cashId: EventId,
                         assetId: EventId): seq<Delivery>
  {
    [Delivery(CashEscrow(u), escrowId, -(q * p)),
     Delivery(CashBalance(u), cashId, -(q * p)),
     Delivery(AssetBalance(u), assetId, q)]
  }

  /** Each event id stands for one fixed amount at each key. */
  ghost predicate Consistent(ds: seq<Delivery>) {
    forall i, j :: 0 <= i < |ds| && 0 <= j < |ds| && ds[i].key == ds[j].key && ds[i].event == ds[j].event ==>
      ds[i].delta == ds[j].delta
  }

  /** The distinct new events delivered for a key, with their amounts. */
  function NewDeltas(s: Store, ds: seq<Delivery>, k: Key): map<EventId, int> {
    if ds == [] then map[]
    else
      var d := ds[|ds| - 1];
      var older := NewDeltas(s, ds[..|ds| - 1], k);
      if d.key == k && d.event !in s.Log(k) then older[d.event := d.delta] else older
  }

  lemma {:induction false} NewDeltasFrom(s: Store, ds: seq<Delivery>, k: Key, e: EventId)
    requires Consistent(ds)
    ensures e in NewDeltas(s, ds, k)
       <==> e !in s.Log(k) && exists i :: 0 <= i < |ds| && ds[i].key == k && ds[i].event == e
    ensures forall i :: 0 <= i < |ds| && ds[i].key == k && ds[i].event == e && e !in s.Log(k) ==>
      e in NewDeltas(s, ds, k) && NewDeltas(s, ds, k)[e] == ds[i].delta
  {
    if ds != [] {
      var n := |ds| - 1;
      var older := ds[..n];
      NewDeltasFrom(s, older, k, e);
      if i :| 0 <= i < |ds| && ds[i].key == k && ds[i].event == e {
        if i < n { assert older[i] == ds[i]; }
      }
      forall i | 0 <= i < |ds| && ds[i].key == k && ds[i].event == e && e !in s.Log(k)
        ensures e in NewDeltas(s, ds, k) && NewDeltas(s, ds, k)[e] == ds[i].delta
      {
        if i < n { assert older[i] == ds[i]; }
      }
    }
  }

  /**
   * Delivered in any order and any number of times, every value ends as its initial value plus the
   * amounts of the distinct new events, and every log as its initial log plus those events.
   */
  lemma {:induction false} Idempotent(s: Store, ds: seq<Delivery>, k: Key)
    requires Consistent(ds)
    ensures DeliverAll(s, ds).Value(k) == s.Value(k) + SumMap(NewDeltas(s, ds, k))
    ensures DeliverAll(s, ds).Log(k) == s.Log(k) + NewDeltas(s, ds, k).Keys
  {
    if ds != [] {
      var n := |ds| - 1;
      var older, d := ds[..n], ds[n];
      Idempotent(s, older, k);
      if d.key == k && d.event !in s.Log(k) {
        SumMapUpdate(NewDeltas(s, older, k), d.event, d.delta);
        NewDeltasFrom(s, ds, k, d.event);
        NewDeltasFrom(s, older, k, d.event);
        if d.event in NewDeltas(s, older, k) { RepeatedAmount(s, ds, k); }
      }
    }
  }

  lemma {:induction false} RepeatedAmount(s: Store, ds: seq<Delivery>, k: Key)
    requires Consistent(ds) && ds != [] && ds[|ds| - 1].key == k
    requires ds[|ds| - 1].event in NewDeltas(s, ds[..|ds| - 1], k)
    ensures NewDeltas(s, ds[..|ds| - 1], k)[ds[|ds| - 1].event] == ds[|ds| - 1].delta
  {
    var n := |ds| - 1;
    var older, d := ds[..n], ds[n];
    NewDeltasFrom(s, older, k, d.event);
    var i :| 0 <= i < n && older[i].key == k && older[i].event == d.event;
    assert older[i] == ds[i];
  }

  /** Two delivery lists with the same members leave the same values and logs. */
  lemma {:induction false} AnyOrder(s: Store, ds: seq<Delivery>, ds': seq<Delivery>, k: Key)
    requires Consistent(ds) && Consistent(ds') && (forall d :: d in ds <==> d in ds')
    ensures DeliverAll(s, ds).Value(k) == DeliverAll(s, ds').Value(k)
    ensures DeliverAll(s, ds).Log(k) == DeliverAll(s, ds').Log(k)
  {
    Idempotent(s, ds, k);
    Idempotent(s, ds', k);
    var m, m' := NewDeltas(s, ds, k), NewDeltas(s, ds', k);
    forall e
      ensures e in m ==> e in m' && m'[e] == m[e]
      ensures e in m' ==> e in m
    {
      SameDelta(s, ds, ds', k, e);
      SameDelta(s, ds', ds, k, e);
    }
    assert m.Keys == m'.Keys;
    MapsEqual(m, m');
  }

  lemma {:induction false} SameDelta(s: Store, ds: seq<Delivery>, ds': seq<Delivery>, k: Key, e: EventId)
    requires Consistent(ds) && Consistent(ds') && (forall d :: d in ds ==> d in ds')
    ensures e in NewDeltas(s, ds, k) ==> e in NewDeltas(s, ds', k) && NewDeltas(s, ds', k)[e] == NewDeltas(s, ds, k)[e]
  {
    NewDeltasFrom(s, ds, k, e);
    NewDeltasFrom(s, ds', k, e);
    if e in NewDeltas(s, ds, k) {
      var i :| 0 <= i < |ds| && ds[i].key == k && ds[i].event == e;
      assert ds[i] in ds';
      var j :| 0 <= j < |ds'| && ds'[j] == ds[i];
    }
  }

  lemma {:induction false} StaysConsistent(ds: seq<Delivery>, again: seq<Delivery>)
    requires Consistent(ds) && forall d :: d in again ==> d in ds
    ensures Consistent(ds + again)
  {
    var all := ds + again;
    forall i, j | 0 <= i < |all| && 0 <= j < |all| && all[i].key == all[j].key && all[i].event == all[j].event
      ensures all[i].delta == all[j].delta
    {
      assert all[i] in ds && all[j] in ds;
      var k :| 0 <= k < |ds| && ds[k] == all[i];
      var l :| 0 <= l < |ds| && ds[l] == all[j];
    }
  }

  /** A retry of anything already delivered, however late, in whatever pieces, changes nothing. */
  lemma {:induction false} RetryChangesNothing(s: Store, ds: seq<Delivery>, again: seq<Delivery>, k: Key)
    requires Consistent(ds) && forall d :: d in again ==> d in ds
    ensures DeliverAll(s, ds + again).Value(k) == DeliverAll(s, ds).Value(k)
    ensures DeliverAll(s, ds + again).Log(k) == DeliverAll(s, ds).Log(k)
  {
    StaysConsistent(ds, again);
    AnyOrder(s, ds + again, ds, k);
  }

  /** In particular a whole settlement script, run again after any other traffic. */
  lemma {:induction false} SettlementRetried(s: Store, ds: seq<Delivery>, script: seq<Delivery>, k: Key)
    requires Consistent(ds) && script <= ds && IsSettlement(script)
    ensures DeliverAll(s, ds + script).Value(k) == DeliverAll(s, ds).Value(k)
    ensures DeliverAll(s, ds + script).Log(k) == DeliverAll(s, ds).Log(k)
  {
    forall d | d in script
      ensures d in ds
    {
      var i :| 0 <= i < |script| && script[i] == d;
      assert ds[i] == d;
    }
    RetryChangesNothing(s, ds, script, k);
  }

  /** The deliveries of one settlement script. */
  ghost predicate IsSettlement(ds: seq<Delivery>) {
    exists u, q, p, x, y, z :: ds == AskDeliveries(u, q, p, x, y, z) || ds == BidDeliveries(u, q, p, x, y, z)
  }
}
