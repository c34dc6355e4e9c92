/** When the shadow takes snapshots, in plain numbers, and which queues it refuses. */
module Schedule {
  import opened Types
  import opened EngineSpec
  import opened Invariants
  import opened Matching
  import opened Runs
  import opened Safety
  import opened Replay
  import opened Shadow

  /** A snapshot follows every `Period` commands; an interval of zero would work like one. */
  function Period(interval: nat): (k: nat)
    ensures k > 0
  {
    if interval > 1 then interval else 1
  }

  // ---- Arithmetic ----

  lemma {:induction false} AtLeastOnce(d: int, k: int)
    requires d >= 1 && k > 0
    ensures d * k >= k
  {
    assert d * k == (d - 1) * k + k;
  }

  lemma {:induction false} DivisionIs(n: nat, k: nat, q: int, r: int)
    requires k > 0 && n == q * k + r && 0 <= r < k
    ensures n / k == q && n % k == r
  {
    var d := n / k - q;
    assert d * k == (n / k) * k - q * k == r - n % k;
    if d >= 1 {
      AtLeastOnce(d, k);
    } else if d <= -1 {
      AtLeastOnce(-d, k);
    }
  }

  /** Counting to `k` again and again counts the remainder and the quotient. */
  lemma {:induction false} OneMore(n: nat, k: nat)
    requires n > 0 && k > 0
    ensures (n - 1) % k + 1 == k ==> n % k == 0 && n / k == (n - 1) / k + 1 && n == (n / k) * k
    ensures (n - 1) % k + 1 < k ==> n % k == (n - 1) % k + 1 && n / k == (n - 1) / k
  {
    var q, r := (n - 1) / k, (n - 1) % k;
    assert n - 1 == q * k + r;
    if r + 1 == k {
      assert (q + 1) * k == q * k + k;
      DivisionIs(n, k, q + 1, 0);
    } else {
      DivisionIs(n, k, q, r + 1);
    }
  }

  lemma {:induction false} CountIsRemainder(n: nat, interval: nat)
    ensures CountAfter(n, interval) == n % Period(interval)
    ensures Due(n, interval) <==> n > 0 && n % Period(interval) == 0
  {
    if n > 0 {
      CountIsRemainder(n - 1, interval);
      OneMore(n, Period(interval));
    }
  }

  // ---- Snapshots ----

  /** The snapshot is the main engine's core after its first `n` commands, with the offset of the last of them. */
  ghost predicate TakenAfter(e: Engine, cmds: seq<Command>, offsets: seq<int>, n: int, s: Snapshot)
    requires |offsets| == |cmds|
  {
    && 0 < n <= |cmds| && s.offset == offsets[n - 1]
    && Run(e, cmds[..n]).Ok? && s.core == Run(e, cmds[..n]).value.core
  }

  ghost predicate OnSchedule(e: Engine, cmds: seq<Command>, offsets: seq<int>, k: nat, snapshots: seq<Snapshot>)
    requires |offsets| == |cmds| && k > 0
  {
    && |snapshots| == |cmds| / k
    && forall j :: 0 <= j < |snapshots| ==> TakenAfter(e, cmds, offsets, (j + 1) * k, snapshots[j])
  }

  lemma {:induction false} TakenBefore(e: Engine, cmds: seq<Command>, offsets: seq<int>, n: int, s: Snapshot)
    requires |offsets| == |cmds| && cmds != []
    requires TakenAfter(e, cmds[..|cmds| - 1], offsets[..|cmds| - 1], n, s)
    ensures TakenAfter(e, cmds, offsets, n, s)
  {
    assert cmds[..|cmds| - 1][..n] == cmds[..n];
  }

  /** One more snapshot, or none, as the count says. */
  lemma {:induction false} ScheduleMore(e: Engine, cmds: seq<Command>, offsets: seq<int>, k: nat,
                                        older: seq<Snapshot>, newer: seq<Snapshot>)
    requires |offsets| == |cmds| && k > 0 && cmds != [] && Run(e, cmds).Ok?
    requires OnSchedule(e, cmds[..|cmds| - 1], offsets[..|cmds| - 1], k, older)
    requires newer == if (|cmds| - 1) % k + 1 < k then older
                      else older + [Snapshot(Run(e, cmds).value.core, offsets[|cmds| - 1])]
    ensures OnSchedule(e, cmds, offsets, k, newer)
  {
    var n := |cmds|;
    OneMore(n, k);
    forall j | 0 <= j < |newer|
      ensures TakenAfter(e, cmds, offsets, (j + 1) * k, newer[j])
    {
      if j < |older| {
        TakenBefore(e, cmds, offsets, (j + 1) * k, older[j]);
      } else {
        assert cmds[..n] == cmds;
      }
    }
  }

  /** What replaying one more command of a passing run does to the snapshots. */
  lemma {:induction false} ReplayedSnapshots(e: Engine, cmds: seq<Command>, offsets: seq<int>, interval: nat,
                                             s: Replica, s': Replica)
    requires |offsets| == |cmds| && cmds != [] && PassingRun(e, cmds)
    requires var n := |cmds| - 1;
      Shadowed(e, cmds[..n], offsets[..n], interval) == Ok(s) && Shadowed(e, cmds, offsets, interval) == Ok(s')
    ensures var n := |cmds| - 1;
      s'.snapshots == if n % Period(interval) + 1 < Period(interval) then s.snapshots
                      else s.snapshots + [Snapshot(Run(e, cmds).value.core, offsets[n])]
  {
    var n := |cmds| - 1;
    PassSplits(e, cmds);
    RunKeeps(e, cmds[..n]);
    PassingNoOco(e, cmds[..n]);
    ShadowFollows(e, cmds[..n], offsets[..n], interval);
    var mid := Run(e, cmds[..n]).value;
    CommandFollowed(mid, cmds[n]);
    ShadowedMore(e, cmds, offsets, interval);
    CountIsRemainder(n, interval);
    assert s.count == n % Period(interval) && s.core == mid.core;
  }

  /**
   * Exactly every `k`-th command of a passing run is followed by a snapshot, for `k` the interval and at least
   * one: after `n` commands there are `n / k`, and number `j` holds the main engine's core after `(j + 1) * k`
   * commands with the offset of the last of them.
   */
  lemma {:induction false} SnapshotsOnSchedule(e: Engine, cmds: seq<Command>, offsets: seq<int>, interval: nat)
    requires |offsets| == |cmds| && PassingRun(e, cmds) && Shadowed(e, cmds, offsets, interval).Ok?
    ensures OnSchedule(e, cmds, offsets, Period(interval), Shadowed(e, cmds, offsets, interval).value.snapshots)
  {
    var s' := Shadowed(e, cmds, offsets, interval).value;
    if cmds == [] {
      assert MainStream(e, cmds, offsets) == [];
    } else {
      var n := |cmds| - 1;
      PassSplits(e, cmds);
      ShadowedMore(e, cmds, offsets, interval);
      var s := Shadowed(e, cmds[..n], offsets[..n], interval).value;
      SnapshotsOnSchedule(e, cmds[..n], offsets[..n], interval);
      ReplayedSnapshots(e, cmds, offsets, interval, s, s');
      ScheduleMore(e, cmds, offsets, Period(interval), s.snapshots, s'.snapshots);
    }
  }

  /** After the first `n` commands some order in the store is no SINGLE order. */
  ghost predicate HoldsGroup(e: Engine, cmds: seq<Command>, n: int)
    requires 0 <= n <= |cmds|
  {
    var r := Run(e, cmds[..n]);
    r.Ok? && exists id :: id in r.value.core.store && !r.value.core.Get(id).strategy.Single?
  }

  /** ... and it raises exactly if an order of a group is stored after one of those commands. */
  lemma {:induction false} ShadowRaisesIff(e: Engine, cmds: seq<Command>, offsets: seq<int>, interval: nat)
    requires |offsets| == |cmds| && PassingRun(e, cmds)
    ensures Shadowed(e, cmds, offsets, interval).Raised? <==>
      exists n :: 0 < n <= |cmds| && HoldsGroup(e, cmds, n) && n % Period(interval) == 0
  {
    ShadowFollows(e, cmds, offsets, interval);
    StorableIff(e, cmds, interval);
  }

  /** No order of a group is stored after any `k`-th command. */
  ghost predicate AllClear(e: Engine, cmds: seq<Command>, k: nat)
    requires k > 0
  {
    forall n :: 0 < n <= |cmds| && HoldsGroup(e, cmds, n) ==> n % k != 0
  }

  lemma {:induction false} ClearMore(e: Engine, cmds: seq<Command>, k: nat)
    requires k > 0 && cmds != []
    ensures AllClear(e, cmds, k)
      <==> AllClear(e, cmds[..|cmds| - 1], k) && (HoldsGroup(e, cmds, |cmds|) ==> |cmds| % k != 0)
  {
    var older := cmds[..|cmds| - 1];
    if AllClear(e, cmds, k) {
      forall n | 0 < n <= |older| && HoldsGroup(e, older, n)
        ensures n % k != 0
      {
        EarlierHolds(e, cmds, n);
      }
    }
    if AllClear(e, older, k) && (HoldsGroup(e, cmds, |cmds|) ==> |cmds| % k != 0) {
      forall n | 0 < n <= |cmds| && HoldsGroup(e, cmds, n)
        ensures n % k != 0
      {
        if n < |cmds| { EarlierHolds(e, cmds, n); }
      }
    }
  }

  lemma {:induction false} StorableIff(e: Engine, cmds: seq<Command>, interval: nat)
    ensures SnapshotsStorable(e, cmds, interval) <==> AllClear(e, cmds, Period(interval))
  {
    if cmds != [] {
      StorableIff(e, cmds[..|cmds| - 1], interval);
      CountIsRemainder(|cmds|, interval);
      LastHolds(e, cmds);
      ClearMore(e, cmds, Period(interval));
    }
  }

  lemma {:induction false} EarlierHolds(e: Engine, cmds: seq<Command>, n: nat)
    requires n < |cmds|
    ensures HoldsGroup(e, cmds[..|cmds| - 1], n) == HoldsGroup(e, cmds, n)
  {
    assert cmds[..|cmds| - 1][..n] == cmds[..n];
  }

  lemma {:induction false} LastHolds(e: Engine, cmds: seq<Command>)
    ensures HoldsGroup(e, cmds, |cmds|) <==> Run(e, cmds).Ok? && !Storable(Run(e, cmds).value.core)
  {
    assert cmds[..|cmds|] == cmds;
  }

  // ---- Marks that do not match ----

  /** The command received at `j` is still open: nothing but log events followed. */
  ghost predicate Open(stream: seq<StreamEvent>, j: int) {
    0 <= j < |stream| && stream[j].CommandReceived? && forall k :: j < k < |stream| ==> stream[k].Logged?
  }

  lemma {:induction false} OpenMore(stream: seq<StreamEvent>, ev: StreamEvent, j: int)
    ensures ev.Logged? ==> (Open(stream + [ev], j) <==> Open(stream, j))
    ensures ev.CommandReceived? ==> (Open(stream + [ev], j) <==> j == |stream|)
    ensures ev.CommandProcessed? ==> !Open(stream + [ev], j)
  {
    var more := stream + [ev];
    assert more[|stream|] == ev;
    assert forall k :: 0 <= k < |stream| ==> more[k] == stream[k];
  }

  /** What is pending is what was received last, unless it has been completed. */
  ghost predicate IsOpen(stream: seq<StreamEvent>, pending: Option<Pending>) {
    match pending
    case None => forall j :: !Open(stream, j)
    case Some(cmd) =>
      && (exists j :: Open(stream, j))
      && (forall j :: Open(stream, j) ==> stream[j] == CommandReceived(cmd.id, cmd.command, cmd.offset))
  }

  /** The pending command after one more event, unless that raises. */
  function PendingAfter(pending: Option<Pending>, ev: StreamEvent): Option<Pending> {
    match ev
    case CommandReceived(id, command, offset) => Some(Pending(id, command, offset))
    case CommandProcessed(_) => None
    case Logged(_) => pending
  }

  lemma {:induction false} IsOpenMore(stream: seq<StreamEvent>, pending: Option<Pending>, ev: StreamEvent)
    requires IsOpen(stream, pending)
    ensures IsOpen(stream + [ev], PendingAfter(pending, ev))
  {
    var more := stream + [ev];
    forall j
      ensures ev.Logged? ==> (Open(more, j) <==> Open(stream, j))
      ensures ev.CommandReceived? ==> (Open(more, j) <==> j == |stream|)
      ensures ev.CommandProcessed? ==> !Open(more, j)
    {
      OpenMore(stream, ev, j);
    }
    if ev.Logged? && pending.Some? {
      var j :| Open(stream, j);
      assert Open(more, j);
    }
    if ev.CommandReceived? { assert Open(more, |stream|); }
  }

  lemma {:induction false} PendingIsOpen(s: Replica, interval: nat, stream: seq<StreamEvent>)
    requires s.pending.None? && ConsumeAll(s, interval, stream).Ok?
    ensures IsOpen(stream, ConsumeAll(s, interval, stream).value.pending)
  {
    if stream != [] {
      var n := |stream| - 1;
      PendingIsOpen(s, interval, stream[..n]);
      assert stream == stream[..n] + [stream[n]];
      var older := ConsumeAll(s, interval, stream[..n]).value;
      ConsumePending(older, interval, stream[n]);
      IsOpenMore(stream[..n], older.pending, stream[n]);
    }
  }

  lemma {:induction false} ConsumePending(s: Replica, interval: nat, ev: StreamEvent)
    requires Consume(s, interval, ev).Ok?
    ensures Consume(s, interval, ev).value.pending == PendingAfter(s.pending, ev)
  {
  }

  /** A completion mark without an open command is a TypeError, one for another command a ValueError. */
  lemma {:induction false} MarksMustMatch(s: Replica, interval: nat, stream: seq<StreamEvent>, id: int)
    requires s.pending.None? && ConsumeAll(s, interval, stream).Ok?
    ensures (forall j :: !Open(stream, j)) ==>
      ConsumeAll(s, interval, stream + [CommandProcessed(id)]) == Raised(TypeError)
    ensures (exists j :: Open(stream, j) && stream[j].id != id) ==>
      ConsumeAll(s, interval, stream + [CommandProcessed(id)]) == Raised(ValueError)
  {
    PendingIsOpen(s, interval, stream);
    assert (stream + [CommandProcessed(id)])[..|stream|] == stream;
  }

  /** The batch ends with everything logged since the open command; without one it is empty. */
  ghost predicate BatchIs(stream: seq<StreamEvent>, pending: Option<Pending>, batch: seq<Event>) {
    && (pending.None? ==> batch == [])
    && (forall j :: Open(stream, j) ==>
          && |stream| - 1 - j <= |batch|
          && stream[j + 1..] == Wrapped(batch[|batch| - (|stream| - 1 - j)..]))
  }

  lemma {:induction false} BatchMore(stream: seq<StreamEvent>, s: Replica, interval: nat, ev: StreamEvent)
    requires IsOpen(stream, s.pending) && BatchIs(stream, s.pending, s.batch) && Consume(s, interval, ev).Ok?
    ensures BatchIs(stream + [ev], Consume(s, interval, ev).value.pending, Consume(s, interval, ev).value.batch)
  {
    var more, s' := stream + [ev], Consume(s, interval, ev).value;
    forall j | Open(more, j)
      ensures |more| - 1 - j <= |s'.batch|
      ensures more[j + 1..] == Wrapped(s'.batch[|s'.batch| - (|more| - 1 - j)..])
    {
      OpenMore(stream, ev, j);
      if ev.Logged? {
        var n := |stream| - 1 - j;
        assert more[j + 1..] == stream[j + 1..] + [ev];
        assert s'.batch[|s'.batch| - (n + 1)..] == s.batch[|s.batch| - n..] + [ev.event];
      }
    }
  }

  /** What is logged while no command is open leaves no trace; while one is, the batch ends with all that was logged. */
  lemma {:induction false} BatchIsSinceReceived(s: Replica, interval: nat, stream: seq<StreamEvent>)
    requires s.pending.None? && s.batch == [] && ConsumeAll(s, interval, stream).Ok?
    ensures var r := ConsumeAll(s, interval, stream).value; BatchIs(stream, r.pending, r.batch)
  {
    if stream != [] {
      var n := |stream| - 1;
      BatchIsSinceReceived(s, interval, stream[..n]);
      PendingIsOpen(s, interval, stream[..n]);
      BatchMore(stream[..n], ConsumeAll(s, interval, stream[..n]).value, interval, stream[n]);
      assert stream == stream[..n] + [stream[n]];
    }
  }
}
