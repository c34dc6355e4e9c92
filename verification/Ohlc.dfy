/** OHLC bars: folding trades into one bar per timeframe, and rolling bars at period boundaries. */
module Ohlc {
  import opened Types

  datatype Bar = Bar(open: Price, high: Price, low: Price, close: Price, timestamp: int)

  datatype Trade = Trade(price: Price, timestamp: int)

  /** Seconds of the six timeframes, 1m to 1d. */
  const TIME_FRAMES: seq<int> := [60, 300, 900, 3600, 14400, 86400]

  /** `_get_bar_timestamp`. */
  function Bucket(timestamp: int, seconds: int): int
    requires seconds > 0
  {
    timestamp / seconds * seconds
  }

  /** An event that carries a price and a timestamp; zero counts as missing. */
  predicate Complete(t: Trade) { t.price != 0 && t.timestamp != 0 }

  function Fresh(price: Price, bucket: int): Bar { Bar(price, price, price, price, bucket) }

  /** `Bar.update`. */
  function Update(b: Bar, price: Price): Bar {
    Bar(b.open, if price > b.high then price else b.high, if price < b.low then price else b.low, price, b.timestamp)
  }

  /** One trade against the bar of one timeframe. */
  function OnTrade(bar: Option<Bar>, t: Trade, seconds: int): Bar
    requires seconds > 0
  {
    if bar.None? || bar.value.timestamp != Bucket(t.timestamp, seconds)
    then Fresh(t.price, Bucket(t.timestamp, seconds))
    else Update(bar.value, t.price)
  }

  /** The roll of `_persist_and_emit_bars`: the next bar opens flat at the last close. */
  function Roll(b: Bar, seconds: int): Bar { Bar(b.close, b.close, b.close, b.close, b.timestamp + seconds) }

  /** The builder of one symbol. */
  class OhlcBuilder {
    var bars: map<int, Bar>

    function BarOf(seconds: int): Option<Bar>
      reads this
    {
      if seconds in bars then Some(bars[seconds]) else None
    }

    constructor ()
      ensures bars == map[]
    {
      bars := map[];
    }

    /** `_handle_trade_event`: an event without price or timestamp is ignored, otherwise every bar sees it. */
    method HandleTradeEvent(t: Trade)
      modifies this
      ensures !Complete(t) ==> bars == old(bars)
      ensures Complete(t) ==>
        forall i :: 0 <= i < |TIME_FRAMES| ==>
          BarOf(TIME_FRAMES[i]) == Some(OnTrade(old(BarOf(TIME_FRAMES[i])), t, TIME_FRAMES[i]))
    {
      if t.price == 0 || t.timestamp == 0 {
        return;
      }
      for n := 0 to |TIME_FRAMES|
        invariant forall i :: 0 <= i < n ==>
          BarOf(TIME_FRAMES[i]) == Some(OnTrade(old(BarOf(TIME_FRAMES[i])), t, TIME_FRAMES[i]))
        invariant forall i :: n <= i < |TIME_FRAMES| ==> BarOf(TIME_FRAMES[i]) == old(BarOf(TIME_FRAMES[i]))
      {
        var seconds := TIME_FRAMES[n];
        var bucket := Bucket(t.timestamp, seconds);
        if seconds !in bars || bars[seconds].timestamp != bucket {
          bars := bars[seconds := Fresh(t.price, bucket)];
        } else {
          bars := bars[seconds := Update(bars[seconds], t.price)];
        }
      }
    }

    /** The roll at a boundary of one timeframe. */
    method RollBar(seconds: int)
      modifies this
      ensures bars == if seconds in old(bars)
                      then old(bars)[seconds := Roll(old(bars)[seconds], seconds)]
                      else old(bars)
      ensures seconds in old(bars) ==>
        && BarOf(seconds) == Some(Bar(old(bars)[seconds].close, old(bars)[seconds].close, old(bars)[seconds].close,
                                      old(bars)[seconds].close, old(bars)[seconds].timestamp + seconds))
        && forall s :: s != seconds ==> BarOf(s) == old(BarOf(s))
    {
      if seconds in bars {
        var bar := bars[seconds];
        bar := bar.(timestamp := bar.timestamp + seconds);
        bar := bar.(open := bar.close);
        bar := bar.(close := bar.open);
        bar := bar.(high := bar.open);
        bar := bar.(low := bar.open);
        bars := bars[seconds := bar];
      }
    }
  }

  // ---- What the fold computes ----

  /** The bar after a sequence of events, as the handler treats them. */
  function FoldEvents(events: seq<Trade>, seconds: int): Option<Bar>
    requires seconds > 0
  {
    if events == [] then None
    else
      var bar := FoldEvents(events[..|events| - 1], seconds);
      var t := events[|events| - 1];
      if Complete(t) then Some(OnTrade(bar, t, seconds)) else bar
  }

  /** The events that count. */
  function Trades(events: seq<Trade>): seq<Trade> {
    if events == [] then []
    else Trades(events[..|events| - 1]) + (if Complete(events[|events| - 1]) then [events[|events| - 1]] else [])
  }

  /** Incomplete events leave no trace. */
  lemma {:induction false} FoldsCompleteOnly(events: seq<Trade>, seconds: int)
    requires seconds > 0
    ensures FoldEvents(events, seconds) == FoldTrades(Trades(events), seconds)
  {
    if events != [] {
      var n := |events| - 1;
      FoldsCompleteOnly(events[..n], seconds);
      if Complete(events[n]) {
        assert Trades(events)[..|Trades(events)| - 1] == Trades(events[..n]);
      } else {
        assert Trades(events) == Trades(events[..n]);
      }
    }
  }

  function FoldTrades(trades: seq<Trade>, seconds: int): Option<Bar>
    requires seconds > 0
  {
    if trades == [] then None
    else Some(OnTrade(FoldTrades(trades[..|trades| - 1], seconds), trades[|trades| - 1], seconds))
  }

  /** The trades from `k` on are the longest run at the end that falls into the last trade's bucket. */
  ghost predicate LastRun(trades: seq<Trade>, seconds: int, k: int)
    requires seconds > 0
  {
    && 0 <= k < |trades|
    && var bucket := Bucket(trades[|trades| - 1].timestamp, seconds);
    && (forall i :: k <= i < |trades| ==> Bucket(trades[i].timestamp, seconds) == bucket)
    && (k > 0 ==> Bucket(trades[k - 1].timestamp, seconds) != bucket)
  }

  /** `b` is first, maximum, minimum and last price of the trades from `k` on. */
  ghost predicate Summarises(b: Bar, trades: seq<Trade>, seconds: int, k: int)
    requires seconds > 0 && 0 <= k < |trades|
  {
    && b.open == trades[k].price && b.close == trades[|trades| - 1].price
    && (forall i :: k <= i < |trades| ==> b.low <= trades[i].price <= b.high)
    && (exists i :: k <= i < |trades| && trades[i].price == b.high)
    && (exists i :: k <= i < |trades| && trades[i].price == b.low)
    && b.timestamp == Bucket(trades[|trades| - 1].timestamp, seconds)
  }

  /** Without rolls, a bar is exactly the summary of the last run of complete events in the current bucket. */
  lemma {:induction false} BarSummarisesLastRun(events: seq<Trade>, seconds: int) returns (k: int)
    requires seconds > 0
    ensures FoldEvents(events, seconds).None? <==> Trades(events) == []
    ensures Trades(events) != [] ==>
      && LastRun(Trades(events), seconds, k)
      && Summarises(FoldEvents(events, seconds).value, Trades(events), seconds, k)
  {
    FoldsCompleteOnly(events, seconds);
    k := 0;
    if Trades(events) != [] { k := FoldSummarises(Trades(events), seconds); }
  }

  lemma {:induction false} FoldSummarises(trades: seq<Trade>, seconds: int) returns (k: int)
    requires seconds > 0 && trades != []
    ensures LastRun(trades, seconds, k) && Summarises(FoldTrades(trades, seconds).value, trades, seconds, k)
  {
    var n := |trades| - 1;
    var older, last := trades[..n], trades[n];
    if n == 0 {
      k := 0;
    } else {
      var k0 := FoldSummarises(older, seconds);
      var before := FoldTrades(older, seconds).value;
      if before.timestamp == Bucket(last.timestamp, seconds) {
        k := k0;
        assert forall i :: k <= i < n ==> older[i] == trades[i];
        var hi :| k <= hi < n && older[hi].price == before.high;
        var lo :| k <= lo < n && older[lo].price == before.low;
        assert trades[hi].price == before.high && trades[lo].price == before.low;
        assert trades[n].price == last.price;
      } else {
        k := n;
        assert older[n - 1] == trades[n - 1];
      }
    }
  }

  datatype Step = TradeStep(trade: Trade) | RollStep

  function RunSteps(steps: seq<Step>, seconds: int): Option<Bar>
    requires seconds > 0
  {
    if steps == [] then None
    else
      var bar := RunSteps(steps[..|steps| - 1], seconds);
      match steps[|steps| - 1]
      case TradeStep(t) => if Complete(t) then Some(OnTrade(bar, t, seconds)) else bar
      case RollStep => if bar.None? then None else Some(Roll(bar.value, seconds))
  }

  /** The timestamp is a boundary of the timeframe: the start of its `n`-th period. */
  ghost predicate StartsPeriod(timestamp: int, seconds: int, n: int) { timestamp == n * seconds }

  ghost predicate WellFormed(b: Bar, seconds: int) {
    && b.low <= b.open <= b.high && b.low <= b.close <= b.high
    && exists n :: StartsPeriod(b.timestamp, seconds, n)
  }

  /** With trades and rolls in any order, a bar stays ordered and aligned to its timeframe. */
  lemma {:induction false} BarsStayWellFormed(steps: seq<Step>, seconds: int)
    requires seconds > 0
    ensures RunSteps(steps, seconds).Some? ==> WellFormed(RunSteps(steps, seconds).value, seconds)
  {
    if steps != [] {
      BarsStayWellFormed(steps[..|steps| - 1], seconds);
      var bar := RunSteps(steps[..|steps| - 1], seconds);
      match steps[|steps| - 1]
      case TradeStep(t) =>
        assert StartsPeriod(Bucket(t.timestamp, seconds), seconds, t.timestamp / seconds);
      case RollStep =>
        if bar.Some? {
          var n :| StartsPeriod(bar.value.timestamp, seconds, n);
          assert (n + 1) * seconds == n * seconds + seconds;
          assert StartsPeriod(bar.value.timestamp + seconds, seconds, n + 1);
        }
    }
  }

  // ---- With rolls ----

  /** The price of the last complete trade, if there was one. */
  function LastPrice(steps: seq<Step>): Option<Price> {
    if steps == [] then None
    else
      match steps[|steps| - 1]
      case TradeStep(t) => if Complete(t) then Some(t.price) else LastPrice(steps[..|steps| - 1])
      case RollStep => LastPrice(steps[..|steps| - 1])
  }

  /** There is a bar once there was a trade, and it closes at the last trade's price, rolled or not. */
  lemma {:induction false} ClosesAtLastPrice(steps: seq<Step>, seconds: int)
    requires seconds > 0
    ensures RunSteps(steps, seconds).None? <==> LastPrice(steps).None?
    ensures RunSteps(steps, seconds).Some? ==> LastPrice(steps) == Some(RunSteps(steps, seconds).value.close)
  {
    if steps != [] { ClosesAtLastPrice(steps[..|steps| - 1], seconds); }
  }

  /** A bar that has just been rolled is flat at the last trade's price and starts one period later. */
  lemma {:induction false} RolledBarIsFlat(steps: seq<Step>, seconds: int)
    requires seconds > 0 && LastPrice(steps).Some?
    ensures RunSteps(steps, seconds).Some? && RunSteps(steps + [RollStep], seconds).Some?
    ensures var p := LastPrice(steps).value;
      RunSteps(steps + [RollStep], seconds).value
      == Bar(p, p, p, p, RunSteps(steps, seconds).value.timestamp + seconds)
  {
    ClosesAtLastPrice(steps, seconds);
    assert (steps + [RollStep])[..|steps|] == steps;
  }

  /**
   * A complete trade leaves a bar whose period contains it. In the period a roll has opened, the bar still opens
   * at the last price before the roll; in any other it starts afresh.
   */
  lemma {:induction false} TradeAfterRoll(steps: seq<Step>, t: Trade, seconds: int)
    requires seconds > 0 && LastPrice(steps).Some? && Complete(t)
    ensures RunSteps(steps + [RollStep], seconds).Some? && RunSteps(steps + [RollStep] + [TradeStep(t)], seconds).Some?
    ensures var p, q := LastPrice(steps).value, t.price;
      var rolled, b := RunSteps(steps + [RollStep], seconds).value,
                       RunSteps(steps + [RollStep] + [TradeStep(t)], seconds).value;
      && b.timestamp <= t.timestamp < b.timestamp + seconds
      && b == if rolled.timestamp == b.timestamp
              then Bar(p, if q > p then q else p, if q < p then q else p, q, b.timestamp)
              else Bar(q, q, q, q, b.timestamp)
  {
    RolledBarIsFlat(steps, seconds);
    var all := steps + [RollStep] + [TradeStep(t)];
    assert all[..|all| - 1] == steps + [RollStep];
    BucketContains(t.timestamp, seconds);
  }

  lemma {:induction false} BucketContains(timestamp: int, seconds: int)
    requires seconds > 0
    ensures Bucket(timestamp, seconds) <= timestamp < Bucket(timestamp, seconds) + seconds
  {
    assert timestamp == (timestamp / seconds) * seconds + timestamp % seconds;
  }
}
