/** The fixed-window rate limiter and the bound it really gives over sliding intervals. */
module RateLimits {
  import opened Types

  /** A host's record: when its current window opened and how many requests it has let through. */
  datatype Window = Window(start: real, count: int)

  const NO_RECORD: Window := Window(0.0, 0)

  datatype Config = Config(limit: int, span: real)

  /** The window a request at `now` falls into. */
  function Current(cfg: Config, w: Window, now: real): Window {
    if now - w.start >= cfg.span then Window(now, 0) else w
  }

  predicate Accepts(cfg: Config, w: Window, now: real) { Current(cfg, w, now).count < cfg.limit }

  /** The record after a request; a refused request leaves it as it was. */
  function After(cfg: Config, w: Window, now: real): Window {
    if Accepts(cfg, w, now)
    then Window(Current(cfg, w, now).start, Current(cfg, w, now).count + 1)
    else w
  }

  class RateLimiter {
    const cfg: Config
    var records: map<string, Window>

    constructor (cfg: Config)
      ensures this.cfg == cfg && records == map[]
    {
      this.cfg, records := cfg, map[];
    }

    function Record(host: string): Window
      reads this
    {
      if host in records then records[host] else NO_RECORD
    }

    /**
     * One request. Anything but HTTP is passed on unseen; an HTTP request is refused without a host, and
     * otherwise decided and recorded for that host alone.
     */
    method Request(http: bool, host: string, now: real) returns (accepted: bool)
      modifies this
      ensures accepted <==> !http || (host != "" && Accepts(cfg, old(Record(host)), now))
      ensures http && host != "" ==> Record(host) == After(cfg, old(Record(host)), now)
      ensures forall h :: h != host || host == "" || !http ==> Record(h) == old(Record(h))
    {
      if !http {
        return true;
      }
      if host == "" {
        return false;
      }
      var start, count := Record(host).start, Record(host).count;
      if now - start >= cfg.span {
        start := now;
        count := 0;
      }
      if count >= cfg.limit {
        return false;
      }
      records := records[host := Window(start, count + 1)];
      accepted := true;
    }
  }

  /** How many of a host's requests are accepted at times in [lo, hi). */
  function AcceptedIn(cfg: Config, w: Window, times: seq<real>, lo: real, hi: real): nat
    decreases |times|
  {
    if times == [] then 0
    else
      (if Accepts(cfg, w, times[0]) && lo <= times[0] < hi then 1 else 0)
      + AcceptedIn(cfg, After(cfg, w, times[0]), times[1..], lo, hi)
  }

  ghost predicate Sorted(times: seq<real>) { forall i, j :: 0 <= i < j < |times| ==> times[i] <= times[j] }

  ghost predicate Sound(cfg: Config, w: Window) { cfg.span > 0.0 && 0 <= w.count <= cfg.limit }

  /** `k` spans. */
  function Spans(cfg: Config, k: nat): real { if k == 0 then 0.0 else Spans(cfg, k - 1) + cfg.span }

  lemma {:induction false} SpansAre(cfg: Config, k: nat)
    ensures Spans(cfg, k) == k as real * cfg.span
  {
    if k > 0 {
      SpansAre(cfg, k - 1);
      assert k as real * cfg.span == (k - 1) as real * cfg.span + cfg.span;
    }
  }

  lemma {:induction false} NoneAtOrAfter(cfg: Config, w: Window, times: seq<real>, lo: real, hi: real)
    requires Sorted(times) && (times != [] ==> times[0] >= hi)
    ensures AcceptedIn(cfg, w, times, lo, hi) == 0
    decreases |times|
  {
    if times != [] { NoneAtOrAfter(cfg, After(cfg, w, times[0]), times[1..], lo, hi); }
  }

  /** From a window opened at `w.start`, at most the rest of it and `j - 1` further windows fit before `hi`. */
  lemma {:induction false} FromWindow(cfg: Config, w: Window, times: seq<real>, lo: real, hi: real, j: nat)
    requires Sound(cfg, w) && Sorted(times) && j >= 1 && hi <= w.start + Spans(cfg, j)
    ensures AcceptedIn(cfg, w, times, lo, hi) <= cfg.limit - w.count + (j - 1) * cfg.limit
    decreases |times|
  {
    if times != [] {
      var t, rest := times[0], times[1..];
      if t >= hi {
        NoneAtOrAfter(cfg, w, times, lo, hi);
        assert (j - 1) * cfg.limit >= 0;
      } else if t - w.start >= cfg.span && cfg.limit > 0 {
        assert hi <= t + Spans(cfg, j - 1);
        FromWindow(cfg, After(cfg, w, t), rest, lo, hi, j - 1);
        assert (j - 1) * cfg.limit == (j - 2) * cfg.limit + cfg.limit;
      } else {
        FromWindow(cfg, After(cfg, w, t), rest, lo, hi, j);
      }
    }
  }

  /** Once the interval has begun, at most `k + 1` windows' worth is accepted in it. */
  lemma {:induction false} FromInside(cfg: Config, w: Window, times: seq<real>, lo: real, k: nat)
    requires Sound(cfg, w) && Sorted(times) && times != [] && lo <= times[0]
    ensures AcceptedIn(cfg, w, times, lo, lo + Spans(cfg, k)) <= (k + 1) * cfg.limit
  {
    var t, rest, hi := times[0], times[1..], lo + Spans(cfg, k);
    if t >= hi {
      NoneAtOrAfter(cfg, w, times, lo, hi);
      assert (k + 1) * cfg.limit >= 0;
    } else if t - w.start >= cfg.span && cfg.limit > 0 {
      assert k >= 1;
      FromWindow(cfg, After(cfg, w, t), rest, lo, hi, k);
      assert (k + 1) * cfg.limit == (k - 1) * cfg.limit + 2 * cfg.limit;
    } else if t - w.start >= cfg.span {
      NothingAllowed(cfg, w, times, lo, hi);
    } else {
      FromWindow(cfg, w, times, lo, hi, k + 1);
      assert (k + 1) * cfg.limit == k * cfg.limit + cfg.limit;
    }
  }

  lemma {:induction false} NothingAllowed(cfg: Config, w: Window, times: seq<real>, lo: real, hi: real)
    requires cfg.limit <= 0 && w.count >= cfg.limit
    ensures AcceptedIn(cfg, w, times, lo, hi) == 0
    decreases |times|
  {
    if times != [] { NothingAllowed(cfg, w, times[1..], lo, hi); }
  }

  /**
   * For a clock that never runs backwards and any sequence of requests of one host, at most (k+1) times
   * the limit is accepted in any half-open interval of k spans.
   */
  lemma {:induction false} SlidingBound(cfg: Config, w: Window, times: seq<real>, lo: real, k: nat)
    requires Sound(cfg, w) && Sorted(times)
    ensures AcceptedIn(cfg, w, times, lo, lo + k as real * cfg.span) <= (k + 1) * cfg.limit
  {
    SpansAre(cfg, k);
    BoundBySpans(cfg, w, times, lo, k);
  }

  lemma {:induction false} BoundBySpans(cfg: Config, w: Window, times: seq<real>, lo: real, k: nat)
    requires Sound(cfg, w) && Sorted(times)
    ensures AcceptedIn(cfg, w, times, lo, lo + Spans(cfg, k)) <= (k + 1) * cfg.limit
    decreases |times|
  {
    if times == [] {
      assert (k + 1) * cfg.limit >= 0;
    } else if times[0] < lo {
      BoundBySpans(cfg, After(cfg, w, times[0]), times[1..], lo, k);
    } else {
      FromInside(cfg, w, times, lo, k);
    }
  }

  /** In one span at most twice the limit, starting from no record at all. */
  lemma {:induction false} TwiceTheLimit(cfg: Config, times: seq<real>, lo: real)
    requires cfg.span > 0.0 && cfg.limit >= 0 && Sorted(times)
    ensures AcceptedIn(cfg, NO_RECORD, times, lo, lo + cfg.span) <= 2 * cfg.limit
  {
    SlidingBound(cfg, NO_RECORD, times, lo, 1);
  }

  /** `n` requests at one moment. */
  function Burst(t: real, n: nat): seq<real> { if n == 0 then [] else [t] + Burst(t, n - 1) }

  lemma {:induction false} BurstTimes(t: real, n: nat)
    ensures |Burst(t, n)| == n && forall i :: 0 <= i < n ==> Burst(t, n)[i] == t
  {
    if n > 0 { BurstTimes(t, n - 1); }
  }

  /** A burst that fits into the current window is accepted whole. */
  lemma {:induction false} BurstAccepted(cfg: Config, w: Window, t: real, n: nat, rest: seq<real>, lo: real, hi: real)
    requires t - w.start < cfg.span && w.count + n <= cfg.limit && lo <= t < hi
    ensures AcceptedIn(cfg, w, Burst(t, n) + rest, lo, hi)
         == n + AcceptedIn(cfg, Window(w.start, w.count + n), rest, lo, hi)
    decreases n
  {
    if n == 0 {
      assert Burst(t, n) + rest == rest;
    } else {
      assert (Burst(t, n) + rest)[1..] == Burst(t, n - 1) + rest;
      BurstAccepted(cfg, Window(w.start, w.count + 1), t, n - 1, rest, lo, hi);
    }
  }

  /** ... and for every limit and window the bound is reached: a burst late in one window, one as the next opens. */
  lemma {:induction false} TwiceIsReached(cfg: Config)
    requires cfg.span > 0.0 && cfg.limit >= 0
    ensures var times := Burst(cfg.span / 2.0, cfg.limit) + Burst(cfg.span, cfg.limit);
      && Sorted(times)
      && AcceptedIn(cfg, NO_RECORD, times, cfg.span / 2.0, cfg.span / 2.0 + cfg.span) == 2 * cfg.limit
  {
    var n, early, late := cfg.limit, cfg.span / 2.0, cfg.span;
    var hi := early + cfg.span;
    BurstTimes(early, n);
    BurstTimes(late, n);
    BurstAccepted(cfg, NO_RECORD, early, n, Burst(late, n), early, hi);
    if n > 0 {
      var next := Window(late, 1);
      assert After(cfg, Window(0.0, n), late) == next;
      assert Burst(late, n)[1..] == Burst(late, n - 1) == Burst(late, n - 1) + [];
      BurstAccepted(cfg, next, late, n - 1, [], early, hi);
    }
  }

  // ---- Nobody is refused without reason ----

  /** The record after a sequence of requests. */
  function RecordAfter(cfg: Config, w: Window, times: seq<real>): Window
    decreases |times|
  {
    if times == [] then w else RecordAfter(cfg, After(cfg, w, times[0]), times[1..])
  }

  /** How many of the requests are accepted later than `t`. */
  function AcceptedSince(cfg: Config, w: Window, times: seq<real>, t: real): nat
    decreases |times|
  {
    if times == [] then 0
    else
      (if Accepts(cfg, w, times[0]) && times[0] > t then 1 else 0)
      + AcceptedSince(cfg, After(cfg, w, times[0]), times[1..], t)
  }

  /** A window that opened after `t` counts only requests accepted after `t`. */
  lemma {:induction false} CountedSince(cfg: Config, w: Window, times: seq<real>, t: real)
    requires Sorted(times) && w.count >= 0 && forall i :: 0 <= i < |times| ==> times[i] >= w.start
    ensures var w' := RecordAfter(cfg, w, times);
      w'.start > t ==> w'.count <= (if w.start > t then w.count else 0) + AcceptedSince(cfg, w, times, t)
    decreases |times|
  {
    if times != [] { CountedSince(cfg, After(cfg, w, times[0]), times[1..], t); }
  }

  /**
   * For a clock that starts at zero or later and never runs backwards: whatever a host has requested before, a
   * request is let through whenever fewer than the limit were let through within the span before it.
   */
  lemma {:induction false} RefusedOnlyIfBusy(cfg: Config, times: seq<real>, now: real)
    requires Sorted(times + [now]) && forall i :: 0 <= i < |times| ==> times[i] >= 0.0
    requires AcceptedSince(cfg, NO_RECORD, times, now - cfg.span) < cfg.limit
    ensures Accepts(cfg, RecordAfter(cfg, NO_RECORD, times), now)
  {
    forall i, j | 0 <= i < j < |times|
      ensures times[i] <= times[j]
    {
      assert (times + [now])[i] <= (times + [now])[j];
    }
    CountedSince(cfg, NO_RECORD, times, now - cfg.span);
  }
}
