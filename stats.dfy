/** The rolling latency statistics collector: two bounded FIFO windows of latency samples
    (inbound endpoint calls and upstream calls), two unbounded call counters, and the
    summary figures computed from them on demand. */
module Stats {
  import opened CatalogTypes

  /** The number of most recent samples each window keeps. */
  const Capacity: nat := 1000

  function Min(a: int, b: int): int { if a <= b then a else b }

  /** The sum of the samples. */
  function Sum(s: seq<int>): int {
    if |s| == 0 then 0 else s[0] + Sum(s[1..])
  }

  /** The largest sample. */
  function MaxOf(s: seq<int>): (r: int)
    requires |s| > 0
    ensures r in s
    ensures forall x :: x in s ==> x <= r
  {
    if |s| == 1 then s[0]
    else
      var m := MaxOf(s[1..]);
      assert s == [s[0]] + s[1..];
      if s[0] >= m then s[0] else m
  }

  /** The smallest sample. */
  function MinOf(s: seq<int>): (r: int)
    requires |s| > 0
    ensures r in s
    ensures forall x :: x in s ==> r <= x
  {
    if |s| == 1 then s[0]
    else
      var m := MinOf(s[1..]);
      assert s == [s[0]] + s[1..];
      if s[0] <= m then s[0] else m
  }

  /** `Math.round(sum / len)`: the integer nearest to the mean, halves rounded up. */
  function RoundedMean(sum: int, len: int): (r: int)
    requires len > 0
    ensures 2 * len * r - len <= 2 * sum < 2 * len * r + len
  {
    (2 * sum + len) / (2 * len)
  }

  /** Every sample lies in [lo, hi], so the sum lies in [lo * |s|, hi * |s|]. */
  lemma {:induction false} SumBounds(s: seq<int>, lo: int, hi: int)
    requires forall x :: x in s ==> lo <= x <= hi
    ensures lo * |s| <= Sum(s) <= hi * |s|
  {
    if |s| > 0 {
      assert s[0] in s;
      forall x | x in s[1..] ensures lo <= x <= hi {
        assert x in s;
      }
      SumBounds(s[1..], lo, hi);
      assert lo * |s| == lo + lo * (|s| - 1);
      assert hi * |s| == hi + hi * (|s| - 1);
    }
  }

  /** A positive factor times a factor of at least one is at least the first factor. */
  lemma MulAtLeast(a: int, d: int)
    requires a > 0 && d >= 1
    ensures a * d >= a
  {
    assert a * d == a + a * (d - 1);
  }

  /** A rounded mean stays within the bounds of the samples it averages. */
  lemma MeanWithin(sum: int, len: int, lo: int, hi: int)
    requires len > 0
    requires lo * len <= sum <= hi * len
    ensures lo <= RoundedMean(sum, len) <= hi
  {
    var r := RoundedMean(sum, len);
    if r > hi {
      var d := r - hi;
      assert 2 * len * r == 2 * len * hi + 2 * len * d;
      MulAtLeast(2 * len, d);
      assert false;
    }
    if r < lo {
      var d := lo - r;
      assert 2 * len * lo == 2 * len * r + 2 * len * d;
      MulAtLeast(2 * len, d);
      assert false;
    }
  }

  /** The average, maximum and minimum of one series, all 0 when the series is empty. */
  function CalculateStats(latencies: seq<int>): (r: LatencyStats)
    ensures |latencies| == 0 ==> r == LatencyStats(0, 0, 0)
    ensures |latencies| > 0 ==>
      && r.max in latencies
      && r.min in latencies
      && (forall x :: x in latencies ==> r.min <= x <= r.max)
      && r.average == RoundedMean(Sum(latencies), |latencies|)
      && r.min <= r.average <= r.max
  {
    if |latencies| == 0 then LatencyStats(0, 0, 0)
    else
      var mx := MaxOf(latencies);
      var mn := MinOf(latencies);
      SumBounds(latencies, mn, mx);
      MeanWithin(Sum(latencies), |latencies|, mn, mx);
      LatencyStats(RoundedMean(Sum(latencies), |latencies|), mx, mn)
  }

  /** The upstream series reports only an average, computed in the same way as the
      endpoint series' average (and 0 when the series is empty). */
  function ShopifyAverage(latencies: seq<int>): (r: int)
    ensures r == CalculateStats(latencies).average
  {
    if |latencies| > 0 then RoundedMean(Sum(latencies), |latencies|) else 0
  }

  /** The last `n` elements of `h` (all of `h` when it is shorter), in order. */
  function LastN(h: seq<int>, n: nat): (r: seq<int>)
    ensures |r| == Min(|h|, n)
    ensures r == h[|h| - |r|..]
  {
    if |h| <= n then h else h[|h| - n..]
  }

  /** A window after `push(x)` and, when it then holds more than `Capacity` samples, `shift()`. */
  function Pushed(w: seq<int>, x: int): seq<int> {
    var p := w + [x];
    if |p| > Capacity then p[1..] else p
  }

  /** Pushing onto the window of a history gives the window of the extended history: the
      window always holds the last min(N, 1000) samples recorded, oldest first. */
  lemma {:induction false} PushedKeepsWindow(h: seq<int>, x: int)
    ensures Pushed(LastN(h, Capacity), x) == LastN(h + [x], Capacity)
  {
    var w := LastN(h, Capacity);
    var h' := h + [x];
    if |h| < Capacity {
      assert w == h;
    } else {
      assert w + [x] == h'[|h'| - Capacity - 1..];
      assert (w + [x])[1..] == h'[|h'| - Capacity..];
    }
  }

  class StatsService {
    var endpointLatencies: seq<int>
    var shopifyCallLatencies: seq<int>
    var totalEndpointCalls: nat
    var totalShopifyCalls: nat

    /** Every sample recorded since construction or the last reset, oldest first. */
    ghost var endpointHistory: seq<int>
    ghost var shopifyHistory: seq<int>

    /** Each window is the last `Capacity` samples of its history and each counter the
        length of its history. */
    ghost predicate Valid()
      reads this
    {
      && endpointLatencies == LastN(endpointHistory, Capacity)
      && shopifyCallLatencies == LastN(shopifyHistory, Capacity)
      && totalEndpointCalls == |endpointHistory|
      && totalShopifyCalls == |shopifyHistory|
    }

    constructor ()
      ensures Valid()
      ensures endpointHistory == [] && shopifyHistory == []
      ensures endpointLatencies == [] && shopifyCallLatencies == []
      ensures totalEndpointCalls == 0 && totalShopifyCalls == 0
    {
      endpointLatencies := [];
      shopifyCallLatencies := [];
      totalEndpointCalls := 0;
      totalShopifyCalls := 0;
      endpointHistory := [];
      shopifyHistory := [];
    }

    /** Records the latency of one inbound endpoint call. */
    method RecordEndpointCall(latency: int)
      requires Valid()
      modifies this
      ensures Valid()
      ensures endpointHistory == old(endpointHistory) + [latency]
      ensures endpointLatencies == Pushed(old(endpointLatencies), latency)
      ensures |endpointLatencies| <= Capacity
      ensures endpointLatencies[|endpointLatencies| - 1] == latency
      ensures totalEndpointCalls == old(totalEndpointCalls) + 1
      ensures shopifyHistory == old(shopifyHistory)
      ensures shopifyCallLatencies == old(shopifyCallLatencies)
      ensures totalShopifyCalls == old(totalShopifyCalls)
    {
      endpointLatencies := endpointLatencies + [latency];
      totalEndpointCalls := totalEndpointCalls + 1;
      if |endpointLatencies| > Capacity {
        endpointLatencies := endpointLatencies[1..];
      }
      PushedKeepsWindow(endpointHistory, latency);
      endpointHistory := endpointHistory + [latency];
    }

    /** Records the latency of one upstream call. */
    method RecordShopifyCall(latency: int)
      requires Valid()
      modifies this
      ensures Valid()
      ensures shopifyHistory == old(shopifyHistory) + [latency]
      ensures shopifyCallLatencies == Pushed(old(shopifyCallLatencies), latency)
      ensures |shopifyCallLatencies| <= Capacity
      ensures shopifyCallLatencies[|shopifyCallLatencies| - 1] == latency
      ensures totalShopifyCalls == old(totalShopifyCalls) + 1
      ensures endpointHistory == old(endpointHistory)
      ensures endpointLatencies == old(endpointLatencies)
      ensures totalEndpointCalls == old(totalEndpointCalls)
    {
      shopifyCallLatencies := shopifyCallLatencies + [latency];
      totalShopifyCalls := totalShopifyCalls + 1;
      if |shopifyCallLatencies| > Capacity {
        shopifyCallLatencies := shopifyCallLatencies[1..];
      }
      PushedKeepsWindow(shopifyHistory, latency);
      shopifyHistory := shopifyHistory + [latency];
    }

    /** The reported statistics: distribution figures over the last `Capacity` samples of
        each series, and totals over every call recorded since construction or reset. */
    function GetStats(): (r: ProductStats)
      reads this
      requires Valid()
      ensures r.endpointResponseTimesMs == CalculateStats(LastN(endpointHistory, Capacity))
      ensures r.totalEndpointCalls == |endpointHistory|
      ensures r.averageShopifyCallResponseTimeMs == CalculateStats(LastN(shopifyHistory, Capacity)).average
      ensures r.totalShopifyApiCalls == |shopifyHistory|
    {
      ProductStats(
        CalculateStats(endpointLatencies),
        totalEndpointCalls,
        ShopifyAverage(shopifyCallLatencies),
        totalShopifyCalls)
    }

    /** Empties both windows and zeroes both counters. */
    method Reset()
      modifies this
      ensures Valid()
      ensures endpointHistory == [] && shopifyHistory == []
      ensures endpointLatencies == [] && shopifyCallLatencies == []
      ensures totalEndpointCalls == 0 && totalShopifyCalls == 0
    {
      endpointLatencies := [];
      shopifyCallLatencies := [];
      totalEndpointCalls := 0;
      totalShopifyCalls := 0;
      endpointHistory := [];
      shopifyHistory := [];
    }
  }
}
