/** The client-side estimate of the upstream request budget, the wait it imposes before a
    call, and the retry rule for throttled calls, as pure functions of an explicit state.
    Clock readings are inputs; waits and sleeps are returned as durations. */
module RateLimit {
  import opened Wrappers
  import opened CatalogTypes

  /** The estimated budget: tokens available, tokens restored per second, the most tokens
      there can be, and the clock reading (ms) of the last server-reported snapshot. */
  datatype RateLimitState = RateLimitState(
    available: int,
    restoreRate: int,
    maxAvailable: int,
    lastUpdate: int)

  /** The state a client starts in, at clock reading `now`. */
  function InitialRateLimit(now: int): (s: RateLimitState)
    ensures s.available == s.maxAvailable == 1000
    ensures s.restoreRate == 50
    ensures s.lastUpdate == now
  {
    RateLimitState(1000, 50, 1000, now)
  }

  /** The throttle status of a reply, when it carries a cost block that has one. */
  function ThrottleOf(extensions: Option<Extensions>): Option<ThrottleStatus> {
    if extensions.Some? && extensions.value.cost.Some? then extensions.value.cost.value.throttleStatus
    else None
  }

  /** The actual cost of a reply, when it carries a cost block. */
  function CostOf(extensions: Option<Extensions>): Option<int> {
    if extensions.Some? && extensions.value.cost.Some? then Some(extensions.value.cost.value.actualQueryCost)
    else None
  }

  /** `Math.floor(elapsed / 1000 * restoreRate)`: whole tokens restored since the last
      update at the state's (old) restore rate. */
  function Restored(s: RateLimitState, now: int): (r: int)
    ensures 1000 * r <= (now - s.lastUpdate) * s.restoreRate < 1000 * r + 1000
  {
    ((now - s.lastUpdate) * s.restoreRate) / 1000
  }

  /** The state after a reply with the given extensions, read at clock reading `now`. */
  function UpdatedRateLimit(s: RateLimitState, extensions: Option<Extensions>, now: int): (r: RateLimitState)
    ensures ThrottleOf(extensions).None? ==> r == s
    ensures ThrottleOf(extensions).Some? ==>
      var t := ThrottleOf(extensions).value;
      // available is the minimum of the restored snapshot and the reported maximum ...
      && r.available <= t.currentlyAvailable + Restored(s, now)
      && r.available <= t.maximumAvailable
      && (r.available == t.currentlyAvailable + Restored(s, now) || r.available == t.maximumAvailable)
      // ... and the other fields are refreshed from the report
      && r.restoreRate == t.restoreRate
      && r.maxAvailable == t.maximumAvailable
      && r.lastUpdate == now
      && r.available <= r.maxAvailable
  {
    match ThrottleOf(extensions)
    case None => s
    case Some(t) =>
      var restored := t.currentlyAvailable + Restored(s, now);
      RateLimitState(
        if restored <= t.maximumAvailable then restored else t.maximumAvailable,
        t.restoreRate,
        t.maximumAvailable,
        now)
  }

  /** Restoration is added on top of the server's own snapshot: once a whole token's worth
      of time has passed since the last update, the estimate exceeds what the server
      reported as available unless the reported maximum caps it. */
  lemma EstimateExceedsReport(s: RateLimitState, extensions: Option<Extensions>, now: int)
    requires ThrottleOf(extensions).Some?
    requires (now - s.lastUpdate) * s.restoreRate >= 1000
    requires ThrottleOf(extensions).value.currentlyAvailable < ThrottleOf(extensions).value.maximumAvailable
    ensures UpdatedRateLimit(s, extensions, now).available > ThrottleOf(extensions).value.currentlyAvailable
  {
  }

  /** The state after a successful call: the throttle update first, then the actual cost
      taken off, with no lower bound. */
  function AfterSuccess(s: RateLimitState, extensions: Option<Extensions>, now: int): (r: RateLimitState)
    ensures var u := UpdatedRateLimit(s, extensions, now);
      && r.restoreRate == u.restoreRate
      && r.maxAvailable == u.maxAvailable
      && r.lastUpdate == u.lastUpdate
      && r.available == u.available - CostOf(extensions).GetOr(0)
  {
    var u := UpdatedRateLimit(s, extensions, now);
    match CostOf(extensions)
    case None => u
    case Some(c) => u.(available := u.available - c)
  }

  /** The budget can go negative: nothing clamps it after the cost is taken off, so a
      cost larger than the updated estimate leaves a negative estimate. */
  lemma NoLowerClamp(s: RateLimitState, extensions: Option<Extensions>, now: int)
    requires CostOf(extensions).Some?
    requires CostOf(extensions).value > UpdatedRateLimit(s, extensions, now).available
    ensures AfterSuccess(s, extensions, now).available < 0
  {
  }

  /** The wait before a call: none, a number of milliseconds, or the `Infinity` that
      dividing by a zero restore rate yields. */
  datatype Wait = NoWait | WaitMs(ms: int) | WaitForever

  /** `Math.ceil(n / d)`. */
  function CeilDiv(n: int, d: int): (r: int)
    requires d != 0
    ensures d > 0 ==> d * (r - 1) < n <= d * r
    ensures d < 0 ==> d * r <= n < d * (r - 1)
  {
    // Dafny's division rounds down for a positive divisor and up for a negative one
    if d > 0 then -((-n) / d) else n / d
  }

  /** The wait `waitForRateLimit` imposes: none while a whole token is available, otherwise
      `Math.ceil((1 - available) / restoreRate * 1000)` milliseconds. */
  function RateLimitWait(s: RateLimitState): (w: Wait)
    ensures w == NoWait <==> s.available >= 1
    ensures s.available < 1 && s.restoreRate > 0 ==>
      && w.WaitMs?
      && w.ms > 0
      && s.restoreRate * (w.ms - 1) < (1 - s.available) * 1000 <= s.restoreRate * w.ms
    ensures s.available < 1 && s.restoreRate == 0 ==> w == WaitForever
    ensures s.available < 1 && s.restoreRate < 0 ==>
      && w.WaitMs?
      && s.restoreRate * w.ms <= (1 - s.available) * 1000 < s.restoreRate * (w.ms - 1)
  {
    if s.available >= 1 then NoWait
    else if s.restoreRate == 0 then WaitForever
    else
      WaitMs(CeilDiv((1 - s.available) * 1000, s.restoreRate))
  }

  /** With no budget left and the default restore rate of 50 tokens a second, a call
      waits 20 ms. */
  lemma EmptyBudgetWaits20ms(lastUpdate: int)
    ensures RateLimitWait(RateLimitState(0, 50, 1000, lastUpdate)) == WaitMs(20)
  {
  }

  /** The failure of an upstream call: the HTTP status of its response when there is one,
      the `retry-after` header as a number when it is present and not empty, and a message. */
  datatype UpstreamError = UpstreamError(status: Option<int>, retryAfter: Option<int>, message: string)

  /** What the upstream answers to one post. */
  datatype Reply<T> = Success(data: T, extensions: Option<Extensions>) | Failure(error: UpstreamError)

  /** One post: the clock readings (ms) before and after it, and the reply. */
  datatype Attempt<T> = Attempt(startTime: int, endTime: int, reply: Reply<T>)

  /** The two queries the client sends; their GraphQL text is not modelled. */
  datatype QueryDoc = ProductsQuery | ProductQuery

  datatype Variables = ProductsVariables(first: int, after: Option<string>) | ProductVariables(id: string)

  datatype Request = Request(query: QueryDoc, variables: Variables)

  /** What the client does that is observable: waiting for budget, posting a request,
      sleeping before a retry. */
  datatype Event = RateWait(wait: Wait) | Post(request: Request) | RetrySleep(ms: int)

  /** How a query ends: with the reply's data, with the error of a call that was not
      throttled, or (an artefact of the model) when the given replies run out. */
  datatype QueryOutcome<T> = Done(data: T) | Raised(error: UpstreamError) | Exhausted

  /** The final state, outcome, events and latencies recorded by one query. */
  datatype RunResult<T> = RunResult(
    state: RateLimitState,
    outcome: QueryOutcome<T>,
    events: seq<Event>,
    latencies: seq<int>)

  /** A throttling failure: the response has HTTP status 429. */
  predicate IsThrottled(e: UpstreamError) {
    e.status == Some(429)
  }

  /** The sleep before a retry: `retry-after` seconds, 1 when absent. */
  function RetryDelayMs(retryAfter: Option<int>): (ms: int)
    ensures retryAfter.None? ==> ms == 1000
    ensures retryAfter.Some? ==> ms == 1000 * retryAfter.value
  {
    retryAfter.GetOr(1) * 1000
  }

  /** The event a wait shows up as, if any. */
  function WaitEvents(w: Wait): seq<Event> {
    if w == NoWait then [] else [RateWait(w)]
  }

  /** The reference behaviour of `query` from state `s` when the upstream answers its
      successive posts with `attempts`: wait for budget, post, then on success update the
      estimate and take the cost off, on a 429 sleep and recurse, on anything else raise. */
  function QueryRun<T>(s: RateLimitState, request: Request, attempts: seq<Attempt<T>>): RunResult<T>
    decreases |attempts|
  {
    if |attempts| == 0 then RunResult(s, Exhausted, [], [])
    else
      var pre := WaitEvents(RateLimitWait(s)) + [Post(request)];
      var a := attempts[0];
      match a.reply
      case Success(data, extensions) =>
        RunResult(AfterSuccess(s, extensions, a.endTime), Done(data), pre, [a.endTime - a.startTime])
      case Failure(e) =>
        if IsThrottled(e) then
          var rest := QueryRun(s, request, attempts[1..]);
          RunResult(rest.state, rest.outcome, pre + [RetrySleep(RetryDelayMs(e.retryAfter))] + rest.events, rest.latencies)
        else
          RunResult(s, Raised(e), pre, [])
  }

  /** The number of throttled replies at the head of `attempts`. */
  function LeadingThrottles<T>(attempts: seq<Attempt<T>>): (k: nat)
    ensures k <= |attempts|
    ensures forall j :: 0 <= j < k ==> attempts[j].reply.Failure? && IsThrottled(attempts[j].reply.error)
    ensures k < |attempts| ==> !(attempts[k].reply.Failure? && IsThrottled(attempts[k].reply.error))
  {
    if |attempts| > 0 && attempts[0].reply.Failure? && IsThrottled(attempts[0].reply.error)
    then 1 + LeadingThrottles(attempts[1..])
    else 0
  }

  /** The number of posts among the events. */
  function Posts(events: seq<Event>): nat {
    if |events| == 0 then 0 else (if events[0].Post? then 1 else 0) + Posts(events[1..])
  }

  /** The retry sleeps among the events, in order. */
  function Sleeps(events: seq<Event>): seq<int> {
    if |events| == 0 then []
    else (if events[0].RetrySleep? then [events[0].ms] else []) + Sleeps(events[1..])
  }

  /** The retry sleeps that the failures among `attempts` call for, in order. */
  function RetryDelays<T>(attempts: seq<Attempt<T>>): seq<int> {
    if |attempts| == 0 then []
    else
      (if attempts[0].reply.Failure? then [RetryDelayMs(attempts[0].reply.error.retryAfter)] else [])
      + RetryDelays(attempts[1..])
  }

  lemma {:induction false} PostsAppend(a: seq<Event>, b: seq<Event>)
    ensures Posts(a + b) == Posts(a) + Posts(b)
  {
    if |a| > 0 {
      assert (a + b)[0] == a[0];
      assert (a + b)[1..] == a[1..] + b;
      PostsAppend(a[1..], b);
    } else {
      assert a + b == b;
    }
  }

  lemma {:induction false} SleepsAppend(a: seq<Event>, b: seq<Event>)
    ensures Sleeps(a + b) == Sleeps(a) + Sleeps(b)
  {
    if |a| > 0 {
      assert (a + b)[0] == a[0];
      assert (a + b)[1..] == a[1..] + b;
      SleepsAppend(a[1..], b);
    } else {
      assert a + b == b;
    }
  }

  /** A throttled reply makes the client sleep `retry-after` seconds and then post the
      same request again, from the same state. */
  lemma ThrottledRetries<T>(s: RateLimitState, request: Request, attempts: seq<Attempt<T>>)
    requires |attempts| > 0 && attempts[0].reply.Failure? && IsThrottled(attempts[0].reply.error)
    ensures var run := QueryRun(s, request, attempts);
      var rest := QueryRun(s, request, attempts[1..]);
      && run.events == WaitEvents(RateLimitWait(s))
                       + [Post(request), RetrySleep(RetryDelayMs(attempts[0].reply.error.retryAfter))]
                       + rest.events
      && run.state == rest.state
      && run.outcome == rest.outcome
  {
  }

  /** How a query ends is decided by the first reply that is not throttled: its data on a
      success, with the estimate updated and then charged; its error, unchanged, on any
      other failure; and the estimate untouched when every reply was throttled. */
  lemma {:induction false} QueryRunOutcome<T>(s: RateLimitState, request: Request, attempts: seq<Attempt<T>>)
    ensures var k := LeadingThrottles(attempts);
      var run := QueryRun(s, request, attempts);
      && (k == |attempts| ==> run.outcome == Exhausted && run.state == s && run.latencies == [])
      && (k < |attempts| && attempts[k].reply.Success? ==>
            && run.outcome == Done(attempts[k].reply.data)
            && run.state == AfterSuccess(s, attempts[k].reply.extensions, attempts[k].endTime)
            && run.latencies == [attempts[k].endTime - attempts[k].startTime])
      && (k < |attempts| && attempts[k].reply.Failure? ==>
            && run.outcome == Raised(attempts[k].reply.error)
            && !IsThrottled(attempts[k].reply.error)
            && run.state == s
            && run.latencies == [])
  {
    if |attempts| > 0 && attempts[0].reply.Failure? && IsThrottled(attempts[0].reply.error) {
      var k := LeadingThrottles(attempts);
      QueryRunOutcome(s, request, attempts[1..]);
      assert k - 1 == LeadingThrottles(attempts[1..]);
      if k < |attempts| {
        assert attempts[1..][k - 1] == attempts[k];
      }
    }
  }

  /** Every post of a query sends the same request. */
  lemma {:induction false} QueryRunSameRequest<T>(s: RateLimitState, request: Request, attempts: seq<Attempt<T>>)
    ensures var events := QueryRun(s, request, attempts).events;
      forall i :: 0 <= i < |events| && events[i].Post? ==> events[i].request == request
  {
    if |attempts| > 0 && attempts[0].reply.Failure? && IsThrottled(attempts[0].reply.error) {
      QueryRunSameRequest(s, request, attempts[1..]);
      ThrottledRetries(s, request, attempts);
    }
  }

  /** A query posts once per throttled reply at the head of `attempts`, plus once more for
      the reply that ends it. */
  lemma {:induction false} QueryRunPostCount<T>(s: RateLimitState, request: Request, attempts: seq<Attempt<T>>)
    ensures var k := LeadingThrottles(attempts);
      Posts(QueryRun(s, request, attempts).events) == if k < |attempts| then k + 1 else k
  {
    if |attempts| > 0 {
      var w := WaitEvents(RateLimitWait(s));
      assert Posts(w) == 0;
      if attempts[0].reply.Failure? && IsThrottled(attempts[0].reply.error) {
        var sp := [Post(request), RetrySleep(RetryDelayMs(attempts[0].reply.error.retryAfter))];
        var rest := QueryRun(s, request, attempts[1..]).events;
        QueryRunPostCount(s, request, attempts[1..]);
        ThrottledRetries(s, request, attempts);
        PostsAppend(w + sp, rest);
        PostsAppend(w, sp);
        assert sp[1..][1..] == [];
        assert Posts(sp) == 1;
      } else {
        PostsAppend(w, [Post(request)]);
      }
    }
  }

  /** The retry sleeps of a query are exactly those its throttled replies call for, in order. */
  lemma {:induction false} QueryRunSleeps<T>(s: RateLimitState, request: Request, attempts: seq<Attempt<T>>)
    ensures Sleeps(QueryRun(s, request, attempts).events) == RetryDelays(attempts[..LeadingThrottles(attempts)])
  {
    var k := LeadingThrottles(attempts);
    if |attempts| == 0 {
      assert attempts[..k] == [];
    } else {
      var w := WaitEvents(RateLimitWait(s));
      assert Sleeps(w) == [];
      if attempts[0].reply.Failure? && IsThrottled(attempts[0].reply.error) {
        var d := RetryDelayMs(attempts[0].reply.error.retryAfter);
        var sp := [Post(request), RetrySleep(d)];
        var rest := QueryRun(s, request, attempts[1..]).events;
        QueryRunSleeps(s, request, attempts[1..]);
        ThrottledRetries(s, request, attempts);
        SleepsAppend(w + sp, rest);
        SleepsAppend(w, sp);
        assert sp[1..][1..] == [];
        assert Sleeps(sp) == [d];
        assert attempts[..k][0] == attempts[0];
        assert attempts[..k][1..] == attempts[1..][..k - 1];
      } else {
        assert attempts[..k] == [];
        SleepsAppend(w, [Post(request)]);
      }
    }
  }
}
