/** The request middleware: a fixed-window rate limiter keyed by client IP,
    the client-IP choice from proxy headers, and the allow/deny decision. */
module Middleware {
  import opened Wrappers
  import JsText

  /** Requests seen from one client in its current window, and the time (ms)
      at which that window ends. */
  datatype RateLimitRecord = RateLimitRecord(count: int, reset: int)

  /** What `checkRateLimit` reports for one request. */
  datatype RateLimitInfo = RateLimitInfo(limit: int, remaining: int, reset: int, window: int)

  /** The store after one `checkRateLimit` call, and what the call reported. */
  datatype CheckResult = CheckResult(records: map<string, RateLimitRecord>, info: RateLimitInfo)

  /** Every stored count lies in `1..max`. */
  ghost predicate CountsBounded(records: map<string, RateLimitRecord>, max: int) {
    forall ip :: ip in records ==> 1 <= records[ip].count <= max
  }

  /** A record's window is over: the comparison is strict, so at `now == reset`
      the old window still applies. */
  predicate WindowOver(record: RateLimitRecord, now: int) {
    record.reset < now
  }

  /** The limiter refuses to count this request: a live record has already
      reached the maximum. */
  predicate Rejects(records: map<string, RateLimitRecord>, ip: string, now: int, max: int) {
    ip in records && !WindowOver(records[ip], now) && records[ip].count >= max
  }

  /** `checkRateLimit` as a function of the store, the clock and the
      configuration. */
  function CheckRateLimitSpec(records: map<string, RateLimitRecord>, ip: string, now: int,
                              window: int, max: int): (r: CheckResult)
    ensures r.info.limit == max && r.info.window == window
    // only the entry for `ip` may change
    ensures r.records.Keys == records.Keys + {ip}
    ensures forall other :: other in records && other != ip ==> r.records[other] == records[other]
    // no live record: a fresh window is stored with count 1
    ensures ip !in records || WindowOver(records[ip], now) ==>
      r.records[ip] == RateLimitRecord(1, now + window)
      && r.info.remaining == max - 1 && r.info.reset == now + window
    // a live record at the maximum: nothing changes and nothing remains
    ensures Rejects(records, ip, now, max) ==>
      r.records == records && r.info.remaining == 0 && r.info.reset == records[ip].reset
    // a live record below the maximum: its count rises by exactly one
    ensures ip in records && !WindowOver(records[ip], now) && records[ip].count < max ==>
      r.records[ip] == records[ip].(count := records[ip].count + 1)
      && r.info.remaining == max - r.records[ip].count && r.info.reset == records[ip].reset
    // the invariants of the store, given a maximum of at least one
    ensures max >= 1 && CountsBounded(records, max) ==>
      CountsBounded(r.records, max) && 0 <= r.info.remaining <= max - 1
  {
    if ip !in records || WindowOver(records[ip], now) then
      var started := RateLimitRecord(1, now + window);
      CheckResult(records[ip := started], RateLimitInfo(max, max - 1, started.reset, window))
    else
      var record := records[ip];
      if record.count >= max then
        CheckResult(records, RateLimitInfo(max, 0, record.reset, window))
      else
        var bumped := record.(count := record.count + 1);
        CheckResult(records[ip := bumped], RateLimitInfo(max, max - bumped.count, bumped.reset, window))
  }

  /** A record is swept once its window ended more than one window length ago. */
  predicate Stale(record: RateLimitRecord, now: int, window: int) {
    record.reset < now - window
  }

  /** `cleanupExpiredRecords` as a function of the store. */
  function Sweep(records: map<string, RateLimitRecord>, now: int, window: int): (r: map<string, RateLimitRecord>)
    ensures forall ip :: ip in r <==> ip in records && !Stale(records[ip], now, window)
    ensures forall ip :: ip in r ==> r[ip] == records[ip]
  {
    map ip | ip in records && !Stale(records[ip], now, window) :: records[ip]
  }

  /** The in-memory request counter shared by all requests of the process. */
  class RateLimiter {
    var requestCounts: map<string, RateLimitRecord>
    const window: int
    const max: int

    ghost predicate Valid()
      reads this
    {
      max >= 1 && window >= 1000 && CountsBounded(requestCounts, max)
    }

    /** The configuration bounds are those the environment schema enforces. */
    constructor (window: int, max: int)
      requires max >= 1 && window >= 1000
      ensures Valid()
      ensures this.window == window && this.max == max && requestCounts == map[]
    {
      this.window := window;
      this.max := max;
      requestCounts := map[];
    }

    method CheckRateLimit(ip: string, now: int) returns (info: RateLimitInfo)
      requires Valid()
      modifies this
      ensures Valid()
      ensures requestCounts == CheckRateLimitSpec(old(requestCounts), ip, now, window, max).records
      ensures info == CheckRateLimitSpec(old(requestCounts), ip, now, window, max).info
      ensures 0 <= info.remaining <= max - 1
    {
      if ip !in requestCounts || requestCounts[ip].reset < now {
        var newRecord := RateLimitRecord(1, now + window);
        requestCounts := requestCounts[ip := newRecord];
        return RateLimitInfo(max, max - 1, newRecord.reset, window);
      }
      var record := requestCounts[ip];
      if record.count >= max {
        return RateLimitInfo(max, 0, record.reset, window);
      }
      record := record.(count := record.count + 1);
      requestCounts := requestCounts[ip := record];
      return RateLimitInfo(max, max - record.count, record.reset, window);
    }

    method CleanupExpiredRecords(now: int)
      requires Valid()
      modifies this
      ensures Valid()
      ensures requestCounts == Sweep(old(requestCounts), now, window)
    {
      ghost var original := requestCounts;
      var pending := requestCounts.Keys;
      while pending != {}
        invariant pending <= requestCounts.Keys <= original.Keys
        invariant forall ip :: ip in requestCounts ==> requestCounts[ip] == original[ip]
        invariant forall ip :: ip in original && ip !in pending ==>
          (ip in requestCounts <==> !Stale(original[ip], now, window))
        decreases pending
      {
        var ip :| ip in pending;
        if requestCounts[ip].reset < now - window {
          requestCounts := requestCounts - {ip};
        }
        pending := pending - {ip};
      }
      assert requestCounts.Keys == Sweep(original, now, window).Keys;
    }

    /** The middleware's rate-limit path for one request: an optional sweep
        (the source runs it on a random tenth of requests), the client IP,
        the check, and the response it leads to. */
    method HandleRequest(headers: map<string, string>, httpMethod: string, now: int, sweep: bool)
      returns (response: Response, info: RateLimitInfo)
      requires Valid()
      modifies this
      ensures Valid()
      ensures var swept := if sweep then Sweep(old(requestCounts), now, window) else old(requestCounts);
              var step := CheckRateLimitSpec(swept, GetClientIP(headers), now, window, max);
              requestCounts == step.records && info == step.info
      ensures response == Respond(httpMethod, info)
    {
      if sweep {
        CleanupExpiredRecords(now);
      }
      var ip := GetClientIP(headers);
      info := CheckRateLimit(ip, now);
      response := Respond(httpMethod, info);
    }
  }

  /** `headers.get(name)`, with a missing header read as the empty string:
      the source only tests the value for truthiness, where both are false. */
  function Header(headers: map<string, string>, name: string): string {
    if name in headers then headers[name] else ""
  }

  /** `getClientIP`: the first address of `x-forwarded-for`, else `x-real-ip`,
      else `cf-connecting-ip`, else the shared bucket `"unknown"`. */
  function GetClientIP(headers: map<string, string>): (ip: string)
    ensures Header(headers, "x-forwarded-for") != "" ==>
      JsText.IsTrimOf(ip, JsText.BeforeFirstComma(headers["x-forwarded-for"]))
    ensures Header(headers, "x-forwarded-for") == "" && Header(headers, "x-real-ip") != "" ==>
      ip == headers["x-real-ip"]
    ensures Header(headers, "x-forwarded-for") == "" && Header(headers, "x-real-ip") == ""
            && Header(headers, "cf-connecting-ip") != "" ==>
      ip == headers["cf-connecting-ip"]
    ensures Header(headers, "x-forwarded-for") == "" && Header(headers, "x-real-ip") == ""
            && Header(headers, "cf-connecting-ip") == "" ==>
      ip == "unknown"
    ensures ',' !in ip || Header(headers, "x-forwarded-for") == ""
  {
    var forwardedFor := Header(headers, "x-forwarded-for");
    var realIP := Header(headers, "x-real-ip");
    var connectingIP := Header(headers, "cf-connecting-ip");
    if forwardedFor != "" then
      var first := JsText.BeforeFirstComma(forwardedFor);
      JsText.Trim(first)
    else if realIP != "" then realIP
    else if connectingIP != "" then connectingIP
    else "unknown"
  }

  /** `isRateLimited` in `middleware`: the request is refused when nothing
      remains. */
  predicate IsRateLimited(info: RateLimitInfo) {
    info.remaining <= 0
  }

  /** The response the middleware produces once the check is done. */
  datatype Response =
    | Forward           // `NextResponse.next()`: the request reaches its route
    | TooManyRequests   // status 429 with the JSON error body
    | Preflight         // an OPTIONS request: status 200 with the headers only

  function Respond(httpMethod: string, info: RateLimitInfo): (r: Response)
    ensures r == Preflight <==> httpMethod == "OPTIONS"
    ensures r == TooManyRequests <==> httpMethod != "OPTIONS" && info.remaining <= 0
    ensures r == Forward <==> httpMethod != "OPTIONS" && info.remaining > 0
  {
    if httpMethod == "OPTIONS" then Preflight
    else if IsRateLimited(info) then TooManyRequests
    else Forward
  }

  /** Outcome of one call in a sequence of calls from the same client. */
  datatype CallOutcome = CallOutcome(info: RateLimitInfo, rejected: bool)

  /** The outcomes of successive checks for `ip` at the given times. */
  function Run(records: map<string, RateLimitRecord>, ip: string, times: seq<int>,
               window: int, max: int): (outcomes: seq<CallOutcome>)
    ensures |outcomes| == |times|
    decreases |times|
  {
    if times == [] then []
    else
      var step := CheckRateLimitSpec(records, ip, times[0], window, max);
      [CallOutcome(step.info, Rejects(records, ip, times[0], max))]
        + Run(step.records, ip, times[1..], window, max)
  }

  /** Inside a live window that holds `count` requests, the k-th further call
      (from 0) sees `count + k + 1` requests capped at `max`. */
  lemma {:induction false} CallsInsideWindow(records: map<string, RateLimitRecord>, ip: string,
                                             times: seq<int>, window: int, max: int)
    requires max >= 1
    requires ip in records && 1 <= records[ip].count <= max
    requires forall k :: 0 <= k < |times| ==> times[k] <= records[ip].reset
    ensures forall k :: 0 <= k < |times| ==>
      && Run(records, ip, times, window, max)[k].info.reset == records[ip].reset
      && Run(records, ip, times, window, max)[k].info.remaining == max - Min(records[ip].count + k + 1, max)
      && (Run(records, ip, times, window, max)[k].rejected <==> records[ip].count + k >= max)
    decreases |times|
  {
    if times != [] {
      var step := CheckRateLimitSpec(records, ip, times[0], window, max);
      var outcomes := Run(records, ip, times, window, max);
      var rest := Run(step.records, ip, times[1..], window, max);
      assert step.records[ip].reset == records[ip].reset;
      assert step.records[ip].count == Min(records[ip].count + 1, max);
      CallsInsideWindow(step.records, ip, times[1..], window, max);
      forall k | 1 <= k < |times|
        ensures outcomes[k].info.reset == records[ip].reset
        ensures outcomes[k].info.remaining == max - Min(records[ip].count + k + 1, max)
        ensures outcomes[k].rejected <==> records[ip].count + k >= max
      {
        assert outcomes[k] == rest[k - 1];
        assert rest[k - 1].info.reset == step.records[ip].reset;
        assert rest[k - 1].info.remaining == max - Min(step.records[ip].count + (k - 1) + 1, max);
        assert rest[k - 1].rejected <==> step.records[ip].count + (k - 1) >= max;
      }
    }
  }

  /** Calls from a client with no live record, all within one window of the
      first: the first opens the window, `remaining` counts down from
      `max - 1`, and the limiter refuses to count from call `max + 1` on. */
  lemma {:induction false} CallsWithinOneWindow(records: map<string, RateLimitRecord>, ip: string,
                                                times: seq<int>, window: int, max: int)
    requires max >= 1 && window >= 0
    requires |times| > 0
    requires ip !in records || WindowOver(records[ip], times[0])
    requires forall k :: 0 <= k < |times| ==> times[k] <= times[0] + window
    ensures forall k :: 0 <= k < |times| ==>
      && Run(records, ip, times, window, max)[k].info.reset == times[0] + window
      && Run(records, ip, times, window, max)[k].info.remaining == max - Min(k + 1, max)
      && (Run(records, ip, times, window, max)[k].rejected <==> k >= max)
  {
    var step := CheckRateLimitSpec(records, ip, times[0], window, max);
    var outcomes := Run(records, ip, times, window, max);
    var rest := Run(step.records, ip, times[1..], window, max);
    CallsInsideWindow(step.records, ip, times[1..], window, max);
    forall k | 1 <= k < |times|
      ensures outcomes[k].info.reset == times[0] + window
      ensures outcomes[k].info.remaining == max - Min(k + 1, max)
      ensures outcomes[k].rejected <==> k >= max
    {
      assert outcomes[k] == rest[k - 1];
      assert rest[k - 1].info.reset == step.records[ip].reset;
      assert rest[k - 1].info.remaining == max - Min(step.records[ip].count + (k - 1) + 1, max);
      assert rest[k - 1].rejected <==> step.records[ip].count + (k - 1) >= max;
    }
  }

  /** As written, the middleware refuses the `max`-th call of a window and
      every later one: only `max - 1` requests pass per window. */
  lemma DeniedFromCallMax(records: map<string, RateLimitRecord>, ip: string,
                          times: seq<int>, window: int, max: int)
    requires max >= 1 && window >= 0
    requires |times| > 0
    requires ip !in records || WindowOver(records[ip], times[0])
    requires forall k :: 0 <= k < |times| ==> times[k] <= times[0] + window
    ensures forall k :: 0 <= k < |times| ==>
      (IsRateLimited(Run(records, ip, times, window, max)[k].info) <==> k + 1 >= max)
  {
    CallsWithinOneWindow(records, ip, times, window, max);
  }

  /** With a maximum of one, every request is refused, the first included. */
  lemma MaxOneDeniesEveryRequest(records: map<string, RateLimitRecord>, ip: string, now: int, window: int)
    requires CountsBounded(records, 1)
    ensures IsRateLimited(CheckRateLimitSpec(records, ip, now, window, 1).info)
  {
  }

  /** The decision the limiter's counting supports is `Rejects`: refuse
      exactly the requests it declined to count, as `Run` records in
      `rejected`. With that decision, exactly `max` requests pass per window. */
  lemma IntendedAllowsMaxPerWindow(records: map<string, RateLimitRecord>, ip: string,
                                   times: seq<int>, window: int, max: int)
    requires max >= 1 && window >= 0
    requires |times| > 0
    requires ip !in records || WindowOver(records[ip], times[0])
    requires forall k :: 0 <= k < |times| ==> times[k] <= times[0] + window
    ensures forall k :: 0 <= k < |times| ==>
      (Run(records, ip, times, window, max)[k].rejected <==> k + 1 > max)
  {
    CallsWithinOneWindow(records, ip, times, window, max);
  }

  /** Sweeping is hygiene only: a request checked at or after the sweep gets
      the same answer and the same record for its client as without it. */
  lemma SweepIsTransparent(records: map<string, RateLimitRecord>, ip: string,
                           sweptAt: int, now: int, window: int, max: int)
    requires window >= 0 && sweptAt <= now
    ensures var plain := CheckRateLimitSpec(records, ip, now, window, max);
            var swept := CheckRateLimitSpec(Sweep(records, sweptAt, window), ip, now, window, max);
            swept.info == plain.info && swept.records[ip] == plain.records[ip]
            && forall other :: other in swept.records ==> other in plain.records && swept.records[other] == plain.records[other]
  {
  }
}
