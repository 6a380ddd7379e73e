/**
 * The metric state both middlewares update, with prom-client's three
 * primitives reduced to plain values:
 *   - the `http_active_requests` gauge is an integer;
 *   - the `http_requests_total` counter is a map from label tuple to count,
 *     a tuple being created at zero on its first increment;
 *   - the `http_request_duration_seconds` histogram is kept only as its
 *     per-tuple observation count (durations and buckets are not modelled).
 */
module Instrumentation {
  import opened Wrappers

  /** What the middleware reads of an Express request. */
  datatype RequestView = RequestView(
    httpMethod: string,      // req.method
    path: string,            // req.path
    route: Option<string>)   // req.route?.path; None while no route matched

  /** `req.route?.path` is truthy: a route matched and its template is not "". */
  predicate HasTemplate(route: Option<string>)
  {
    route.Some? && route.value != ""
  }

  /** The three labels `{ method, route, status_code }` of one observation. */
  datatype Labels = Labels(httpMethod: string, route: string, statusCode: int)

  /** The value of a lazily created series: zero before its first update. */
  function Count(m: map<Labels, nat>, k: Labels): nat
  {
    if k in m then m[k] else 0
  }

  /** `inc(labels)` on a counter: one tuple rises by one, every other stays. */
  function Bump(m: map<Labels, nat>, k: Labels): (r: map<Labels, nat>)
    ensures r.Keys == m.Keys + {k}
    ensures forall j :: Count(r, j) == Count(m, j) + (if j == k then 1 else 0)
  {
    m[k := Count(m, k) + 1]
  }

  datatype State = State(
    active: int,                          // http_active_requests
    requests: map<Labels, nat>,           // http_requests_total
    observations: map<Labels, nat>)       // http_request_duration_seconds_count

  const Initial := State(0, map[], map[])

  /** The counter and the histogram are always updated together, with the same labels. */
  ghost predicate Consistent(s: State)
  {
    forall k :: Count(s.requests, k) == Count(s.observations, k)
  }

  /** Requests for the scrape endpoint are never measured. */
  predicate Tracked(path: string)
  {
    path != "/metrics"
  }

  /** Entry into the middleware of a tracked request: the gauge goes up. */
  function Enter(s: State): (r: State)
    ensures r.active == s.active + 1
    ensures r.requests == s.requests && r.observations == s.observations
  {
    s.(active := s.active + 1)
  }

  /**
   * The `finish` hook of a tracked request: the gauge goes down, exactly one
   * counter tuple and the same histogram tuple each gain one observation.
   */
  function Complete(s: State, l: Labels): (r: State)
    ensures r.active == s.active - 1
    ensures forall k :: Count(r.requests, k) == Count(s.requests, k) + (if k == l then 1 else 0)
    ensures forall k :: Count(r.observations, k) == Count(s.observations, k) + (if k == l then 1 else 0)
    ensures Consistent(s) ==> Consistent(r)
  {
    State(s.active - 1, Bump(s.requests, l), Bump(s.observations, l))
  }

  /** Two counter increments give the same counter in either order. */
  lemma BumpCommutes(m: map<Labels, nat>, a: Labels, b: Labels)
    ensures Bump(Bump(m, a), b) == Bump(Bump(m, b), a)
  {
    var r1, r2 := Bump(Bump(m, a), b), Bump(Bump(m, b), a);
    assert r1.Keys == r2.Keys;
    forall k | k in r1
      ensures r1[k] == r2[k]
    {
      assert Count(r1, k) == Count(r2, k);
    }
  }

  /** Two `finish` hooks leave the same state in either order. */
  lemma CompleteCommutes(s: State, a: Labels, b: Labels)
    ensures Complete(Complete(s, a), b) == Complete(Complete(s, b), a)
  {
    BumpCommutes(s.requests, a, b);
    BumpCommutes(s.observations, a, b);
  }

  /** Entry of one request and the `finish` of another leave the same state in either order. */
  lemma EnterCompleteCommute(s: State, l: Labels)
    ensures Enter(Complete(s, l)) == Complete(Enter(s), l)
  {
  }

  /** The process-wide metric registry that both middlewares write to. */
  class Registry {
    var activeRequests: int
    var requestCounts: map<Labels, nat>
    var durationCounts: map<Labels, nat>

    function Snapshot(): State
      reads this
    {
      State(activeRequests, requestCounts, durationCounts)
    }

    constructor ()
      ensures Snapshot() == Initial
    {
      activeRequests, requestCounts, durationCounts := 0, map[], map[];
    }

    /** `activeRequests.inc()` */
    method IncActive()
      modifies this
      ensures activeRequests == old(activeRequests) + 1
      ensures requestCounts == old(requestCounts) && durationCounts == old(durationCounts)
    {
      activeRequests := activeRequests + 1;
    }

    /** `activeRequests.dec()` */
    method DecActive()
      modifies this
      ensures activeRequests == old(activeRequests) - 1
      ensures requestCounts == old(requestCounts) && durationCounts == old(durationCounts)
    {
      activeRequests := activeRequests - 1;
    }

    /** `httpRequestCounter.inc(labels)` */
    method IncRequests(l: Labels)
      modifies this
      ensures requestCounts == Bump(old(requestCounts), l)
      ensures activeRequests == old(activeRequests) && durationCounts == old(durationCounts)
    {
      requestCounts := Bump(requestCounts, l);
    }

    /** `end(labels)` on the timer from `httpRequestDuration.startTimer()`: one observation. */
    method ObserveDuration(l: Labels)
      modifies this
      ensures durationCounts == Bump(old(durationCounts), l)
      ensures activeRequests == old(activeRequests) && requestCounts == old(requestCounts)
    {
      durationCounts := Bump(durationCounts, l);
    }

    /**
     * The entry half of either metrics middleware: a `/metrics` request goes
     * straight to `next()`, any other one raises the gauge and gets a
     * `finish` hook.
     */
    method Admit(path: string) returns (hooked: bool)
      modifies this
      ensures hooked == Tracked(path)
      ensures Snapshot() == if hooked then Enter(old(Snapshot())) else old(Snapshot())
    {
      if path == "/metrics" {
        return false;
      }
      IncActive();
      hooked := true;
    }

    /** The `finish` hook, once its labels are resolved. */
    method Finish(l: Labels)
      modifies this
      ensures Snapshot() == Complete(old(Snapshot()), l)
    {
      DecActive();
      IncRequests(l);
      ObserveDuration(l);
    }
  }
}
