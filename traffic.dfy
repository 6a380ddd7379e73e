/**
 * Interleaved requests as a sequence of events.  Each request enters the
 * metrics middleware once (`Arrive`) and its response emits `finish` once
 * (`End`); between the two any number of other requests may arrive or end.
 * The multiset `hooked` holds the requests whose `finish` hook is
 * registered and has not fired yet.
 *
 * The invariant and interleaving lemmas hold for any way of labelling a
 * finished request; `LabelFor` gives the labelling of each of the two
 * wirings, which the scenario at the end uses.
 */
module Traffic {
  import opened Wrappers
  import opened Instrumentation
  import opened Routes
  import DemoServer
  import BackendServer

  /** Which of the two wirings computes the route label at `finish`. */
  datatype Wiring = Demo(normalizeRoutes: bool) | Backend

  /** The labels of a request as seen at finish time, with its status code. */
  type Labeller = (RequestView, int) -> Labels

  function RouteFor(w: Wiring, req: RequestView): string
  {
    match w
    case Demo(normalizeRoutes) => DemoServer.NormalizeRoute(req, normalizeRoutes)
    case Backend => BackendServer.RouteLabel(req.route, req.path)
  }

  function LabelFor(w: Wiring): Labeller
  {
    (req: RequestView, statusCode: int) => Labels(req.httpMethod, RouteFor(w, req), statusCode)
  }

  datatype Event =
    | Arrive(id: nat, path: string)
    | End(id: nat, req: RequestView, statusCode: int)   // the request as seen at finish time

  datatype World = World(metrics: State, hooked: multiset<nat>)

  /** One event; a `finish` without a registered hook (a scrape) changes nothing. */
  function Step(labelOf: Labeller, t: World, e: Event): (r: World)
    ensures e.Arrive? && !Tracked(e.path) ==> r == t
    ensures e.Arrive? && Tracked(e.path) ==> r == World(Enter(t.metrics), t.hooked + multiset{e.id})
    ensures e.End? && e.id !in t.hooked ==> r == t
    ensures e.End? && e.id in t.hooked ==>
      r == World(Complete(t.metrics, labelOf(e.req, e.statusCode)), t.hooked - multiset{e.id})
  {
    match e
    case Arrive(id, path) =>
      if Tracked(path) then World(Enter(t.metrics), t.hooked + multiset{id}) else t
    case End(id, req, statusCode) =>
      if id in t.hooked then World(Complete(t.metrics, labelOf(req, statusCode)), t.hooked - multiset{id})
      else t
  }

  function Run(labelOf: Labeller, t: World, events: seq<Event>): World
    decreases |events|
  {
    if events == [] then t else Run(labelOf, Step(labelOf, t, events[0]), events[1..])
  }

  /** The gauge always equals its starting value plus the requests still in flight. */
  lemma {:induction false} GaugeCountsInFlight(labelOf: Labeller, t: World, events: seq<Event>)
    ensures Run(labelOf, t, events).metrics.active - |Run(labelOf, t, events).hooked| == t.metrics.active - |t.hooked|
    decreases |events|
  {
    if events != [] {
      GaugeCountsInFlight(labelOf, Step(labelOf, t, events[0]), events[1..]);
    }
  }

  /** Once every started request has finished, the gauge is back where it began. */
  lemma GaugeRestored(labelOf: Labeller, t: World, events: seq<Event>)
    requires t.hooked == multiset{}
    requires Run(labelOf, t, events).hooked == multiset{}
    ensures Run(labelOf, t, events).metrics.active == t.metrics.active
  {
    GaugeCountsInFlight(labelOf, t, events);
  }

  /** In particular a fresh registry reads zero in-flight requests again. */
  lemma GaugeReturnsToZero(labelOf: Labeller, events: seq<Event>)
    requires Run(labelOf, World(Initial, multiset{}), events).hooked == multiset{}
    ensures Run(labelOf, World(Initial, multiset{}), events).metrics.active == 0
  {
    GaugeRestored(labelOf, World(Initial, multiset{}), events);
  }

  /** Each counter tuple always equals the observation count of the same histogram tuple. */
  lemma {:induction false} CounterMatchesHistogram(labelOf: Labeller, t: World, events: seq<Event>)
    requires Consistent(t.metrics)
    ensures Consistent(Run(labelOf, t, events).metrics)
    decreases |events|
  {
    if events != [] {
      CounterMatchesHistogram(labelOf, Step(labelOf, t, events[0]), events[1..]);
    }
  }

  /** No counter or histogram tuple ever goes down. */
  lemma {:induction false} CountersNeverDecrease(labelOf: Labeller, t: World, events: seq<Event>, k: Labels)
    ensures Count(t.metrics.requests, k) <= Count(Run(labelOf, t, events).metrics.requests, k)
    ensures Count(t.metrics.observations, k) <= Count(Run(labelOf, t, events).metrics.observations, k)
    decreases |events|
  {
    if events != [] {
      CountersNeverDecrease(labelOf, Step(labelOf, t, events[0]), events[1..], k);
    }
  }

  /**
   * The `finish` events of two different requests commute, so the counter
   * and histogram totals do not depend on the order in which two responses
   * complete.
   */
  lemma FinishesCommute(labelOf: Labeller, t: World, i: nat, ri: RequestView, si: int, j: nat, rj: RequestView, sj: int)
    requires i != j
    ensures Step(labelOf, Step(labelOf, t, End(i, ri, si)), End(j, rj, sj))
         == Step(labelOf, Step(labelOf, t, End(j, rj, sj)), End(i, ri, si))
  {
    if i in t.hooked && j in t.hooked {
      assert t.hooked - multiset{i} - multiset{j} == t.hooked - multiset{j} - multiset{i};
      CompleteCommutes(t.metrics, labelOf(ri, si), labelOf(rj, sj));
    }
  }

  /** An arrival and the `finish` of a different request commute. */
  lemma ArriveEndCommute(labelOf: Labeller, t: World, i: nat, p: string, j: nat, rj: RequestView, sj: int)
    requires i != j
    ensures Step(labelOf, Step(labelOf, t, Arrive(i, p)), End(j, rj, sj))
         == Step(labelOf, Step(labelOf, t, End(j, rj, sj)), Arrive(i, p))
  {
    if Tracked(p) && j in t.hooked {
      assert t.hooked + multiset{i} - multiset{j} == t.hooked - multiset{j} + multiset{i};
      EnterCompleteCommute(t.metrics, labelOf(rj, sj));
    }
  }

  /** Two arrivals commute. */
  lemma ArrivalsCommute(labelOf: Labeller, t: World, i: nat, p: string, j: nat, q: string)
    ensures Step(labelOf, Step(labelOf, t, Arrive(i, p)), Arrive(j, q))
         == Step(labelOf, Step(labelOf, t, Arrive(j, q)), Arrive(i, p))
  {
    if Tracked(p) && Tracked(q) {
      assert t.hooked + multiset{i} + multiset{j} == t.hooked + multiset{j} + multiset{i};
    }
  }

  /** Any two events of different requests commute. */
  lemma StepsCommute(labelOf: Labeller, t: World, e1: Event, e2: Event)
    requires e1.id != e2.id
    ensures Step(labelOf, Step(labelOf, t, e1), e2) == Step(labelOf, Step(labelOf, t, e2), e1)
  {
    match (e1, e2)
    case (Arrive(i, p), Arrive(j, q)) => ArrivalsCommute(labelOf, t, i, p, j, q);
    case (Arrive(i, p), End(j, rj, sj)) => ArriveEndCommute(labelOf, t, i, p, j, rj, sj);
    case (End(i, ri, si), Arrive(j, q)) => ArriveEndCommute(labelOf, t, j, q, i, ri, si);
    case (End(i, ri, si), End(j, rj, sj)) => FinishesCommute(labelOf, t, i, ri, si, j, rj, sj);
  }

  lemma RunOne(labelOf: Labeller, t: World, e: Event)
    ensures Run(labelOf, t, [e]) == Step(labelOf, t, e)
  {
    assert [e][1..] == [];
  }

  lemma RunTwo(labelOf: Labeller, t: World, e1: Event, e2: Event)
    ensures Run(labelOf, t, [e1, e2]) == Step(labelOf, Step(labelOf, t, e1), e2)
  {
    assert [e1, e2][1..] == [e2];
    RunOne(labelOf, Step(labelOf, t, e1), e2);
  }

  lemma RunThree(labelOf: Labeller, t: World, e1: Event, e2: Event, e3: Event)
    ensures Run(labelOf, t, [e1, e2, e3]) == Step(labelOf, Step(labelOf, Step(labelOf, t, e1), e2), e3)
  {
    assert [e1, e2, e3][1..] == [e2, e3];
    RunTwo(labelOf, Step(labelOf, t, e1), e2, e3);
  }

  /** A scrape of `/metrics` that arrives and finishes leaves every metric as it was. */
  lemma ScrapeLeavesNoTrace(labelOf: Labeller, t: World, id: nat, req: RequestView, statusCode: int)
    requires id !in t.hooked
    ensures Run(labelOf, t, [Arrive(id, "/metrics"), End(id, req, statusCode)]) == t
  {
    RunTwo(labelOf, t, Arrive(id, "/metrics"), End(id, req, statusCode));
  }

  /** Running a concatenation runs its two parts one after the other. */
  lemma {:induction false} RunAppend(labelOf: Labeller, t: World, xs: seq<Event>, ys: seq<Event>)
    ensures Run(labelOf, t, xs + ys) == Run(labelOf, Run(labelOf, t, xs), ys)
    decreases |xs|
  {
    if xs != [] {
      assert (xs + ys)[0] == xs[0] && (xs + ys)[1..] == xs[1..] + ys;
      RunAppend(labelOf, Step(labelOf, t, xs[0]), xs[1..], ys);
    } else {
      assert xs + ys == ys;
    }
  }

  /**
   * Swapping two adjacent events of different requests, anywhere in a run,
   * changes no metric and no pending hook.
   */
  lemma SwapAdjacent(labelOf: Labeller, t: World, xs: seq<Event>, e1: Event, e2: Event, ys: seq<Event>)
    requires e1.id != e2.id
    ensures Run(labelOf, t, xs + [e1, e2] + ys) == Run(labelOf, t, xs + [e2, e1] + ys)
  {
    var u := Run(labelOf, t, xs);
    RunAppend(labelOf, t, xs + [e1, e2], ys);
    RunAppend(labelOf, t, xs, [e1, e2]);
    RunAppend(labelOf, t, xs + [e2, e1], ys);
    RunAppend(labelOf, t, xs, [e2, e1]);
    RunTwo(labelOf, u, e1, e2);
    RunTwo(labelOf, u, e2, e1);
    StepsCommute(labelOf, u, e1, e2);
  }

  /** Three tracked arrivals on a fresh registry: three requests in flight, nothing counted. */
  lemma ThreeArrivals(labelOf: Labeller, pa: string, pb: string, px: string)
    requires Tracked(pa) && Tracked(pb) && Tracked(px)
    ensures Run(labelOf, World(Initial, multiset{}), [Arrive(1, pa), Arrive(2, pb), Arrive(3, px)])
         == World(State(3, map[], map[]), multiset{1, 2, 3})
  {
    RunThree(labelOf, World(Initial, multiset{}), Arrive(1, pa), Arrive(2, pb), Arrive(3, px));
  }

  /** The metric state after the three `finish` hooks of the scenario below. */
  lemma ThreeCompletions(images: Labels, failed: Labels)
    requires images != failed
    ensures var s := Complete(Complete(Complete(State(3, map[], map[]), images), failed), images);
      && Count(s.requests, images) == 2 && Count(s.requests, failed) == 1 && s.active == 0
      && s.requests.Keys == {images, failed}
  {
    var s4 := Complete(State(3, map[], map[]), images);
    assert Count(s4.requests, images) == 1 && Count(s4.requests, failed) == 0;
    var s5 := Complete(s4, failed);
    assert Count(s5.requests, images) == 1 && Count(s5.requests, failed) == 1;
  }

  /** The three `finish` events, in another order than the arrivals. */
  lemma ThreeFinishes(labelOf: Labeller, a: RequestView, b: RequestView, x: RequestView)
    requires labelOf(a, 200) == labelOf(b, 200) != labelOf(x, 500)
    ensures var t := Run(labelOf, World(State(3, map[], map[]), multiset{1, 2, 3}),
        [End(2, b, 200), End(3, x, 500), End(1, a, 200)]);
      && Count(t.metrics.requests, labelOf(a, 200)) == 2
      && Count(t.metrics.requests, labelOf(x, 500)) == 1
      && t.metrics.requests.Keys == {labelOf(a, 200), labelOf(x, 500)}
      && t.metrics.active == 0
      && t.hooked == multiset{}
  {
    var t3 := World(State(3, map[], map[]), multiset{1, 2, 3});
    var s4 := Complete(t3.metrics, labelOf(a, 200));
    var s5 := Complete(s4, labelOf(x, 500));
    var s6 := Complete(s5, labelOf(a, 200));
    var t4 := Step(labelOf, t3, End(2, b, 200));
    assert t4 == World(s4, multiset{1, 3}) by {
      assert multiset{1, 2, 3} - multiset{2} == multiset{1, 3};
    }
    var t5 := Step(labelOf, t4, End(3, x, 500));
    assert t5 == World(s5, multiset{1}) by {
      assert multiset{1, 3} - multiset{3} == multiset{1};
    }
    var t6 := Step(labelOf, t5, End(1, a, 200));
    assert t6 == World(s6, multiset{}) by {
      assert multiset{1} - multiset{1} == multiset{};
    }
    RunThree(labelOf, t3, End(2, b, 200), End(3, x, 500), End(1, a, 200));
    ThreeCompletions(labelOf(a, 200), labelOf(x, 500));
  }

  /**
   * Two requests sharing one label and a third with another, finishing in
   * another order than they arrived: the shared label is counted twice, the
   * other once, and nothing is left in flight.
   */
  lemma TwoAndOne(labelOf: Labeller, a: RequestView, b: RequestView, x: RequestView)
    requires labelOf(a, 200) == labelOf(b, 200) != labelOf(x, 500)
    requires Tracked(a.path) && Tracked(b.path) && Tracked(x.path)
    ensures var t := Run(labelOf, World(Initial, multiset{}),
        [Arrive(1, a.path), Arrive(2, b.path), Arrive(3, x.path), End(2, b, 200), End(3, x, 500), End(1, a, 200)]);
      && Count(t.metrics.requests, labelOf(a, 200)) == 2
      && Count(t.metrics.requests, labelOf(x, 500)) == 1
      && t.metrics.requests.Keys == {labelOf(a, 200), labelOf(x, 500)}
      && t.metrics.active == 0
  {
    var arrivals := [Arrive(1, a.path), Arrive(2, b.path), Arrive(3, x.path)];
    var ends := [End(2, b, 200), End(3, x, 500), End(1, a, 200)];
    assert arrivals + ends ==
      [Arrive(1, a.path), Arrive(2, b.path), Arrive(3, x.path), End(2, b, 200), End(3, x, 500), End(1, a, 200)];
    RunAppend(labelOf, World(Initial, multiset{}), arrivals, ends);
    ThreeArrivals(labelOf, a.path, b.path, x.path);
    ThreeFinishes(labelOf, a, b, x);
  }

  /** On the backend wiring a `.png` request without a route template is labelled with the image bucket. */
  lemma PngLabel(req: RequestView, statusCode: int)
    requires !HasTemplate(req.route) && EndsWith(req.path, ".png")
    ensures LabelFor(Backend)(req, statusCode) == Labels(req.httpMethod, Images, statusCode)
  {
    BackendServer.PngIsImage(req.path);
  }

  /** A request without a template whose path is in no group and outside `/assets/` keeps its path as label. */
  lemma OwnLabel(req: RequestView, statusCode: int)
    requires !HasTemplate(req.route)
    requires ExtensionBucket(req.path) == None && !StartsWith(req.path, "/assets/")
    ensures LabelFor(Backend)(req, statusCode) == Labels(req.httpMethod, req.path, statusCode)
  {
    BackendServer.PassesThrough(req.path);
  }

  /** Two image requests and a failing API call, finishing in another order than they arrived. */
  const ImagesAndAnErrorEvents: seq<Event> := [
    Arrive(1, "/images/a.png"), Arrive(2, "/images/b.png"), Arrive(3, "/api/x"),
    End(2, RequestView("GET", "/images/b.png", None), 200),
    End(3, RequestView("GET", "/api/x", None), 500),
    End(1, RequestView("GET", "/images/a.png", None), 200)]

  /**
   * On the backend wiring: `/images/a.png` and `/images/b.png` answered 200
   * and `/api/x` answered 500 leave one `/static/images` tuple counted twice,
   * one `/api/x` tuple with status 500 counted once, no other series, and no
   * request in flight.
   */
  lemma ImagesAndAnError()
    ensures var t := Run(LabelFor(Backend), World(Initial, multiset{}), ImagesAndAnErrorEvents);
      && Count(t.metrics.requests, Labels("GET", "/static/images", 200)) == 2
      && Count(t.metrics.requests, Labels("GET", "/api/x", 500)) == 1
      && t.metrics.requests.Keys == {Labels("GET", "/static/images", 200), Labels("GET", "/api/x", 500)}
      && t.metrics.active == 0
  {
    var a := RequestView("GET", "/images/a.png", None);
    var b := RequestView("GET", "/images/b.png", None);
    var x := RequestView("GET", "/api/x", None);
    PngLabel(a, 200);
    PngLabel(b, 200);
    BackendServer.PassesThroughByChars(x.path);
    OwnLabel(x, 500);
    TwoAndOne(LabelFor(Backend), a, b, x);
  }
}
