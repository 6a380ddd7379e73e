# Request instrumentation of the monitoring demo, in Dafny

The repository wires Prometheus metrics into an Express application in two
near-identical ways: the standalone demo in `server.js`, and the `Server`
class in `backend/classes/Server.js`. Each wiring has three parts, and this
project models them:

- **The route normaliser.** It keeps the `route` label's cardinality bounded.
  It maps a request path to one of five fixed bucket labels or passes the path
  through unchanged.
  - In `server.js` a non-empty Express route template always wins. A
    `NORMALIZE_ROUTES` flag can switch grouping off, and the prefix fallback
    is `/static/` → `/static/other`.
  - In `Server.js` the template-first rule sits in the middleware that calls
    the normaliser, and the prefix fallback is `/assets/` → `/static/assets`.
  - Both use the same four extension groups, checked in the same order:
    `js|css|map`, `png|jpg|gif|svg|ico`, `woff2?|ttf|eot` and `html?`. None
    of the regular expressions use the `m` flag, so `$` means "at the very
    end", and matching is case-sensitive.
- **The metrics middleware.** It keeps three metrics: an in-flight gauge, a
  request counter, and a duration histogram. The counter and the histogram are
  keyed by the `(method, route, status_code)` tuple.
  - A `/metrics` request is not measured.
  - Any other request raises the gauge on entry.
  - On `finish` the gauge goes back down, and one counter tuple and the same
    histogram tuple each gain one.
- **In `Server.js` only**, two more parts:
  - The `dbType` check run when the module loads.
  - The language middleware, which turns `/api/xx/...` into `/api/...` and
    stores `xx` in `req.lang`.

Modules:

- `Wrappers`: `Option` and `Result`.
- `Routes`: the suffix and prefix tests, the four extension groups, and the
  bucket names the two normalisers share.
- `Instrumentation`: the label tuple and the abstract metric state.
  - `Registry` is a class holding the gauge, the counter map and the
    histogram-count map.
  - `IncActive`, `DecActive`, `IncRequests` and `ObserveDuration` are the
    prom-client calls the middleware makes.
  - `Admit` and `Finish` are the middleware's entry half and its `finish`
    hook, built from those calls.
- `DemoServer`: `server.js`.
- `BackendServer`: `backend/classes/Server.js`.
- `Traffic`: interleaved requests as a sequence of start (`Arrive`) and
  `finish` (`End`) events, with one hook per admitted request.
  - The invariant and interleaving lemmas hold for every labelling.
  - `LabelFor` gives the labelling of each wiring. The scenario lemmas at the
    end (`PngLabel`, `OwnLabel`, `ImagesAndAnError`) fix the backend wiring.

Two details of the code are worth noting:

- The image group is `png|jpg|gif|svg|ico` and has no `jpeg`.
  `JpegPassesThrough` shows that a `.jpeg` path outside `/static/` keeps its
  own label.
- The two normalisers stay two separate functions, because their fallbacks
  and their template handling differ.

In `Server.js` the `/metrics` handler is registered with `app.get` before the
middleware, and it ends the response. For GET and HEAD requests to
`/metrics`, the middleware's own skip is therefore a second guard. For any
other method, such as a POST to `/metrics`, only the skip keeps the request
unmeasured. The model keeps the skip as written.

## Model

| member | source | states |
|---|---|---|
| DemoServer.NormalizeRoute | server.js:56-71 | A non-empty route template is returned verbatim whatever the path. With the flag off the raw path is returned. Otherwise the result is the raw path or one of the five buckets. |
| DemoServer.Classification | server.js:62-70 | With grouping on and no template, there are five equivalences, one per bucket. Each bucket is produced iff the path is in its extension group and in no earlier one. `/static/other` is produced iff no group matches and the path starts with `/static/`. Every other path is returned unchanged. |
| DemoServer.StaticScriptIsScript | server.js:64-68 | The extension is tested before the prefix: `/static/app.js` gives `/static/scripts`, not `/static/other`. |
| DemoServer.StaticImageIsImage | server.js:65-68 | `/static/logo.png` gives `/static/images`. |
| DemoServer.StaticDataIsOther | server.js:64-68 | `/static/data.bin`, which has no listed extension, gives `/static/other`. |
| DemoServer.ShippedFlagGroupsPng | server.js:54-65 | With `NORMALIZE_ROUTES` as shipped (`true`), every `.png` path without a template gives `/static/images`. |
| DemoServer.OneSeriesForTwoImages | server.js:50-54 | With the shipped flag, `/img/1.png` and `/img/2.png` get the same route label, so they fall into one metric series. |
| DemoServer.JpegPassesThrough | server.js:65 | A `.jpeg` path outside `/static/` is returned unchanged, because the image group has no `jpeg`. |
| DemoServer.UpperCaseExtensionPassesThrough | server.js:64-70 | Matching is case-sensitive: `/APP.JS` is returned unchanged. |
| DemoServer.OnFinish | server.js:82-91 | The `finish` hook leaves the registry in `Complete` of its old state, with the tuple `(method, normalizeRoute(req), statusCode)`. |
| Routes.EndsWithIff | server.js:64-67 | An end-anchored suffix test holds iff the path is some string followed by the suffix. |
| Routes.JpegHasNoExtension | server.js:65 | A path ending in `.jpeg` is in none of the four extension groups. |
| Routes.NoExtensionByLastChar | backend/classes/Server.js:78-81 | A path whose last character ends no listed extension is in no group. |
| Routes.StartsWithIff | server.js:68 | The index form of `startsWith` holds iff the path is the prefix followed by some string. |
| Routes.StartsWith | backend/classes/Server.js:82 | `path.startsWith(prefix)`: the path's first characters are the prefix; `StartsWithIff` relates it to concatenation. |
| Routes.IsScript | server.js:64 | The script regex of the first guard: the path ends in `.js`, `.css` or `.map`, one end test per alternative. The same regex is used at backend/classes/Server.js:78. |
| Routes.IsImage | server.js:65 | The image regex: the path ends in `.png`, `.jpg`, `.gif`, `.svg` or `.ico`, with no `jpeg`, as at backend/classes/Server.js:79. |
| Routes.IsFont | server.js:66 | The font regex: the path ends in `.woff`, `.woff2`, `.ttf` or `.eot`, as at backend/classes/Server.js:80. |
| Routes.IsMarkup | server.js:67 | The markup regex: the path ends in `.html` or `.htm`, as at backend/classes/Server.js:81. |
| Routes.ExtensionBucket | backend/classes/Server.js:78-81 | The first four guarded returns of either normaliser (also server.js:64-67), tested in source order. The first group matched decides; `None` when no group matches. Its behaviour is stated by the two `Classification` lemmas. |
| Instrumentation.Bump | server.js:89 | A counter `inc`: the incremented tuple rises by one and every other tuple keeps its value. A tuple seen for the first time starts from zero. |
| Instrumentation.Enter | server.js:79 | Entry raises the gauge by one and leaves the counter and the histogram alone. |
| Instrumentation.Complete | server.js:83-90 | `finish` lowers the gauge by one. Exactly the labelled tuple rises by one, in the counter and in the histogram, and all other tuples are unchanged. The counter equal to the histogram count per tuple is preserved. |
| Instrumentation.Registry.constructor | server.js:24-46 | A new registry has a zero gauge and no counter or histogram series. |
| Instrumentation.Registry.IncActive | server.js:79 | The gauge rises by one; nothing else changes. |
| Instrumentation.Registry.DecActive | server.js:83 | The gauge falls by one; nothing else changes. |
| Instrumentation.Registry.IncRequests | server.js:89 | The counter gains one at the given tuple; nothing else changes. |
| Instrumentation.Registry.ObserveDuration | server.js:80-90 | Ending the timer records one observation at the given tuple; nothing else changes. |
| Instrumentation.Registry.Admit | server.js:75-81 | A `/metrics` request leaves the whole state unchanged and gets no hook. Any other request gets a hook and its entry step. |
| Instrumentation.Registry.Finish | server.js:82-91 | The three updates of the hook together are exactly `Complete` with the given labels. |
| Instrumentation.HasTemplate | server.js:58 | The truthiness of `req.route?.path`: a route matched and its template is not empty. It is used the same way at backend/classes/Server.js:51. |
| Instrumentation.Tracked | server.js:77 | The skip test `req.path === '/metrics'`, negated. It is the same test as backend/classes/Server.js:46. |
| Instrumentation.BumpCommutes | server.js:89 | Two counter increments give the same counter in either order. |
| Instrumentation.CompleteCommutes | server.js:83-90 | Two `finish` hooks give the same metric state in either order. |
| Instrumentation.EnterCompleteCommute | server.js:79-90 | The entry of one request and the `finish` of another give the same state in either order. |
| BackendServer.CheckDbType | backend/classes/Server.js:12-18 | Startup succeeds iff `dbType` is exactly `SQLite`, `MySQL` or `MongoDB`; otherwise it fails with `Valid dbType not specified`. On success exactly one of the three flags is set, and `isSQL` holds iff the type is SQLite or MySQL. |
| BackendServer.DbTypeRoundTrip | backend/classes/Server.js:12-15 | Accepted flags name their setting, and every well-formed flag set is what its setting produces. |
| BackendServer.NormalizeRoute | backend/classes/Server.js:77-84 | The result is the path or one of the five buckets. It is the group's bucket when an extension group matches, and the path itself when no group matches and the path is outside `/assets/`. |
| BackendServer.Classification | backend/classes/Server.js:78-83 | For each of the five buckets, it is produced iff the path is in its class, or is that bucket label itself. The class of `/static/assets` is no extension and a path under `/assets/`. |
| BackendServer.BucketIsFixedPoint | backend/classes/Server.js:77-84 | Every bucket label is normalised to itself. |
| BackendServer.Idempotent | backend/classes/Server.js:77-84 | Normalising twice gives the same label as normalising once. |
| BackendServer.AssetsHasNoExtension | backend/classes/Server.js:82 | `/static/assets` is in none of the extension groups. |
| BackendServer.StaticIsNotAssets | backend/classes/Server.js:82 | No path under `/static/` is under `/assets/`. |
| BackendServer.ScriptIsScript | backend/classes/Server.js:78 | `/script.js` gives `/static/scripts`. |
| BackendServer.AssetScriptIsScript | backend/classes/Server.js:78-82 | The extension beats the prefix: `/assets/app.js` gives `/static/scripts`. |
| BackendServer.AssetDataIsAssets | backend/classes/Server.js:82 | `/assets/data.bin` gives `/static/assets`. |
| BackendServer.PngIsImage | backend/classes/Server.js:79 | Every `.png` path gives `/static/images`, wherever it lives. |
| BackendServer.PassesThrough | backend/classes/Server.js:83 | Every path in no extension group and outside `/assets/` is its own label. |
| BackendServer.PassesThroughByChars | backend/classes/Server.js:78-83 | A path whose last character ends no listed extension, and whose third character rules out `/assets/`, is in no group, is outside `/assets/`, and is its own label. |
| BackendServer.UnmatchedPassesThrough | backend/classes/Server.js:83 | `/arbitrary/xyz` is returned unchanged. |
| BackendServer.RouteLabel | backend/classes/Server.js:51-52 | A non-empty template wins. Otherwise the label is exactly `NormalizeRoute(path)`: the path itself or a bucket, and already in normal form. |
| BackendServer.OnFinish | backend/classes/Server.js:49-60 | The `finish` hook leaves the registry in `Complete` of its old state, with the tuple `(method, route label, statusCode)`. |
| BackendServer.TakeLine | backend/classes/Server.js:65 | `.*` consumes a prefix of the input that is free of line terminators and stops only at a line terminator or at the end. |
| BackendServer.IsLineTerminator | backend/classes/Server.js:65 | The four characters JavaScript's `.` does not match: `\n`, `\r`, U+2028 and U+2029. |
| BackendServer.TakeLineWhole | backend/classes/Server.js:65 | On input without line terminators, `.*` consumes everything. |
| BackendServer.MatchApiLang | backend/classes/Server.js:65 | A match implies that the URL starts with `/api/` and has `/` at index 7. The first group is the two characters at 5..7, and the second is `/` plus the line after index 8. |
| BackendServer.MatchApiLangIff | backend/classes/Server.js:65 | The expression matches iff the URL is `/api/` + two lower-case ASCII letters + `/` + anything. |
| BackendServer.RewriteLanguage | backend/classes/Server.js:64-67 | On a match, the language is the two letters and the URL is `/api` + the second group. Otherwise the URL is unchanged and the language is the prior truthy `lang` or `en`. The language is never empty. |
| BackendServer.RewriteRemovesLanguageSegment | backend/classes/Server.js:65-66 | On a URL without line terminators, a match removes exactly the three characters `/xx`, and `lang` is `xx`. |
| BackendServer.RewriteTakesLanguage | backend/classes/Server.js:65-66 | For a tail without line terminators, `/api/xx/tail` becomes `/api/tail` with `lang` set to `xx`, whatever `lang` was before. |
| BackendServer.NonMatchingUrls | backend/classes/Server.js:65-67 | `/api/en`, `/api/users/1` and `/api/EN/x` are left unchanged. The language becomes `en`, or keeps a prior value. |
| BackendServer.LineTerminatorTruncates | backend/classes/Server.js:65 | `/api/sv/a\nb` becomes `/api/a` with `lang` `sv`: what follows a line terminator is dropped. |
| BackendServer.IncomingRequest.constructor | backend/classes/Server.js:64 | A request object holds the given URL and language. |
| BackendServer.LanguageMiddleware | backend/classes/Server.js:64-69 | Updating `req.url` and `req.lang` in place gives exactly the state `RewriteLanguage` describes. |
| Traffic.Step | server.js:75-91 | A `/metrics` arrival changes nothing. Any other arrival enters and registers its hook. A finish with a registered hook completes with its labels and removes the hook. A finish for another request, such as a scrape, changes nothing. |
| Traffic.Run | server.js:75-94 | The events folded left through `Step`, in order; `RunAppend` states that order. |
| Traffic.RouteFor | server.js:84-88 | The route label of each wiring: `normalizeRoute(req)` for the demo, and for the backend the template-or-normalise choice of backend/classes/Server.js:51-52 (`RouteLabel`). |
| Traffic.LabelFor | backend/classes/Server.js:53-57 | The label tuple `{ method, route, status_code }` of each wiring, as at server.js:84-88. |
| Traffic.FinishesCommute | server.js:82-91 | The `finish` events of two different requests give the same metrics and pending hooks in either order. |
| Traffic.ArriveEndCommute | server.js:75-91 | The arrival of one request and the `finish` of another commute. |
| Traffic.ArrivalsCommute | server.js:75-81 | Two arrivals commute. |
| Traffic.StepsCommute | server.js:75-91 | Any two events of different requests commute. |
| Traffic.SwapAdjacent | backend/classes/Server.js:45-62 | Swapping two adjacent events of different requests anywhere in a run changes nothing in the result. The counter and histogram totals therefore do not depend on that interleaving. |
| Traffic.GaugeCountsInFlight | server.js:79-83 | Over any event sequence, the gauge minus the number of pending hooks is invariant. |
| Traffic.GaugeRestored | server.js:79-83 | Once every started request has finished, the gauge is back at its starting value. |
| Traffic.GaugeReturnsToZero | backend/classes/Server.js:47-50 | From a fresh registry, the gauge is zero again once no request is in flight. |
| Traffic.CounterMatchesHistogram | server.js:89-90 | Counter value equals histogram count for every tuple, after any event sequence. |
| Traffic.CountersNeverDecrease | backend/classes/Server.js:58-59 | No counter or histogram tuple ever decreases. |
| Traffic.ScrapeLeavesNoTrace | server.js:77 | A `/metrics` request that arrives and finishes leaves every metric as it was. |
| Traffic.RunAppend | server.js:75-94 | Events are processed in order: running a concatenation runs its parts in turn. |
| Traffic.ThreeArrivals | backend/classes/Server.js:46-47 | Three tracked arrivals on a fresh registry give three requests in flight and nothing counted. |
| Traffic.ThreeFinishes | backend/classes/Server.js:49-59 | Three finishes in the order 2, 3, 1, not the arrival order, two of them sharing a label. That label is counted twice, the other once, only those two tuples exist, and nothing is left in flight. |
| Traffic.TwoAndOne | backend/classes/Server.js:45-62 | The two lemmas above combined over the whole six-event interleaving: the shared label is counted twice, the other once, no other series exists, and the gauge is zero. |
| Traffic.PngLabel | backend/classes/Server.js:51-52 | On the backend wiring, a `.png` request of any method whose route template is missing or empty is labelled `(method, /static/images, status)`. |
| Traffic.OwnLabel | backend/classes/Server.js:51-52 | On the backend wiring, a request of any method whose route template is missing or empty, and whose path is in no extension group and outside `/assets/`, is labelled `(method, path, status)`. |
| Traffic.ImagesAndAnError | backend/classes/Server.js:45-62 | Run the six events of `ImagesAndAnErrorEvents`: `/images/a.png` and `/images/b.png` answered 200, and `/api/x` answered 500, finishing out of order. The result is one `/static/images` tuple counted twice, one `/api/x` 500 tuple counted once, no other counter series, and a zero gauge. |

## Left out

- prom-client itself: registry text rendering, `contentType`, default process metrics and default labels. The library's code is not part of this model; its three metric types are reduced to an integer and two maps.
- The `/metrics` handlers (`server.js`, `Server.js:40-43`): thin wrappers over the library's rendering.
- Histogram durations and bucket bounds. These are wall-clock floating-point timing; only the per-tuple observation count is modelled.
- `backend/helpers/metrics.js`, which only declares the library objects, and `backend/index.js`, which handles process start-up and file I/O.
- Express plumbing is not modelled:
  - `listen`, `express.static` and the SPA fallback;
  - the dynamic import of the REST API chosen by `isSQL`;
  - loading `settings.json`;
  - the `this.app` field;
  - the demo endpoints, including the random delay of `/slow`.
- Real concurrency and the `res.on('finish')` callback. These are represented by explicit event sequences in `Traffic`, with one hook per admitted request identifier.
- How Express derives `req.path` from `req.url` and fills `req.route`. The request as seen at `finish` is an input (`RequestView`), so in `Server.js` the path read after the language rewrite is whatever the caller passes.
- The settings file is read as `Option<string>`. A missing key is `None`, and values of other JSON types are not modelled.
- `CheckDbType`: the source sets the global flags before throwing. The model returns `Err` without flags, because nothing reads them after the throw.
