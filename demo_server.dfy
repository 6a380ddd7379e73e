/**
 * The standalone demo (server.js): its route normaliser and the metrics
 * middleware that labels every finished request with it.
 */
module DemoServer {
  import opened Wrappers
  import opened Routes
  import opened Instrumentation

  /** `NORMALIZE_ROUTES` as shipped; the model takes the flag as a parameter. */
  const NormalizeRoutesDefault := true

  /** The fallback bucket for any other file under `/static/`. */
  const Other := "/static/other"

  predicate IsBucket(r: string)
  {
    r == Scripts || r == Images || r == Fonts || r == Markup || r == Other
  }

  /**
   * `normalizeRoute(req)`: the route template when Express matched a named
   * route, the raw path when normalisation is off, otherwise the first
   * extension bucket, then the `/static/` fallback, then the raw path.
   */
  function NormalizeRoute(req: RequestView, normalizeRoutes: bool): (r: string)
    ensures HasTemplate(req.route) ==> r == req.route.value
    ensures !HasTemplate(req.route) && !normalizeRoutes ==> r == req.path
    ensures !HasTemplate(req.route) ==> r == req.path || IsBucket(r)
  {
    if HasTemplate(req.route) then req.route.value
    else if !normalizeRoutes then req.path
    else match ExtensionBucket(req.path)
      case Some(b) => b
      case None => if StartsWith(req.path, "/static/") then Other else req.path
  }

  /**
   * With normalisation on and no template, each bucket is produced exactly
   * by the paths of its class, and every other path is passed through.
   * (A raw path equal to a bucket label cannot be passed through: each label
   * starts with `/static/`.)
   */
  lemma Classification(req: RequestView)
    requires !HasTemplate(req.route)
    ensures var r, p := NormalizeRoute(req, true), req.path;
      && (r == Scripts <==> IsScript(p))
      && (r == Images <==> !IsScript(p) && IsImage(p))
      && (r == Fonts <==> !IsScript(p) && !IsImage(p) && IsFont(p))
      && (r == Markup <==> !IsScript(p) && !IsImage(p) && !IsFont(p) && IsMarkup(p))
      && (r == Other <==> ExtensionBucket(p) == None && StartsWith(p, "/static/"))
      && (ExtensionBucket(p) == None && !StartsWith(p, "/static/") ==> r == p)
  {
    var p := req.path;
    assert StartsWith(Scripts, "/static/") && StartsWith(Images, "/static/");
    assert StartsWith(Fonts, "/static/") && StartsWith(Markup, "/static/");
    assert StartsWith(Other, "/static/");
  }

  /** The extension is checked before the `/static/` prefix. */
  lemma StaticScriptIsScript()
    ensures NormalizeRoute(RequestView("GET", "/static/app.js", None), true) == Scripts
  {
  }

  lemma StaticImageIsImage()
    ensures NormalizeRoute(RequestView("GET", "/static/logo.png", None), true) == Images
  {
  }

  lemma StaticDataIsOther()
    ensures NormalizeRoute(RequestView("GET", "/static/data.bin", None), true) == Other
  {
    var p := "/static/data.bin";
    NoExtensionByLastChar(p);
    assert StartsWith(p, "/static/");
  }

  /** With the flag as shipped, every `.png` path without a template gets the image bucket. */
  lemma ShippedFlagGroupsPng(req: RequestView)
    requires !HasTemplate(req.route) && EndsWith(req.path, ".png")
    ensures NormalizeRoute(req, NormalizeRoutesDefault) == Images
  {
    LastCharOf(req.path, ".png");
    DiffersFromEnd(req.path, ".js", 0); DiffersFromEnd(req.path, ".css", 0); DiffersFromEnd(req.path, ".map", 0);
  }

  /** So `/img/1.png` and `/img/2.png` end up in one metric series, not two. */
  lemma OneSeriesForTwoImages()
    ensures NormalizeRoute(RequestView("GET", "/img/1.png", None), NormalizeRoutesDefault)
         == NormalizeRoute(RequestView("GET", "/img/2.png", None), NormalizeRoutesDefault)
  {
    ShippedFlagGroupsPng(RequestView("GET", "/img/1.png", None));
    ShippedFlagGroupsPng(RequestView("GET", "/img/2.png", None));
  }

  /** The image group has no `jpeg`: such a path outside `/static/` passes through. */
  lemma JpegPassesThrough(req: RequestView)
    requires !HasTemplate(req.route)
    requires EndsWith(req.path, ".jpeg") && !StartsWith(req.path, "/static/")
    ensures NormalizeRoute(req, true) == req.path
  {
    JpegHasNoExtension(req.path);
  }

  /** Matching is case-sensitive. */
  lemma UpperCaseExtensionPassesThrough()
    ensures NormalizeRoute(RequestView("GET", "/APP.JS", None), true) == "/APP.JS"
  {
    NoExtensionByLastChar("/APP.JS");
    DiffersAt("/APP.JS", "/static/", 1);
  }

  /**
   * The `finish` hook of server.js:82-91 for a request seen as `req` at
   * finish time with status `statusCode`.
   */
  method OnFinish(reg: Registry, req: RequestView, statusCode: int, normalizeRoutes: bool)
    modifies reg
    ensures reg.Snapshot() ==
      Complete(old(reg.Snapshot()), Labels(req.httpMethod, NormalizeRoute(req, normalizeRoutes), statusCode))
  {
    var labels := Labels(req.httpMethod, NormalizeRoute(req, normalizeRoutes), statusCode);
    reg.Finish(labels);
  }
}
