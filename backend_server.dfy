/**
 * The embedded server (backend/classes/Server.js): the `dbType` check run
 * when the module loads, the metrics middleware with its template-or-normalise
 * route label, the language URL rewrite and `normalizeRoute(path)`.
 */
module BackendServer {
  import opened Wrappers
  import opened Routes
  import opened Instrumentation

  // ---------------------------------------------------------------- dbType

  /** The globals `isSQLite`, `isMySQL`, `isSQL` and `isMongoDB`. */
  datatype DbFlags = DbFlags(isSQLite: bool, isMySQL: bool, isSQL: bool, isMongoDB: bool)

  /** A flag set that a successful check can leave behind. */
  predicate WellFormed(f: DbFlags)
  {
    && (f.isSQL <==> f.isSQLite || f.isMySQL)
    && (if f.isSQLite then 1 else 0) + (if f.isMySQL then 1 else 0) + (if f.isMongoDB then 1 else 0) == 1
  }

  /**
   * The check of `settings.dbType` (None when the key is missing): the flags
   * are strict comparisons with the three supported names, and if none holds
   * startup throws.
   */
  function CheckDbType(dbType: Option<string>): (r: Result<DbFlags>)
    ensures r.Ok? <==> dbType in {Some("SQLite"), Some("MySQL"), Some("MongoDB")}
    ensures r.Err? ==> r.message == "Valid dbType not specified"
    ensures r.Ok? ==> WellFormed(r.value)
    ensures r.Ok? ==> (r.value.isSQL <==> dbType == Some("SQLite") || dbType == Some("MySQL"))
  {
    var isSQLite := dbType == Some("SQLite");
    var isMySQL := dbType == Some("MySQL");
    var isSQL := isSQLite || isMySQL;
    var isMongoDB := dbType == Some("MongoDB");
    if !isSQLite && !isMySQL && !isMongoDB then Err("Valid dbType not specified")
    else Ok(DbFlags(isSQLite, isMySQL, isSQL, isMongoDB))
  }

  /** The setting a well-formed flag set stands for. */
  function DbTypeName(f: DbFlags): string
  {
    if f.isSQLite then "SQLite" else if f.isMySQL then "MySQL" else "MongoDB"
  }

  /** The flags and the accepted setting determine each other. */
  lemma DbTypeRoundTrip(dbType: Option<string>, f: DbFlags)
    ensures CheckDbType(dbType) == Ok(f) ==> dbType == Some(DbTypeName(f))
    ensures WellFormed(f) ==> CheckDbType(Some(DbTypeName(f))) == Ok(f)
  {
  }

  // ------------------------------------------------------- normalizeRoute

  /** The fallback bucket for any other file under `/assets/`. */
  const Assets := "/static/assets"

  predicate IsBucket(r: string)
  {
    r == Scripts || r == Images || r == Fonts || r == Markup || r == Assets
  }

  /**
   * `normalizeRoute(path)`: the first extension bucket, then the `/assets/`
   * fallback, then the path unchanged.
   */
  function NormalizeRoute(path: string): (r: string)
    ensures r == path || IsBucket(r)
    ensures ExtensionBucket(path).Some? ==> r == ExtensionBucket(path).value
    ensures ExtensionBucket(path) == None && !StartsWith(path, "/assets/") ==> r == path
  {
    match ExtensionBucket(path)
    case Some(b) => b
    case None => if StartsWith(path, "/assets/") then Assets else path
  }

  lemma AssetsHasNoExtension() ensures ExtensionBucket(Assets) == None { EndsInPlainS(Assets); }

  /** A bucket label under `/static/` is not under `/assets/`. */
  lemma StaticIsNotAssets(p: string)
    requires StartsWith(p, "/static/")
    ensures !StartsWith(p, "/assets/")
  {
    assert p[1] == p[..8][1];
    DiffersAt(p, "/assets/", 1);
  }

  /** No bucket label is itself bucketed again. */
  lemma BucketIsFixedPoint(b: string)
    requires IsBucket(b)
    ensures NormalizeRoute(b) == b
  {
    if b == Assets {
      AssetsHasNoExtension();
      StaticIsNotAssets(Assets);
    } else {
      BucketsHaveNoExtension(b);
      assert StartsWith(b, "/static/");
      StaticIsNotAssets(b);
    }
  }

  /** Normalising a label a second time changes nothing. */
  lemma Idempotent(path: string)
    ensures NormalizeRoute(NormalizeRoute(path)) == NormalizeRoute(path)
  {
    var r := NormalizeRoute(path);
    if r != path { BucketIsFixedPoint(r); }
  }

  /**
   * Each bucket is produced by the paths of its class and by the bucket
   * label itself, which passes through unchanged.
   */
  lemma Classification(p: string)
    ensures var r := NormalizeRoute(p);
      && (r == Scripts <==> IsScript(p) || p == Scripts)
      && (r == Images <==> (!IsScript(p) && IsImage(p)) || p == Images)
      && (r == Fonts <==> (!IsScript(p) && !IsImage(p) && IsFont(p)) || p == Fonts)
      && (r == Markup <==> (!IsScript(p) && !IsImage(p) && !IsFont(p) && IsMarkup(p)) || p == Markup)
      && (r == Assets <==> (ExtensionBucket(p) == None && StartsWith(p, "/assets/")) || p == Assets)
  {
    if IsBucket(p) { BucketIsFixedPoint(p); }
  }

  lemma ScriptIsScript() ensures NormalizeRoute("/script.js") == Scripts {}

  /** The extension is checked before the `/assets/` prefix. */
  lemma AssetScriptIsScript() ensures NormalizeRoute("/assets/app.js") == Scripts {}

  lemma AssetDataIsAssets()
    ensures NormalizeRoute("/assets/data.bin") == Assets
  {
    var p := "/assets/data.bin";
    NoExtensionByLastChar(p);
    assert StartsWith(p, "/assets/");
  }

  /** A `.png` path is labelled with the image bucket, wherever it lives. */
  lemma PngIsImage(p: string)
    requires EndsWith(p, ".png")
    ensures NormalizeRoute(p) == Images
  {
    LastCharOf(p, ".png");
    DiffersFromEnd(p, ".js", 0); DiffersFromEnd(p, ".css", 0); DiffersFromEnd(p, ".map", 0);
  }

  /** A path in no extension group and outside `/assets/` is its own label. */
  lemma PassesThrough(p: string)
    requires ExtensionBucket(p) == None
    requires !StartsWith(p, "/assets/")
    ensures NormalizeRoute(p) == p
  {
  }

  /**
   * The last character can rule out every group, and the third one the
   * `/assets/` prefix.
   */
  lemma PassesThroughByChars(p: string)
    requires |p| > 2 && EndsNoExtension(p[|p| - 1]) && p[2] != 's'
    ensures ExtensionBucket(p) == None && !StartsWith(p, "/assets/")
    ensures NormalizeRoute(p) == p
  {
    NoExtensionByLastChar(p);
    DiffersAt(p, "/assets/", 2);
    PassesThrough(p);
  }

  lemma UnmatchedPassesThrough()
    ensures NormalizeRoute("/arbitrary/xyz") == "/arbitrary/xyz"
  {
    PassesThroughByChars("/arbitrary/xyz");
  }

  // --------------------------------------------------- metrics middleware

  /** `req.route?.path || this.normalizeRoute(req.path)` */
  function RouteLabel(route: Option<string>, path: string): (r: string)
    ensures HasTemplate(route) ==> r == route.value
    ensures !HasTemplate(route) ==> r == NormalizeRoute(path)
    ensures !HasTemplate(route) ==> r == path || IsBucket(r)
    ensures !HasTemplate(route) ==> NormalizeRoute(r) == r
  {
    if HasTemplate(route) then route.value
    else
      Idempotent(path);
      NormalizeRoute(path)
  }

  /**
   * The `finish` hook of Server.js:49-60 for a request seen as `req` at
   * finish time (after the language rewrite below) with status `statusCode`.
   */
  method OnFinish(reg: Registry, req: RequestView, statusCode: int)
    modifies reg
    ensures reg.Snapshot() ==
      Complete(old(reg.Snapshot()), Labels(req.httpMethod, RouteLabel(req.route, req.path), statusCode))
  {
    var route := RouteLabel(req.route, req.path);
    reg.Finish(Labels(req.httpMethod, route, statusCode));
  }

  // ------------------------------------------------- language URL rewrite

  predicate IsLowerAscii(c: char)
  {
    'a' <= c <= 'z'
  }

  /** The characters JavaScript's `.` does not match. */
  predicate IsLineTerminator(c: char)
  {
    c == '\n' || c == '\r' || c == '\U{2028}' || c == '\U{2029}'
  }

  predicate NoLineTerminators(s: string)
  {
    forall i :: 0 <= i < |s| ==> !IsLineTerminator(s[i])
  }

  /** What a greedy `.*` consumes: the longest prefix free of line terminators. */
  function TakeLine(s: string): (r: string)
    ensures r <= s
    ensures NoLineTerminators(r)
    ensures |r| < |s| ==> IsLineTerminator(s[|r|])
    decreases |s|
  {
    if s == [] || IsLineTerminator(s[0]) then [] else [s[0]] + TakeLine(s[1..])
  }

  lemma TakeLineWhole(s: string)
    requires NoLineTerminators(s)
    ensures TakeLine(s) == s
  {
  }

  /** The two capture groups of `/^\/api\/([a-z]{2})(\/.*)/`. */
  datatype ApiMatch = ApiMatch(lang: string, rest: string)

  /**
   * `req.url.match(/^\/api\/([a-z]{2})(\/.*)/)`: `/api/`, two lower-case
   * ASCII letters, then a `/` that starts the second group, which runs to the
   * first line terminator.
   */
  function MatchApiLang(url: string): (m: Option<ApiMatch>)
    ensures m.Some? ==> 8 <= |url| && url[..5] == "/api/" && url[7] == '/'
    ensures m.Some? ==> |m.value.lang| == 2 && m.value.lang == url[5..7]
    ensures m.Some? ==> m.value.rest == "/" + TakeLine(url[8..])
  {
    if 8 <= |url| && url[..5] == "/api/" && IsLowerAscii(url[5]) && IsLowerAscii(url[6]) && url[7] == '/'
    then Some(ApiMatch(url[5..7], "/" + TakeLine(url[8..])))
    else None
  }

  /** The regular expression matches exactly the URLs `/api/xx/...`. */
  lemma MatchApiLangIff(url: string)
    ensures MatchApiLang(url).Some? <==>
      exists lang: string, tail: string ::
        && url == "/api/" + lang + "/" + tail
        && |lang| == 2 && IsLowerAscii(lang[0]) && IsLowerAscii(lang[1])
  {
    if MatchApiLang(url).Some? {
      var lang, tail := url[5..7], url[8..];
      assert url == "/api/" + lang + "/" + tail;
    }
    if exists lang: string, tail: string ::
        && url == "/api/" + lang + "/" + tail
        && |lang| == 2 && IsLowerAscii(lang[0]) && IsLowerAscii(lang[1])
    {
      var lang: string, tail: string :|
        && url == "/api/" + lang + "/" + tail
        && |lang| == 2 && IsLowerAscii(lang[0]) && IsLowerAscii(lang[1]);
      assert url[..5] == "/api/" && url[5] == lang[0] && url[6] == lang[1] && url[7] == '/';
    }
  }

  /** `req.url` and `req.lang` after the language middleware. */
  datatype LangRewrite = LangRewrite(url: string, lang: string)

  /**
   * The language middleware on a request with URL `url` and prior `req.lang`
   * `lang`: a matching URL loses its language segment, which becomes
   * `req.lang`; otherwise the URL stays and a falsy `req.lang` becomes `'en'`.
   */
  function RewriteLanguage(url: string, lang: Option<string>): (r: LangRewrite)
    ensures r.lang != ""
    ensures MatchApiLang(url).Some? ==>
      r.lang == url[5..7] && r.url == "/api/" + TakeLine(url[8..])
    ensures MatchApiLang(url).None? ==>
      r.url == url && r.lang == (if lang.Some? && lang.value != "" then lang.value else "en")
  {
    match MatchApiLang(url)
    case Some(m) => LangRewrite("/api" + m.rest, m.lang)
    case None => LangRewrite(url, if lang.Some? && lang.value != "" then lang.value else "en")
  }

  /**
   * On a URL without line terminators the rewrite removes exactly the three
   * characters `/xx` after `/api`.
   */
  lemma RewriteRemovesLanguageSegment(url: string, lang: Option<string>)
    requires NoLineTerminators(url)
    requires MatchApiLang(url).Some?
    ensures RewriteLanguage(url, lang).url == url[..4] + url[7..]
    ensures |RewriteLanguage(url, lang).url| == |url| - 3
    ensures RewriteLanguage(url, lang).lang == url[5..7]
  {
    var tail := url[8..];
    assert NoLineTerminators(tail) by {
      forall i | 0 <= i < |tail| ensures !IsLineTerminator(tail[i]) {
        assert tail[i] == url[8 + i];
      }
    }
    TakeLineWhole(tail);
    assert url[..4] + url[7..] == "/api/" + tail;
  }

  /** `/api/xx/tail` becomes `/api/tail` with `lang` set to `xx`, whatever `lang` was. */
  lemma RewriteTakesLanguage(xx: string, tail: string, prior: Option<string>)
    requires |xx| == 2 && IsLowerAscii(xx[0]) && IsLowerAscii(xx[1])
    requires NoLineTerminators(tail)
    ensures RewriteLanguage("/api/" + xx + "/" + tail, prior) == LangRewrite("/api/" + tail, xx)
  {
    var url := "/api/" + xx + "/" + tail;
    assert url[..5] == "/api/" && url[5] == xx[0] && url[6] == xx[1] && url[7] == '/';
    assert url[5..7] == xx && url[8..] == tail;
    TakeLineWhole(tail);
  }

  /** URLs the expression does not match keep their URL; `lang` falls back. */
  lemma NonMatchingUrls(prior: string)
    requires prior != ""
    ensures RewriteLanguage("/api/en", None) == LangRewrite("/api/en", "en")
    ensures RewriteLanguage("/api/users/1", None) == LangRewrite("/api/users/1", "en")
    ensures RewriteLanguage("/api/EN/x", Some(prior)) == LangRewrite("/api/EN/x", prior)
  {
  }

  /** JavaScript's `.` stops at a line terminator, so the rewrite drops what follows it. */
  lemma LineTerminatorTruncates()
    ensures RewriteLanguage("/api/sv/a\nb", None) == LangRewrite("/api/a", "sv")
  {
    var url := "/api/sv/a\nb";
    assert MatchApiLang(url).Some?;
    assert url[8..] == "a\nb";
    assert TakeLine("\nb") == "";
  }

  /** The Express request object as far as the language middleware touches it. */
  class IncomingRequest {
    var url: string
    var lang: Option<string>

    constructor (url: string, lang: Option<string>)
      ensures this.url == url && this.lang == lang
    {
      this.url, this.lang := url, lang;
    }
  }

  /** The language middleware updating `req.url` and `req.lang` in place. */
  method LanguageMiddleware(req: IncomingRequest)
    modifies req
    ensures req.url == RewriteLanguage(old(req.url), old(req.lang)).url
    ensures req.lang == Some(RewriteLanguage(old(req.url), old(req.lang)).lang)
  {
    var m := MatchApiLang(req.url);
    if m.Some? {
      req.lang := Some(m.value.lang);
      req.url := "/api" + m.value.rest;
    }
    if req.lang.None? || req.lang.value == "" {
      req.lang := Some("en");
    }
  }
}
