/**
 * String matching shared by the two route normalisers.  Both source files test
 * a request path against the same four regular expressions,
 *   /\.(js|css|map)$/, /\.(png|jpg|gif|svg|ico)$/, /\.(woff2?|ttf|eot)$/, /\.html?$/
 * in that order.  None of them is anchored at the start and JavaScript's `$`
 * (without the `m` flag) matches only at the very end of the string, so each
 * one holds exactly when the path ends with one of the listed suffixes.
 * Matching is case-sensitive.
 */
module Routes {
  import opened Wrappers

  predicate EndsWith(s: string, suffix: string)
  {
    |suffix| <= |s| && s[|s| - |suffix|..] == suffix
  }

  /** `String.prototype.startsWith` */
  predicate StartsWith(s: string, prefix: string)
  {
    |prefix| <= |s| && s[..|prefix|] == prefix
  }

  /** A prefix test fails as soon as one character differs. */
  lemma DiffersAt(s: string, prefix: string, i: nat)
    requires i < |prefix| && i < |s| && s[i] != prefix[i]
    ensures !StartsWith(s, prefix)
  {
    assert |prefix| <= |s| ==> s[..|prefix|][i] == s[i];
  }

  /** The suffix test is the same as "something followed by the suffix". */
  lemma EndsWithIff(s: string, suffix: string)
    ensures EndsWith(s, suffix) <==> exists p :: s == p + suffix
  {
    if EndsWith(s, suffix) {
      var p := s[..|s| - |suffix|];
      assert s == p + suffix;
    }
    if exists p :: s == p + suffix {
      var p :| s == p + suffix;
      assert s[|s| - |suffix|..] == suffix;
    }
  }

  lemma StartsWithIff(s: string, prefix: string)
    ensures StartsWith(s, prefix) <==> exists q :: s == prefix + q
  {
    if StartsWith(s, prefix) {
      var q := s[|prefix|..];
      assert s == prefix + q;
    }
    if exists q :: s == prefix + q {
      var q :| s == prefix + q;
      assert s[..|prefix|] == prefix;
    }
  }

  /** /\.(js|css|map)$/ */
  predicate IsScript(path: string)
  {
    EndsWith(path, ".js") || EndsWith(path, ".css") || EndsWith(path, ".map")
  }

  /** /\.(png|jpg|gif|svg|ico)$/ -- no `jpeg` */
  predicate IsImage(path: string)
  {
    EndsWith(path, ".png") || EndsWith(path, ".jpg") || EndsWith(path, ".gif")
    || EndsWith(path, ".svg") || EndsWith(path, ".ico")
  }

  /** /\.(woff2?|ttf|eot)$/ */
  predicate IsFont(path: string)
  {
    EndsWith(path, ".woff") || EndsWith(path, ".woff2") || EndsWith(path, ".ttf")
    || EndsWith(path, ".eot")
  }

  /** /\.html?$/ */
  predicate IsMarkup(path: string)
  {
    EndsWith(path, ".html") || EndsWith(path, ".htm")
  }

  const Scripts := "/static/scripts"
  const Images := "/static/images"
  const Fonts := "/static/fonts"
  const Markup := "/static/html"

  /**
   * The first four guarded returns of either normaliser: the bucket of the
   * first extension group the path belongs to, if any.
   */
  function ExtensionBucket(path: string): Option<string>
  {
    if IsScript(path) then Some(Scripts)
    else if IsImage(path) then Some(Images)
    else if IsFont(path) then Some(Fonts)
    else if IsMarkup(path) then Some(Markup)
    else None
  }

  /** A suffix test fails as soon as one character, counted from the end, differs. */
  lemma DiffersFromEnd(s: string, suffix: string, k: nat)
    requires k < |suffix| && k < |s| && s[|s| - 1 - k] != suffix[|suffix| - 1 - k]
    ensures !EndsWith(s, suffix)
  {
    assert |suffix| <= |s| ==> s[|s| - |suffix|..][|suffix| - 1 - k] == s[|s| - 1 - k];
  }

  lemma LastCharOf(s: string, suffix: string)
    requires EndsWith(s, suffix) && |suffix| > 0
    ensures s[|s| - 1] == suffix[|suffix| - 1]
  {
    assert s[|s| - |suffix|..][|suffix| - 1] == s[|s| - 1];
  }

  /** No listed extension ends in `c`. */
  predicate EndsNoExtension(c: char)
  {
    c != 's' && c != 'p' && c != 'g' && c != 'f' && c != 'o' && c != '2' && c != 't' && c != 'l' && c != 'm'
  }

  /** A path whose last character ends no listed extension is in no group. */
  lemma NoExtensionByLastChar(path: string)
    requires |path| > 0 && EndsNoExtension(path[|path| - 1])
    ensures ExtensionBucket(path) == None
  {
    DiffersFromEnd(path, ".js", 0); DiffersFromEnd(path, ".css", 0); DiffersFromEnd(path, ".map", 0);
    DiffersFromEnd(path, ".png", 0); DiffersFromEnd(path, ".jpg", 0); DiffersFromEnd(path, ".gif", 0);
    DiffersFromEnd(path, ".svg", 0); DiffersFromEnd(path, ".ico", 0);
    DiffersFromEnd(path, ".woff", 0); DiffersFromEnd(path, ".woff2", 0);
    DiffersFromEnd(path, ".ttf", 0); DiffersFromEnd(path, ".eot", 0);
    DiffersFromEnd(path, ".html", 0); DiffersFromEnd(path, ".htm", 0);
  }

  /** `.jpeg` is in no group. */
  lemma JpegHasNoExtension(path: string)
    requires EndsWith(path, ".jpeg")
    ensures ExtensionBucket(path) == None
  {
    var n := |path|;
    assert path[n - 1] == 'g' && path[n - 2] == 'e' by {
      assert path[n - 5..][4] == path[n - 1] && path[n - 5..][3] == path[n - 2];
    }
    DiffersFromEnd(path, ".js", 1); DiffersFromEnd(path, ".css", 1); DiffersFromEnd(path, ".map", 0);
    DiffersFromEnd(path, ".png", 1); DiffersFromEnd(path, ".jpg", 1); DiffersFromEnd(path, ".gif", 0);
    DiffersFromEnd(path, ".svg", 1); DiffersFromEnd(path, ".ico", 0);
    DiffersFromEnd(path, ".woff", 0); DiffersFromEnd(path, ".woff2", 0);
    DiffersFromEnd(path, ".ttf", 0); DiffersFromEnd(path, ".eot", 0);
    DiffersFromEnd(path, ".html", 0); DiffersFromEnd(path, ".htm", 0);
  }

  /** A path ending in `s` but not in `js` or `ss` is in no group. */
  lemma EndsInPlainS(path: string)
    requires |path| >= 2 && path[|path| - 1] == 's'
    requires path[|path| - 2] != 'j' && path[|path| - 2] != 's'
    ensures ExtensionBucket(path) == None
  {
    DiffersFromEnd(path, ".js", 1); DiffersFromEnd(path, ".css", 1); DiffersFromEnd(path, ".map", 0);
    DiffersFromEnd(path, ".png", 0); DiffersFromEnd(path, ".jpg", 0); DiffersFromEnd(path, ".gif", 0);
    DiffersFromEnd(path, ".svg", 0); DiffersFromEnd(path, ".ico", 0);
    DiffersFromEnd(path, ".woff", 0); DiffersFromEnd(path, ".woff2", 0);
    DiffersFromEnd(path, ".ttf", 0); DiffersFromEnd(path, ".eot", 0);
    DiffersFromEnd(path, ".html", 0); DiffersFromEnd(path, ".htm", 0);
  }

  lemma ScriptsHasNoExtension() ensures ExtensionBucket(Scripts) == None { EndsInPlainS(Scripts); }
  lemma ImagesHasNoExtension() ensures ExtensionBucket(Images) == None { EndsInPlainS(Images); }
  lemma FontsHasNoExtension() ensures ExtensionBucket(Fonts) == None { EndsInPlainS(Fonts); }

  /** `/static/html` ends in `html` but has no dot before it. */
  lemma MarkupHasNoExtension()
    ensures ExtensionBucket(Markup) == None
  {
    var path := Markup;
    DiffersFromEnd(path, ".js", 0); DiffersFromEnd(path, ".css", 0); DiffersFromEnd(path, ".map", 0);
    DiffersFromEnd(path, ".png", 0); DiffersFromEnd(path, ".jpg", 0); DiffersFromEnd(path, ".gif", 0);
    DiffersFromEnd(path, ".svg", 0); DiffersFromEnd(path, ".ico", 0);
    DiffersFromEnd(path, ".woff", 0); DiffersFromEnd(path, ".woff2", 0);
    DiffersFromEnd(path, ".ttf", 0); DiffersFromEnd(path, ".eot", 0);
    DiffersFromEnd(path, ".html", 4); DiffersFromEnd(path, ".htm", 0);
  }

  /** None of the four extension buckets carries an extension of its own. */
  lemma BucketsHaveNoExtension(b: string)
    requires b == Scripts || b == Images || b == Fonts || b == Markup
    ensures ExtensionBucket(b) == None
  {
    if b == Scripts { ScriptsHasNoExtension(); }
    else if b == Images { ImagesHasNoExtension(); }
    else if b == Fonts { FontsHasNoExtension(); }
    else { MarkupHasNoExtension(); }
  }
}
