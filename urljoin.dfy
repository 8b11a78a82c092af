/**
 * The request rewriting that both reverse proxies (server/proxy.go and the
 * older server/route.go) install as their director: strip the mount
 * prefix, join the remainder onto the target's path with exactly one slash
 * at the junction, and merge the query strings.
 */
module ReverseProxyUrl {
  import opened Wrappers
  import opened Strings

  /** `a` without one trailing slash, if it has one. */
  function DropTrailingSlash(a: string): string {
    if HasSuffix(a, "/") then a[..|a| - 1] else a
  }

  /** `b` without one leading slash, if it has one. */
  function DropLeadingSlash(b: string): string {
    if HasPrefix(b, "/") then b[1..] else b
  }

  /** singleJoiningSlash: the junction of `a` and `b` carries exactly one slash. */
  function SingleJoiningSlash(a: string, b: string): (r: string)
    ensures r == DropTrailingSlash(a) + "/" + DropLeadingSlash(b)
  {
    var aslash := HasSuffix(a, "/");
    var bslash := HasPrefix(b, "/");
    if aslash && bslash then a + b[1..]
    else if !aslash && !bslash then a + "/" + b
    else a + b
  }

  /**
   * url.URL.EscapedPath as a function of a URL's Path and RawPath; the
   * escaping itself belongs to Go's net/url and is a parameter here.
   */
  type EscapedPathFn = (string, string) -> string

  /**
   * joinURLPath of the target URL `a` and the request URL `b`: the decoded
   * path is joined like singleJoiningSlash, but whether a slash is added or
   * dropped is decided on the escaped forms. The requires is what Go's
   * EscapedPath guarantees: an escaped path starting with a slash comes
   * from a path starting with one.
   */
  function JoinURLPath(aPath: string, aRaw: string, bPath: string, bRaw: string, escaped: EscapedPathFn): (r: (string, string))
    requires HasPrefix(escaped(bPath, bRaw), "/") ==> HasPrefix(bPath, "/")
    ensures aRaw == "" && bRaw == "" ==> r == (DropTrailingSlash(aPath) + "/" + DropLeadingSlash(bPath), "")
    ensures aRaw != "" || bRaw != "" ==>
      var apath := escaped(aPath, aRaw);
      var bpath := escaped(bPath, bRaw);
      r.1 == DropTrailingSlash(apath) + "/" + DropLeadingSlash(bpath) &&
      (HasSuffix(apath, "/") == HasSuffix(aPath, "/") && HasPrefix(bpath, "/") == HasPrefix(bPath, "/") ==>
         r.0 == DropTrailingSlash(aPath) + "/" + DropLeadingSlash(bPath))
  {
    if aRaw == "" && bRaw == "" then (SingleJoiningSlash(aPath, bPath), "")
    else
      var apath := escaped(aPath, aRaw);
      var bpath := escaped(bPath, bRaw);
      var aslash := HasSuffix(apath, "/");
      var bslash := HasPrefix(bpath, "/");
      if aslash && bslash then (aPath + bPath[1..], apath + bpath[1..])
      else if !aslash && !bslash then (aPath + "/" + bPath, apath + "/" + bpath)
      else (aPath + bPath, apath + bpath)
  }

  /** The non-empty strings of `parts`, in order. */
  function NonEmpty(parts: seq<string>): (r: seq<string>)
    ensures forall k :: 0 <= k < |r| ==> r[k] != ""
  {
    if parts == [] then []
    else if parts[0] == "" then NonEmpty(parts[1..])
    else [parts[0]] + NonEmpty(parts[1..])
  }

  /** The director's query merge: the target's query first, `&` only between two non-empty parts. */
  function MergeQuery(targetQuery: string, inbound: string): (r: string)
    ensures r == Join(NonEmpty([targetQuery, inbound]), "&")
  {
    assert [targetQuery, inbound][1..] == [inbound];
    assert NonEmpty([inbound]) == if inbound == "" then [] else [inbound] by {
      assert [inbound][1..] == [];
    }
    if targetQuery == "" || inbound == "" then targetQuery + inbound
    else targetQuery + "&" + inbound
  }

  /** The mount prefix after one run of the `HasSuffix(pathBaseToStrip, "/")` statement. */
  function NormalizedBase(base: string): string {
    if HasSuffix(base, "/") then base + "/" else base
  }

  function Iterate(base: string, k: nat): string {
    if k == 0 then base else NormalizedBase(Iterate(base, k - 1))
  }

  /**
   * The statement meant to give the prefix a trailing slash adds one to a
   * prefix that already ends in a slash, and it writes the captured
   * variable, so such a prefix grows by one slash per run, while a prefix
   * without a trailing slash (such as the deployed "/api/v0") never changes.
   */
  lemma {:induction false} IteratedBase(base: string, k: nat)
    ensures Iterate(base, k) == if HasSuffix(base, "/") then base + seq(k, _ => '/') else base
  {
    if k > 0 {
      IteratedBase(base, k - 1);
      if HasSuffix(base, "/") {
        var prev := base + seq(k - 1, _ => '/');
        assert HasSuffix(prev, "/");
        assert prev + "/" == base + seq(k, _ => '/');
      }
    }
  }

  /** The target URL a reverse proxy was built for. */
  datatype Target = Target(scheme: string, host: string, path: string, rawPath: string, rawQuery: string)

  /** The fields of a request's URL (and its User-Agent header) that the director rewrites. */
  class Url {
    var scheme: string
    var host: string
    var path: string
    var rawPath: string
    var rawQuery: string
    var userAgent: Option<string>

    constructor (scheme: string, host: string, path: string, rawPath: string, rawQuery: string, userAgent: Option<string>)
      ensures this.scheme == scheme && this.host == host && this.path == path
      ensures this.rawPath == rawPath && this.rawQuery == rawQuery && this.userAgent == userAgent
    {
      this.scheme, this.host, this.path, this.rawPath := scheme, host, path, rawPath;
      this.rawQuery, this.userAgent := rawQuery, userAgent;
    }
  }

  /**
   * What a director does to a request's path: the path after stripping the
   * (already normalised) mount prefix, with "/story" sent to "/getposts"
   * when the proxy rewrites stories, then joined onto the target.
   */
  function StrippedPath(base: string, path: string, rawPath: string, rewritesStory: bool): (r: (string, string))
  {
    var trimmed := TrimPrefix(path, base);
    if rewritesStory && trimmed == "/story" then ("/getposts", "/getposts")
    else (trimmed, TrimPrefix(rawPath, base))
  }

  /**
   * The closure a proxy captures: its target, whether it is the variant
   * that rewrites "/story", and the mount prefix, which the closure
   * reassigns on every request.
   */
  class ProxyRoute {
    const target: Target
    const rewritesStory: bool
    var pathBaseToStrip: string

    constructor (target: Target, pathBaseToStrip: string, rewritesStory: bool)
      ensures this.target == target && this.pathBaseToStrip == pathBaseToStrip
      ensures this.rewritesStory == rewritesStory
    {
      this.target, this.pathBaseToStrip, this.rewritesStory := target, pathBaseToStrip, rewritesStory;
    }

    /** `if strings.HasSuffix(pathBaseToStrip, "/") { pathBaseToStrip = pathBaseToStrip + "/" }` */
    method NormalizeBase()
      modifies this`pathBaseToStrip
      ensures pathBaseToStrip == NormalizedBase(old(pathBaseToStrip))
    {
      if HasSuffix(pathBaseToStrip, "/") {
        pathBaseToStrip := pathBaseToStrip + "/";
      }
    }

    /** The director: rewrites the request URL in place for the upstream round trip. */
    method Direct(req: Url, escaped: EscapedPathFn)
      requires forall p, r :: HasPrefix(escaped(p, r), "/") ==> HasPrefix(p, "/")
      modifies this`pathBaseToStrip, req
      ensures pathBaseToStrip == NormalizedBase(old(pathBaseToStrip))
      ensures req.scheme == target.scheme && req.host == target.host
      ensures var s := StrippedPath(pathBaseToStrip, old(req.path), old(req.rawPath), rewritesStory);
              (req.path, req.rawPath) == JoinURLPath(target.path, target.rawPath, s.0, s.1, escaped)
      ensures req.rawQuery == MergeQuery(target.rawQuery, old(req.rawQuery))
      ensures req.userAgent == if old(req.userAgent).None? then Some("") else old(req.userAgent)
    {
      NormalizeBase();
      var trimmed := TrimPrefix(req.path, pathBaseToStrip);
      if rewritesStory && trimmed == "/story" {
        req.path := "/getposts";
        req.rawPath := "/getposts";
      } else {
        req.path := trimmed;
        req.rawPath := TrimPrefix(req.rawPath, pathBaseToStrip);
      }
      req.scheme := target.scheme;
      req.host := target.host;
      var joined := JoinURLPath(target.path, target.rawPath, req.path, req.rawPath, escaped);
      req.path, req.rawPath := joined.0, joined.1;
      if target.rawQuery == "" || req.rawQuery == "" {
        req.rawQuery := target.rawQuery + req.rawQuery;
      } else {
        req.rawQuery := target.rawQuery + "&" + req.rawQuery;
      }
      if req.userAgent.None? {
        req.userAgent := Some("");
      }
    }
  }

  /**
   * `out` is what the director makes of a copy of `req` for a proxy with
   * this target, this (already normalised) mount prefix and this story rule.
   */
  predicate Directs(target: Target, base: string, rewritesStory: bool, escaped: EscapedPathFn, req: Url, out: Url)
    requires forall p, r :: HasPrefix(escaped(p, r), "/") ==> HasPrefix(p, "/")
    reads req, out
  {
    var s := StrippedPath(base, req.path, req.rawPath, rewritesStory);
    && out.scheme == target.scheme && out.host == target.host
    && (out.path, out.rawPath) == JoinURLPath(target.path, target.rawPath, s.0, s.1, escaped)
    && out.rawQuery == MergeQuery(target.rawQuery, req.rawQuery)
    && out.userAgent == (if req.userAgent.None? then Some("") else req.userAgent)
  }

  /**
   * With plain paths, a request under the mount prefix reaches the target
   * at the target's path followed by the rest of the request path, with one
   * slash between them; the proxy that rewrites stories sends "/story" to
   * the target's "/getposts" instead.
   */
  lemma StripAndJoin(target: Target, base: string, rest: string, rewritesStory: bool, escaped: EscapedPathFn)
    requires target.rawPath == "" && HasPrefix(rest, "/")
    ensures var s := StrippedPath(base, base + rest, "", rewritesStory);
            s.1 == "" ==>
            JoinURLPath(target.path, target.rawPath, s.0, s.1, escaped).0 ==
              DropTrailingSlash(target.path) + (if rewritesStory && rest == "/story" then "/getposts" else rest)
  {
    assert HasPrefix(base + rest, base);
    assert TrimPrefix(base + rest, base) == rest;
  }
}
