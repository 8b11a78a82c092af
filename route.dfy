/**
 * The older reverse proxy (server/route.go). It keeps two caches per
 * request URI, one for callers with a verified token and one for the
 * rest; it cuts every premium post to exactly three blocks for callers
 * without a verified token, removes `content.html` from every post, and
 * caches the rewritten body, which later hits serve as they are.
 */
module LegacyRoute {
  import opened Wrappers
  import opened Strings
  import opened Posts
  import opened ResponseCache
  import opened FirebaseToken
  import opened ReverseProxyUrl

  /** The memberState this proxy always answers with. */
  const MemberStateNone: string := "none"
  const MemberPrefix: string := "mm-apigateway.post.member."
  const NotMemberPrefix: string := "mm-apigateway.post.notmember."

  /** The cache key, chosen by whether the token state is OK; read and write both use this rule. */
  function CacheKey(tokenState: string, requestURI: string): (key: string)
    ensures tokenState == OK ==> HasPrefix(key, MemberPrefix) && key[|MemberPrefix|..] == requestURI
    ensures tokenState != OK ==> HasPrefix(key, NotMemberPrefix) && key[|NotMemberPrefix|..] == requestURI
  {
    if tokenState == OK then MemberPrefix + requestURI else NotMemberPrefix + requestURI
  }

  /**
   * Two requests share a cache entry exactly when they are for the same
   * URI and either both or neither carry a verified token.
   */
  lemma CacheKeyShared(s1: string, u1: string, s2: string, u2: string)
    ensures CacheKey(s1, u1) == CacheKey(s2, u2) <==> u1 == u2 && (s1 == OK <==> s2 == OK)
  {
    var k1, k2 := CacheKey(s1, u1), CacheKey(s2, u2);
    if (s1 == OK) != (s2 == OK) {
      assert MemberPrefix[19] == 'm' && NotMemberPrefix[19] == 'n';
      assert k1[19] != k2[19];
    }
  }

  /** The one item this proxy cannot rewrite: a premium post with fewer than three blocks panics on the slice. */
  predicate SlicePanics(item: Item, member: bool) {
    !member && IsPremium(item) && |item.apiData| < 3
  }

  predicate AnySlicePanics(items: seq<Item>, member: bool) {
    exists k :: 0 <= k < |items| && SlicePanics(items[k], member)
  }

  /** One post after the truncation loop, when it does not panic: premium posts keep their first three blocks. */
  function LegacyTruncate(item: Item, member: bool): Item {
    if !member && IsPremium(item) && |item.apiData| >= 3 then item.(apiData := item.apiData[..3]) else item
  }

  /** The rewritten listing: truncated for non-members, without html for everyone. */
  function LegacyItems(items: seq<Item>, member: bool): (r: seq<Item>)
    ensures |r| == |items|
  {
    WithoutHtml(seq(|items|, k requires 0 <= k < |items| => LegacyTruncate(items[k], member)), |items|)
  }

  /** How ModifyReverseProxyResponse ends. */
  datatype LegacyOutcome = Replied(reply: Reply) | Failed(msg: string) | Panicked

  /**
   * The response the older proxy gives: the error when the upstream body
   * could not be read, the decoder's own error when a post listing does
   * not decode, json.Marshal's error when another body is not well-formed
   * JSON, and otherwise the wrapped body or the rewrite of the listing.
   */
  function LegacyReply(outboundPath: string, tokenState: string, upstream: Result<Body>): LegacyOutcome {
    match upstream
    case Err(e) => Failed(e)
    case Ok(body) =>
      if !IsPostPath(outboundPath) then
        if MarshalFails(body) then Failed(body.marshalError.value)
        else Replied(Reply(tokenState, Some(MemberStateNone), Some(body)))
      else match body
        case Malformed(_, decodeError, _) => Failed(decodeError)
        case Listing(items) =>
          if AnySlicePanics(items, tokenState == OK) then Panicked
          else Replied(Reply(tokenState, Some(MemberStateNone), Some(Listing(LegacyItems(items, tokenState == OK)))))
  }

  /**
   * ModifyReverseProxyResponse of the older proxy. A body that cannot be
   * read ends the round trip with that error. On a post listing path the
   * body is truncated (for callers without a verified token), stripped of
   * html and then cached under the caller's key (`stored` is whether Redis
   * took the write); other bodies are only wrapped, which fails when they
   * are not well-formed JSON.
   */
  method LegacyModifyResponse(cache: Cache, requestURI: string, outboundPath: string, tokenState: string,
                              upstream: Result<Body>, stored: bool)
    returns (outcome: LegacyOutcome)
    modifies cache
    ensures outcome == LegacyReply(outboundPath, tokenState, upstream)
    ensures outcome.Replied? && IsPostPath(outboundPath) && stored ==>
      cache.entries == old(cache.entries)[CacheKey(tokenState, requestURI) := Stored(outcome.reply.data.value)]
    ensures !(outcome.Replied? && IsPostPath(outboundPath) && stored) ==> cache.entries == old(cache.entries)
  {
    if upstream.Err? {
      return Failed(upstream.msg);
    }
    var body := upstream.value;
    if !IsPostPath(outboundPath) {
      if body.Malformed? && body.marshalError.Some? {
        return Failed(body.marshalError.value);
      }
      return Replied(Reply(tokenState, Some(MemberStateNone), Some(body)));
    }
    if body.Malformed? {
      return Failed(body.decodeError);
    }
    var items := body.items;
    var member := tokenState == OK;
    var key := if member then MemberPrefix + requestURI else NotMemberPrefix + requestURI;
    var out := items;
    if !member {
      var panicked;
      out, panicked := TruncateForNonMember(items);
      if panicked {
        return Panicked;
      }
    }
    assert forall k :: 0 <= k < |items| ==> out[k] == LegacyTruncate(items[k], member);
    out := DeleteHtml(out);
    assert out == LegacyItems(items, member);
    cache.Set(key, Listing(out), stored);
    outcome := Replied(Reply(tokenState, Some(MemberStateNone), Some(Listing(out))));
  }

  /**
   * The truncation loop for a caller without a verified token: each
   * premium post is cut to three blocks, and the loop panics at the
   * first premium post with fewer.
   */
  method TruncateForNonMember(items: seq<Item>) returns (out: seq<Item>, panicked: bool)
    ensures panicked <==> AnySlicePanics(items, false)
    ensures !panicked ==> |out| == |items| && forall k :: 0 <= k < |items| ==> out[k] == LegacyTruncate(items[k], false)
  {
    out := items;
    var i := 0;
    while i < |items|
      invariant 0 <= i <= |items| && |out| == |items|
      invariant forall k :: 0 <= k < i ==> out[k] == LegacyTruncate(items[k], false) && !SlicePanics(items[k], false)
      invariant forall k :: i <= k < |items| ==> out[k] == items[k]
    {
      var item := items[i];
      var j := 0;
      while j < |item.categories|
        invariant 0 <= j <= |item.categories|
        invariant forall m :: 0 <= m < j ==> !IsPremiumCategory(item.categories[m])
      {
        if item.categories[j].isMemberOnly == Some(true) {
          if |item.apiData| < 3 {
            assert SlicePanics(items[i], false);
            return out, true;
          }
          out := out[i := out[i].(apiData := item.apiData[..3])];
          break;
        }
        j := j + 1;
      }
      i := i + 1;
    }
    return out, false;
  }

  /** The loop that deletes `content.html` from every post. */
  method DeleteHtml(items: seq<Item>) returns (out: seq<Item>)
    ensures out == WithoutHtml(items, |items|)
  {
    out := items;
    var i := 0;
    while i < |items|
      invariant 0 <= i <= |items| && |out| == |items|
      invariant forall k :: 0 <= k < |items| ==> out[k] == if k < i then items[k].(html := None) else items[k]
    {
      out := out[i := out[i].(html := None)];
      i := i + 1;
    }
  }

  /** With a verified token no post loses a block, and the rewrite never panics. */
  lemma MemberKeepsApiData(outboundPath: string, items: seq<Item>)
    requires IsPostPath(outboundPath)
    ensures var r := LegacyReply(outboundPath, OK, Ok(Listing(items)));
      r.Replied? && r.reply.data.value.Listing? &&
      forall k :: 0 <= k < |items| ==>
        r.reply.data.value.items[k] == items[k].(html := None)
  {
  }

  /**
   * Without a verified token, the rewrite panics exactly when some premium
   * post has fewer than three blocks; otherwise every premium post keeps
   * exactly its first three blocks, every other post keeps all of them,
   * and no post keeps its html.
   */
  lemma NonMemberTruncation(outboundPath: string, tokenState: string, items: seq<Item>)
    requires IsPostPath(outboundPath) && tokenState != OK
    ensures var r := LegacyReply(outboundPath, tokenState, Ok(Listing(items)));
      && (r.Panicked? <==> exists k :: 0 <= k < |items| && IsPremium(items[k]) && |items[k].apiData| < 3)
      && (r.Replied? ==> forall k :: 0 <= k < |items| ==>
            var out := r.reply.data.value.items[k];
            && out.html.None?
            && out.apiData == (if IsPremium(items[k]) then items[k].apiData[..3] else items[k].apiData)
            && out.(html := items[k].html, apiData := items[k].apiData) == items[k])
  {
  }

  /**
   * Off the post listing paths a body json.Marshal accepts is wrapped with
   * memberState "none" and left as it is, and any other body ends the
   * round trip with json.Marshal's error; nothing is decoded or rewritten.
   */
  lemma OtherPathsWrapped(outboundPath: string, tokenState: string, upstream: Body)
    requires !IsPostPath(outboundPath)
    ensures var r := LegacyReply(outboundPath, tokenState, Ok(upstream));
      && (r.Replied? <==> !MarshalFails(upstream))
      && (r.Replied? ==> r == Replied(Reply(tokenState, Some(MemberStateNone), Some(upstream))))
      && (!r.Replied? ==> r == Failed(upstream.marshalError.value))
  {
  }


  /**
   * A cached rewrite, served to any later caller who shares the cache
   * entry, is the body that caller would have received from the proxy.
   */
  lemma {:induction false} CachedRewriteFitsSharers(path: string, s1: string, s2: string, uri: string, upstream: Result<Body>)
    requires CacheKey(s1, uri) == CacheKey(s2, uri)
    requires LegacyReply(path, s1, upstream).Replied?
    ensures LegacyReply(path, s2, upstream) ==
      Replied(Reply(s2, Some(MemberStateNone), LegacyReply(path, s1, upstream).reply.data))
  {
    CacheKeyShared(s1, uri, s2, uri);
  }

  /** How a request to the older proxy ends. */
  datatype Outcome = ServedFromCache(status: int, reply: Reply) | Proxied(result: LegacyOutcome)

  /**
   * The handler of the older proxy: on a post listing path a readable
   * cache entry under the caller's key is answered with status 200 and
   * nothing is proxied; a missing or unreadable entry, or any other path,
   * goes through the director, run on a copy of the request (`outbound`),
   * and the response rewrite.
   */
  method LegacyHandle(route: ProxyRoute, cache: Cache, req: Url, requestURI: string, tokenState: string,
                      upstream: Result<Body>, stored: bool, escaped: EscapedPathFn)
    returns (outcome: Outcome, outbound: Url?)
    requires !route.rewritesStory
    requires forall p, r :: HasPrefix(escaped(p, r), "/") ==> HasPrefix(p, "/")
    modifies route`pathBaseToStrip, cache
    ensures var lookup := old(cache.Find(CacheKey(tokenState, requestURI)));
      if IsPostPath(req.path) && lookup.Hit? then
        && outcome == ServedFromCache(200, Reply(tokenState, Some(MemberStateNone), Some(lookup.body)))
        && outbound == null
        && cache.entries == old(cache.entries) && route.pathBaseToStrip == old(route.pathBaseToStrip)
      else
        && outbound != null && fresh(outbound)
        && route.pathBaseToStrip == NormalizedBase(old(route.pathBaseToStrip))
        && Directs(route.target, route.pathBaseToStrip, false, escaped, req, outbound)
        && outcome == Proxied(LegacyReply(outbound.path, tokenState, upstream))
        && (if outcome.result.Replied? && IsPostPath(outbound.path) && stored
            then cache.entries == old(cache.entries)[CacheKey(tokenState, requestURI) := Stored(outcome.result.reply.data.value)]
            else cache.entries == old(cache.entries))
  {
    if IsPostPath(req.path) {
      var lookup := cache.Get(CacheKey(tokenState, requestURI));
      if lookup.Hit? {
        return ServedFromCache(200, Reply(tokenState, Some(MemberStateNone), Some(lookup.body))), null;
      }
    }
    outbound := new Url(req.scheme, req.host, req.path, req.rawPath, req.rawQuery, req.userAgent);
    route.Direct(outbound, escaped);
    var r := LegacyModifyResponse(cache, requestURI, outbound.path, tokenState, upstream, stored);
    outcome := Proxied(r);
  }
}
