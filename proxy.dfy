/**
 * The current reverse proxy for post listings (server/proxy.go): it
 * resolves the caller's entitlement, serves post listings from a cache of
 * raw upstream bodies by re-running the rewrite for every caller, and
 * otherwise proxies the request and rewrites the upstream response:
 * premium posts the caller may not read are cut to a few content blocks
 * and marked `isTruncated`, and `content.html` is always removed.
 */
module Proxy {
  import opened Wrappers
  import opened Strings
  import opened Posts
  import opened ResponseCache
  import opened FirebaseToken
  import opened ReverseProxyUrl

  const OneTime: string := "one_time"
  const MemberServerError: string := "cannot fetch member and subscription state from member server:"
  /** What modifyPostItems puts before the decoder's message when a listing does not decode. */
  const UnmarshalErrorPrefix: string := "unmarshal post body encountered error: "

  /** An active subscription as the member service reports it. */
  datatype Subscription = Subscription(frequency: string, postId: string)

  /** A caller's access: a standing (recurring) privilege and the IDs of posts bought one at a time. */
  datatype Entitlement = Entitlement(hasPremium: bool, subscribed: set<string>)

  // ---------------------------------------------------------------------
  // Entitlement resolution (getMemberSubscription and the handler)
  // ---------------------------------------------------------------------

  /**
   * The scan over the active subscriptions: one_time subscriptions add
   * their post ID, and the first other one grants the standing privilege
   * and ends the scan.
   */
  function Scan(subs: seq<Subscription>): Entitlement {
    if subs == [] then Entitlement(false, {})
    else if subs[0].frequency == OneTime then
      var rest := Scan(subs[1..]);
      rest.(subscribed := {subs[0].postId} + rest.subscribed)
    else Entitlement(true, {})
  }

  /** The position of the first subscription that is not one_time, or |subs|. */
  function FirstRecurring(subs: seq<Subscription>): (k: nat)
    ensures k <= |subs|
    ensures forall i :: 0 <= i < k ==> subs[i].frequency == OneTime
    ensures k < |subs| ==> subs[k].frequency != OneTime
  {
    if subs == [] || subs[0].frequency != OneTime then 0 else 1 + FirstRecurring(subs[1..])
  }

  /**
   * The standing privilege is granted iff some active subscription is not
   * one_time, wherever it sits in the list; the purchased posts are those
   * of the one_time subscriptions before the first recurring one.
   */
  lemma {:induction false} ScanMeaning(subs: seq<Subscription>)
    ensures Scan(subs).hasPremium <==> exists i :: 0 <= i < |subs| && subs[i].frequency != OneTime
    ensures forall id :: id in Scan(subs).subscribed <==>
      exists i :: 0 <= i < FirstRecurring(subs) && subs[i].postId == id
  {
    if subs != [] && subs[0].frequency == OneTime {
      ScanMeaning(subs[1..]);
      var t := subs[1..];
      assert forall i :: 0 <= i < |t| ==> t[i] == subs[i + 1];
      forall id | id in Scan(subs).subscribed
        ensures exists i :: 0 <= i < FirstRecurring(subs) && subs[i].postId == id
      {
        if id != subs[0].postId {
          var j :| 0 <= j < FirstRecurring(t) && t[j].postId == id;
          assert subs[j + 1].postId == id;
        }
      }
      forall id | exists i :: 0 <= i < FirstRecurring(subs) && subs[i].postId == id
        ensures id in Scan(subs).subscribed
      {
        var i :| 0 <= i < FirstRecurring(subs) && subs[i].postId == id;
        if i > 0 {
          assert t[i - 1].postId == id;
        }
      }
      if Scan(subs).hasPremium {
        var j :| 0 <= j < |t| && t[j].frequency != OneTime;
        assert subs[j + 1].frequency != OneTime;
      }
      if exists i :: 0 <= i < |subs| && subs[i].frequency != OneTime {
        var i :| 0 <= i < |subs| && subs[i].frequency != OneTime;
        assert t[i - 1].frequency != OneTime;
      }
    }
  }

  /** Without a recurring subscription, every one_time post ID is collected. */
  lemma OnlyOneTime(a: string, b: string)
    ensures Scan([Subscription(OneTime, a), Subscription(OneTime, b)]) == Entitlement(false, {a, b})
  {
    assert [Subscription(OneTime, a), Subscription(OneTime, b)][1..] == [Subscription(OneTime, b)];
    assert [Subscription(OneTime, b)][1..] == [];
    assert Scan([Subscription(OneTime, b)]) == Entitlement(false, {b});
  }

  /**
   * getMemberSubscription, with the member service's answer as the
   * parameter `query`; `queried` tells whether the query would be sent.
   */
  method GetMemberSubscription(skipMemberCheck: bool, firebaseID: string, query: Result<seq<Subscription>>)
    returns (ent: Entitlement, err: Option<string>, queried: bool)
    ensures queried <==> !skipMemberCheck && firebaseID != ""
    ensures !queried ==> ent == Entitlement(false, {}) && err.None?
    ensures queried && query.Err? ==> ent == Entitlement(false, {}) && err == Some(MemberServerError + query.msg)
    ensures queried && query.Ok? ==> ent == Scan(query.value) && err.None?
  {
    ent, err, queried := Entitlement(false, {}), None, false;
    if skipMemberCheck {
      return;
    }
    if firebaseID == "" {
      return;
    }
    queried := true;
    if query.Err? {
      err := Some(MemberServerError + query.msg);
      return;
    }
    var subs := query.value;
    var ids: set<string> := {};
    var hasPremium := false;
    var i := 0;
    while i < |subs|
      invariant 0 <= i <= |subs|
      invariant Scan(subs) == Scan(subs[i..]).(subscribed := ids + Scan(subs[i..]).subscribed)
    {
      assert subs[i..][1..] == subs[i + 1..];
      if subs[i].frequency == OneTime {
        ids := ids + {subs[i].postId};
      } else {
        hasPremium := true;
        break;
      }
      i := i + 1;
    }
    ent := Entitlement(hasPremium, ids);
  }

  /** The token facts the handler reads: GetTokenState and GetEmail. */
  datatype TokenView = TokenView(state: string, email: string, emailVerified: bool)

  function TokenStateOf(token: Option<TokenView>): string {
    if token.None? then NoBearerToken else token.value.state
  }

  /** Staff of the three newsrooms with a verified e-mail address read everything. */
  predicate EmailPrivilege(email: string, emailVerified: bool) {
    emailVerified &&
    (HasSuffix(email, "@mirrormedia.mg") || HasSuffix(email, "@mnews.tw") || HasSuffix(email, "@mirrorfiction.com"))
  }

  /**
   * The entitlement part of the handler. The member lookup runs only for a
   * verified token on a path other than "/story", and is skipped for an
   * unverified e-mail address or an e-mail that already grants the
   * privilege; a failed lookup aborts the request.
   */
  method ResolveEntitlement(token: Option<TokenView>, userID: string, isStory: bool, query: Result<seq<Subscription>>)
    returns (ent: Entitlement, failed: bool, queried: bool)
    ensures var emailPriv := token.Some? && EmailPrivilege(token.value.email, token.value.emailVerified);
            var looksUp := TokenStateOf(token) == OK && !isStory;
            var skip := token.None? || !token.value.emailVerified || emailPriv;
            && (queried <==> looksUp && !skip && userID != "")
            && (failed <==> queried && query.Err?)
            && (!failed ==> ent.hasPremium == (emailPriv || (queried && Scan(query.value).hasPremium)))
            && (!failed ==> ent.subscribed == if queried then Scan(query.value).subscribed else {})
  {
    var emailVerified := false;
    var hasPremium := false;
    if token.Some? {
      emailVerified := token.value.emailVerified;
      hasPremium := EmailPrivilege(token.value.email, token.value.emailVerified);
    }
    ent, failed, queried := Entitlement(hasPremium, {}), false, false;
    if TokenStateOf(token) == OK && !isStory {
      var skipMemberCheck := !emailVerified || hasPremium;
      var member, err;
      member, err, queried := GetMemberSubscription(skipMemberCheck, userID, query);
      ent := Entitlement(hasPremium || member.hasPremium, member.subscribed);
      failed := err.Some?;
    }
  }

  // ---------------------------------------------------------------------
  // The rewrite (isPostToBeTruncate, modifyPostItems, removePostItemsHtml)
  // ---------------------------------------------------------------------

  predicate IsPostToBeTruncate(isPostPremium: bool, postID: string, hasPremiumPrivilege: bool, subscribedIDs: set<string>) {
    isPostPremium && !hasPremiumPrivilege && postID !in subscribedIDs
  }

  function MinInt(a: int, b: int): (r: int)
    ensures r <= a && r <= b && (r == a || r == b)
  {
    if a < b then a else b
  }

  /** How many blocks a truncated post keeps: 3, or 5 from 1000 words on, and never more than it has. */
  function TruncatedEnd(apiDataLength: nat, wordCount: int): (r: nat)
    ensures r <= apiDataLength
    ensures var cap := if wordCount >= 1000 then 5 else 3;
            r <= cap && (r == cap || r == apiDataLength)
  {
    if wordCount >= 1000 then MinInt(5, apiDataLength) else MinInt(3, apiDataLength)
  }

  function Truncated(item: Item): Item {
    item.(apiData := item.apiData[..TruncatedEnd(|item.apiData|, item.wordCount)], isTruncated := Some(true))
  }

  /** The category loop of modifyPostItems for one item, as it edits that item. */
  function CategoryScan(item: Item, cats: seq<Category>, ent: Entitlement): Item
    decreases |cats|
  {
    if cats == [] then item
    else if IsPremiumCategory(cats[0]) && IsPostToBeTruncate(true, item.id, ent.hasPremium, ent.subscribed) then Truncated(item)
    else CategoryScan(item.(isTruncated := Some(false)), cats[1..], ent)
  }

  function RewriteItem(item: Item, ent: Entitlement): Item {
    CategoryScan(item, item.categories, ent)
  }

  function RewriteItems(items: seq<Item>, ent: Entitlement): (r: seq<Item>)
    ensures |r| == |items|
  {
    seq(|items|, k requires 0 <= k < |items| => RewriteItem(items[k], ent))
  }

  /** The access decision: a premium post is cut for a caller without the privilege who did not buy it. */
  predicate Truncates(item: Item, ent: Entitlement) {
    IsPremium(item) && !ent.hasPremium && item.id !in ent.subscribed
  }

  lemma {:induction false} CategoryScanMeaning(item: Item, cats: seq<Category>, ent: Entitlement)
    decreases |cats|
    ensures CategoryScan(item, cats, ent) ==
      if cats == [] then item
      else if (exists k :: 0 <= k < |cats| && IsPremiumCategory(cats[k])) && !ent.hasPremium && item.id !in ent.subscribed
      then Truncated(item)
      else item.(isTruncated := Some(false))
  {
    if cats != [] && !(IsPremiumCategory(cats[0]) && IsPostToBeTruncate(true, item.id, ent.hasPremium, ent.subscribed)) {
      CategoryScanMeaning(item.(isTruncated := Some(false)), cats[1..], ent);
      if exists k :: 0 <= k < |cats| && IsPremiumCategory(cats[k]) {
        var k :| 0 <= k < |cats| && IsPremiumCategory(cats[k]);
        if !ent.hasPremium && item.id !in ent.subscribed {
          assert IsPremiumCategory(cats[1..][k - 1]);
        }
      }
      if exists k :: 0 <= k < |cats[1..]| && IsPremiumCategory(cats[1..][k]) {
        var k :| 0 <= k < |cats[1..]| && IsPremiumCategory(cats[1..][k]);
        assert IsPremiumCategory(cats[k + 1]);
      }
    }
  }

  /**
   * What the rewrite does to one post: it is cut exactly when the access
   * decision says so, to the first TruncatedEnd blocks and marked
   * isTruncated = true; any other post with categories is marked
   * isTruncated = false; a post without categories is left alone; no other
   * field changes.
   */
  lemma RewriteItemMeaning(item: Item, ent: Entitlement)
    ensures var r := RewriteItem(item, ent);
      && (item.categories == [] ==> r == item)
      && (item.categories != [] ==> r.isTruncated == Some(Truncates(item, ent)))
      && r.apiData == (if Truncates(item, ent) then item.apiData[..TruncatedEnd(|item.apiData|, item.wordCount)] else item.apiData)
      && |r.apiData| <= |item.apiData|
      && r.(apiData := item.apiData, isTruncated := item.isTruncated) == item
  {
    CategoryScanMeaning(item, item.categories, ent);
  }

  /** Rewriting an already rewritten post changes nothing more. */
  lemma RewriteItemIdempotent(item: Item, ent: Entitlement)
    ensures RewriteItem(RewriteItem(item, ent), ent) == RewriteItem(item, ent)
  {
    var r := RewriteItem(item, ent);
    RewriteItemMeaning(item, ent);
    RewriteItemMeaning(r, ent);
    assert IsPremium(r) == IsPremium(item);
    if Truncates(item, ent) {
      var e := TruncatedEnd(|item.apiData|, item.wordCount);
      assert TruncatedEnd(e, item.wordCount) == e;
      assert r.apiData[..e] == r.apiData;
    }
  }

  /**
   * modifyPostItems: returns the number of items and the listing with
   * every item rewritten, or an error when the body does not decode.
   */
  method ModifyPostItems(body: Body, ent: Entitlement) returns (n: nat, res: Result<seq<Item>>)
    ensures body.Malformed? ==> n == 0 && res == Err(UnmarshalErrorPrefix + body.decodeError)
    ensures body.Listing? ==> n == |body.items| && res == Ok(RewriteItems(body.items, ent))
  {
    if body.Malformed? {
      return 0, Err(UnmarshalErrorPrefix + body.decodeError);
    }
    var items := body.items;
    var out := items;
    var i := 0;
    while i < |items|
      invariant 0 <= i <= |items| && |out| == |items|
      invariant forall k :: 0 <= k < i ==> out[k] == RewriteItem(items[k], ent)
      invariant forall k :: i <= k < |items| ==> out[k] == items[k]
    {
      var item := items[i];
      var j := 0;
      while j < |item.categories|
        invariant 0 <= j <= |item.categories| && |out| == |items|
        invariant out[i] == item || out[i] == item.(isTruncated := Some(false))
        invariant CategoryScan(out[i], item.categories[j..], ent) == RewriteItem(item, ent)
        invariant forall k :: 0 <= k < i ==> out[k] == RewriteItem(items[k], ent)
        invariant forall k :: i < k < |items| ==> out[k] == items[k]
      {
        var isPostPremium := item.categories[j].isMemberOnly == Some(true);
        if isPostPremium && IsPostToBeTruncate(isPostPremium, item.id, ent.hasPremium, ent.subscribed) {
          var end := TruncatedEnd(|item.apiData|, item.wordCount);
          out := out[i := out[i].(apiData := item.apiData[..end])];
          out := out[i := out[i].(isTruncated := Some(true))];
          assert out[i] == RewriteItem(items[i], ent);
          break;
        } else {
          assert item.categories[j..][1..] == item.categories[j + 1..];
          out := out[i := out[i].(isTruncated := Some(false))];
        }
        j := j + 1;
      }
      i := i + 1;
    }
    assert out == RewriteItems(items, ent);
    return |items|, Ok(out);
  }

  /** removePostItemsHtml: deletes content.html from items 0 .. n-1 and changes nothing else. */
  method RemovePostItemsHtml(items: seq<Item>, n: int) returns (out: seq<Item>)
    ensures out == WithoutHtml(items, n)
    ensures forall k :: 0 <= k < |items| ==>
      out[k].html == (if k < n then None else items[k].html) && out[k].(html := items[k].html) == items[k]
  {
    out := items;
    var i := 0;
    while i <= n - 1
      invariant 0 <= i && |out| == |items|
      invariant i <= n || (n <= 0 && i == 0)
      invariant forall k :: 0 <= k < |items| ==> out[k] == if k < i then items[k].(html := None) else items[k]
    {
      if i < |out| {
        out := out[i := out[i].(html := None)];
      }
      i := i + 1;
    }
  }

  /** The whole rewrite of a post listing body under one entitlement. */
  function Rewrite(body: Body, ent: Entitlement): Result<seq<Item>> {
    match body
    case Malformed(_, decodeError, _) => Err(UnmarshalErrorPrefix + decodeError)
    case Listing(items) => Ok(WithoutHtml(RewriteItems(items, ent), |items|))
  }

  /** No rewritten post keeps its html, and each one is the rewrite of the post at its position. */
  lemma RewriteMeaning(items: seq<Item>, ent: Entitlement)
    ensures var r := Rewrite(Listing(items), ent);
      r.Ok? && |r.value| == |items| &&
      forall k :: 0 <= k < |items| ==> r.value[k].html.None? && r.value[k] == RewriteItem(items[k], ent).(html := None)
  {
  }

  // ---------------------------------------------------------------------
  // Cache and response handling (NewSingleHostReverseProxy, ModifyReverseProxyResponse)
  // ---------------------------------------------------------------------

  /** The cache key: a function of the request URI alone, shared by every caller. */
  function CacheKey(requestURI: string): string {
    "apigateway.proxy.uri." + requestURI
  }

  lemma CacheKeyInjective(u1: string, u2: string)
    ensures CacheKey(u1) == CacheKey(u2) ==> u1 == u2
  {
    if CacheKey(u1) == CacheKey(u2) {
      assert u1 == CacheKey(u1)[|"apigateway.proxy.uri."|..];
    }
  }

  /**
   * The reply the proxied round trip gives: the error when the upstream
   * body could not be read, json.Marshal's error when a body off the post
   * listing paths is not well-formed JSON, and otherwise the wrapped body
   * or the rewrite of the listing.
   */
  function ProxiedReply(outboundPath: string, tokenState: string, ent: Entitlement, upstream: Result<Body>): Result<Reply> {
    match upstream
    case Err(e) => Err(e)
    case Ok(body) =>
      if !IsPostPath(outboundPath) then
        if MarshalFails(body) then Err(body.marshalError.value)
        else Ok(Reply(tokenState, None, Some(body)))
      else match Rewrite(body, ent)
        case Err(e) => Err(e)
        case Ok(items) => Ok(Reply(tokenState, None, Some(Listing(items))))
  }

  /**
   * Off the post listing paths the newer proxy neither decodes nor
   * rewrites: a body json.Marshal accepts is wrapped as it is, and any
   * other body ends the round trip with json.Marshal's error.
   */
  lemma OtherPathsWrapped(outboundPath: string, tokenState: string, ent: Entitlement, upstream: Body)
    requires !IsPostPath(outboundPath)
    ensures var r := ProxiedReply(outboundPath, tokenState, ent, Ok(upstream));
      && (r.Ok? <==> !MarshalFails(upstream))
      && (r.Ok? ==> r.value == Reply(tokenState, None, Some(upstream)))
      && (r.Err? ==> r.msg == upstream.marshalError.value)
  {
  }

  /** The reply served from the cache, if the cached entry is served at all. */
  function CachedReply(lookup: Lookup, path: string, tokenState: string, ent: Entitlement): Option<Reply> {
    if lookup.Hit? && IsPostPath(path) && Rewrite(lookup.body, ent).Ok?
    then Some(Reply(tokenState, None, Some(Listing(Rewrite(lookup.body, ent).value))))
    else None
  }

  /**
   * The cache branch of the handler: only a readable entry on a post
   * listing path is served, after the rewrite is run again for this
   * caller; an entry the rewrite rejects falls back to proxying.
   */
  method ServeFromCache(lookup: Lookup, path: string, tokenState: string, ent: Entitlement) returns (reply: Option<Reply>)
    ensures reply.Some? <==> lookup.Hit? && IsPostPath(path) && lookup.body.Listing?
    ensures reply == CachedReply(lookup, path, tokenState, ent)
  {
    reply := None;
    if lookup.Hit? && IsPostPath(path) {
      var n, res := ModifyPostItems(lookup.body, ent);
      if res.Err? {
        return;
      }
      var out := RemovePostItemsHtml(res.value, n);
      reply := Some(Reply(tokenState, None, Some(Listing(out))));
    }
  }

  /**
   * ModifyReverseProxyResponse: a body that cannot be read ends the round
   * trip with that error and touches nothing; otherwise the raw body is
   * stored under the URI's key before anything is rewritten (`stored` is
   * whether Redis took the write), post listings are then rewritten for
   * this caller, and the body is wrapped in the envelope.
   */
  method ModifyResponse(cache: Cache, requestURI: string, outboundPath: string, tokenState: string, ent: Entitlement,
                        upstream: Result<Body>, stored: bool)
    returns (r: Result<Reply>)
    modifies cache
    ensures upstream.Err? ==> cache.entries == old(cache.entries)
    ensures upstream.Ok? && stored ==> cache.entries == old(cache.entries)[CacheKey(requestURI) := Stored(upstream.value)]
    ensures upstream.Ok? && !stored ==> cache.entries == old(cache.entries)
    ensures r == ProxiedReply(outboundPath, tokenState, ent, upstream)
  {
    if upstream.Err? {
      return Err(upstream.msg);
    }
    var body := upstream.value;
    cache.Set(CacheKey(requestURI), body, stored);
    if !IsPostPath(outboundPath) {
      if body.Malformed? && body.marshalError.Some? {
        return Err(body.marshalError.value);
      }
      return Ok(Reply(tokenState, None, Some(body)));
    }
    var n, res := ModifyPostItems(body, ent);
    if res.Err? {
      return Err(res.msg);
    }
    var out := RemovePostItemsHtml(res.value, n);
    r := Ok(Reply(tokenState, None, Some(Listing(out))));
  }

  /** How a proxied request ends. */
  datatype Outcome =
    | Aborted(status: int, reply: Reply)
    | FromCache(reply: Reply)
    | Proxied(result: Result<Reply>)

  /**
   * The handler NewSingleHostReverseProxy returns, for one request: the
   * mount-prefix statement, the entitlement, the cache branch, and
   * otherwise the director, run on a copy of the request (`outbound`),
   * and the response rewrite. The member service's answer, the upstream
   * body and whether Redis takes the write are parameters.
   */
  method Handle(route: ProxyRoute, cache: Cache, req: Url, requestURI: string, token: Option<TokenView>, userID: string,
                query: Result<seq<Subscription>>, upstream: Result<Body>, stored: bool, escaped: EscapedPathFn)
    returns (outcome: Outcome, outbound: Url?)
    requires route.rewritesStory
    requires forall p, r :: HasPrefix(escaped(p, r), "/") ==> HasPrefix(p, "/")
    modifies route`pathBaseToStrip, cache
    ensures var isStory := TrimPrefix(req.path, NormalizedBase(old(route.pathBaseToStrip))) == "/story";
            var emailPriv := token.Some? && EmailPrivilege(token.value.email, token.value.emailVerified);
            var queried := TokenStateOf(token) == OK && !isStory && token.Some? && token.value.emailVerified && !emailPriv && userID != "";
            var ent := if queried && query.Ok? then Entitlement(emailPriv || Scan(query.value).hasPremium, Scan(query.value).subscribed)
                       else Entitlement(emailPriv, {});
            var cached := CachedReply(old(cache.Find(CacheKey(requestURI))), req.path, TokenStateOf(token), ent);
            && (outcome.Proxied? <==> outbound != null)
            && (queried && query.Err? ==> outcome == Aborted(500, Reply(TokenStateOf(token), None, None)) && cache.entries == old(cache.entries))
            && (!(queried && query.Err?) && cached.Some? ==> outcome == FromCache(cached.value) && cache.entries == old(cache.entries))
            && (!outcome.Proxied? ==> route.pathBaseToStrip == NormalizedBase(old(route.pathBaseToStrip)))
            && (!(queried && query.Err?) && cached.None? ==>
                  && outbound != null && fresh(outbound)
                  && route.pathBaseToStrip == NormalizedBase(NormalizedBase(old(route.pathBaseToStrip)))
                  && Directs(route.target, route.pathBaseToStrip, true, escaped, req, outbound)
                  && outcome == Proxied(ProxiedReply(outbound.path, TokenStateOf(token), ent, upstream))
                  && cache.entries == (if upstream.Ok? && stored then old(cache.entries)[CacheKey(requestURI) := Stored(upstream.value)]
                                       else old(cache.entries)))
  {
    outbound := null;
    var tokenState := TokenStateOf(token);
    route.NormalizeBase();
    var isStory := TrimPrefix(req.path, route.pathBaseToStrip) == "/story";
    var ent, failed, queried := ResolveEntitlement(token, userID, isStory, query);
    if failed {
      return Aborted(500, Reply(tokenState, None, None)), null;
    }
    var lookup := cache.Get(CacheKey(requestURI));
    var served := ServeFromCache(lookup, req.path, tokenState, ent);
    if served.Some? {
      return FromCache(served.value), null;
    }
    outbound := new Url(req.scheme, req.host, req.path, req.rawPath, req.rawQuery, req.userAgent);
    route.Direct(outbound, escaped);
    var r := ModifyResponse(cache, requestURI, outbound.path, tokenState, ent, upstream, stored);
    outcome := Proxied(r);
  }

  /**
   * Because the raw body is cached and the rewrite is run again on every
   * hit, a cached post listing reaches each caller exactly as the proxied
   * round trip would have given it to that caller, whoever filled the
   * cache.
   */
  lemma CacheReplayMatchesProxy(path: string, tokenState: string, ent: Entitlement, upstream: Body)
    requires IsPostPath(path) && upstream.Listing?
    ensures CachedReply(Hit(upstream), path, tokenState, ent) == Some(ProxiedReply(path, tokenState, ent, Ok(upstream)).value)
  {
  }
}
