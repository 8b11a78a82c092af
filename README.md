# apigateway — a Dafny model of the gateway core

This project models the core of the mirror-media API gateway. The gateway is a Go service that sits in front of the Weekly CMS API and the member GraphQL service.

The model covers these parts:

- **Firebase token.** The bearer-token extraction and the token state (`FirebaseToken`).
- **Reverse proxy routes.** The URL rewriting done by the proxy director, with its path joining and query merging (`ReverseProxyUrl`).
- **Newer post proxy.** The member entitlement lookup, the truncation of premium posts, the removal of html and the response cache (`Proxy`, `ResponseCache`, `Posts`).
- **Older post proxy.** Its per-token-state cache and its fixed three-block truncation (`LegacyRoute`).
- **Member query check.** The middleware that refuses member queries whose `firebaseId` argument is not the caller's own (`MemberQueryAuth`).
- **Member mutation resolvers.** How the mutation text is built from the selected fields, the request each resolver sends or the error it returns, and the Taipei-time order numbers (`Resolver`, `Mutations`).
- **Payment callbacks.** The callback URLs and query strings for the payment provider (`Newebpay`).
- **Null rewrite.** The rewrite of the JSON string `"null"` into a JSON `null` in member-service replies (`NullString`).

Remote services are parameters of the model: Redis, the member GraphQL service, Firebase and the upstream CMS. So are the clock and random IDs. Each operation's contract relates its result, or the new state of the objects it changes, to the parameters it is given.

Three behaviours of the code are easy to miss; the model keeps each of them.

- The older proxy caches the rewritten body, and it keys the cache by token state. The newer proxy caches the raw body, keys it by request URI alone, and rewrites the body on every hit.
- `Updatesubscription` reports a non-active merchandise as `frequency(one_time) is not active`, whatever frequency was asked for. The model keeps that message.
- The literal-value check in the member query middleware cuts the value after its first comma and keeps the comma. A quoted literal followed by a further field therefore keeps its closing quote. It is compared as `<id>"` and refused with 403 even when the ID is the caller's own. `MemberQueryAuth.LiteralBeforeCommaRefused` states this behaviour. The model keeps it.

## Model

| member | source | states |
|---|---|---|
| FirebaseToken.NewFirebaseToken | token/firebase.go:106-131 | fails exactly when there is no Firebase client; a token string is present iff the header starts with "Bearer ", and then the header is exactly "Bearer " plus it; otherwise the state is "header not provided" for an empty header and "not a bearer token" for any other |
| FirebaseToken.GetTokenString | token/firebase.go:31-36 | succeeds exactly when a token string was extracted, and returns that string |
| FirebaseToken.ExecuteTokenStateUpdate | token/firebase.go:38-70 | reports an error exactly when there is no token string to verify |
| FirebaseToken.BearerRoundTrip | token/firebase.go:106-121 | a header built as "Bearer " + credential yields a token whose string is the credential, and GetTokenString returns it |
| FirebaseToken.LowerCaseSchemeRejected | token/firebase.go:112-121 | the scheme check is case-sensitive: "bearer x" is not a bearer token |
| FirebaseToken.GuardsAgree | token/firebase.go:112-121 | the state is set exactly when no token string was extracted |
| ReverseProxyUrl.SingleJoiningSlash | server/proxy.go:352-364 | the result is the first path without its trailing slash, one "/", then the second without its leading slash |
| ReverseProxyUrl.JoinURLPath | server/proxy.go:330-350 | with no raw paths the result joins with exactly one slash and has an empty raw path; otherwise both the path and its escaped form join with one slash |
| ReverseProxyUrl.NonEmpty | server/proxy.go:49-53 | keeps only non-empty query parts |
| ReverseProxyUrl.MergeQuery | server/proxy.go:49-53 | the outbound query is the target's and the inbound query joined by "&", dropping whichever is empty |
| ReverseProxyUrl.IteratedBase | server/proxy.go:33-35 | running the director k times adds k slashes to a base that already ends with "/", and leaves any other base alone |
| ReverseProxyUrl.ProxyRoute.NormalizeBase | server/proxy.go:33-35 | the stripped base gains a trailing "/" when it already has one, as the code writes it |
| ReverseProxyUrl.ProxyRoute.Direct | server/proxy.go:32-59 | the request gets the target's scheme and host; its path is the base-stripped (and story-rewritten) path joined onto the target path; its query is the merged query; a missing User-Agent becomes "" |
| ReverseProxyUrl.Directs | server/proxy.go:32-59 | what the director makes of a copy of a request: the target's scheme and host, the stripped path joined onto the target path, the merged query and a User-Agent that is never missing |
| ReverseProxyUrl.StripAndJoin | server/proxy.go:37-47 | a path under the stripped base is joined onto the target path without that base |
| ResponseCache.Cache.Find | server/proxy.go:114-141 | a hit exactly when the key holds a readable entry, a miss exactly when the key is absent |
| ResponseCache.Cache.Get | server/proxy.go:114-119 | the lookup is the cache's current entry for the key and changes nothing |
| ResponseCache.Cache.Set | server/proxy.go:164-169 | when Redis takes the write the key holds the body; when it refuses, the key keeps what it held; every other key is unchanged |
| Posts.IsPostPath | server/proxy.go:173 | the path ends in /getposts, /posts or /post |
| Posts.WithoutHtml | server/proxy.go:315-323 | keeps the number of posts |
| Proxy.Scan | server/proxy.go:243-252 | the scan of the member's subscriptions; ScanMeaning states what it grants |
| Proxy.EmailPrivilege | server/proxy.go:93 | a verified e-mail at one of the three company domains |
| Proxy.FirstRecurring | server/proxy.go:243-252 | the position of the first subscription that is not one-time, with every earlier one one-time |
| Proxy.ScanMeaning | server/proxy.go:243-252 | the member has the premium privilege iff some subscription is not one-time, and a post ID is unlocked iff a one-time subscription for it comes before the first recurring one |
| Proxy.OnlyOneTime | server/proxy.go:243-252 | two one-time subscriptions grant no premium privilege and unlock both posts |
| Proxy.GetMemberSubscription | server/proxy.go:207-254 | the member service is asked iff the check is not skipped and the ID is non-empty; a failed query gives no entitlement and the member-server error; a successful one gives the scan of its subscriptions |
| Proxy.ResolveEntitlement | server/proxy.go:66-110 | the lookup runs exactly for a verified token outside "/story" whose e-mail is verified but grants no privilege itself, with a non-empty user ID; the request fails iff that lookup fails; otherwise premium comes from the e-mail or a recurring subscription, and unlocked posts from the lookup |
| Proxy.TokenStateOf | server/proxy.go:68-75 | "No Bearer token available" when no token was attached, otherwise the token's own state; ResolveEntitlement and Handle read it |
| Proxy.IsPostToBeTruncate | server/proxy.go:325-328 | a premium post is cut unless the caller has the premium privilege or has bought the post |
| Proxy.MinInt | server/proxy.go:366-371 | the smaller of the two numbers |
| Proxy.TruncatedEnd | server/proxy.go:286-291 | never more blocks than the post has: 5 for posts of at least 1000 words, 3 otherwise, capped at the block count |
| Proxy.RewriteItems | server/proxy.go:282-311 | keeps the number of posts |
| Proxy.CategoryScanMeaning | server/proxy.go:282-311 | a post with categories is truncated iff some category is member-only, the caller has no premium privilege and has not bought the post; otherwise it is marked not truncated |
| Proxy.RewriteItemMeaning | server/proxy.go:282-311 | only apiData and isTruncated change: apiData is cut to TruncatedEnd blocks exactly when the access decision says so; a post without categories is untouched |
| Proxy.RewriteItemIdempotent | server/proxy.go:282-311 | rewriting a rewritten post changes nothing more |
| Proxy.ModifyPostItems | server/proxy.go:256-313 | a body that is not a post listing gives "unmarshal post body encountered error: " followed by the decoder's message; a listing gives the per-post rewrite and its length |
| Proxy.RemovePostItemsHtml | server/proxy.go:315-323 | the first n posts lose their html and nothing else in any post changes |
| Proxy.Rewrite | server/proxy.go:171-187 | the rewrite of a body on a post path: the prefixed decoder error, or the listing rewritten and stripped of html; RewriteMeaning states its meaning |
| Proxy.RewriteMeaning | server/proxy.go:171-187 | every post of a rewritten listing has no html and is the rewrite of the post at its position |
| Proxy.CacheKey | server/proxy.go:113 | the cache key of a request URI, the same for every caller; CacheKeyInjective states that it separates URIs |
| Proxy.CacheKeyInjective | server/proxy.go:113 | different request URIs never share a cache entry |
| Proxy.CachedReply | server/proxy.go:121-139 | the reply served from a cache hit on a post path whose body rewrites without error, and none otherwise |
| Proxy.ProxiedReply | server/proxy.go:155-204 | the error of an unreadable upstream body, the rewrite's error, json.Marshal's error for a body that is not well-formed JSON on another path (proxy.go:189-197), or the reply wrapping the (rewritten) body |
| Proxy.OtherPathsWrapped | server/proxy.go:171-197 | off the post paths a body is wrapped unchanged exactly when json.Marshal accepts it, and otherwise the round trip ends with json.Marshal's error |
| Proxy.ServeFromCache | server/proxy.go:114-141 | a cached reply is served exactly for a readable post listing on a post path, rewritten for this caller |
| Proxy.ModifyResponse | server/proxy.go:151-204 | an unreadable upstream body ends with its error and leaves the cache alone; otherwise the raw body is stored under the request's key when Redis takes the write, and the reply is the proxied reply for this caller |
| Proxy.Handle | server/proxy.go:60-148 | a failed member lookup aborts with 500 and leaves the cache alone; otherwise a servable cache entry is answered from the cache; in both cases the mount prefix has been normalised once and nothing is proxied; otherwise the director rewrites a copy of the request (the prefix is normalised a second time), the reply is the proxied reply for the rewritten path, and the raw body is cached exactly when it was read and Redis takes the write; the caller's request is never changed |
| Proxy.CacheReplayMatchesProxy | server/proxy.go:114-187 | a reply served from the cache equals the reply the proxied round trip gives the same caller |
| LegacyRoute.CacheKey | server/route.go:302-307 | the key is the member or not-member prefix, chosen by the token state, followed by the request URI |
| LegacyRoute.CacheKeyShared | server/route.go:302-307 | two requests share an entry iff they have the same URI and both or neither have a verified token |
| LegacyRoute.LegacyTruncate | server/route.go:215-227 | a premium post keeps its first three blocks for a caller without a verified token |
| LegacyRoute.LegacyItems | server/route.go:214-237 | keeps the number of posts |
| LegacyRoute.LegacyReply | server/route.go:163-255 | the older proxy's result: the error of an unreadable body, the decoder's own error returned unchanged for a body that does not decode (route.go:200-203), a panic on a short premium post, json.Marshal's error for a body on another path that is not well-formed JSON (route.go:246-255), or the wrapped (rewritten) body |
| LegacyRoute.LegacyModifyResponse | server/route.go:158-262 | the reply is the older proxy's rewrite; on a post path a successful rewrite is cached under the caller's key when Redis takes the write; nothing else touches the cache |
| LegacyRoute.TruncateForNonMember | server/route.go:214-228 | panics exactly when some premium post has fewer than three blocks; otherwise every post is its truncation for a caller without a verified token |
| LegacyRoute.DeleteHtml | server/route.go:230-237 | every post loses its html and nothing else |
| LegacyRoute.MemberKeepsApiData | server/route.go:214-237 | with a verified token no post loses a block, the rewrite never panics, and every post only loses its html |
| LegacyRoute.NonMemberTruncation | server/route.go:214-237 | without a verified token the rewrite panics iff some premium post has fewer than three blocks; otherwise premium posts keep exactly three blocks, others keep all, and all lose their html |
| LegacyRoute.SlicePanics | server/route.go:216-218 | the slice `APIData[0:3]` is taken only for a premium post of a caller without a verified token, and fails when it has fewer than three blocks; NonMemberTruncation and TruncateForNonMember state where it stops the rewrite |
| LegacyRoute.OtherPathsWrapped | server/route.go:180-255 | on other paths a body json.Marshal accepts is wrapped with memberState "none" and passed through unchanged, and any other body (the empty one among them) ends with json.Marshal's error |
| LegacyRoute.CachedRewriteFitsSharers | server/route.go:239-242 | a cached rewrite is exactly what every caller sharing its key would have received |
| LegacyRoute.LegacyHandle | server/route.go:288-331 | a post path with a readable entry under the caller's key is answered 200 from the cache, with nothing proxied or changed; otherwise the director rewrites a copy of the request after normalising the mount prefix, the result is the older proxy's rewrite for the rewritten path, and the cache changes exactly as LegacyModifyResponse says; the caller's request is never changed |
| MemberQueryAuth.AbortWith | middleware/authentication.go:318-325 | aborting records the error and stops the chain; the first status written stays |
| MemberQueryAuth.NextOf | middleware/authentication.go:315 | the rest of the chain runs unless the context was aborted; nothing else changes |
| MemberQueryAuth.AfterKey | middleware/authentication.go:270-277 | absent iff the argument has no "firebaseId"; otherwise the text after its first occurrence, without leading spaces and colons |
| MemberQueryAuth.CutAtDelimiter | middleware/authentication.go:278-281 | a prefix of the value with no comma or space except possibly its last character, which is then that delimiter |
| MemberQueryAuth.ExtractValue | middleware/authentication.go:268-281 | the value text after "firebaseId" in the trimmed argument, cut at its first delimiter; none when the key is absent |
| MemberQueryAuth.CompareID | middleware/authentication.go:318-325 | continues iff the ID is the authenticated one, otherwise stops with 403 and the mismatch message |
| MemberQueryAuth.CheckValue | middleware/authentication.go:283-306 | a `$name` value is looked up as a variable; any other value is compared without its first and last characters |
| MemberQueryAuth.CheckVariable | middleware/authentication.go:284-302 | undecodable variables stop with 400, a missing name records 400 and goes on, a string value is compared with the caller's ID |
| MemberQueryAuth.CrashMeaning | middleware/authentication.go:283-303 | the check panics exactly on an empty value, a one-character literal, or a variable whose value is not a string |
| MemberQueryAuth.Inner | middleware/authentication.go:267-269 | braces put back around the result give the argument |
| MemberQueryAuth.CheckArgument | middleware/authentication.go:266-313 | an argument not in braces stops with 400; one without the key continues; otherwise its value is checked |
| MemberQueryAuth.Steps | middleware/authentication.go:266-313 | one check per where argument, in order |
| MemberQueryAuth.Authorize | middleware/authentication.go:252-315 | the decision: non-queries and queries without member arguments pass; a missing user ID aborts with 400; otherwise the argument checks run in order; AuthorizeMeaning states its meaning |
| MemberQueryAuth.PassThrough | middleware/authentication.go:210-214 | non-queries, and queries without member arguments, go straight to the next handler |
| MemberQueryAuth.MissingUserID | middleware/authentication.go:257-263 | a member query without an authenticated user ID is aborted with 400 |
| MemberQueryAuth.FoldPassesIffAllContinue | middleware/authentication.go:266-315 | the chain runs untouched iff every argument check continues |
| MemberQueryAuth.FoldNeverPassesAborted | middleware/authentication.go:266-315 | once aborted, the loop never runs the chain and never changes the first status |
| MemberQueryAuth.AuthorizeMeaning | middleware/authentication.go:252-315 | a member query reaches the resolvers iff every one of its where arguments passes its check |
| MemberQueryAuth.FirstStatusWins | middleware/authentication.go:298-302 | a missing variable records 400 without returning; a later mismatch still ends the request with that 400 |
| MemberQueryAuth.TrimLeftPast | middleware/authentication.go:277 | trimming a prefix made only of cut characters leaves the rest |
| MemberQueryAuth.ExtractFromSingleKey | middleware/authentication.go:269-281 | the value text of `firebaseId: v` is v cut at its first delimiter |
| MemberQueryAuth.ObjectOf | middleware/authentication.go:267-269 | an argument wrapped in braces is an object and its inner text is recovered |
| MemberQueryAuth.SingleKeyArgument | middleware/authentication.go:267-306 | the argument `{firebaseId: v}` is checked on v cut at its first delimiter |
| MemberQueryAuth.NoCut | middleware/authentication.go:278-281 | a value without commas and spaces is not cut |
| MemberQueryAuth.LiteralCheck | middleware/authentication.go:303-306 | a quoted literal alone in its argument passes iff it is the caller's ID |
| MemberQueryAuth.LiteralBeforeCommaRefused | middleware/authentication.go:278-306 | a quoted literal followed by a comma is compared with its closing quote attached, so even the caller's own ID is refused with 403 |
| MemberQueryAuth.CommaValueRefused | middleware/authentication.go:303-306 | a value that kept its quote and comma does not match the bare ID |
| MemberQueryAuth.CutAfterComma | middleware/authentication.go:278-281 | a quoted literal followed by a comma is cut just after that comma |
| MemberQueryAuth.VariableCheck | middleware/authentication.go:283-302 | a `$name` value: undecodable variables stop with 400, a missing name records 400, and a present string passes iff it is the caller's ID |
| MemberQueryAuth.NotObjectRefused | middleware/authentication.go:307-312 | an argument not wrapped in braces stops with 400 |
| MemberQueryAuth.NoKeySkipped | middleware/authentication.go:270-274 | an object argument without "firebaseId" is skipped |
| MemberQueryAuth.CheckWhereArguments | middleware/authentication.go:265-315 | the loop panics exactly when the fold of the argument checks does; otherwise the context ends as the fold leaves it |
| MemberQueryAuth.GinContext.AbortWithError | middleware/authentication.go:318-325 | the context's new state is the abort of its old state |
| MemberQueryAuth.GinContext.Next | middleware/authentication.go:315 | the context's new state runs the chain unless it was aborted |
| MemberQueryAuth.AuthenticateMemberQuery | middleware/authentication.go:176-316 | the run panics exactly when the decision does, which CrashMeaning characterises: an empty value, a one-character literal, or a variable that is not a string; otherwise the context ends in the state the decision gives for its old state |
| Resolver.PreloadString | graph/member/mutationgraph/resolver.go:232-237 | a name without a prefix stays as it is; otherwise it is the prefix, a dot, then the name |
| Resolver.NestedPreloads | graph/member/mutationgraph/resolver.go:223-230 | one preload per selected field, nested ones included |
| Resolver.PreorderNames | graph/member/mutationgraph/resolver.go:223-230 | one name per selected field, nested ones included |
| Resolver.LastSegmentOfJoin | graph/member/mutationgraph/resolver.go:232-237 | the last dot-separated segment of a preload is the field name |
| Resolver.SplitLastPart | graph/member/mutationgraph/mutation.resolvers.go:44-48 | after the last separator the split yields the final part |
| Resolver.LastSegment | graph/member/mutationgraph/mutation.resolvers.go:44-48 | the text after the last dot of a preload; LastSegmentOfJoin states that for a dotted preload it is the field name |
| Resolver.LastSegmentsArePreorderNames | graph/member/mutationgraph/resolver.go:223-237 | the last segments of all preloads are the selected field names in preorder |
| Resolver.PreloadsUnderPrefix | graph/member/mutationgraph/resolver.go:223-230 | every nested preload lies under its prefix and a dot |
| Resolver.Map | graph/member/mutationgraph/resolver.go:239-245 | a slice of the same length holding f of each element |
| Resolver.Contain | graph/member/mutationgraph/resolver.go:247-254 | true iff the string is one of the slice's elements |
| Resolver.NextDay | graph/member/mutationgraph/resolver.go:256-258 | the calendar day after a valid date is a valid date |
| Resolver.PrevDay | graph/member/mutationgraph/resolver.go:256-258 | the calendar day before a valid date is a valid date |
| Resolver.Shift | graph/member/mutationgraph/resolver.go:256-258 | the clock moved by delta minutes is valid and carries the new offset; ShiftKeepsInstant states that the instant is the same |
| Resolver.InTaipei | graph/member/mutationgraph/resolver.go:256-258 | the clock in Taipei is valid and at UTC+8; InTaipeiKeepsInstant states that the instant is the same |
| Resolver.MultiplesStep | graph/member/mutationgraph/resolver.go:257 | the count of multiples of 4, 100 or 400 grows by one at each multiple |
| Resolver.YearLength | graph/member/mutationgraph/resolver.go:257 | consecutive years start 366 days apart after a leap year and 365 otherwise |
| Resolver.WholeYear | graph/member/mutationgraph/resolver.go:257 | the months of a year add up to its length |
| Resolver.NextDayNumber | graph/member/mutationgraph/resolver.go:257 | the day after a date is numbered one more |
| Resolver.PrevDayNumber | graph/member/mutationgraph/resolver.go:257 | the day before a date is numbered one less |
| Resolver.ShiftKeepsInstant | graph/member/mutationgraph/resolver.go:257 | moving a clock by its offset change keeps the instant: minutes since a fixed UTC midnight are unchanged |
| Resolver.InTaipeiKeepsInstant | graph/member/mutationgraph/resolver.go:256-257 | t.In(Asia/Taipei) is the same instant as t, shown at UTC+8 |
| Resolver.OrderNumber | graph/member/mutationgraph/resolver.go:256-265 | the order number of an instant and an ID, or none where slicing a short year panics; OrderNumberShape states its layout |
| Resolver.FourDigits | graph/member/mutationgraph/resolver.go:261 | a four-digit year printed and cut after two characters gives the year modulo 100 |
| Resolver.OrderNumberShape | graph/member/mutationgraph/resolver.go:256-265 | an order number is "M", two year digits, two month digits, two day digits of the Taipei date, then five digits holding id mod 10000 |
| Resolver.SameSuffixModulo | graph/member/mutationgraph/resolver.go:263 | IDs with the same last four digits get the same order number |
| Resolver.LateEveningUtc | graph/member/mutationgraph/resolver_test.go:22-27 | 22:00 UTC on 7 November 2021 gives M21110800001 |
| Resolver.MorningUtc | graph/member/mutationgraph/resolver_test.go:30-35 | 10:00 UTC on 7 November 2021 gives M21110700001 |
| Resolver.MorningAlaska | graph/member/mutationgraph/resolver_test.go:38-51 | 10:00 at UTC-9 gives M21110800001, for id 1 and id 100001 alike |
| Resolver.NovemberOrderNumber | graph/member/mutationgraph/resolver.go:256-265 | an instant that is day 1 to 9 of November 2021 in Taipei, with an id ending in 0001, is numbered "M21110", the day digit, then "00001" |
| Resolver.OrderText | graph/member/mutationgraph/resolver.go:260-263 | the order number is "M" followed by the year, month, day and id digit runs at fixed positions, twelve characters in all |
| Mutations.FieldLines | graph/member/mutationgraph/mutation.resolvers.go:44-48 | one field line per preload |
| Mutations.MutationTextLines | graph/member/mutationgraph/mutation.resolvers.go:42-51 | the mutation text splits back, line by line, into the header, the fields and the two closing braces |
| Mutations.MutationTextOfPreloads | graph/member/mutationgraph/mutation.resolvers.go:42-51 | the mutation text's lines after the header are the last segments of the preloads, then the closing braces |
| Mutations.LastSegmentOneLine | graph/member/mutationgraph/mutation.resolvers.go:44-48 | a preload without a newline gives a field line without one |
| Mutations.JoinedPartsInside | graph/member/mutationgraph/mutation.resolvers.go:51 | every character of a part appears in the joined text |
| Mutations.BuildMutation | graph/member/mutationgraph/mutation.resolvers.go:42-51 | the mutation text is the header, one field line per preload and the closing braces, joined by newlines |
| Mutations.SubscriptionSelection | graph/member/mutationgraph/mutation.resolvers.go:243-261 | the selection is the mapped preloads, then "createdAt" and "id", each appended only when missing and in that order |
| Mutations.SelectionTail | graph/member/mutationgraph/mutation.resolvers.go:253-259 | whatever follows the mapped preloads in a selection is exactly the missing ones of "createdAt" and "id" |
| Mutations.SelectionUnique | graph/member/mutationgraph/mutation.resolvers.go:243-261 | the selection is determined by the preloads |
| Mutations.SubscriptionFieldOf | graph/member/mutationgraph/mutation.resolvers.go:245-253 | "subscription.x" maps to x |
| Mutations.SubscriptionField | graph/member/mutationgraph/mutation.resolvers.go:245-252 | the field of a two-part "subscription.<field>" preload, and "" for any other; SubscriptionFieldOf and SubscriptionFieldMeaning state both directions |
| Mutations.SubscriptionFieldMeaning | graph/member/mutationgraph/mutation.resolvers.go:245-253 | a preload gives a field iff it is "subscription." followed by a dot-free name, and that name is the field |
| Mutations.Createmember | graph/member/mutationgraph/mutation.resolvers.go:26-69 | null data is refused; a missing Firebase ID is refused with its error; otherwise the create mutation is sent with the Firebase ID, member type "none" and the join date added to the input |
| Mutations.Updatemember | graph/member/mutationgraph/mutation.resolvers.go:70-110 | the update is sent iff the caller's member ID is the ID being updated; each failure returns its own error, a mismatch the ID message |
| Mutations.UpsertAppSubscription | graph/member/mutationgraph/mutation.resolvers.go:111-210 | success iff the webhook replies "success"; a missing Firebase ID is its error; an unknown source is an error naming it; a failed POST returns the POST's error; a non-200 status or an unreadable or undecodable reply is an internal error; any other reply's message becomes the error |
| Mutations.CreateSubscriptionRecurring | graph/member/mutationgraph/mutation.resolvers.go:211-261 | sent iff there is a Firebase ID, data with a string frequency, and an active merchandise for it; a missing Firebase ID, a non-string frequency, a failed merchandise lookup and an inactive merchandise each return their own error; null data panics; the input then carries the member, the next frequency, the merchandise's price, currency, comment and description and the placeholder order number; the mutation text is the creation header, the selection and the closing braces |
| Mutations.CreatesSubscriptionOneTime | graph/member/mutationgraph/mutation.resolvers.go:339-388 | sent iff the data is not null, there is a Firebase ID and the one-time merchandise is active; each failure returns its own error; the input then has the member, frequency one_time, next frequency none, the merchandise's price, currency, comment and description and the placeholder order number, and keeps every other field; the mutation text is the creation header, the selection and the closing braces |
| Mutations.Updatesubscription | graph/member/mutationgraph/mutation.resolvers.go:470-534 | null data, a missing Firebase ID and un-cancelling are refused; a failed subscription lookup returns its error; another member's subscription is refused; one-time subscriptions cannot change; a failed merchandise lookup for the next frequency returns its error, and an inactive one is refused with the one_time message; otherwise the update is sent as given |
| Mutations.LeadingDigits | graph/member/mutationgraph/mutation.resolvers.go:277 | the run of decimal digits the ID starts with, ended by the end of the text or by a byte that is not a digit |
| Mutations.ParseUintFrom | graph/member/mutationgraph/mutation.resolvers.go:277 | ParseUint's byte loop never yields more than 2^64-1 |
| Mutations.ParseUintOrZero | graph/member/mutationgraph/mutation.resolvers.go:277 | the parsed ID, with the error ignored, always fits in 64 bits |
| Mutations.ParseUintFromCases | graph/member/mutationgraph/mutation.resolvers.go:277 | from any point inside the leading digit run, with the digits read so far in range, the byte loop ends as ParseUintCases says |
| Mutations.ParseUintCases | graph/member/mutationgraph/mutation.resolvers.go:277 | ParseUint(s, 10, 64) with the error ignored: 0 for the empty text, 2^64-1 when the leading digit run is out of range whatever follows it, 0 when a byte that is not a digit follows a run in range, and the value of an all-digit text in range |
| Mutations.OrderNumberFor | graph/member/mutationgraph/mutation.resolvers.go:277-278 | the order number of a created subscription: its ID parsed as ParseUint does, numbered at creation time in Taipei |
| Mutations.ParseDecimal | graph/member/mutationgraph/mutation.resolvers.go:277 | a decimal ID up to 2^64-1 parses back to itself |
| Mutations.UnparsableIDIsZero | graph/member/mutationgraph/mutation.resolvers.go:277-278 | an ID that is empty, or has a byte other than a digit after a leading digit run in range, is numbered as ID 0 |
| Mutations.OverflowingIDIsMax | graph/member/mutationgraph/mutation.resolvers.go:277-278 | an ID whose leading digit run is out of range is numbered as ID 2^64-1, even when a byte that is not a digit follows (as in "18446744073709551616x") |
| Newebpay.Utf8 | payment/newebpay.go:73-74 | one to four bytes, each below 256, and ASCII characters encode as themselves |
| Newebpay.HexDigit | payment/newebpay.go:73-74 | an upper-case hexadecimal digit |
| Newebpay.PercentBytes | payment/newebpay.go:73-74 | three characters per escaped byte |
| Newebpay.PercentBytesChars | payment/newebpay.go:73-74 | percent escapes contain only "%" and upper-case hexadecimal digits |
| Newebpay.QueryEscape | payment/newebpay.go:74 | url.QueryEscape: unreserved characters kept, space as "+", every other byte as %XX; QueryEscapeChars and QueryEscapeUnreserved state its meaning |
| Newebpay.QueryEscapeChars | payment/newebpay.go:73-74 | escaped text contains only unreserved characters, "+" and percent escapes |
| Newebpay.QueryEscapeUnreserved | payment/newebpay.go:73-74 | text made of unreserved characters is left as it is |
| Newebpay.QueryEscapeAppend | payment/newebpay.go:73-74 | escaping is done character by character, so it distributes over concatenation |
| Newebpay.EscapeSlash | payment/newebpay.go:73-74 | "/" escapes as "%2F" |
| Newebpay.EscapeSegment | payment/newebpay.go:73-74 | a path "/x" of unreserved characters escapes as "%2Fx" |
| Newebpay.EscapeTwoSegments | payment/newebpay.go:73-74 | a path "/x/y" of unreserved characters escapes as "%2Fx%2Fy" |
| Newebpay.KeptFrom | payment/newebpay.go:29-43 | every encoded pair comes from a field that is not dropped |
| Newebpay.KeptHas | payment/newebpay.go:29-43 | every field that is not dropped is encoded |
| Newebpay.QueryValues | payment/newebpay.go:29-43 | the query's key-value pairs: the purchase fields, omitempty ones dropped when empty, in sorted key order, with the amount written as fmt writes a float64 (FormatWholeFloat); QueryKeys states which appear |
| Newebpay.Encode | payment/newebpay.go:74 | url.Values.Encode of sorted pairs: escaped key=value parts joined by "&"; EncodeParts states that it splits back |
| Newebpay.Parts | payment/newebpay.go:74 | one "key=value" part per pair, in order |
| Newebpay.AdjacentKeysInOrder | payment/newebpay.go:29-43 | the nine query keys, listed in sorted order |
| Newebpay.FieldKeysInOrder | payment/newebpay.go:29-43 | the field keys are strictly sorted |
| Newebpay.LessTransitive | payment/newebpay.go:74 | the key order is transitive |
| Newebpay.LessChain | payment/newebpay.go:74 | a chain of ordered neighbours is ordered throughout |
| Newebpay.KeptInOrder | payment/newebpay.go:73-74 | dropping fields keeps the keys strictly sorted |
| Newebpay.QueryKeysSorted | payment/newebpay.go:73-74 | the encoded query lists its keys in strictly increasing order, as Encode sorts them |
| Newebpay.QueryKeyPresence | payment/newebpay.go:29-43 | a key appears in the query iff its field is not an empty omitempty field |
| Newebpay.QueryKeys | payment/newebpay.go:29-43 | amount, code, orderNumber, purchasedAtUnixTime and returnPath always appear; postId, postSlug, postTitle and memberFirebaseId appear iff they are non-empty |
| Newebpay.EncodeParts | payment/newebpay.go:74 | the encoded query splits on "&" back into its key=value parts |
| Newebpay.EncodeWithoutQuestionMark | payment/newebpay.go:74 | the encoded query contains no "?" |
| Newebpay.JoinWithout | payment/newebpay.go:74 | joining never introduces a character absent from the parts and the separator |
| Newebpay.NormalizePath | payment/newebpay.go:67-69 | the path starts with "/", and gains one only when it had none |
| Newebpay.CallbackUrl | payment/newebpay.go:66-75 | protocol "://" domain and the normalized path, followed by "?" and the encoded purchase information when there is any |
| Newebpay.NotifyIgnoresPurchase | payment/newebpay.go:45-50 | the notify URL does not depend on the purchase |
| Newebpay.NormalizePathOnce | payment/newebpay.go:67-69 | normalizing is idempotent and keeps the path after its leading slash |
| Newebpay.CallbackUrlParts | payment/newebpay.go:70-74 | a callback URL splits on "?" into the base URL and the encoded query |
| Newebpay.NotifyURL | payment/newebpay.go:45-50 | the callback URL of the notify path, without the purchase |
| Newebpay.ReturnURL | payment/newebpay.go:52-57 | the callback URL of the return path, with the purchase's query |
| Newebpay.ClientBackPath | payment/newebpay.go:59-64 | the callback URL of the client-back path, with the purchase's query |
| Newebpay.NotifyExample | payment/newebpay.go:45-50 | a store with protocol https, domain "domain" and notify path "/notify-payment" gives "https://domain/notify-payment" |
| NullString.NullOut | graph/graph.go:13-15 | every value equal to the JSON string "null" becomes the literal null; no other token changes |
| NullString.Visit | graph/graph.go:17-28 | appends one token: a comma when the token needs one, the key and colon when it has a key, then the value with "null" unquoted |
| NullString.ShouldAddComma | graph/graph.go:17 | ujson's comma rule: a comma goes before a value unless the value closes a bracket or the output ends with an opening bracket or a comma; Visit uses it for every token |
| NullString.Emit | graph/graph.go:9-32 | the output after the walk delivered a token stream; EmitIsReconstructOfNullOut and EmitPrefix state what it is |
| NullString.ReplaceNullString | graph/graph.go:9-32 | the output is the emitted token stream and the walk's error is returned unchanged |
| NullString.EmitIsReconstructOfNullOut | graph/graph.go:9-32 | the rewrite equals the plain re-serialization of the token stream with every "null" string replaced by null |
| NullString.NoQuotedNull | graph/graph.go:9-32 | a stream without the string "null" is re-serialized unchanged |
| NullString.NullOutMeaning | graph/graph.go:13-28 | no "null" string survives the replacement, and every other value is kept |
| NullString.EmitPrefix | graph/graph.go:11-30 | the output of a longer stream extends the output of its prefix by one token's piece |
| NullString.OneLevelExample | graph/graph_test.go:19-24 | `{"key": "null"}` becomes `{"key":null}` |
| Strings.TrimPrefix | server/proxy.go:37-43 | without the prefix when the text starts with it, unchanged otherwise |
| Strings.TrimLeft | middleware/authentication.go:277 | the longest suffix that does not start with a cut character |
| Strings.TrimRight | middleware/authentication.go:269 | the longest prefix that does not end with a cut character; every dropped character is in the cut set |
| Strings.Trim | middleware/authentication.go:269 | TrimLeft then TrimRight with the same cut set, whose contracts say what each end loses |
| Strings.HasPrefix | token/firebase.go:115 | the text is at least as long as the prefix and starts with it; TrimPrefix and BearerRoundTrip are stated with it |
| Strings.HasSuffix | server/proxy.go:173 | the text is at least as long as the suffix and ends with it; IsPostPath and EmailPrivilege use it |
| Strings.Index | middleware/authentication.go:270 | the first position at which the text occurs, or -1 when it does not occur |
| Strings.IndexAny | middleware/authentication.go:278 | the first position of any of the characters, or -1 |
| Strings.Split | graph/member/mutationgraph/mutation.resolvers.go:44-48 | at least one part, none containing the separator |
| Strings.JoinSplit | graph/member/mutationgraph/mutation.resolvers.go:44-48 | joining the parts of a split gives the text back |
| Strings.SplitJoin | graph/member/mutationgraph/mutation.resolvers.go:51 | splitting a join of separator-free parts gives the parts back |
| Strings.Join | graph/member/mutationgraph/mutation.resolvers.go:51 | the parts with the separator between neighbours; JoinSplit and SplitJoin state that it inverts Split |
| Strings.ZeroPadExact | graph/member/mutationgraph/resolver.go:261-263 | a number below 10^width pads to exactly width digits that read back as the number |
| Strings.DecimalValue | graph/member/mutationgraph/resolver.go:261 | a printed number reads back as itself |
| Strings.IntToString | graph/member/mutationgraph/resolver.go:261 | strconv.FormatInt: a minus sign for a negative number, then the decimal digits, which read back as the magnitude by DecimalValue |
| Strings.ZeroPad | graph/member/mutationgraph/resolver.go:261-263 | fmt's `%0<width>d`; ZeroPadExact and ZeroPadValue state its length and value |
| Strings.ZeroPadValue | graph/member/mutationgraph/resolver.go:261-263 | at least width digits, and they read back as the number, for any width |
| Strings.TrimTrailingZeros | payment/newebpay.go:34 | a prefix of the digit string that does not end in 0; TrimTrailingZerosPad states that the dropped characters are all zeros |
| Strings.TrimTrailingZerosPad | payment/newebpay.go:34 | the significant digits followed by the dropped zeros give the digit string back |
| Strings.ExponentBounds | payment/newebpay.go:34 | the exponent e of a >= 1 is the one with 10^e <= a < 10^(e+1) |
| Strings.SignificandDigits | payment/newebpay.go:34 | the significant digits end in a non-zero digit and, padded with zeros to e + 1 digits, are the decimal text of the number |
| Strings.SixDigits | payment/newebpay.go:34 | the exponent is below 6 exactly when the number is below 10^6, the switch point of the shortest %g |
| Strings.FormatWholeFloat | payment/newebpay.go:34 | fmt.Sprint of a float64 holding a whole number; FormatWholeFloatPlain and FormatWholeFloatExponent state its two forms |
| Strings.FormatWholeFloatPlain | payment/newebpay.go:34 | below 10^6 in magnitude the amount is written as strconv writes the integer |
| Strings.FormatWholeFloatExponent | payment/newebpay.go:34 | from 10^6 on the amount is written as sign, significant digits with a point after the first, "e+" and the exponent in at least two digits |
| Strings.MillionInExponentForm | payment/newebpay.go:34 | an amount of 1,000,000 is written "1e+06" |

## Left out

- The network and storage calls are parameters of the operations that use them: Redis, the member GraphQL service, the Firebase token verification, the app-subscription webhook and the upstream CMS. These failures are modelled: a failed member lookup, an upstream body that cannot be read, a Redis read that misses or cannot be read, a Redis write that is refused, a failed webhook POST and its bad answers, and the errors of the merchandise and subscription lookups. The GraphQL client errors after the mutation is sent are not modelled.
- Goroutines, the mutex of the token, the logging and the metrics are not modelled.
- Redis expiry times are not modelled: an entry stays until it is replaced.
- The proxies edit JSON bytes with sjson and json.Marshal. The model works on decoded post listings. Both proxies wrap other bodies as `json.RawMessage`, and json.Marshal then fails on text that is not well-formed JSON, the empty body among them (server/proxy.go:189-197, server/route.go:246-255). The model carries that failure as the body's `marshalError`, which is given with the body: no JSON grammar is modelled that would decide which texts are well-formed.
- The member query middleware slices the query text at AST positions (middleware/authentication.go:224-251). The model takes the where-argument strings it extracts as input. Errors in reading, unmarshalling and parsing the request body are not modelled.
- Path escaping: `url.URL.EscapedPath` is a parameter of the URL join. The model assumes it keeps a leading slash exactly when the path has one.
- Newebpay.QueryValues: the amount (a float64 in payment/newebpay.go:34) is a whole number in the model, written as fmt's shortest %g writes it: plain digits below 10^6, exponent form such as `1e+06` from 10^6 on. Amounts with a fractional part, and whole amounts above 2^53 that a float64 cannot hold exactly, are not modelled.
- `time.LoadLocation("Asia/Taipei")` is modelled as the fixed offset UTC+8. The time zone database is not consulted.
- The two subscription-creating resolvers stop, in the model, at the create mutation they send. After it, the code runs a second mutation that stores the order number, then builds the payment payload. The model covers that stage only through the order number (`Mutations.OrderNumberFor`). The type assertions there (`email`, `postId`) are not modelled.
- A subscription record without a post ID is not modelled: the member lookup takes every post ID as a string.
- CreateNewebpayAgreementPayload and the payment payload are not part of this model. Only the callback URLs are.
- The error from `query.Values` never occurs for this struct, so the callback URL has no error result.
- Proxy.ModifyResponse: the newer proxy stores the raw body from a goroutine (server/proxy.go:165-169), which also assigns the response function's own `err`. The model performs the write in sequence, before the rewrite. It does not model the write landing after the reply, nor the data race through which a refused write could replace the error checked at server/proxy.go:194.
- The string forms of the generated GraphQL enums ("one_time", "none", "active") are stated as constants, because the generated model package is not part of this model.
- The resolvers add fields to the caller's data map in place. The model returns the extended map as the request input instead.
- The ujson tokenizer (`Walk`) is a parameter: the model takes its token stream as input. Its comma rule `ShouldAddComma` is stated from the tokenizer's behaviour.
- Text is modelled as characters, not bytes. UTF-8 appears only where the query escaping needs it.
- The nested-object case of the null-string test and the full payment URLs of the payment test are not proved as literal strings. General lemmas cover them: the token-stream lemmas and the query-key, order and escaping lemmas.
- The order-number placeholder uses a random xid; the model takes it as a parameter.
- Mutations.UpsertAppSubscription: the webhook's message is passed to `fmt.Errorf` as a format string. A message with `%` verbs would be rewritten by fmt; the model returns the message as it is.
- Mutations.Show: `%v` of a number, a member connection or another map value is shown as "?" in the model; only strings, booleans and nil have their fmt text.
- LegacyRoute.SlicePanics: slicing `APIData[0:3]` panics when the capacity, not the length, is below three. The model assumes the JSON decoder gives the slice a capacity equal to its length, so the panic condition is read as fewer than three blocks.
- Posts.Body: a body that json.Unmarshal rejects carries the decoder's message as its `decodeError`, and json.Marshal's message as its `marshalError` when it is not well-formed JSON. How the decoder and the encoder word those messages is not modelled.
- The httputil.ReverseProxy machinery around the director is not modelled beyond the copy it makes of the request: hop-by-hop headers, X-Forwarded-For and the transport.
