/**
 * The post listing that the content service returns through the proxy,
 * as the gateway's rewrite code decodes it: a body whose `_items` array
 * holds posts with `_id`, `content.apiData`, `content.html`, `categories`,
 * `word_count` and, after the rewrite, `isTruncated`.
 */
module Posts {
  import opened Wrappers
  import opened Strings

  /** One rendered content block of `content.apiData`; its inner shape is never inspected. */
  type Block = string

  /** A category of a post; `isMemberOnly` is an optional JSON boolean. */
  datatype Category = Category(isMemberOnly: Option<bool>)

  datatype Item = Item(
    id: string,
    apiData: seq<Block>,
    categories: seq<Category>,
    wordCount: int,
    html: Option<string>,
    isTruncated: Option<bool>)

  /**
   * An upstream response body: either it decodes into a post listing (a
   * JSON object whose `_items`, when present, is an array of items), or
   * json.Unmarshal rejects it with the message `decodeError`. Wrapping a
   * rejected body as `json.RawMessage` in the reply envelope makes
   * json.Marshal fail with `marshalError` exactly when the text is not
   * well-formed JSON (the empty body among them); well-formed JSON that is
   * not a listing, such as an array, has no `marshalError`.
   */
  datatype Body =
    | Listing(items: seq<Item>)
    | Malformed(text: string, decodeError: string, marshalError: Option<string>)

  /** json.Marshal of the reply envelope fails on this body as its data. */
  predicate MarshalFails(body: Body) {
    body.Malformed? && body.marshalError.Some?
  }

  /**
   * The JSON envelope the gateway answers with; `memberState` is only
   * written by the older proxy, and `data` is omitted on an abort.
   */
  datatype Reply = Reply(tokenState: string, memberState: Option<string>, data: Option<Body>)

  /** The tokenState used when no token was attached to the request. */
  const NoBearerToken: string := "No Bearer token available"

  /** A category marks its post premium when `isMemberOnly` is present and true. */
  predicate IsPremiumCategory(c: Category) {
    c.isMemberOnly == Some(true)
  }

  predicate IsPremium(item: Item) {
    exists k :: 0 <= k < |item.categories| && IsPremiumCategory(item.categories[k])
  }

  /** Paths whose responses are post listings: they end in /getposts, /posts or /post. */
  predicate IsPostPath(path: string) {
    HasSuffix(path, "/getposts") || HasSuffix(path, "/posts") || HasSuffix(path, "/post")
  }

  /** The listing after `content.html` has been deleted from items 0 .. n-1. */
  function WithoutHtml(items: seq<Item>, n: int): (r: seq<Item>)
    ensures |r| == |items|
  {
    seq(|items|, k requires 0 <= k < |items| => if k < n then items[k].(html := None) else items[k])
  }
}
