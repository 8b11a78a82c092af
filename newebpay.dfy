/**
 * The payment callback URLs of payment/newebpay.go: the notify, return
 * and client-back addresses handed to the Newebpay gateway, with the
 * purchase details carried in the query of the latter two.
 */
module Newebpay {
  import opened Wrappers
  import opened Strings

  /** The store configuration; only the protocol, domain and path fields take part in the URLs. */
  datatype Store = Store(
    callbackDomain: string, callbackProtocol: string, clientBackPath: string, id: string,
    isAbleToModifyEmail: int, loginType: int, notifyProtocol: string, notifyDomain: string,
    notifyPath: string, p3d: int, respondType: string, returnPath: string, version: string)

  /** The amount is a whole number here; the query prints it as fmt prints a float64. */
  datatype Merchandise = Merchandise(code: string, postID: string, postSlug: string, postTitle: string, amount: int)

  datatype PurchaseInfo = PurchaseInfo(
    merchandise: Merchandise, purchasedAtUnixTime: int, orderNumber: string,
    memberFirebaseID: string, returnPath: string)

  // ---------------------------------------------------------------------
  // url.QueryEscape
  // ---------------------------------------------------------------------

  /** The characters a query component keeps as they are. */
  predicate Unreserved(c: char) {
    ('A' <= c <= 'Z') || ('a' <= c <= 'z') || ('0' <= c <= '9') || c == '-' || c == '_' || c == '.' || c == '~'
  }

  /** The UTF-8 bytes of a character. */
  function Utf8(c: char): (bytes: seq<nat>)
    ensures 1 <= |bytes| <= 4
    ensures forall i :: 0 <= i < |bytes| ==> bytes[i] < 256
    ensures (c as int) < 0x80 ==> bytes == [c as int]
  {
    var v := c as int;
    if v < 0x80 then [v]
    else if v < 0x800 then [0xC0 + v / 64, 0x80 + v % 64]
    else if v < 0x1_0000 then [0xE0 + v / 4096, 0x80 + (v / 64) % 64, 0x80 + v % 64]
    else [0xF0 + (v / 262144) % 8, 0x80 + (v / 4096) % 64, 0x80 + (v / 64) % 64, 0x80 + v % 64]
  }

  function HexDigit(d: nat): (c: char)
    requires d < 16
    ensures ('0' <= c <= '9') || ('A' <= c <= 'F')
  {
    if d < 10 then (48 + d) as char else (55 + d) as char
  }

  /** `%XX` with upper-case hexadecimal digits for each byte. */
  function PercentBytes(bytes: seq<nat>): (r: string)
    requires forall i :: 0 <= i < |bytes| ==> bytes[i] < 256
    ensures |r| == 3 * |bytes|
  {
    if bytes == [] then ""
    else ['%', HexDigit(bytes[0] / 16), HexDigit(bytes[0] % 16)] + PercentBytes(bytes[1..])
  }

  function EscapeChar(c: char): string {
    if Unreserved(c) then [c]
    else if c == ' ' then "+"
    else PercentBytes(Utf8(c))
  }

  /** url.QueryEscape. */
  function QueryEscape(s: string): string {
    if s == [] then "" else EscapeChar(s[0]) + QueryEscape(s[1..])
  }

  /** The characters an escaped component can hold. */
  predicate EscapedChar(c: char) {
    Unreserved(c) || c == '+' || c == '%'
  }

  lemma {:induction false} PercentBytesChars(bytes: seq<nat>)
    requires forall i :: 0 <= i < |bytes| ==> bytes[i] < 256
    ensures forall c :: c in PercentBytes(bytes) ==> EscapedChar(c)
  {
    if bytes != [] {
      PercentBytesChars(bytes[1..]);
    }
  }

  /** An escaped component holds only unreserved characters, '+' and '%': no '&', '=', '?', '/' or '#'. */
  lemma {:induction false} QueryEscapeChars(s: string)
    ensures forall c :: c in QueryEscape(s) ==> EscapedChar(c)
  {
    if s != [] {
      QueryEscapeChars(s[1..]);
      if !Unreserved(s[0]) && s[0] != ' ' {
        PercentBytesChars(Utf8(s[0]));
      }
    }
  }

  /** A component of unreserved characters only is left as it is. */
  lemma {:induction false} QueryEscapeUnreserved(s: string)
    requires forall i :: 0 <= i < |s| ==> Unreserved(s[i])
    ensures QueryEscape(s) == s
  {
    if s != [] {
      QueryEscapeUnreserved(s[1..]);
      assert [s[0]] + s[1..] == s;
    }
  }

  // ---------------------------------------------------------------------
  // query.Values and url.Values.Encode
  // ---------------------------------------------------------------------

  /** Strict lexicographic order on strings, as sort.Strings orders keys. */
  predicate Less(a: string, b: string) {
    if a == [] then b != []
    else if b == [] then false
    else a[0] < b[0] || (a[0] == b[0] && Less(a[1..], b[1..]))
  }

  /** Every field of the purchase info with its key and whether the key is omitted when empty, in key order. */
  function Fields(info: PurchaseInfo): seq<(string, string, bool)> {
    var m := info.merchandise;
    [ ("amount", FormatWholeFloat(m.amount), false),
      ("code", m.code, false),
      ("memberFirebaseId", info.memberFirebaseID, true),
      ("orderNumber", info.orderNumber, false),
      ("postId", m.postID, true),
      ("postSlug", m.postSlug, true),
      ("postTitle", m.postTitle, true),
      ("purchasedAtUnixTime", IntToString(info.purchasedAtUnixTime), false),
      ("returnPath", info.returnPath, false) ]
  }

  predicate Dropped(field: (string, string, bool)) {
    field.2 && field.1 == ""
  }

  /** The (key, value) pairs that remain after dropping empty omitempty fields, in order. */
  function Kept(fields: seq<(string, string, bool)>): seq<(string, string)> {
    if fields == [] then []
    else if Dropped(fields[0]) then Kept(fields[1..])
    else [(fields[0].0, fields[0].1)] + Kept(fields[1..])
  }

  /** The pair comes from a field that is not dropped. */
  predicate KeptFromField(p: (string, string), fields: seq<(string, string, bool)>) {
    exists i :: 0 <= i < |fields| && p == (fields[i].0, fields[i].1) && !Dropped(fields[i])
  }

  /** Every kept pair comes from a field that is not dropped. */
  lemma {:induction false} KeptFrom(fields: seq<(string, string, bool)>)
    ensures forall k :: 0 <= k < |Kept(fields)| ==> KeptFromField(Kept(fields)[k], fields)
  {
    if fields != [] {
      var rest := Kept(fields[1..]);
      KeptFrom(fields[1..]);
      forall k | 0 <= k < |rest| ensures KeptFromField(rest[k], fields) {
        var i :| 0 <= i < |fields[1..]| && rest[k] == (fields[1..][i].0, fields[1..][i].1) && !Dropped(fields[1..][i]);
        assert fields[1..][i] == fields[i + 1];
      }
      if !Dropped(fields[0]) {
        var out := Kept(fields);
        assert out == [(fields[0].0, fields[0].1)] + rest;
        assert KeptFromField(out[0], fields);
        forall k | 1 <= k < |out| ensures KeptFromField(out[k], fields) {
          assert out[k] == rest[k - 1];
        }
      }
    }
  }

  /** Every field that is not dropped is kept. */
  lemma {:induction false} KeptHas(fields: seq<(string, string, bool)>, i: nat)
    requires i < |fields| && !Dropped(fields[i])
    ensures exists k :: 0 <= k < |Kept(fields)| && Kept(fields)[k] == (fields[i].0, fields[i].1)
  {
    var rest := Kept(fields[1..]);
    if i == 0 {
      assert Kept(fields)[0] == (fields[0].0, fields[0].1);
    } else {
      KeptHas(fields[1..], i - 1);
      var k :| 0 <= k < |rest| && rest[k] == (fields[1..][i - 1].0, fields[1..][i - 1].1);
      assert fields[1..][i - 1] == fields[i];
      if !Dropped(fields[0]) {
        assert Kept(fields) == [(fields[0].0, fields[0].1)] + rest;
        assert Kept(fields)[k + 1] == rest[k];
      } else {
        assert Kept(fields) == rest;
      }
    }
  }

  function QueryValues(info: PurchaseInfo): seq<(string, string)> {
    Kept(Fields(info))
  }

  /** One `key=value` part of the query, both sides escaped. */
  function Part(pair: (string, string)): string {
    QueryEscape(pair.0) + "=" + QueryEscape(pair.1)
  }

  function Parts(pairs: seq<(string, string)>): (r: seq<string>)
    ensures |r| == |pairs|
    ensures forall k :: 0 <= k < |r| ==> r[k] == Part(pairs[k])
  {
    if pairs == [] then [] else [Part(pairs[0])] + Parts(pairs[1..])
  }

  /** url.Values.Encode over pairs already in key order: the parts separated by '&'. */
  function Encode(pairs: seq<(string, string)>): string {
    Join(Parts(pairs), "&")
  }

  predicate KeysInOrder(pairs: seq<(string, string)>) {
    forall i, j :: 0 <= i < j < |pairs| ==> Less(pairs[i].0, pairs[j].0)
  }

  const FieldKeys: seq<string> := ["amount", "code", "memberFirebaseId", "orderNumber", "postId", "postSlug",
                                   "postTitle", "purchasedAtUnixTime", "returnPath"]

  lemma AdjacentKeysInOrder()
    ensures |FieldKeys| == 9
    ensures forall i :: 0 <= i < 8 ==> Less(FieldKeys[i], FieldKeys[i + 1])
  {
    assert Less("amount", "code") && Less("code", "memberFirebaseId") && Less("memberFirebaseId", "orderNumber");
    assert Less("orderNumber", "postId") && Less("postId", "postSlug") && Less("postSlug", "postTitle");
    assert Less("postTitle", "purchasedAtUnixTime") && Less("purchasedAtUnixTime", "returnPath");
  }

  lemma FieldKeysInOrder(info: PurchaseInfo)
    ensures forall i, j :: 0 <= i < j < |Fields(info)| ==> Less(Fields(info)[i].0, Fields(info)[j].0)
  {
    assert forall i :: 0 <= i < 9 ==> Fields(info)[i].0 == FieldKeys[i];
    AdjacentKeysInOrder();
    forall i, j | 0 <= i < j < 9 ensures Less(FieldKeys[i], FieldKeys[j]) {
      LessChain(FieldKeys, i, j);
    }
  }

  lemma {:induction false} LessTransitive(a: string, b: string, c: string)
    requires Less(a, b) && Less(b, c)
    ensures Less(a, c)
  {
    if a != [] && b != [] && c != [] && a[0] == b[0] && b[0] == c[0] {
      LessTransitive(a[1..], b[1..], c[1..]);
    }
  }

  lemma {:induction false} LessChain(keys: seq<string>, i: nat, j: nat)
    requires i < j < |keys|
    requires forall k :: 0 <= k < |keys| - 1 ==> Less(keys[k], keys[k + 1])
    ensures Less(keys[i], keys[j])
    decreases j - i
  {
    if j > i + 1 {
      LessChain(keys, i + 1, j);
      LessTransitive(keys[i], keys[i + 1], keys[j]);
    }
  }

  /** Dropping fields keeps the remaining keys in order. */
  lemma {:induction false} KeptInOrder(fields: seq<(string, string, bool)>)
    requires forall i, j :: 0 <= i < j < |fields| ==> Less(fields[i].0, fields[j].0)
    ensures KeysInOrder(Kept(fields))
  {
    if fields != [] {
      var tail := fields[1..];
      assert forall i, j :: 0 <= i < j < |tail| ==> Less(tail[i].0, tail[j].0) by {
        forall i, j | 0 <= i < j < |tail| ensures Less(tail[i].0, tail[j].0) {
          assert tail[i] == fields[i + 1] && tail[j] == fields[j + 1];
        }
      }
      KeptInOrder(tail);
      KeptFrom(tail);
      var rest := Kept(tail);
      forall k | 0 <= k < |rest| ensures Less(fields[0].0, rest[k].0) {
        assert KeptFromField(rest[k], tail);
        var i :| 0 <= i < |tail| && rest[k] == (tail[i].0, tail[i].1) && !Dropped(tail[i]);
        assert tail[i] == fields[i + 1];
      }
    }
  }

  /** The query lists its keys in strictly increasing order, as Encode sorts them. */
  lemma QueryKeysSorted(info: PurchaseInfo)
    ensures KeysInOrder(QueryValues(info))
  {
    FieldKeysInOrder(info);
    KeptInOrder(Fields(info));
  }

  predicate HasKey(pairs: seq<(string, string)>, key: string) {
    exists k :: 0 <= k < |pairs| && pairs[k].0 == key
  }

  lemma LessIrreflexive(a: string)
    ensures !Less(a, a)
  {
  }

  /** A field's key is in the query exactly when the field is not dropped. */
  lemma QueryKeyPresence(info: PurchaseInfo, i: nat)
    requires i < 9
    ensures HasKey(QueryValues(info), Fields(info)[i].0) <==> !Dropped(Fields(info)[i])
  {
    var f := Fields(info);
    var q := QueryValues(info);
    if !Dropped(f[i]) {
      KeptHas(f, i);
    }
    if HasKey(q, f[i].0) {
      var k :| 0 <= k < |q| && q[k].0 == f[i].0;
      KeptFrom(f);
      assert KeptFromField(q[k], f);
      var j :| 0 <= j < |f| && q[k] == (f[j].0, f[j].1) && !Dropped(f[j]);
      FieldKeysInOrder(info);
      LessIrreflexive(f[i].0);
      assert i == j;
    }
  }

  /** Which keys the query holds: the five fixed ones always, the four omitempty ones exactly when non-empty. */
  lemma QueryKeys(info: PurchaseInfo)
    ensures var q := QueryValues(info);
      && HasKey(q, "amount") && HasKey(q, "code") && HasKey(q, "orderNumber")
      && HasKey(q, "purchasedAtUnixTime") && HasKey(q, "returnPath")
      && (HasKey(q, "memberFirebaseId") <==> info.memberFirebaseID != "")
      && (HasKey(q, "postId") <==> info.merchandise.postID != "")
      && (HasKey(q, "postSlug") <==> info.merchandise.postSlug != "")
      && (HasKey(q, "postTitle") <==> info.merchandise.postTitle != "")
  {
    QueryKeyPresence(info, 0);
    QueryKeyPresence(info, 1);
    QueryKeyPresence(info, 2);
    QueryKeyPresence(info, 3);
    QueryKeyPresence(info, 4);
    QueryKeyPresence(info, 5);
    QueryKeyPresence(info, 6);
    QueryKeyPresence(info, 7);
    QueryKeyPresence(info, 8);
  }

  /** Splitting the encoded query on '&' gives back one `key=value` part per pair. */
  lemma EncodeParts(pairs: seq<(string, string)>)
    requires pairs != []
    ensures Split(Encode(pairs), '&') == Parts(pairs)
  {
    var parts := Parts(pairs);
    forall k | 0 <= k < |parts| ensures '&' !in parts[k] {
      QueryEscapeChars(pairs[k].0);
      QueryEscapeChars(pairs[k].1);
    }
    SplitJoin(parts, '&');
  }

  // ---------------------------------------------------------------------
  // getCallbackUrl and the three getters
  // ---------------------------------------------------------------------

  /** A path without a leading '/' gets one. */
  function NormalizePath(path: string): (p: string)
    ensures HasPrefix(p, "/")
    ensures HasPrefix(path, "/") ==> p == path
    ensures !HasPrefix(path, "/") ==> p == "/" + path
  {
    if HasPrefix(path, "/") then path else "/" + path
  }

  /** getCallbackUrl: `protocol://domain/path`, with `?` and the encoded purchase info when there is one. */
  function CallbackUrl(protocol: string, domain: string, path: string, info: Option<PurchaseInfo>): (url: string)
    ensures info.None? ==> url == protocol + "://" + domain + NormalizePath(path)
    ensures info.Some? ==> url == protocol + "://" + domain + NormalizePath(path) + "?" + Encode(QueryValues(info.value))
  {
    var p := if !HasPrefix(path, "/") then "/" + path else path;
    if info.None? then protocol + "://" + domain + p
    else protocol + "://" + domain + p + "?" + Encode(QueryValues(info.value))
  }

  function NotifyURL(s: Store, info: PurchaseInfo): string {
    CallbackUrl(s.notifyProtocol, s.notifyDomain, s.notifyPath, None)
  }

  function ReturnURL(s: Store, info: PurchaseInfo): string {
    CallbackUrl(s.callbackProtocol, s.callbackDomain, s.returnPath, Some(info))
  }

  function ClientBackPath(s: Store, info: PurchaseInfo): string {
    CallbackUrl(s.callbackProtocol, s.callbackDomain, s.clientBackPath, Some(info))
  }

  /** The notify URL is the notify fields alone: no query, whatever is being bought. */
  lemma NotifyIgnoresPurchase(s: Store, a: PurchaseInfo, b: PurchaseInfo)
    ensures NotifyURL(s, a) == NotifyURL(s, b) == s.notifyProtocol + "://" + s.notifyDomain + NormalizePath(s.notifyPath)
  {
  }

  /** The normalised path carries exactly one added slash: dropping one leading '/' from it gives the path without its own. */
  lemma NormalizePathOnce(path: string)
    ensures TrimPrefix(NormalizePath(path), "/") == TrimPrefix(path, "/")
    ensures NormalizePath(NormalizePath(path)) == NormalizePath(path)
  {
    if !HasPrefix(path, "/") {
      assert ("/" + path)[1..] == path;
    }
  }

  /**
   * When the configured parts hold no '?', the return and client-back URLs
   * split on '?' into the address and the query, and the query into one
   * `key=value` part per kept field.
   */
  lemma CallbackUrlParts(protocol: string, domain: string, path: string, info: PurchaseInfo)
    requires '?' !in protocol + "://" + domain + NormalizePath(path)
    ensures Split(CallbackUrl(protocol, domain, path, Some(info)), '?') ==
      [protocol + "://" + domain + NormalizePath(path), Encode(QueryValues(info))]
  {
    var pairs := QueryValues(info);
    EncodeWithoutQuestionMark(pairs);
    SplitAfterFirst(protocol + "://" + domain + NormalizePath(path), Encode(pairs), '?');
    SplitWithoutSep(Encode(pairs), '?');
  }

  /** The encoded query holds no '?'. */
  lemma EncodeWithoutQuestionMark(pairs: seq<(string, string)>)
    ensures '?' !in Encode(pairs)
  {
    var parts := Parts(pairs);
    forall k | 0 <= k < |parts| ensures '?' !in parts[k] {
      QueryEscapeChars(pairs[k].0);
      QueryEscapeChars(pairs[k].1);
    }
    JoinWithout(parts, "&", '?');
  }

  lemma {:induction false} JoinWithout(parts: seq<string>, sep: string, c: char)
    requires c !in sep
    requires forall k :: 0 <= k < |parts| ==> c !in parts[k]
    ensures c !in Join(parts, sep)
  {
    if |parts| > 1 {
      JoinWithout(parts[1..], sep, c);
    }
  }

  // ---------------------------------------------------------------------
  // The cases of payment/newebpay_test.go
  // ---------------------------------------------------------------------

  lemma NotifyExample(s: Store, info: PurchaseInfo)
    requires s.notifyProtocol == "https" && s.notifyDomain == "domain" && s.notifyPath == "/notify-payment"
    ensures NotifyURL(s, info) == "https://domain/notify-payment"
  {
  }

  /** Escaping distributes over concatenation. */
  lemma {:induction false} QueryEscapeAppend(a: string, b: string)
    ensures QueryEscape(a + b) == QueryEscape(a) + QueryEscape(b)
  {
    if a == [] {
      assert a + b == b;
    } else {
      assert (a + b)[0] == a[0];
      assert (a + b)[1..] == a[1..] + b;
      QueryEscapeAppend(a[1..], b);
    }
  }

  lemma EscapeSlash()
    ensures QueryEscape("/") == "%2F"
  {
    assert Utf8('/') == [47];
    assert PercentBytes([47]) == ['%', HexDigit(2), HexDigit(15)];
  }

  /** A slash followed by unreserved text escapes to `%2F` and the text. */
  lemma EscapeSegment(x: string)
    requires forall i :: 0 <= i < |x| ==> Unreserved(x[i])
    ensures QueryEscape("/" + x) == "%2F" + x
  {
    EscapeSlash();
    QueryEscapeUnreserved(x);
    QueryEscapeAppend("/", x);
  }

  /** A path of two unreserved segments, as a return path, escapes its slashes to `%2F`. */
  lemma EscapeTwoSegments(x: string, y: string)
    requires forall i :: 0 <= i < |x| ==> Unreserved(x[i])
    requires forall i :: 0 <= i < |y| ==> Unreserved(y[i])
    ensures QueryEscape(("/" + x) + ("/" + y)) == ("%2F" + x) + ("%2F" + y)
  {
    EscapeSegment(x);
    EscapeSegment(y);
    QueryEscapeAppend("/" + x, "/" + y);
  }
}
