/**
 * The member mutation resolvers (graph/member/mutationgraph/
 * mutation.resolvers.go) up to the request each one sends to the member
 * service: the guard checks that refuse a mutation, the fields written
 * into the mutation's input, and the text of the GraphQL mutation built
 * from the caller's selection. Every remote answer is a parameter.
 */
module Mutations {
  import opened Wrappers
  import opened Strings
  import Resolver

  const DataNull: string := "data cannot be null"
  const UnCancel: string := "invalid mutation: you may not un-cancel the subscription"
  const InternalError: string := "internal error"
  const OneTime: string := "one_time"
  const NextFrequencyNone: string := "none"
  const MemberTypeNone: string := "none"
  const Active: string := "active"
  const OrderNumberPlaceholder: string := "preparing-order-"

  function IdMismatch(firebaseID: string, id: string): string {
    "the id of firebaseId(" + firebaseID + ") doesn't match id(" + id + ")"
  }

  function NoAccess(id: string): string {
    "you do not have access to this resource, subscription(" + id + ")"
  }

  function NotActive(frequency: string): string {
    "frequency(" + frequency + ") is not " + Active
  }

  /** A value of the mutation's input map. */
  datatype Value = Str(s: string) | Bool(b: bool) | Num(r: real) | MemberConnect(firebaseID: string) | Other

  /** fmt's %v for the values whose text the resolvers print; others are not modelled. */
  function Show(v: Option<Value>): string {
    match v
    case None => "<nil>"
    case Some(Str(s)) => s
    case Some(Bool(b)) => if b then "true" else "false"
    case Some(_) => "?"
  }

  function NotAString(v: Option<Value>): string {
    Show(v) + " cannot be converted to string"
  }

  function Get(data: map<string, Value>, key: string): Option<Value> {
    if key in data then Some(data[key]) else None
  }

  /** A merchandise record as RetrieveMerchandise returns it. */
  datatype Merchandise = Merchandise(price: real, currency: string, state: string, comment: string, description: string)

  /** The request a resolver sends: the mutation text and its `id` and `input` variables. */
  datatype Request = Request(gql: string, id: Option<string>, input: Option<map<string, Value>>)

  datatype Answer = Sent(request: Request) | Refused(msg: string) | Panicked

  // ---------------------------------------------------------------------
  // The mutation text
  // ---------------------------------------------------------------------

  const Closing: seq<string> := ["}", "}"]
  const CreateMemberHeader: seq<string> := ["mutation($input: memberCreateInput!) {", "createmember(data: $input) {"]
  const UpdateMemberHeader: seq<string> := ["mutation ($id: ID!, $input: memberUpdateInput) {", "updatemember(id: $id, data: $input) {"]
  const CreateSubscriptionHeader: seq<string> := ["mutation ($input: subscriptionCreateInput) {", "createsubscription(data: $input) {"]
  const UpdateSubscriptionHeader: seq<string> := ["mutation ($id: ID!, $input: subscriptionUpdateInput) {", "updatesubscription(id: $id, data: $input) {"]

  /** The selection lines of a member or update mutation: the last segment of each preload. */
  function FieldLines(preloads: seq<string>): (r: seq<string>)
    ensures |r| == |preloads|
  {
    seq(|preloads|, i requires 0 <= i < |preloads| => Resolver.LastSegment(preloads[i]))
  }

  /** A subscription creation keeps only preloads of the form "subscription.<field>", as <field>; others become empty lines. */
  function SubscriptionField(path: string): string {
    var parts := Split(path, '.');
    if parts[0] == "subscription" && |parts| == 2 then parts[1] else ""
  }

  /** The mutation text: the header lines, the selection lines and two closing braces, one per line. */
  function MutationText(header: seq<string>, fields: seq<string>): string {
    Join(header + fields + Closing, "\n")
  }

  predicate OneLine(s: string) {
    '\n' !in s
  }

  /** The mutation text splits back into exactly its lines when none of them holds a line break. */
  lemma MutationTextLines(header: seq<string>, fields: seq<string>)
    requires forall k :: 0 <= k < |header| ==> OneLine(header[k])
    requires forall k :: 0 <= k < |fields| ==> OneLine(fields[k])
    ensures Split(MutationText(header, fields), '\n') == header + fields + Closing
  {
    var lines := header + fields + Closing;
    assert forall k :: 0 <= k < |lines| ==> OneLine(lines[k]) by {
      forall k | 0 <= k < |lines| ensures OneLine(lines[k]) {
        if k < |header| { assert lines[k] == header[k]; }
        else if k < |header| + |fields| { assert lines[k] == fields[k - |header|]; }
      }
    }
    SplitJoin(lines, '\n');
  }

  /** The lines of the mutation text built from a selection whose field names are on one line each. */
  lemma MutationTextOfPreloads(header: seq<string>, preloads: seq<string>)
    requires forall k :: 0 <= k < |header| ==> OneLine(header[k])
    requires forall k :: 0 <= k < |preloads| ==> OneLine(preloads[k])
    ensures var lines := Split(MutationText(header, FieldLines(preloads)), '\n');
      |lines| == |header| + |preloads| + 2 && lines[..|header|] == header &&
      (forall k :: 0 <= k < |preloads| ==> lines[|header| + k] == Resolver.LastSegment(preloads[k])) &&
      lines[|header| + |preloads|..] == Closing
  {
    var fields := FieldLines(preloads);
    forall k | 0 <= k < |fields| ensures OneLine(fields[k]) {
      LastSegmentOneLine(preloads[k]);
    }
    MutationTextLines(header, fields);
    var lines := header + fields + Closing;
    assert lines[..|header|] == header;
    assert lines[|header| + |preloads|..] == Closing;
  }

  lemma LastSegmentOneLine(path: string)
    requires OneLine(path)
    ensures OneLine(Resolver.LastSegment(path))
  {
    var parts := Split(path, '.');
    JoinSplit(path, '.');
    JoinedPartsInside(parts, '.', |parts| - 1);
  }

  /** Every character of a part is a character of the joined text. */
  lemma {:induction false} JoinedPartsInside(parts: seq<string>, sep: char, k: nat)
    requires k < |parts|
    ensures forall c :: c in parts[k] ==> c in Join(parts, [sep])
  {
    if |parts| > 1 {
      if k > 0 {
        JoinedPartsInside(parts[1..], sep, k - 1);
      }
    }
  }

  /** The imperative assembly: header, then the mapped preloads, then the closing lines, joined by line breaks. */
  method BuildMutation(header: seq<string>, preloads: seq<string>) returns (gql: string)
    ensures gql == MutationText(header, FieldLines(preloads))
  {
    var preGQL := header;
    var fieldsOnly := Resolver.Map(preloads, Resolver.LastSegment);
    preGQL := preGQL + fieldsOnly;
    preGQL := preGQL + ["}", "}"];
    assert fieldsOnly == FieldLines(preloads);
    gql := Join(preGQL, "\n");
  }

  /**
   * `lines` is the selection of a subscription creation for `preloads`:
   * the mapped preloads, then "createdAt" and "id", each only when the
   * mapped preloads lack it, in that order.
   */
  predicate SubscriptionSelected(preloads: seq<string>, lines: seq<string>) {
    && |preloads| <= |lines| <= |preloads| + 2
    && (forall k :: 0 <= k < |preloads| ==> lines[k] == SubscriptionField(preloads[k]))
    && "createdAt" in lines && "id" in lines
    && (forall k :: |preloads| <= k < |lines| ==> lines[k] in {"createdAt", "id"} && lines[k] !in lines[..|preloads|])
    && (|lines| == |preloads| + 2 ==> lines[|preloads|] == "createdAt" && lines[|preloads| + 1] == "id")
  }

  /** The imperative assembly of the selection. */
  method SubscriptionSelection(preloads: seq<string>) returns (lines: seq<string>)
    ensures SubscriptionSelected(preloads, lines)
  {
    var fields := Resolver.Map(preloads, SubscriptionField);
    lines := fields;
    var hasCreatedAt := Resolver.Contain(fields, "createdAt");
    if !hasCreatedAt {
      lines := lines + ["createdAt"];
    }
    var hasID := Resolver.Contain(fields, "id");
    if !hasID {
      lines := lines + ["id"];
    }
    assert lines[..|preloads|] == fields;
  }

  /** What a selection adds after the mapped preloads. */
  function Appended(fields: seq<string>): seq<string> {
    (if "createdAt" in fields then [] else ["createdAt"]) + (if "id" in fields then [] else ["id"])
  }

  lemma SelectionTail(preloads: seq<string>, lines: seq<string>)
    requires SubscriptionSelected(preloads, lines)
    ensures lines == lines[..|preloads|] + Appended(lines[..|preloads|])
  {
    var n := |preloads|;
    var fields, extra := lines[..n], lines[n..];
    assert lines == fields + extra;
    assert forall k :: 0 <= k < |extra| ==> extra[k] in {"createdAt", "id"} && extra[k] !in fields by {
      forall k | 0 <= k < |extra| ensures extra[k] in {"createdAt", "id"} && extra[k] !in fields {
        assert extra[k] == lines[n + k];
      }
    }
    assert "createdAt" in fields || "createdAt" in extra;
    assert "id" in fields || "id" in extra;
    if |extra| == 1 {
      assert extra == [extra[0]];
    } else if |extra| == 2 {
      assert extra == [lines[n], lines[n + 1]];
    }
  }

  /** The selection is determined by the preloads: no two different selections fit the same preloads. */
  lemma SelectionUnique(preloads: seq<string>, a: seq<string>, b: seq<string>)
    requires SubscriptionSelected(preloads, a) && SubscriptionSelected(preloads, b)
    ensures a == b
  {
    SelectionTail(preloads, a);
    SelectionTail(preloads, b);
    assert a[..|preloads|] == b[..|preloads|];
  }

  lemma {:induction false} SubscriptionFieldOf(x: string)
    requires '.' !in x
    ensures SubscriptionField("subscription." + x) == x
  {
    assert "subscription." + x == "subscription" + ['.'] + x;
    SplitAfterFirst("subscription", x, '.');
    SplitWithoutSep(x, '.');
  }

  /** A preload survives the subscription mapping exactly when it is "subscription." followed by a dot-free name. */
  lemma {:induction false} SubscriptionFieldMeaning(path: string)
    ensures SubscriptionField(path) != "" <==>
      exists x :: x != "" && '.' !in x && path == "subscription." + x
    ensures SubscriptionField(path) != "" ==> path == "subscription." + SubscriptionField(path)
  {
    var parts := Split(path, '.');
    if parts[0] == "subscription" && |parts| == 2 && parts[1] != "" {
      JoinSplit(path, '.');
      assert parts[1..] == [parts[1]];
      assert Join(parts, ".") == parts[0] + "." + parts[1];
    }
    if exists x :: x != "" && '.' !in x && path == "subscription." + x {
      var x :| x != "" && '.' !in x && path == "subscription." + x;
      SubscriptionFieldOf(x);
    }
  }

  // ---------------------------------------------------------------------
  // The resolvers
  // ---------------------------------------------------------------------

  /** Createmember: refuses a null input; otherwise the input carries the caller's firebaseId, type none and the join date. */
  method Createmember(data: Option<map<string, Value>>, firebaseID: Result<string>, now: string, preloads: seq<string>)
    returns (a: Answer)
    ensures data.None? ==> a == Refused(DataNull)
    ensures data.Some? && firebaseID.Err? ==> a == Refused(firebaseID.msg)
    ensures data.Some? && firebaseID.Ok? ==> (a.Sent? && a.request.input.Some? &&
      var input := a.request.input.value;
      && Get(input, "firebaseId") == Some(Str(firebaseID.value))
      && Get(input, "type") == Some(Str(MemberTypeNone))
      && Get(input, "dateJoined") == Some(Str(now))
      && (forall k :: k !in {"firebaseId", "type", "dateJoined"} ==> Get(input, k) == Get(data.value, k))
      && a.request.gql == MutationText(CreateMemberHeader, FieldLines(preloads))
      && a.request.id.None?)
  {
    if data.None? {
      return Refused(DataNull);
    }
    if firebaseID.Err? {
      return Refused(firebaseID.msg);
    }
    var input := data.value;
    input := input["firebaseId" := Str(firebaseID.value)];
    input := input["type" := Str(MemberTypeNone)];
    input := input["dateJoined" := Str(now)];
    var gql := BuildMutation(CreateMemberHeader, preloads);
    return Sent(Request(gql, None, Some(input)));
  }

  /** Updatemember: the member the caller's firebaseId resolves to must be the one being updated. */
  method Updatemember(id: string, data: Option<map<string, Value>>, firebaseID: Result<string>, remoteID: Result<string>,
                      preloads: seq<string>)
    returns (a: Answer)
    ensures a.Sent? <==> firebaseID.Ok? && remoteID.Ok? && remoteID.value == id
    ensures firebaseID.Err? ==> a == Refused(firebaseID.msg)
    ensures firebaseID.Ok? && remoteID.Err? ==> a == Refused(remoteID.msg)
    ensures firebaseID.Ok? && remoteID.Ok? && remoteID.value != id ==> a == Refused(IdMismatch(firebaseID.value, id))
    ensures a.Sent? ==> a.request == Request(MutationText(UpdateMemberHeader, FieldLines(preloads)), Some(id), data)
  {
    if firebaseID.Err? {
      return Refused(firebaseID.msg);
    }
    if remoteID.Err? {
      return Refused(remoteID.msg);
    } else if remoteID.value != id {
      return Refused(IdMismatch(firebaseID.value, id));
    }
    var gql := BuildMutation(UpdateMemberHeader, preloads);
    return Sent(Request(gql, Some(id), data));
  }

  /** Where an app subscription is verified. */
  datatype Source = AppStore | GooglePlay | UnknownSource(name: string)

  /** The webhook round trip: the POST fails, answers a status other than 200, cannot be read or decoded, or replies. */
  datatype Webhook = PostFailed(err: string) | BadStatus | Unreadable | Undecodable | Replied(status: string, message: string)

  /** UpsertAppSubscription: success exactly when the webhook replies "success"; an unknown source is an error. */
  method UpsertAppSubscription(source: Source, firebaseID: Result<string>, webhook: Webhook)
    returns (success: Option<bool>, err: Option<string>)
    ensures success == Some(true) <==>
      firebaseID.Ok? && !source.UnknownSource? && webhook.Replied? && webhook.status == "success"
    ensures success == Some(true) <==> err.None?
    ensures firebaseID.Err? ==> err == Some(firebaseID.msg)
    ensures firebaseID.Ok? && source.UnknownSource? ==> success.None? && err == Some("unknown source: " + source.name)
    ensures firebaseID.Ok? && !source.UnknownSource? && webhook.Replied? && webhook.status != "success" ==>
      success == Some(false) && err == Some(webhook.message)
    ensures firebaseID.Ok? && !source.UnknownSource? && (webhook.BadStatus? || webhook.Unreadable? || webhook.Undecodable?) ==>
      success.None? && err == Some(InternalError)
    ensures firebaseID.Ok? && !source.UnknownSource? && webhook.PostFailed? ==> success.None? && err == Some(webhook.err)
  {
    if firebaseID.Err? {
      return None, Some(firebaseID.msg);
    }
    match source {
      case UnknownSource(name) =>
        return None, Some("unknown source: " + name);
      case _ =>
        match webhook {
          case PostFailed(e) => return None, Some(e);
          case BadStatus => return None, Some(InternalError);
          case Unreadable => return None, Some(InternalError);
          case Undecodable => return None, Some(InternalError);
          case Replied(status, message) =>
            if status == "success" {
              return Some(true), None;
            }
            return Some(false), Some(message);
        }
    }
  }

  /** The fields both subscription creations write into the input. */
  function WithMerchandise(input: map<string, Value>, m: Merchandise, xid: string): map<string, Value> {
    input["amount" := Num(m.price)]["currency" := Str(m.currency)]["comment" := Str(m.comment)]
         ["desc" := Str(m.description)]["orderNumber" := Str(OrderNumberPlaceholder + xid)]
  }

  /** The input's frequency, when it is a string. */
  function Frequency(data: map<string, Value>): Option<string> {
    if "frequency" in data && data["frequency"].Str? then Some(data["frequency"].s) else None
  }

  /**
   * CreateSubscriptionRecurring up to the creation request: the input's
   * frequency must be a string naming an active merchandise; the input
   * then carries the member, the merchandise's terms and a placeholder
   * order number, and the mutation selects `selection`.
   */
  method CreateSubscriptionRecurring(data: Option<map<string, Value>>, firebaseID: Result<string>,
                                     retrieve: string -> Result<Merchandise>, xid: string, preloads: seq<string>)
    returns (a: Answer, selection: seq<string>)
    ensures firebaseID.Err? ==> a == Refused(firebaseID.msg)
    ensures firebaseID.Ok? && data.None? ==> a == Panicked
    ensures firebaseID.Ok? && data.Some? && Frequency(data.value).None? ==>
      a == Refused(NotAString(Get(data.value, "frequency")))
    ensures firebaseID.Ok? && data.Some? && Frequency(data.value).Some? ==>
      var frequency := Frequency(data.value).value;
      && (retrieve(frequency).Err? ==> a == Refused(retrieve(frequency).msg))
      && (retrieve(frequency).Ok? && retrieve(frequency).value.state != Active ==> a == Refused(NotActive(frequency)))
    ensures a.Sent? <==> (firebaseID.Ok? && data.Some? && Frequency(data.value).Some? &&
      retrieve(Frequency(data.value).value).Ok? && retrieve(Frequency(data.value).value).value.state == Active)
    ensures a.Sent? ==>
      var frequency := Frequency(data.value).value;
      var m := retrieve(frequency).value;
      && a.request.input == Some(WithMerchandise(data.value["member" := MemberConnect(firebaseID.value)]
                                                  ["nextFrequency" := Str(frequency)], m, xid))
      && a.request.gql == Join(CreateSubscriptionHeader + selection + Closing, "\n")
      && a.request.id.None?
      && SubscriptionSelected(preloads, selection)
  {
    selection := [];
    if firebaseID.Err? {
      return Refused(firebaseID.msg), selection;
    }
    if data.None? {
      return Panicked, selection;
    }
    var input := data.value["member" := MemberConnect(firebaseID.value)];
    var f := Get(input, "frequency");
    assert f == Get(data.value, "frequency");
    if !(f.Some? && f.value.Str?) {
      return Refused(NotAString(f)), selection;
    }
    var frequency := f.value.s;
    var m := retrieve(frequency);
    if m.Err? {
      return Refused(m.msg), selection;
    }
    if m.value.state != Active {
      return Refused(NotActive(frequency)), selection;
    }
    input := input["nextFrequency" := Str(frequency)];
    input := WithMerchandise(input, m.value, xid);
    selection := SubscriptionSelection(preloads);
    var gql := Join(CreateSubscriptionHeader + selection + Closing, "\n");
    return Sent(Request(gql, None, Some(input))), selection;
  }

  /**
   * CreatesSubscriptionOneTime up to the creation request: a null input
   * is refused; the input is set to one_time with no next frequency, the
   * one_time merchandise must be active, and its terms are written into
   * the input; the mutation selects `selection`.
   */
  method CreatesSubscriptionOneTime(data: Option<map<string, Value>>, firebaseID: Result<string>,
                                    retrieve: string -> Result<Merchandise>, xid: string, preloads: seq<string>)
    returns (a: Answer, selection: seq<string>)
    ensures data.None? ==> a == Refused(DataNull)
    ensures data.Some? && firebaseID.Err? ==> a == Refused(firebaseID.msg)
    ensures data.Some? && firebaseID.Ok? && retrieve(OneTime).Err? ==> a == Refused(retrieve(OneTime).msg)
    ensures data.Some? && firebaseID.Ok? && retrieve(OneTime).Ok? && retrieve(OneTime).value.state != Active ==>
      a == Refused(NotActive(OneTime))
    ensures a.Sent? <==> data.Some? && firebaseID.Ok? && retrieve(OneTime).Ok? && retrieve(OneTime).value.state == Active
    ensures a.Sent? ==> (a.request.input.Some? &&
      var input := a.request.input.value;
      var m := retrieve(OneTime).value;
      && Get(input, "frequency") == Some(Str(OneTime))
      && Get(input, "nextFrequency") == Some(Str(NextFrequencyNone))
      && Get(input, "member") == Some(MemberConnect(firebaseID.value))
      && Get(input, "amount") == Some(Num(m.price))
      && Get(input, "currency") == Some(Str(m.currency))
      && Get(input, "comment") == Some(Str(m.comment))
      && Get(input, "desc") == Some(Str(m.description))
      && Get(input, "orderNumber") == Some(Str(OrderNumberPlaceholder + xid))
      && (forall k :: k !in {"member", "frequency", "nextFrequency", "amount", "currency", "comment", "desc", "orderNumber"} ==>
            Get(input, k) == Get(data.value, k))
      && a.request.gql == Join(CreateSubscriptionHeader + selection + Closing, "\n")
      && a.request.id.None?
      && SubscriptionSelected(preloads, selection))
  {
    selection := [];
    if data.None? {
      return Refused(DataNull), selection;
    }
    if firebaseID.Err? {
      return Refused(firebaseID.msg), selection;
    }
    var input := data.value["member" := MemberConnect(firebaseID.value)];
    input := input["frequency" := Str(OneTime)];
    input := input["nextFrequency" := Str(NextFrequencyNone)];
    var m := retrieve(OneTime);
    if m.Err? {
      return Refused(m.msg), selection;
    }
    if m.value.state != Active {
      return Refused(NotActive(OneTime)), selection;
    }
    input := WithMerchandise(input, m.value, xid);
    selection := SubscriptionSelection(preloads);
    var gql := Join(CreateSubscriptionHeader + selection + Closing, "\n");
    return Sent(Request(gql, None, Some(input))), selection;
  }

  /** Whether the input tries to set isCanceled to anything but true. */
  predicate UnCancels(data: map<string, Value>) {
    "isCanceled" in data && data["isCanceled"] != Bool(true)
  }

  /** The next frequency an update asks for: its string, or "" when the value is not a string. */
  function NextFrequency(data: map<string, Value>): string
    requires "nextFrequency" in data
  {
    match data["nextFrequency"]
    case Str(s) => s
    case _ => ""
  }

  /**
   * Updatesubscription: refused for a null input, for an input that
   * un-cancels, for a subscription of another member, for a one_time
   * subscription, and for a next frequency whose merchandise is not
   * active (reported with the one_time name).
   */
  method Updatesubscription(id: string, data: Option<map<string, Value>>, firebaseID: Result<string>,
                            existing: Result<(string, string)>, retrieve: string -> Result<Merchandise>,
                            preloads: seq<string>)
    returns (a: Answer)
    ensures data.None? ==> a == Refused(DataNull)
    ensures data.Some? && firebaseID.Ok? && UnCancels(data.value) ==> a == Refused(UnCancel)
    ensures a.Sent? <==>
      && data.Some? && firebaseID.Ok? && !UnCancels(data.value)
      && existing.Ok? && existing.value.0 == firebaseID.value && existing.value.1 != OneTime
      && ("nextFrequency" in data.value ==>
            retrieve(NextFrequency(data.value)).Ok? && retrieve(NextFrequency(data.value)).value.state == Active)
    ensures data.Some? && firebaseID.Ok? && !UnCancels(data.value) && existing.Ok? && existing.value.0 != firebaseID.value ==>
      a == Refused(NoAccess(id))
    ensures (data.Some? && firebaseID.Ok? && !UnCancels(data.value) && existing.Ok? && existing.value.0 == firebaseID.value &&
      existing.value.1 == OneTime) ==> a == Refused(OneTime + " subscription cannot be updated")
    ensures data.Some? && firebaseID.Err? ==> a == Refused(firebaseID.msg)
    ensures data.Some? && firebaseID.Ok? && !UnCancels(data.value) && existing.Err? ==> a == Refused(existing.msg)
    ensures (data.Some? && firebaseID.Ok? && !UnCancels(data.value) && existing.Ok? && existing.value.0 == firebaseID.value &&
      existing.value.1 != OneTime && "nextFrequency" in data.value) ==>
      var m := retrieve(NextFrequency(data.value));
      && (m.Err? ==> a == Refused(m.msg))
      && (m.Ok? && m.value.state != Active ==> a == Refused(NotActive(OneTime)))
    ensures a.Sent? ==> a.request == Request(MutationText(UpdateSubscriptionHeader, FieldLines(preloads)), Some(id), data)
  {
    if data.None? {
      return Refused(DataNull);
    }
    if firebaseID.Err? {
      return Refused(firebaseID.msg);
    }
    if "isCanceled" in data.value && data.value["isCanceled"] != Bool(true) {
      return Refused(UnCancel);
    }
    if existing.Err? {
      return Refused(existing.msg);
    } else if existing.value.0 != firebaseID.value {
      return Refused(NoAccess(id));
    } else if existing.value.1 == OneTime {
      return Refused(existing.value.1 + " subscription cannot be updated");
    }
    if "nextFrequency" in data.value {
      var m := retrieve(NextFrequency(data.value));
      if m.Err? {
        return Refused(m.msg);
      }
      if m.value.state != Active {
        return Refused(NotActive(OneTime));
      }
    }
    var gql := BuildMutation(UpdateSubscriptionHeader, preloads);
    return Sent(Request(gql, Some(id), data));
  }

  /** The largest uint64, which strconv.ParseUint returns for a number out of range. */
  const MaxUint64: nat := 0xFFFF_FFFF_FFFF_FFFF

  /** The length of the run of decimal digits that `s` starts with. */
  function LeadingDigits(s: string): (j: nat)
    ensures j <= |s|
    ensures forall k :: 0 <= k < j ==> '0' <= s[k] <= '9'
    ensures j < |s| ==> !('0' <= s[j] <= '9')
  {
    if s == [] || !('0' <= s[0] <= '9') then 0 else 1 + LeadingDigits(s[1..])
  }

  /**
   * The byte loop of strconv.ParseUint(s, 10, 64) from position `i`, with
   * `n` the value read so far: a byte that is not a decimal digit ends it
   * with 0 (a syntax error), a digit that takes the value past 2^64-1 ends
   * it with 2^64-1 (a range error), and the end of the text gives the value.
   */
  function ParseUintFrom(s: string, i: nat, n: nat): (r: nat)
    requires i <= |s| && n <= MaxUint64
    ensures r <= MaxUint64
    decreases |s| - i
  {
    if i == |s| then n
    else if !('0' <= s[i] <= '9') then 0
    else if 10 * n + (s[i] as int - 48) > MaxUint64 then MaxUint64
    else ParseUintFrom(s, i + 1, 10 * n + (s[i] as int - 48))
  }

  /** strconv.ParseUint(s, 10, 64) with its error ignored: the empty text is a syntax error, read as 0. */
  function ParseUintOrZero(s: string): (n: nat)
    ensures n <= MaxUint64
  {
    if s == [] then 0 else ParseUintFrom(s, 0, 0)
  }

  /** A longer prefix of a digit string never has a smaller value. */
  lemma {:induction false} DigitsPrefixGrows(s: string, k: nat, m: nat)
    requires k <= m <= |s|
    requires forall i :: 0 <= i < m ==> '0' <= s[i] <= '9'
    ensures DigitsValue(s[..k]) <= DigitsValue(s[..m])
    decreases m
  {
    if k < m {
      DigitsPrefixGrows(s, k, m - 1);
      assert s[..m][..m - 1] == s[..m - 1];
      DigitsNonNegative(s[..m - 1]);
    }
  }

  /** The loop from position `i`, when it has read the digits before `i`, ends as ParseUintCases says. */
  lemma {:induction false} ParseUintFromCases(s: string, i: nat, n: nat)
    requires i <= LeadingDigits(s)
    requires n == DigitsValue(s[..i]) && n <= MaxUint64
    ensures var j := LeadingDigits(s);
      ParseUintFrom(s, i, n) ==
        if DigitsValue(s[..j]) > MaxUint64 then MaxUint64
        else if j < |s| then 0
        else DigitsValue(s)
    decreases |s| - i
  {
    var j := LeadingDigits(s);
    if i == j {
      if j == |s| {
        assert s[..i] == s;
      }
    } else {
      assert s[..i + 1][..i] == s[..i];
      var n' := 10 * n + (s[i] as int - 48);
      assert DigitsValue(s[..i + 1]) == n';
      DigitsPrefixGrows(s, i + 1, j);
      if n' <= MaxUint64 {
        ParseUintFromCases(s, i + 1, n');
      }
    }
  }

  /**
   * What ParseUint gives, in three cases: 2^64-1 when the leading run of
   * digits is already out of range, whatever follows it; 0 when a byte
   * that is not a digit follows a run in range (or the text is empty);
   * and the value of the text when it is all digits and in range.
   */
  lemma ParseUintCases(s: string)
    ensures var j := LeadingDigits(s);
      ParseUintOrZero(s) ==
        if s == [] then 0
        else if DigitsValue(s[..j]) > MaxUint64 then MaxUint64
        else if j < |s| then 0
        else DigitsValue(s)
  {
    if s != [] {
      assert s[..0] == [];
      ParseUintFromCases(s, 0, 0);
    }
  }

  /** The order number a created subscription receives: from its parsed ID at creation time, in Taipei. */
  function OrderNumberFor(createdID: string, now: Resolver.Moment): Option<string>
    requires Resolver.Valid(now)
  {
    Resolver.OrderNumber(now, ParseUintOrZero(createdID))
  }

  /** Reading back Decimal's output as an ID gives the number, up to 2^64-1. */
  lemma ParseDecimal(n: nat)
    requires n <= MaxUint64
    ensures ParseUintOrZero(Decimal(n)) == n
  {
    var d := Decimal(n);
    DecimalValue(n);
    ParseUintCases(d);
    assert d[..|d|] == d;
  }

  /** An ID that is empty, or has a byte other than a digit after a leading run in range, is numbered like ID 0. */
  lemma UnparsableIDIsZero(createdID: string, now: Resolver.Moment)
    requires Resolver.Valid(now)
    requires createdID == [] || LeadingDigits(createdID) < |createdID|
    requires DigitsValue(createdID[..LeadingDigits(createdID)]) <= MaxUint64
    ensures OrderNumberFor(createdID, now) == Resolver.OrderNumber(now, 0)
  {
    ParseUintCases(createdID);
  }

  /** An ID whose leading run of digits is out of range is numbered like ID 2^64-1, whatever follows the run. */
  lemma OverflowingIDIsMax(createdID: string, now: Resolver.Moment)
    requires Resolver.Valid(now)
    requires DigitsValue(createdID[..LeadingDigits(createdID)]) > MaxUint64
    ensures OrderNumberFor(createdID, now) == Resolver.OrderNumber(now, MaxUint64)
  {
    ParseUintCases(createdID);
  }
}
