/**
 * The member-query authorisation middleware (middleware/authentication.go):
 * for a GraphQL query whose `member` field carries arguments, each `where`
 * argument's `firebaseId` must name the caller's own authenticated
 * Firebase ID, given either as a quoted literal or as a `$variable` of the
 * request. The extraction is string-level and is modelled as written,
 * quirks included.
 */
module MemberQueryAuth {
  import opened Wrappers
  import opened Strings

  const FirebaseIDKey: string := "firebaseId"
  const NotAnObject: string := "where argument is not an object"
  const CannotUnmarshalVariables: string := "cannot unmarshal firebaseId value"
  const NoUserID: string := "user id from context. interface conversion: interface is nil, not string"

  function NoSuchVariable(name: string): string {
    "there is no variable called " + name
  }

  function Mismatch(id: string, authenticatedID: string): string {
    "queried member firebase id(" + id + ") != token's firebaseID(" + authenticatedID + ")"
  }

  datatype OperationType = Query | Mutation | Subscription | Unknown

  /** A decoded request variable: only string values can be compared with an ID. */
  datatype VarValue = Str(s: string) | NonString

  /** The parts of a gin context the middleware touches. */
  datatype Ctx = Ctx(status: Option<int>, errors: seq<string>, aborted: bool, handlersRan: bool)

  /** c.AbortWithError: the first status written wins, every error is recorded, the chain stops. */
  function AbortWith(ctx: Ctx, code: int, msg: string): (r: Ctx)
    ensures r.aborted && r.errors == ctx.errors + [msg] && r.handlersRan == ctx.handlersRan
    ensures r.status == if ctx.status.None? then Some(code) else ctx.status
  {
    Ctx(if ctx.status.None? then Some(code) else ctx.status, ctx.errors + [msg], true, ctx.handlersRan)
  }

  /** c.Next: the rest of the chain runs unless the context was aborted. */
  function NextOf(ctx: Ctx): (r: Ctx)
    ensures r.handlersRan == (ctx.handlersRan || !ctx.aborted)
    ensures r.(handlersRan := ctx.handlersRan) == ctx
  {
    if ctx.aborted then ctx else ctx.(handlersRan := true)
  }

  /** The characters that end a value, and the ones dropped before it. */
  const Delimiters: set<char> := {',', ' '}
  const KeyValueGap: set<char> := {' ', ':'}

  /** The text after the first "firebaseId" of `arg`, without leading spaces and colons; None when the key is absent. */
  function AfterKey(arg: string): (r: Option<string>)
    ensures r.None? <==> Index(arg, FirebaseIDKey) < 0
    ensures r.Some? ==> r.value == TrimLeft(arg[Index(arg, FirebaseIDKey) + |FirebaseIDKey|..], KeyValueGap)
  {
    var idx := Index(arg, FirebaseIDKey);
    if idx < 0 then None else Some(TrimLeft(arg[idx + |FirebaseIDKey|..], KeyValueGap))
  }

  /** The value cut just after its first comma or space, keeping that delimiter. */
  function CutAtDelimiter(value: string): (r: string)
    ensures HasPrefix(value, r)
    ensures forall k :: 0 <= k < |r| - 1 ==> r[k] !in Delimiters
    ensures r == value || (r != [] && r[|r| - 1] in Delimiters)
  {
    var cut := IndexAny(value, Delimiters);
    if cut != -1 then value[..cut + 1] else value
  }

  /**
   * The text the middleware compares for one where argument, given the
   * inside of its braces (spaces trimmed at both ends). None when the key
   * is absent.
   */
  function ExtractValue(inner: string): Option<string> {
    match AfterKey(Trim(inner, {' '}))
    case None => None
    case Some(rest) => Some(CutAtDelimiter(rest))
  }

  /** The effect of checking one where argument. */
  datatype Step =
    | Continue                          // nothing to object to
    | Record(status: int, msg: string)  // an abort is recorded but the loop goes on
    | Stop(status: int, msg: string)    // an abort, and the middleware returns
    | Crash                             // an index, slice or type assertion panics

  /** abortWithInvalidFirebaseID as a step. */
  function CompareID(id: string, authenticatedID: string): (s: Step)
    ensures s == Continue <==> id == authenticatedID
    ensures s != Continue ==> s == Stop(403, Mismatch(id, authenticatedID))
  {
    if id == authenticatedID then Continue else Stop(403, Mismatch(id, authenticatedID))
  }

  /** The value check of one where argument, once its value text has been extracted. */
  function CheckValue(value: string, authenticatedID: string, vars: Result<map<string, VarValue>>): Step {
    if value == "" then Crash
    else if value[0] == '$' then CheckVariable(value[1..], authenticatedID, vars)
    else if |value| < 2 then Crash
    else CompareID(value[1..|value| - 1], authenticatedID)
  }

  /** A `$name` value: the name is looked up among the request's variables. */
  function CheckVariable(name: string, authenticatedID: string, vars: Result<map<string, VarValue>>): Step {
    if vars.Err? then Stop(400, CannotUnmarshalVariables)
    else if name !in vars.value then Record(400, NoSuchVariable(name))
    else match vars.value[name]
      case NonString => Crash
      case Str(id) => CompareID(id, authenticatedID)
  }

  predicate IsObject(arg: string) {
    HasPrefix(arg, "{") && HasSuffix(arg, "}")
  }

  /** The text between the braces of an object argument. */
  function Inner(arg: string): (r: string)
    requires IsObject(arg)
    ensures "{" + r + "}" == arg
  {
    assert |arg| >= 2 by {
      assert arg[0] == '{';
      assert arg[|arg| - 1] == '}';
    }
    arg[1..|arg| - 1]
  }

  /** The loop body for one where argument. */
  function CheckArgument(arg: string, authenticatedID: string, vars: Result<map<string, VarValue>>): Step {
    if !IsObject(arg) then Stop(400, NotAnObject)
    else match ExtractValue(Inner(arg))
      case None => Continue
      case Some(value) => CheckValue(value, authenticatedID, vars)
  }

  /**
   * The value check panics on an empty value (indexing value[0]), on a
   * one-character literal (slicing value[1:len-1]) and on a variable
   * whose value is not a string (the `.(string)` assertion).
   */
  lemma CrashMeaning(value: string, authenticatedID: string, vars: Result<map<string, VarValue>>)
    ensures CheckValue(value, authenticatedID, vars) == Crash <==>
      || value == ""
      || (value[0] != '$' && |value| == 1)
      || (value[0] == '$' && vars.Ok? && value[1..] in vars.value && vars.value[value[1..]].NonString?)
  {
  }

  datatype Outcome = Returned(ctx: Ctx) | Panicked

  /** The loop over the where arguments' steps, then c.Next(). */
  function Fold(steps: seq<Step>, ctx: Ctx): Outcome
    decreases |steps|
  {
    if steps == [] then Returned(NextOf(ctx))
    else match steps[0]
      case Continue => Fold(steps[1..], ctx)
      case Record(code, msg) => Fold(steps[1..], AbortWith(ctx, code, msg))
      case Stop(code, msg) => Returned(AbortWith(ctx, code, msg))
      case Crash => Panicked
  }

  function Steps(args: seq<string>, authenticatedID: string, vars: Result<map<string, VarValue>>): (r: seq<Step>)
    ensures |r| == |args|
    ensures forall k :: 0 <= k < |args| ==> r[k] == CheckArgument(args[k], authenticatedID, vars)
  {
    seq(|args|, k requires 0 <= k < |args| => CheckArgument(args[k], authenticatedID, vars))
  }

  /**
   * The decision part of AuthenticateMemberQueryAndFirebaseIDInArguments:
   * `whereArgs` holds one entry per `member` field that carries
   * arguments, and `userID` is the authenticated ID if the context holds
   * a string under the user-ID key.
   */
  function Authorize(op: OperationType, whereArgs: seq<string>, userID: Option<string>,
                     vars: Result<map<string, VarValue>>, ctx: Ctx): Outcome {
    if op != Query then Returned(NextOf(ctx))
    else if whereArgs == [] then Returned(NextOf(ctx))
    else if userID.None? then Returned(AbortWith(ctx, 400, NoUserID))
    else Fold(Steps(whereArgs, userID.value, vars), ctx)
  }

  /** Mutations, subscriptions and queries without a `member` field with arguments pass unchecked. */
  lemma PassThrough(op: OperationType, whereArgs: seq<string>, userID: Option<string>, vars: Result<map<string, VarValue>>, ctx: Ctx)
    requires op != Query || whereArgs == []
    ensures Authorize(op, whereArgs, userID, vars, ctx) == Returned(NextOf(ctx))
    ensures !ctx.aborted ==> Authorize(op, whereArgs, userID, vars, ctx).ctx.handlersRan
  {
  }

  /** A member query without an authenticated user ID is answered 400 and goes no further. */
  lemma MissingUserID(whereArgs: seq<string>, vars: Result<map<string, VarValue>>, ctx: Ctx)
    requires whereArgs != []
    ensures var o := Authorize(Query, whereArgs, None, vars, ctx);
      o.Returned? && o.ctx.aborted && o.ctx.handlersRan == ctx.handlersRan &&
      (ctx.status.None? ==> o.ctx.status == Some(400))
  {
  }

  /**
   * On a fresh context the downstream handlers run exactly when every
   * where argument checks out; otherwise the request ends aborted (or
   * panics).
   */
  lemma {:induction false} FoldPassesIffAllContinue(steps: seq<Step>, ctx: Ctx)
    requires !ctx.aborted
    ensures Fold(steps, ctx) == Returned(ctx.(handlersRan := true)) <==> forall k :: 0 <= k < |steps| ==> steps[k] == Continue
    decreases |steps|
  {
    if steps != [] {
      if steps[0] == Continue {
        FoldPassesIffAllContinue(steps[1..], ctx);
        assert forall k :: 1 <= k < |steps| ==> steps[k] == steps[1..][k - 1];
      } else if steps[0].Record? {
        FoldNeverPassesAborted(steps[1..], AbortWith(ctx, steps[0].status, steps[0].msg));
      }
    }
  }

  /** Once aborted, the loop never lets the chain run and never changes the first status. */
  lemma {:induction false} FoldNeverPassesAborted(steps: seq<Step>, ctx: Ctx)
    requires ctx.aborted
    ensures var o := Fold(steps, ctx);
      o.Returned? ==> o.ctx.aborted && o.ctx.handlersRan == ctx.handlersRan && (ctx.status.Some? ==> o.ctx.status == ctx.status)
    decreases |steps|
  {
    if steps != [] {
      if steps[0] == Continue {
        FoldNeverPassesAborted(steps[1..], ctx);
      } else if steps[0].Record? {
        FoldNeverPassesAborted(steps[1..], AbortWith(ctx, steps[0].status, steps[0].msg));
      }
    }
  }

  /** A query whose member arguments all name the caller's ID reaches the resolvers; any other one does not. */
  lemma AuthorizeMeaning(whereArgs: seq<string>, id: string, vars: Result<map<string, VarValue>>, ctx: Ctx)
    requires whereArgs != [] && !ctx.aborted
    ensures Authorize(Query, whereArgs, Some(id), vars, ctx) == Returned(ctx.(handlersRan := true)) <==>
      forall k :: 0 <= k < |whereArgs| ==> CheckArgument(whereArgs[k], id, vars) == Continue
  {
    FoldPassesIffAllContinue(Steps(whereArgs, id, vars), ctx);
  }

  /** A missing variable records 400; a mismatch in a later argument still ends the request with that first 400. */
  lemma FirstStatusWins(r: Step, s: Step, ctx: Ctx)
    requires !ctx.aborted && ctx.status.None?
    requires r.Record? && s.Stop?
    ensures var o := Fold([r, s], ctx);
      o.Returned? && o.ctx.status == Some(r.status) && o.ctx.handlersRan == ctx.handlersRan
  {
    assert [r, s][1..] == [s];
  }

  // ---------------------------------------------------------------------
  // The value extraction on well-formed arguments
  // ---------------------------------------------------------------------

  lemma {:induction false} TrimLeftPast(p: string, t: string, cut: set<char>)
    requires forall k :: 0 <= k < |p| ==> p[k] in cut
    requires t == [] || t[0] !in cut
    ensures TrimLeft(p + t, cut) == t
  {
    if p != [] {
      assert (p + t)[1..] == p[1..] + t;
      TrimLeftPast(p[1..], t, cut);
    }
  }

  lemma TrimKeeps(s: string, cut: set<char>)
    requires s != [] && s[0] !in cut && s[|s| - 1] !in cut
    ensures Trim(s, cut) == s
  {
  }

  lemma IndexAtStart(s: string, sub: string)
    requires HasPrefix(s, sub)
    ensures Index(s, sub) == 0
  {
    assert OccursAt(s, sub, 0);
  }

  predicate NoDelimiter(x: string) {
    forall k :: 0 <= k < |x| ==> x[k] != ',' && x[k] != ' '
  }

  /** The value text of `{firebaseId: <v>}`, once the braces are dropped, for a value that starts with neither a space nor a colon. */
  lemma {:induction false} ExtractFromSingleKey(v: string)
    requires v != [] && v[0] != ' ' && v[0] != ':' && v[|v| - 1] != ' '
    ensures ExtractValue("firebaseId: " + v) == Some(CutAtDelimiter(v))
  {
    var inner := FirebaseIDKey + (": " + v);
    assert inner == "firebaseId: " + v;
    assert inner[0] == 'f' && inner[|inner| - 1] == v[|v| - 1];
    TrimKeeps(inner, {' '});
    assert inner[..|FirebaseIDKey|] == FirebaseIDKey;
    IndexAtStart(inner, FirebaseIDKey);
    assert inner[|FirebaseIDKey|..] == ": " + v;
    TrimLeftPast(": ", v, KeyValueGap);
  }

  /** The braces of an object argument come off as they went on. */
  lemma ObjectOf(inner: string)
    ensures IsObject("{" + inner + "}") && Inner("{" + inner + "}") == inner
  {
    var arg := "{" + inner + "}";
    assert arg[..1] == "{";
    assert arg[|arg| - 1..] == "}";
  }

  /** The argument `{firebaseId: <v>}` is checked on the value CutAtDelimiter(v). */
  lemma {:induction false} SingleKeyArgument(v: string, id: string, vars: Result<map<string, VarValue>>)
    requires v != [] && v[0] != ' ' && v[0] != ':' && v[|v| - 1] != ' '
    ensures CheckArgument("{firebaseId: " + v + "}", id, vars) == CheckValue(CutAtDelimiter(v), id, vars)
  {
    assert "{firebaseId: " + v + "}" == "{" + ("firebaseId: " + v) + "}";
    ObjectOf("firebaseId: " + v);
    ExtractFromSingleKey(v);
  }

  /** A value without commas and spaces is not cut. */
  lemma NoCut(v: string)
    requires NoDelimiter(v)
    ensures CutAtDelimiter(v) == v
  {
    assert IndexAny(v, Delimiters) == -1;
  }

  /**
   * A quoted literal that is the only key, `{firebaseId: "X"}` with X free
   * of commas and spaces, passes exactly when X is the caller's own ID,
   * and is refused with 403 otherwise.
   */
  lemma {:induction false} LiteralCheck(x: string, id: string, vars: Result<map<string, VarValue>>)
    requires NoDelimiter(x)
    ensures CheckArgument("{firebaseId: \"" + x + "\"}", id, vars) ==
      if x == id then Continue else Stop(403, Mismatch(x, id))
  {
    var v := "\"" + x + "\"";
    assert "{firebaseId: \"" + x + "\"}" == "{firebaseId: " + v + "}";
    assert NoDelimiter(v) by {
      forall k | 0 <= k < |v| ensures v[k] != ',' && v[k] != ' ' {
        if 0 < k < |v| - 1 { assert v[k] == x[k - 1]; }
      }
    }
    SingleKeyArgument(v, id, vars);
    NoCut(v);
    assert v[1..|v| - 1] == x;
  }

  /**
   * A quoted literal followed by a comma keeps the closing quote in the
   * compared text, so it is refused even when it names the caller's own
   * ID.
   */
  lemma {:induction false} LiteralBeforeCommaRefused(x: string, tail: string, vars: Result<map<string, VarValue>>)
    requires NoDelimiter(x)
    requires tail == [] || tail[|tail| - 1] != ' '
    ensures CheckArgument("{firebaseId: \"" + x + "\"," + tail + "}", x, vars) == Stop(403, Mismatch(x + "\"", x))
  {
    var v := "\"" + x + "\"," + tail;
    assert "{firebaseId: \"" + x + "\"," + tail + "}" == "{firebaseId: " + v + "}";
    assert v[0] == '"' && v[|v| - 1] != ' ';
    SingleKeyArgument(v, x, vars);
    CutAfterComma(x, tail);
    CommaValueRefused(x, vars);
  }

  lemma CommaValueRefused(x: string, vars: Result<map<string, VarValue>>)
    ensures CheckValue("\"" + x + "\",", x, vars) == Stop(403, Mismatch(x + "\"", x))
  {
    var w := x + "\"";
    var value := "\"" + x + "\",";
    assert value == ['"'] + w + [','];
    Middle('"', w, ',');
    assert w != x by { assert |w| != |x|; }
  }

  /** Proof step of the literal-check lemmas: the `[1:len-1]` cut of a text drops exactly its first and last characters. */
  lemma Middle(a: char, w: string, b: char)
    ensures var s := [a] + w + [b]; s[1..|s| - 1] == w
  {
  }

  /** The value text of a quoted literal followed by a comma ends with the quote and the comma. */
  lemma {:induction false} CutAfterComma(x: string, tail: string)
    requires NoDelimiter(x)
    ensures CutAtDelimiter("\"" + x + "\"," + tail) == "\"" + x + "\","
  {
    var v := "\"" + x + "\"," + tail;
    assert v[|x| + 2] == ',';
    assert IndexAny(v, Delimiters) == |x| + 2 by {
      forall k | 0 <= k < |x| + 2 ensures v[k] !in Delimiters {
        if 0 < k < |x| + 1 { assert v[k] == x[k - 1]; }
      }
    }
    assert v[..|x| + 3] == "\"" + x + "\",";
  }

  /**
   * A `$name` value free of commas and spaces is looked up among the
   * request variables: unparsable variables stop the request with 400, a
   * missing name records 400 and the loop goes on, a non-string value
   * panics, and a string value must be the caller's ID.
   */
  lemma {:induction false} VariableCheck(name: string, id: string, vars: Result<map<string, VarValue>>)
    requires NoDelimiter(name)
    ensures var s := CheckArgument("{firebaseId: $" + name + "}", id, vars);
      && (vars.Err? ==> s == Stop(400, CannotUnmarshalVariables))
      && (vars.Ok? && name !in vars.value ==> s == Record(400, NoSuchVariable(name)))
      && (vars.Ok? && name in vars.value && vars.value[name].NonString? ==> s == Crash)
      && (vars.Ok? && name in vars.value && vars.value[name].Str? ==>
            s == if vars.value[name].s == id then Continue else Stop(403, Mismatch(vars.value[name].s, id)))
  {
    var v := "$" + name;
    assert "{firebaseId: $" + name + "}" == "{firebaseId: " + v + "}";
    assert NoDelimiter(v) by {
      forall k | 0 <= k < |v| ensures v[k] != ',' && v[k] != ' ' {
        if k > 0 { assert v[k] == name[k - 1]; }
      }
    }
    SingleKeyArgument(v, id, vars);
    NoCut(v);
    assert v[1..] == name;
  }

  /** An argument that is not wrapped in braces stops the request with 400. */
  lemma NotObjectRefused(arg: string, id: string, vars: Result<map<string, VarValue>>)
    requires !HasPrefix(arg, "{") || !HasSuffix(arg, "}")
    ensures CheckArgument(arg, id, vars) == Stop(400, NotAnObject)
  {
  }

  /** An object argument without the text "firebaseId" is skipped. */
  lemma NoKeySkipped(arg: string, id: string, vars: Result<map<string, VarValue>>)
    requires HasPrefix(arg, "{") && HasSuffix(arg, "}") && |arg| >= 2
    requires Index(Trim(arg[1..|arg| - 1], {' '}), FirebaseIDKey) < 0
    ensures CheckArgument(arg, id, vars) == Continue
  {
  }

  // ---------------------------------------------------------------------
  // The middleware over a gin context
  // ---------------------------------------------------------------------

  class GinContext {
    var status: Option<int>
    var errors: seq<string>
    var aborted: bool
    var handlersRan: bool

    constructor ()
      ensures State() == Ctx(None, [], false, false)
    {
      status, errors, aborted, handlersRan := None, [], false, false;
    }

    function State(): Ctx
      reads this
    {
      Ctx(status, errors, aborted, handlersRan)
    }

    method AbortWithError(code: int, msg: string)
      modifies this
      ensures State() == AbortWith(old(State()), code, msg)
    {
      if status.None? {
        status := Some(code);
      }
      errors := errors + [msg];
      aborted := true;
    }

    method Next()
      modifies this
      ensures State() == NextOf(old(State()))
    {
      if !aborted {
        handlersRan := true;
      }
    }
  }

  /** AuthenticateMemberQueryAndFirebaseIDInArguments from the operation type on. */
  method AuthenticateMemberQuery(c: GinContext, op: OperationType, whereArgs: seq<string>, userID: Option<string>,
                                 vars: Result<map<string, VarValue>>)
    returns (panicked: bool)
    modifies c
    ensures var o := Authorize(op, whereArgs, userID, vars, old(c.State()));
      (panicked <==> o.Panicked?) && (!panicked ==> c.State() == o.ctx)
  {
    panicked := false;
    if op != Query || whereArgs == [] {
      c.Next();
      return;
    }
    if userID.None? {
      c.AbortWithError(400, NoUserID);
      return;
    }
    panicked := CheckWhereArguments(c, whereArgs, userID.value, vars);
  }

  /** The loop over the where arguments, then c.Next() when the loop runs to its end. */
  method CheckWhereArguments(c: GinContext, whereArgs: seq<string>, authenticatedID: string,
                             vars: Result<map<string, VarValue>>)
    returns (panicked: bool)
    modifies c
    ensures var o := Fold(Steps(whereArgs, authenticatedID, vars), old(c.State()));
      (panicked <==> o.Panicked?) && (!panicked ==> c.State() == o.ctx)
  {
    panicked := false;
    ghost var steps := Steps(whereArgs, authenticatedID, vars);
    var i := 0;
    while i < |whereArgs|
      invariant 0 <= i <= |whereArgs|
      invariant Fold(steps, old(c.State())) == Fold(steps[i..], c.State())
    {
      assert steps[i..][1..] == steps[i + 1..];
      var step := CheckArgument(whereArgs[i], authenticatedID, vars);
      assert step == steps[i..][0];
      match step {
        case Continue =>
        case Record(code, msg) =>
          c.AbortWithError(code, msg);
        case Stop(code, msg) =>
          c.AbortWithError(code, msg);
          return;
        case Crash =>
          return true;
      }
      i := i + 1;
    }
    c.Next();
  }
}
