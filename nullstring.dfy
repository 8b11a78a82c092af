/**
 * ReplaceNullString (graph/graph.go): rewrites a JSON document token by
 * token, emitting every value that is exactly the quoted string "null"
 * as the bare literal null and everything else unchanged, without the
 * original whitespace. The tokenizer's walk is a parameter: the tokens it
 * delivers, in document order, and the error it ends with.
 */
module NullString {
  import opened Wrappers

  /** One walked token: the key (quoted, empty for array elements and brackets) and the value text. */
  datatype Token = Token(key: string, value: string)

  predicate WellFormed(tokens: seq<Token>) {
    forall k :: 0 <= k < |tokens| ==> tokens[k].value != []
  }

  const QuotedNull: string := "\"null\""
  const Null: string := "null"

  /**
   * The tokenizer's comma rule: a comma goes before a value unless the
   * value closes a bracket or the output so far ends with an opening
   * bracket or a comma.
   */
  predicate ShouldAddComma(value: string, lastChar: char)
    requires value != []
  {
    value[0] != ']' && value[0] != '}' && lastChar != ',' && lastChar != '[' && lastChar != '{'
  }

  /** What the walk callback appends for one token after output `b`, given the value text it writes. */
  function Piece(b: string, t: Token, written: string): string
    requires t.value != []
  {
    (if |b| != 0 && ShouldAddComma(t.value, b[|b| - 1]) then "," else "")
    + (if |t.key| > 0 then t.key + ":" else "")
    + written
  }

  function Written(value: string): string {
    if value == QuotedNull then Null else value
  }

  /** The output after the walk delivered `tokens`. */
  function Emit(tokens: seq<Token>): string
    requires WellFormed(tokens)
  {
    if tokens == [] then ""
    else
      var b := Emit(tokens[..|tokens| - 1]);
      var t := tokens[|tokens| - 1];
      b + Piece(b, t, Written(t.value))
  }

  /** The tokenizer's own reconstruction, which writes every value unchanged. */
  function Reconstruct(tokens: seq<Token>): string
    requires WellFormed(tokens)
  {
    if tokens == [] then ""
    else
      var b := Reconstruct(tokens[..|tokens| - 1]);
      var t := tokens[|tokens| - 1];
      b + Piece(b, t, t.value)
  }

  /** The walked tokens with every quoted-null value made a bare null. */
  function NullOut(tokens: seq<Token>): (r: seq<Token>)
    ensures |r| == |tokens|
    ensures forall k :: 0 <= k < |r| ==> r[k] == tokens[k].(value := Written(tokens[k].value))
  {
    seq(|tokens|, k requires 0 <= k < |tokens| => tokens[k].(value := Written(tokens[k].value)))
  }

  /** The walk callback: appends one token's piece to the output buffer. */
  method Visit(b: string, key: string, value: string) returns (out: string)
    requires value != []
    ensures out == b + Piece(b, Token(key, value), Written(value))
  {
    ghost var comma := if |b| != 0 && ShouldAddComma(value, b[|b| - 1]) then "," else "";
    ghost var keyPart := if |key| > 0 then key + ":" else "";
    out := b;
    var isNullString := false;
    if value == QuotedNull {
      isNullString := true;
    }
    if |out| != 0 && ShouldAddComma(value, out[|out| - 1]) {
      out := out + ",";
    }
    assert out == b + comma;
    if |key| > 0 {
      out := out + key;
      out := out + ":";
      assert out == b + comma + keyPart;
    }
    if isNullString {
      out := out + Null;
    } else {
      out := out + value;
    }
    assert out == b + comma + keyPart + Written(value);
  }

  /**
   * The walk: the output buffer grows by one piece per delivered token, in
   * walk order, and the walk's error is returned with it.
   */
  method ReplaceNullString(tokens: seq<Token>, walkErr: Option<string>) returns (b: string, err: Option<string>)
    requires WellFormed(tokens)
    ensures b == Emit(tokens)
    ensures err == walkErr
  {
    b := [];
    var i := 0;
    while i < |tokens|
      invariant 0 <= i <= |tokens|
      invariant b == Emit(tokens[..i])
    {
      b := Visit(b, tokens[i].key, tokens[i].value);
      EmitPrefix(tokens[..i], tokens[i]);
      assert tokens[..i + 1] == tokens[..i] + [tokens[i]];
      i := i + 1;
    }
    assert tokens[..i] == tokens;
    err := walkErr;
  }

  /**
   * Replacing while writing is the same as replacing the tokens first and
   * reconstructing: the comma rule reads only a value's first character
   * and the output's last, and neither `"null"` nor `null` is a bracket
   * or a comma at either end.
   */
  lemma {:induction false} EmitIsReconstructOfNullOut(tokens: seq<Token>)
    requires WellFormed(tokens)
    ensures WellFormed(NullOut(tokens))
    ensures Emit(tokens) == Reconstruct(NullOut(tokens))
  {
    var r := NullOut(tokens);
    if tokens != [] {
      var n := |tokens| - 1;
      assert NullOut(tokens[..n]) == r[..n];
      EmitIsReconstructOfNullOut(tokens[..n]);
      var b := Emit(tokens[..n]);
      var t := tokens[n];
      assert r[n] == t.(value := Written(t.value));
      assert r[n].value[0] != ']' && r[n].value[0] != '}' <==> t.value[0] != ']' && t.value[0] != '}';
      assert Piece(b, t, Written(t.value)) == Piece(b, r[n], r[n].value);
    }
  }

  /** Without quoted nulls the rewrite is the plain reconstruction. */
  lemma NoQuotedNull(tokens: seq<Token>)
    requires WellFormed(tokens)
    requires forall k :: 0 <= k < |tokens| ==> tokens[k].value != QuotedNull
    ensures Emit(tokens) == Reconstruct(tokens)
  {
    EmitIsReconstructOfNullOut(tokens);
    assert NullOut(tokens) == tokens;
  }

  /** After the rewrite no token's value is the quoted string "null"; every other value is kept. */
  lemma NullOutMeaning(tokens: seq<Token>)
    ensures forall k :: 0 <= k < |tokens| ==> NullOut(tokens)[k].value != QuotedNull
    ensures forall k :: 0 <= k < |tokens| ==>
      NullOut(tokens)[k].key == tokens[k].key &&
      (NullOut(tokens)[k].value == tokens[k].value <==> tokens[k].value != QuotedNull)
  {
  }

  /** The output grows by the last token's piece: each token is emitted once, after those before it. */
  lemma EmitPrefix(tokens: seq<Token>, t: Token)
    requires WellFormed(tokens) && t.value != []
    ensures WellFormed(tokens + [t])
    ensures Emit(tokens + [t]) == Emit(tokens) + Piece(Emit(tokens), t, Written(t.value))
  {
    var s := tokens + [t];
    assert s[..|s| - 1] == tokens;
    assert s[|s| - 1] == t;
  }

  /** The first case of graph/graph_test.go: `{"key": "null"}` becomes `{"key":null}`. */
  lemma OneLevelExample()
    ensures Emit([Token("", "{"), Token("\"key\"", QuotedNull), Token("", "}")]) == "{\"key\":null}"
  {
    var ts := [Token("", "{"), Token("\"key\"", QuotedNull), Token("", "}")];
    assert ts[..1] == [Token("", "{")];
    assert ts[..2] == [Token("", "{"), Token("\"key\"", QuotedNull)];
    assert Emit(ts[..1]) == "{";
    assert Emit(ts[..2]) == "{\"key\":null";
  }
}
