/**
 * The few functions of Go's `strings` and `strconv` packages that the
 * gateway's decision logic relies on, over `string` (Dafny's `seq<char>`).
 */
module Strings {

  predicate HasPrefix(s: string, p: string) {
    |p| <= |s| && s[..|p|] == p
  }

  predicate HasSuffix(s: string, p: string) {
    |p| <= |s| && s[|s| - |p|..] == p
  }

  /** strings.TrimPrefix: drops `p` once when `s` starts with it. */
  function TrimPrefix(s: string, p: string): (r: string)
    ensures HasPrefix(s, p) ==> p + r == s
    ensures !HasPrefix(s, p) ==> r == s
  {
    if HasPrefix(s, p) then s[|p|..] else s
  }

  /** strings.TrimLeft: drops every leading character that is in `cut`. */
  function TrimLeft(s: string, cut: set<char>): (r: string)
    ensures |r| <= |s| && r == s[|s| - |r|..]
    ensures r == [] || r[0] !in cut
    ensures forall i :: 0 <= i < |s| - |r| ==> s[i] in cut
  {
    if s != [] && s[0] in cut then TrimLeft(s[1..], cut) else s
  }

  /** strings.TrimRight with a cut set: drops every trailing character in `cut`. */
  function TrimRight(s: string, cut: set<char>): (r: string)
    ensures |r| <= |s| && r == s[..|r|]
    ensures r == [] || r[|r| - 1] !in cut
    ensures forall i :: |r| <= i < |s| ==> s[i] in cut
  {
    if s != [] && s[|s| - 1] in cut then TrimRight(s[..|s| - 1], cut) else s
  }

  /** strings.Trim with a cut set. */
  function Trim(s: string, cut: set<char>): string {
    TrimRight(TrimLeft(s, cut), cut)
  }

  predicate OccursAt(s: string, sub: string, i: int) {
    0 <= i && i + |sub| <= |s| && s[i..i + |sub|] == sub
  }

  /** strings.Index: the first position of `sub` in `s`, or -1. */
  function Index(s: string, sub: string): (r: int)
    ensures -1 <= r <= |s|
    ensures r >= 0 ==> OccursAt(s, sub, r)
    ensures forall i :: 0 <= i && (r < 0 || i < r) ==> !OccursAt(s, sub, i)
  {
    IndexFrom(s, sub, 0)
  }

  function IndexFrom(s: string, sub: string, k: nat): (r: int)
    requires k <= |s|
    requires forall i :: 0 <= i < k ==> !OccursAt(s, sub, i)
    ensures -1 <= r <= |s|
    ensures r >= 0 ==> OccursAt(s, sub, r)
    ensures forall i :: 0 <= i && (r < 0 || i < r) ==> !OccursAt(s, sub, i)
    decreases |s| - k
  {
    if OccursAt(s, sub, k) then k
    else if k + |sub| >= |s| then -1
    else IndexFrom(s, sub, k + 1)
  }

  /** strings.IndexAny: the first position of a character of `chars`, or -1. */
  function IndexAny(s: string, chars: set<char>): (r: int)
    ensures -1 <= r < |s|
    ensures r >= 0 ==> s[r] in chars
    ensures forall i :: 0 <= i < |s| && (r < 0 || i < r) ==> s[i] !in chars
  {
    if s == [] then -1
    else if s[0] in chars then 0
    else var t := IndexAny(s[1..], chars); if t < 0 then -1 else t + 1
  }

  /** strings.Join. */
  function Join(parts: seq<string>, sep: string): string {
    if parts == [] then ""
    else if |parts| == 1 then parts[0]
    else parts[0] + sep + Join(parts[1..], sep)
  }

  /** strings.Split with a one-character separator. */
  function Split(s: string, sep: char): (r: seq<string>)
    ensures |r| >= 1
    ensures forall k :: 0 <= k < |r| ==> sep !in r[k]
  {
    if s == [] then [""]
    else if s[0] == sep then [""] + Split(s[1..], sep)
    else var t := Split(s[1..], sep); [[s[0]] + t[0]] + t[1..]
  }

  /** The decimal digits of `n` (strconv.FormatInt / fmt's %d for a natural number). */
  function Decimal(n: nat): (r: string)
    ensures |r| >= 1
    ensures forall i :: 0 <= i < |r| ==> '0' <= r[i] <= '9'
  {
    if n < 10 then [DigitChar(n)] else Decimal(n / 10) + [DigitChar(n % 10)]
  }

  function DigitChar(d: nat): (c: char)
    requires d < 10
    ensures '0' <= c <= '9'
  {
    (48 + d) as char
  }

  /** The value of a string of decimal digits (meaningful only when every character is a digit). */
  function DigitsValue(s: string): int
  {
    if s == [] then 0 else 10 * DigitsValue(s[..|s| - 1]) + (s[|s| - 1] as int - 48)
  }

  /** A string of decimal digits has a non-negative value. */
  lemma {:induction false} DigitsNonNegative(s: string)
    requires forall i :: 0 <= i < |s| ==> '0' <= s[i] <= '9'
    ensures DigitsValue(s) >= 0
  {
    if s != [] {
      DigitsNonNegative(s[..|s| - 1]);
    }
  }

  /** fmt's `%0<width>d` for a natural number. */
  function ZeroPad(n: nat, width: nat): (r: string)
    ensures forall i :: 0 <= i < |r| ==> '0' <= r[i] <= '9'
  {
    var d := Decimal(n);
    if |d| >= width then d else seq(width - |d|, _ => '0') + d
  }

  /** strconv.FormatInt(n, 10). */
  function IntToString(n: int): string {
    if n < 0 then "-" + Decimal(-n) else Decimal(n)
  }

  /** Go's `sep` joining inverts Split: splitting then joining gives back the input. */
  lemma {:induction false} JoinSplit(s: string, sep: char)
    ensures Join(Split(s, sep), [sep]) == s
  {
    if s == [] {
    } else if s[0] == sep {
      JoinSplit(s[1..], sep);
      assert Split(s, sep) == [""] + Split(s[1..], sep);
    } else {
      var t := Split(s[1..], sep);
      JoinSplit(s[1..], sep);
      var r := [[s[0]] + t[0]] + t[1..];
      assert Split(s, sep) == r;
      if |t| == 1 {
        assert Join(r, [sep]) == [s[0]] + t[0];
      } else {
        assert Join(t, [sep]) == t[0] + [sep] + Join(t[1..], [sep]);
        assert r[1..] == t[1..];
        assert Join(r, [sep]) == [s[0]] + t[0] + [sep] + Join(t[1..], [sep]);
      }
    }
  }

  /** A string without the separator splits into itself alone. */
  lemma {:induction false} SplitWithoutSep(s: string, sep: char)
    requires sep !in s
    ensures Split(s, sep) == [s]
  {
    if s != [] {
      SplitWithoutSep(s[1..], sep);
      assert [s[0]] + s[1..] == s;
    }
  }

  /** Splitting `a + [sep] + rest`, where `a` has no separator, gives `a` and then the parts of `rest`. */
  lemma {:induction false} SplitAfterFirst(a: string, rest: string, sep: char)
    requires sep !in a
    ensures Split(a + [sep] + rest, sep) == [a] + Split(rest, sep)
  {
    var s := a + [sep] + rest;
    if a == [] {
      assert s[1..] == rest;
    } else {
      assert s[1..] == a[1..] + [sep] + rest;
      SplitAfterFirst(a[1..], rest, sep);
      assert [a[0]] + a[1..] == a;
    }
  }

  /** Joining parts free of the separator and splitting the result gives the parts back. */
  lemma {:induction false} SplitJoin(parts: seq<string>, sep: char)
    requires |parts| >= 1
    requires forall k :: 0 <= k < |parts| ==> sep !in parts[k]
    ensures Split(Join(parts, [sep]), sep) == parts
  {
    if |parts| == 1 {
      SplitWithoutSep(parts[0], sep);
    } else {
      SplitJoin(parts[1..], sep);
      SplitAfterFirst(parts[0], Join(parts[1..], [sep]), sep);
      assert [parts[0]] + parts[1..] == parts;
    }
  }

  /** Reading back the digits that Decimal writes gives the number. */
  lemma {:induction false} DecimalValue(n: nat)
    ensures DigitsValue(Decimal(n)) == n
  {
    if n >= 10 {
      DecimalValue(n / 10);
      var d := Decimal(n / 10) + [DigitChar(n % 10)];
      assert d[..|d| - 1] == Decimal(n / 10);
    }
  }

  /** Leading zeros do not change the value of a digit string. */
  lemma {:induction false} LeadingZerosValue(k: nat, s: string)
    requires forall i :: 0 <= i < |s| ==> '0' <= s[i] <= '9'
    ensures DigitsValue(seq(k, _ => '0') + s) == DigitsValue(s)
    decreases |s|
  {
    var z := seq(k, _ => '0');
    if s == [] {
      assert z + s == z;
      ZerosValue(k);
    } else {
      var t := z + s;
      assert t[..|t| - 1] == z + s[..|s| - 1];
      LeadingZerosValue(k, s[..|s| - 1]);
    }
  }

  lemma {:induction false} ZerosValue(k: nat)
    ensures DigitsValue(seq(k, _ => '0')) == 0
  {
    if k > 0 {
      var z := seq(k, _ => '0');
      assert z[..k - 1] == seq(k - 1, _ => '0');
      ZerosValue(k - 1);
    }
  }

  /** The number of digits Decimal writes: exactly `k` for numbers below 10^k and not below 10^(k-1). */
  lemma {:induction false} DecimalLength(n: nat, k: nat)
    requires 1 <= k
    requires (k == 1 || Pow10(k - 1) <= n) && n < Pow10(k)
    ensures |Decimal(n)| == k
  {
    if n >= 10 {
      assert k > 1;
      DecimalLength(n / 10, k - 1);
    } else if k > 1 {
      assert false;
    }
  }

  function Pow10(k: nat): nat {
    if k == 0 then 1 else 10 * Pow10(k - 1)
  }

  lemma {:induction false} Pow10AtLeast(k: nat)
    requires k >= 1
    ensures Pow10(k) >= 10
  {
    if k > 1 { Pow10AtLeast(k - 1); }
  }

  /** ZeroPad writes exactly `width` digits for numbers below 10^width, and they read back as the number. */
  lemma ZeroPadExact(n: nat, width: nat)
    requires 1 <= width && n < Pow10(width)
    ensures |ZeroPad(n, width)| == width
    ensures DigitsValue(ZeroPad(n, width)) == n
  {
    var d := Decimal(n);
    DecimalValue(n);
    var k := DecimalDigits(n);
    DecimalLength(n, k);
    Pow10Monotone(k, width, n);
    if |d| < width {
      LeadingZerosValue(width - |d|, d);
    }
  }

  function DecimalDigits(n: nat): (k: nat)
    ensures 1 <= k && (k == 1 || Pow10(k - 1) <= n) && n < Pow10(k)
  {
    if n < 10 then 1 else 1 + DecimalDigits(n / 10)
  }

  lemma {:induction false} Pow10Monotone(k: nat, w: nat, n: nat)
    requires 1 <= k && 1 <= w && (k == 1 || Pow10(k - 1) <= n) && n < Pow10(w)
    ensures k <= w
  {
    if k > w {
      Pow10Grows(w, k - 1);
    }
  }

  lemma {:induction false} Pow10Grows(a: nat, b: nat)
    requires a <= b
    ensures Pow10(a) <= Pow10(b)
    decreases b - a
  {
    if a < b { Pow10Grows(a, b - 1); }
  }

  /** The digit string without its trailing zeros. */
  function TrimTrailingZeros(s: string): (r: string)
    ensures |r| <= |s| && r == s[..|r|]
    ensures r == [] || r[|r| - 1] != '0'
  {
    if s != [] && s[|s| - 1] == '0' then TrimTrailingZeros(s[..|s| - 1]) else s
  }

  /** The digits of a mantissa with the point after the first one, as %e writes them. */
  function Mantissa(m: string): string {
    if |m| <= 1 then m else [m[0]] + "." + m[1..]
  }

  /** The significant digits of `a`: its decimal digits without trailing zeros. */
  function Significand(a: nat): string {
    TrimTrailingZeros(Decimal(a))
  }

  /** The decimal exponent of `a`: one less than its number of digits. */
  function Exponent(a: nat): nat {
    |Decimal(a)| - 1
  }

  /**
   * fmt's %v of a float64 that holds the whole number `n`: the shortest
   * %g, which writes the plain digits while the decimal exponent is below
   * 6 and switches to `d.ddde+XX` from 10^6 on.
   */
  function FormatWholeFloat(n: int): string {
    var a := if n < 0 then -n else n;
    if Exponent(a) < 6 then IntToString(n)
    else (if n < 0 then "-" else "") + Mantissa(Significand(a)) + "e+" + ZeroPad(Exponent(a), 2)
  }

  /** The trimmed zeros put back give the digit string again. */
  lemma {:induction false} TrimTrailingZerosPad(s: string)
    ensures TrimTrailingZeros(s) + seq(|s| - |TrimTrailingZeros(s)|, _ => '0') == s
  {
    if s != [] && s[|s| - 1] == '0' {
      var t := s[..|s| - 1];
      TrimTrailingZerosPad(t);
      var m := TrimTrailingZeros(t);
      assert seq(|t| - |m|, _ => '0') + ['0'] == seq(|s| - |m|, _ => '0');
      assert t + ['0'] == s;
    } else {
      assert seq(0, _ => '0') == [];
    }
  }

  /** ZeroPad writes at least `width` digits, and they read back as the number. */
  lemma ZeroPadValue(n: nat, width: nat)
    ensures |ZeroPad(n, width)| >= width
    ensures DigitsValue(ZeroPad(n, width)) == n
  {
    var d := Decimal(n);
    DecimalValue(n);
    if |d| < width {
      LeadingZerosValue(width - |d|, d);
    }
  }

  /** The exponent of a number a >= 1 is the e with 10^e <= a < 10^(e+1). */
  lemma ExponentBounds(a: nat)
    ensures a >= 1 ==> Pow10(Exponent(a)) <= a
    ensures a < Pow10(Exponent(a) + 1)
  {
    DecimalLength(a, DecimalDigits(a));
  }

  /**
   * The significand ends in a non-zero digit, and followed by zeros up to
   * Exponent(a) + 1 digits it is the decimal text of `a` (which reads back
   * as `a`, by DecimalValue).
   */
  lemma SignificandDigits(a: nat)
    ensures Significand(a) == [] || Significand(a)[|Significand(a)| - 1] != '0'
    ensures |Significand(a)| <= Exponent(a) + 1
    ensures Significand(a) + seq(Exponent(a) + 1 - |Significand(a)|, _ => '0') == Decimal(a)
  {
    TrimTrailingZerosPad(Decimal(a));
  }

  /** The exponent is below 6 exactly when the number is below 10^6. */
  lemma SixDigits(a: nat)
    ensures Exponent(a) < 6 <==> a < 1000000
  {
    assert Pow10(6) == 1000000;
    var k := DecimalDigits(a);
    DecimalLength(a, k);
    if k <= 6 {
      Pow10Grows(k, 6);
    } else {
      Pow10Grows(6, k - 1);
    }
  }

  /** Below 10^6 in magnitude, FormatWholeFloat writes strconv's decimal digits. */
  lemma FormatWholeFloatPlain(n: int)
    requires -1000000 < n < 1000000
    ensures FormatWholeFloat(n) == IntToString(n)
  {
    SixDigits(if n < 0 then -n else n);
  }

  /**
   * From 10^6 on in magnitude, FormatWholeFloat writes the sign, the
   * significand with a point after its first digit, "e+" and the exponent
   * in at least two digits; SignificandDigits and ZeroPadValue give what
   * those parts denote.
   */
  lemma FormatWholeFloatExponent(n: int)
    requires n <= -1000000 || 1000000 <= n
    ensures var a := if n < 0 then -n else n;
      FormatWholeFloat(n) == (if n < 0 then "-" else "") + Mantissa(Significand(a)) + "e+" + ZeroPad(Exponent(a), 2)
  {
    SixDigits(if n < 0 then -n else n);
  }

  /** A million is written "1e+06". */
  lemma MillionInExponentForm()
    ensures FormatWholeFloat(1000000) == "1e+06"
  {
    MillionDigits();
    assert ZeroPad(6, 2) == "06";
  }

  lemma MillionDigits()
    ensures Decimal(1000000) == "1000000" && TrimTrailingZeros("1000000") == "1"
  {
    MillionDecimal();
    OneThenZeros(6);
    assert "1" + seq(6, _ => '0') == "1000000";
  }

  /** One followed by zeros has the single significant digit 1. */
  lemma {:induction false} OneThenZeros(k: nat)
    ensures TrimTrailingZeros("1" + seq(k, _ => '0')) == "1"
  {
    var s := "1" + seq(k, _ => '0');
    if k > 0 {
      assert s[|s| - 1] == '0';
      assert s[..|s| - 1] == "1" + seq(k - 1, _ => '0');
      OneThenZeros(k - 1);
    } else {
      assert s == "1";
    }
  }

  lemma MillionDecimal()
    ensures Decimal(1000000) == "1000000"
  {
    var z := DigitChar(0);
    assert z == '0';
    assert Decimal(10) == Decimal(1) + [z];
    assert Decimal(100) == Decimal(10) + [z];
    assert Decimal(1000) == Decimal(100) + [z];
    assert Decimal(10000) == Decimal(1000) + [z];
    assert Decimal(100000) == Decimal(10000) + [z];
    assert Decimal(1000000) == Decimal(100000) + [z];
  }
}
