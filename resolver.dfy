/**
 * Helpers of the member mutation resolvers
 * (graph/member/mutationgraph/resolver.go): the dotted preload paths of a
 * GraphQL selection, two slice helpers, and the order number stamped on
 * every payment, whose date is taken in Taipei time.
 */
module Resolver {
  import opened Wrappers
  import opened Strings

  // ---------------------------------------------------------------------
  // Preloads
  // ---------------------------------------------------------------------

  /** A selected field and the fields selected beneath it. */
  datatype Field = Field(name: string, children: seq<Field>)

  /** The number of fields in a selection, nested ones included. */
  function Size(fields: seq<Field>): nat
    decreases fields
  {
    if fields == [] then 0 else 1 + Size(fields[0].children) + Size(fields[1..])
  }

  /** GetPreloadString: `name` under `prefix`, dot-separated. */
  function PreloadString(prefix: string, name: string): (r: string)
    ensures prefix == "" ==> r == name
    ensures prefix != "" ==> HasPrefix(r, prefix + ".") && r[|prefix| + 1..] == name
  {
    if |prefix| > 0 then prefix + "." + name else name
  }

  /**
   * GetNestedPreloads: each field's path is emitted before the paths of
   * the fields beneath it, in selection order (a preorder walk).
   */
  function NestedPreloads(fields: seq<Field>, prefix: string): (r: seq<string>)
    ensures |r| == Size(fields)
    decreases fields
  {
    if fields == [] then []
    else
      var path := PreloadString(prefix, fields[0].name);
      [path] + NestedPreloads(fields[0].children, path) + NestedPreloads(fields[1..], prefix)
  }

  /** The field names of a selection in preorder. */
  function PreorderNames(fields: seq<Field>): (r: seq<string>)
    ensures |r| == Size(fields)
    decreases fields
  {
    if fields == [] then [] else [fields[0].name] + PreorderNames(fields[0].children) + PreorderNames(fields[1..])
  }

  /** What the mutation resolvers keep of a preload: the text after its last dot. */
  function LastSegment(path: string): string {
    var parts := Split(path, '.');
    parts[|parts| - 1]
  }

  predicate NoDots(fields: seq<Field>)
    decreases fields
  {
    fields == [] || ('.' !in fields[0].name && NoDots(fields[0].children) && NoDots(fields[1..]))
  }

  lemma {:induction false} LastSegmentOfJoin(prefix: string, name: string)
    requires '.' !in name
    ensures LastSegment(PreloadString(prefix, name)) == name
    decreases |prefix|
  {
    if prefix == "" {
      SplitWithoutSep(name, '.');
    } else {
      SplitLastPart(prefix + ".", name, '.');
    }
  }

  /** Splitting `p + s`, where `p` ends with the separator and `s` has none, ends with the part `s`. */
  lemma {:induction false} SplitLastPart(p: string, s: string, sep: char)
    requires p != [] && p[|p| - 1] == sep && sep !in s
    ensures var parts := Split(p + s, sep); |parts| >= 2 && parts[|parts| - 1] == s
    decreases |p|
  {
    var t := p + s;
    assert t[1..] == p[1..] + s;
    if |p| == 1 {
      assert t[0] == sep;
      SplitWithoutSep(s, sep);
      assert Split(t, sep) == [""] + Split(t[1..], sep);
    } else {
      SplitLastPart(p[1..], s, sep);
      var u := Split(t[1..], sep);
      if t[0] == sep {
        assert Split(t, sep) == [""] + u;
      } else {
        assert Split(t, sep) == [[t[0]] + u[0]] + u[1..];
      }
    }
  }

  /**
   * When no field name holds a dot, keeping the last segment of each
   * preload gives back the field names in preorder: the field list the
   * mutation resolvers send upstream.
   */
  lemma {:induction false} LastSegmentsArePreorderNames(fields: seq<Field>, prefix: string)
    requires NoDots(fields)
    ensures var r := NestedPreloads(fields, prefix);
      forall k :: 0 <= k < |r| ==> LastSegment(r[k]) == PreorderNames(fields)[k]
    decreases fields
  {
    if fields != [] {
      var path := PreloadString(prefix, fields[0].name);
      LastSegmentOfJoin(prefix, fields[0].name);
      LastSegmentsArePreorderNames(fields[0].children, path);
      LastSegmentsArePreorderNames(fields[1..], prefix);
      var a := NestedPreloads(fields[0].children, path);
      var b := NestedPreloads(fields[1..], prefix);
      assert NestedPreloads(fields, prefix) == [path] + a + b;
      assert PreorderNames(fields) == [fields[0].name] + PreorderNames(fields[0].children) + PreorderNames(fields[1..]);
      SegmentsOfConcat(path, a, b, fields[0].name, PreorderNames(fields[0].children), PreorderNames(fields[1..]));
    }
  }

  /** The position-wise segment property carries over to a preload followed by two runs of preloads. */
  lemma SegmentsOfConcat(path: string, a: seq<string>, b: seq<string>, name: string, na: seq<string>, nb: seq<string>)
    requires LastSegment(path) == name && |a| == |na| && |b| == |nb|
    requires forall k :: 0 <= k < |a| ==> LastSegment(a[k]) == na[k]
    requires forall k :: 0 <= k < |b| ==> LastSegment(b[k]) == nb[k]
    ensures var r, n := [path] + a + b, [name] + na + nb;
      forall k :: 0 <= k < |r| ==> LastSegment(r[k]) == n[k]
  {
    var r, n := [path] + a + b, [name] + na + nb;
    forall k | 0 <= k < |r| ensures LastSegment(r[k]) == n[k] {
      if k == 0 {
      } else if k < 1 + |a| {
        assert r[k] == a[k - 1] && n[k] == na[k - 1];
      } else {
        assert r[k] == b[k - 1 - |a|] && n[k] == nb[k - 1 - |a|];
      }
    }
  }

  /** Every preload of a nested selection lies under its prefix. */
  lemma {:induction false} PreloadsUnderPrefix(fields: seq<Field>, prefix: string)
    requires prefix != ""
    ensures forall p :: p in NestedPreloads(fields, prefix) ==> HasPrefix(p, prefix + ".")
    decreases fields
  {
    if fields != [] {
      var path := PreloadString(prefix, fields[0].name);
      PreloadsUnderPrefix(fields[0].children, path);
      PreloadsUnderPrefix(fields[1..], prefix);
      forall p | p in NestedPreloads(fields[0].children, path) ensures HasPrefix(p, prefix + ".") {
        assert HasPrefix(p, path + ".");
        assert p[..|prefix| + 1] == path[..|prefix| + 1];
      }
    }
  }

  // ---------------------------------------------------------------------
  // Map and contain
  // ---------------------------------------------------------------------

  /** Map: a new slice of the same length holding f of each element. */
  method Map(vs: seq<string>, f: string -> string) returns (vsm: seq<string>)
    ensures |vsm| == |vs|
    ensures forall i :: 0 <= i < |vs| ==> vsm[i] == f(vs[i])
  {
    vsm := seq(|vs|, _ => "");
    var i := 0;
    while i < |vs|
      invariant 0 <= i <= |vs| && |vsm| == |vs|
      invariant forall k :: 0 <= k < i ==> vsm[k] == f(vs[k])
    {
      vsm := vsm[i := f(vs[i])];
      i := i + 1;
    }
  }

  /** contain: whether `s` is one of `ss`. */
  method Contain(ss: seq<string>, s: string) returns (found: bool)
    ensures found <==> s in ss
  {
    var i := 0;
    while i < |ss|
      invariant 0 <= i <= |ss|
      invariant s !in ss[..i]
    {
      if s == ss[i] {
        return true;
      }
      assert ss[..i + 1] == ss[..i] + [ss[i]];
      i := i + 1;
    }
    assert ss[..i] == ss;
    return false;
  }

  // ---------------------------------------------------------------------
  // Order numbers
  // ---------------------------------------------------------------------

  /** A wall-clock time with the UTC offset it was given in, in minutes (seconds never change the date). */
  datatype Moment = Moment(year: int, month: int, day: int, hour: int, minute: int, offset: int)

  predicate IsLeap(year: int) {
    year % 4 == 0 && (year % 100 != 0 || year % 400 == 0)
  }

  function DaysIn(year: int, month: int): int {
    if month == 2 then (if IsLeap(year) then 29 else 28)
    else if month == 4 || month == 6 || month == 9 || month == 11 then 30
    else 31
  }

  predicate ValidDate(year: int, month: int, day: int) {
    1 <= month <= 12 && 1 <= day <= DaysIn(year, month)
  }

  predicate Valid(t: Moment) {
    ValidDate(t.year, t.month, t.day) && 0 <= t.hour < 24 && 0 <= t.minute < 60 && -1440 < t.offset < 1440
  }

  function NextDay(year: int, month: int, day: int): (r: (int, int, int))
    requires ValidDate(year, month, day)
    ensures ValidDate(r.0, r.1, r.2)
  {
    if day < DaysIn(year, month) then (year, month, day + 1)
    else if month < 12 then (year, month + 1, 1)
    else (year + 1, 1, 1)
  }

  function PrevDay(year: int, month: int, day: int): (r: (int, int, int))
    requires ValidDate(year, month, day)
    ensures ValidDate(r.0, r.1, r.2)
  {
    if day > 1 then (year, month, day - 1)
    else if month > 1 then (year, month - 1, DaysIn(year, month - 1))
    else (year - 1, 12, 31)
  }

  /** The same instant on a clock whose offset is `delta` minutes further east, less than a day away. */
  function Shift(t: Moment, delta: int): (r: Moment)
    requires Valid(t) && -1440 < delta < 1440 && -1440 < t.offset + delta < 1440
    ensures Valid(r) && r.offset == t.offset + delta
  {
    var mins := t.hour * 60 + t.minute + delta;
    if mins >= 1440 then
      var d := NextDay(t.year, t.month, t.day);
      Moment(d.0, d.1, d.2, (mins - 1440) / 60, (mins - 1440) % 60, t.offset + delta)
    else if mins < 0 then
      var d := PrevDay(t.year, t.month, t.day);
      Moment(d.0, d.1, d.2, (mins + 1440) / 60, (mins + 1440) % 60, t.offset + delta)
    else Moment(t.year, t.month, t.day, mins / 60, mins % 60, t.offset + delta)
  }

  /** Asia/Taipei's offset: eight hours east of UTC. */
  const TaipeiOffset: int := 480

  /** t.In(Asia/Taipei): first to UTC, then eight hours on. */
  function InTaipei(t: Moment): (r: Moment)
    requires Valid(t)
    ensures Valid(r) && r.offset == TaipeiOffset
  {
    Shift(Shift(t, -t.offset), TaipeiOffset)
  }

  // The instant a moment names, counted on the proleptic Gregorian calendar.

  /** Days from a fixed day to the last day before January 1 of `year`. */
  function YearStart(year: int): int {
    365 * year + (year - 1) / 4 - (year - 1) / 100 + (year - 1) / 400
  }

  /** Days of `year` before the first of `month`. */
  function DaysBefore(year: int, month: int): int
    requires 1 <= month <= 12
  {
    if month == 1 then 0 else DaysBefore(year, month - 1) + DaysIn(year, month - 1)
  }

  function DayNumber(year: int, month: int, day: int): int
    requires 1 <= month <= 12
  {
    YearStart(year) + DaysBefore(year, month) + day
  }

  /** Minutes since midnight UTC of the fixed day: the same for every clock showing the same instant. */
  function Instant(t: Moment): int
    requires 1 <= t.month <= 12
  {
    DayNumber(t.year, t.month, t.day) * 1440 + t.hour * 60 + t.minute - t.offset
  }

  /** Going from `y - 1` to `y`, the count of multiples of `k` up to it grows by one exactly when `k` divides `y`. */
  lemma MultiplesStep(y: int, k: int)
    requires k == 4 || k == 100 || k == 400
    ensures y / k - (y - 1) / k == if y % k == 0 then 1 else 0
  {
    if k == 4 {
      assert y / 4 - (y - 1) / 4 == if y % 4 == 0 then 1 else 0;
    } else if k == 100 {
      assert y / 100 - (y - 1) / 100 == if y % 100 == 0 then 1 else 0;
    } else {
      assert y / 400 - (y - 1) / 400 == if y % 400 == 0 then 1 else 0;
    }
  }

  /** A multiple of 400 is a multiple of 100. */
  lemma Divides400(y: int)
    ensures y % 400 == 0 ==> y % 100 == 0
  {
    if y % 400 == 0 {
      var q := y / 400;
      assert y == 100 * (4 * q);
    }
  }

  /** A multiple of 100 is a multiple of 4. */
  lemma Divides100(y: int)
    ensures y % 100 == 0 ==> y % 4 == 0
  {
    if y % 100 == 0 {
      var q := y / 100;
      assert y == 4 * (25 * q);
    }
  }

  /** Consecutive year starts are a year's length apart. */
  lemma YearLength(y: int)
    ensures YearStart(y + 1) - YearStart(y) == if IsLeap(y) then 366 else 365
  {
    MultiplesStep(y, 4);
    MultiplesStep(y, 100);
    MultiplesStep(y, 400);
    Divides400(y);
    Divides100(y);
    assert YearStart(y + 1) - YearStart(y) == 365 + (y / 4 - (y - 1) / 4) - (y / 100 - (y - 1) / 100) + (y / 400 - (y - 1) / 400);
  }

  /** The months of a year fill it. */
  lemma WholeYear(y: int)
    ensures DaysBefore(y, 12) + 31 == if IsLeap(y) then 366 else 365
  {
    assert DaysBefore(y, 2) == 31;
    assert DaysBefore(y, 3) == 31 + DaysIn(y, 2);
    assert DaysBefore(y, 4) == 62 + DaysIn(y, 2);
    assert DaysBefore(y, 5) == 92 + DaysIn(y, 2);
    assert DaysBefore(y, 6) == 123 + DaysIn(y, 2);
    assert DaysBefore(y, 7) == 153 + DaysIn(y, 2);
    assert DaysBefore(y, 8) == 184 + DaysIn(y, 2);
    assert DaysBefore(y, 9) == 215 + DaysIn(y, 2);
    assert DaysBefore(y, 10) == 245 + DaysIn(y, 2);
    assert DaysBefore(y, 11) == 276 + DaysIn(y, 2);
  }

  /** The day NextDay gives is the following day. */
  lemma NextDayNumber(year: int, month: int, day: int)
    requires ValidDate(year, month, day)
    ensures var n := NextDay(year, month, day); DayNumber(n.0, n.1, n.2) == DayNumber(year, month, day) + 1
  {
    if day == DaysIn(year, month) && month == 12 {
      YearLength(year);
      WholeYear(year);
    }
  }

  /** The day PrevDay gives is the day before. */
  lemma PrevDayNumber(year: int, month: int, day: int)
    requires ValidDate(year, month, day)
    ensures var p := PrevDay(year, month, day); DayNumber(p.0, p.1, p.2) == DayNumber(year, month, day) - 1
  {
    if day == 1 && month == 1 {
      YearLength(year - 1);
      WholeYear(year - 1);
    }
  }

  /** Shift changes the clock, not the instant. */
  lemma ShiftKeepsInstant(t: Moment, delta: int)
    requires Valid(t) && -1440 < delta < 1440 && -1440 < t.offset + delta < 1440
    ensures Instant(Shift(t, delta)) == Instant(t)
  {
    var mins := t.hour * 60 + t.minute + delta;
    if mins >= 1440 {
      NextDayNumber(t.year, t.month, t.day);
    } else if mins < 0 {
      PrevDayNumber(t.year, t.month, t.day);
    }
  }

  /** t.In(Asia/Taipei) names the same instant as `t`, on a clock eight hours east of UTC. */
  lemma InTaipeiKeepsInstant(t: Moment)
    requires Valid(t)
    ensures Instant(InTaipei(t)) == Instant(t) && InTaipei(t).offset == TaipeiOffset
  {
    var utc := Shift(t, -t.offset);
    calc {
      Instant(InTaipei(t));
      Instant(Shift(utc, TaipeiOffset));
      { ShiftKeepsInstant(utc, TaipeiOffset); }
      Instant(utc);
      { ShiftKeepsInstant(t, -t.offset); }
      Instant(t);
    }
  }


  /**
   * createOrderNumberByTaipeiTZ: "M", the Taipei year without its first
   * two characters, the month and day as two digits each, and the id
   * modulo 10000 as five digits; None where slicing the year panics.
   */
  function OrderNumber(t: Moment, id: nat): Option<string>
    requires Valid(t)
  {
    var local := InTaipei(t);
    var year := IntToString(local.year);
    if |year| < 2 then None
    else Some("M" + year[2..] + ZeroPad(local.month, 2) + ZeroPad(local.day, 2) + ZeroPad(id % 10000, 5))
  }

  lemma {:induction false} FourDigits(y: int)
    requires 1000 <= y < 10000
    ensures var d := IntToString(y); |d| == 4 && |d[2..]| == 2 && DigitsValue(d[2..]) == y % 100
  {
    var d := Decimal(y);
    DecimalFour(y);
    var tail := d[2..];
    assert tail == [DigitChar(y / 10 % 10), DigitChar(y % 10)];
    assert tail[..1] == [DigitChar(y / 10 % 10)];
    assert DigitsValue(tail[..1]) == y / 10 % 10 by {
      assert tail[..1][..0] == [];
    }
    LastTwoDigits(y);
  }

  /** The last two decimal digits of a number make up its remainder modulo 100. */
  lemma LastTwoDigits(y: nat)
    ensures (y / 10 % 10) * 10 + y % 10 == y % 100
  {
    var q := y / 100;
    var r := y % 100;
    assert y == 100 * q + r;
    assert y / 10 == 10 * q + r / 10;
    assert y % 10 == r % 10;
  }

  /**
   * For a four-digit Taipei year the order number has twelve characters:
   * "M", then digits reading as the year modulo 100, the month, the day
   * and the id modulo 10000.
   */
  lemma OrderNumberShape(t: Moment, id: nat)
    requires Valid(t) && 1000 <= InTaipei(t).year < 10000
    ensures var local := InTaipei(t); var r := OrderNumber(t, id);
      && r.Some? && |r.value| == 12 && r.value[0] == 'M'
      && (forall i :: 1 <= i < 12 ==> '0' <= r.value[i] <= '9')
      && DigitsValue(r.value[1..3]) == local.year % 100
      && DigitsValue(r.value[3..5]) == local.month
      && DigitsValue(r.value[5..7]) == local.day
      && DigitsValue(r.value[7..]) == id % 10000
  {
    var local := InTaipei(t);
    FourDigits(local.year);
    var y := IntToString(local.year)[2..];
    ZeroPadExact(local.month, 2);
    ZeroPadExact(local.day, 2);
    ZeroPadExact(id % 10000, 5);
    OrderText(y, ZeroPad(local.month, 2), ZeroPad(local.day, 2), ZeroPad(id % 10000, 5));
  }

  /** "M" followed by the four digit runs of an order number, read back run by run. */
  lemma OrderText(y: string, m: string, d: string, n: string)
    requires |y| == 2 && |m| == 2 && |d| == 2 && |n| == 5
    requires forall i :: 0 <= i < 2 ==> '0' <= y[i] <= '9' && '0' <= m[i] <= '9' && '0' <= d[i] <= '9'
    requires forall i :: 0 <= i < 5 ==> '0' <= n[i] <= '9'
    ensures var r := "M" + y + m + d + n;
      && |r| == 12 && r[0] == 'M'
      && (forall i :: 1 <= i < 12 ==> '0' <= r[i] <= '9')
      && r[1..3] == y && r[3..5] == m && r[5..7] == d && r[7..] == n
  {
    var r := "M" + y + m + d + n;
    forall i | 1 <= i < 12 ensures '0' <= r[i] <= '9' {
      if i < 3 { assert r[i] == y[i - 1]; }
      else if i < 5 { assert r[i] == m[i - 3]; }
      else if i < 7 { assert r[i] == d[i - 5]; }
      else { assert r[i] == n[i - 7]; }
    }
  }

  /** Only the last four digits of the id reach the order number. */
  lemma SameSuffixModulo(t: Moment, a: nat, b: nat)
    requires Valid(t) && a % 10000 == b % 10000
    ensures OrderNumber(t, a) == OrderNumber(t, b)
  {
  }

  /** 22:00 UTC on 7 November 2021 is already 8 November in Taipei. */
  lemma LateEveningUtc(t: Moment)
    requires t == Moment(2021, 11, 7, 22, 0, 0)
    ensures OrderNumber(t, 1) == Some("M21110800001")
  {
    assert Shift(t, -t.offset) == t;
    assert InTaipei(t) == Moment(2021, 11, 8, 6, 0, TaipeiOffset);
    NovemberOrderNumber(t, 8, 1);
    NovemberText(8, "M21110800001");
  }

  /** 10:00 UTC on 7 November 2021 is still 7 November in Taipei. */
  lemma MorningUtc(t: Moment)
    requires t == Moment(2021, 11, 7, 10, 0, 0)
    ensures OrderNumber(t, 1) == Some("M21110700001")
  {
    assert Shift(t, -t.offset) == t;
    assert InTaipei(t) == Moment(2021, 11, 7, 18, 0, TaipeiOffset);
    NovemberOrderNumber(t, 7, 1);
    NovemberText(7, "M21110700001");
  }

  /** 10:00 at UTC-9 on 7 November 2021 is 8 November in Taipei, and id 100001 is numbered like id 1. */
  lemma MorningAlaska(t: Moment)
    requires t == Moment(2021, 11, 7, 10, 0, -540)
    ensures OrderNumber(t, 1) == Some("M21110800001")
    ensures OrderNumber(t, 100001) == Some("M21110800001")
  {
    assert Shift(t, -t.offset) == Moment(2021, 11, 7, 19, 0, 0);
    assert InTaipei(t) == Moment(2021, 11, 8, 3, 0, TaipeiOffset);
    NovemberOrderNumber(t, 8, 1);
    NovemberOrderNumber(t, 8, 100001);
    NovemberText(8, "M21110800001");
  }

  /** An instant that falls on day 1 to 9 of November 2021 in Taipei, for an id ending in 0001. */
  lemma NovemberOrderNumber(t: Moment, day: int, id: nat)
    requires Valid(t) && InTaipei(t).year == 2021 && InTaipei(t).month == 11 && InTaipei(t).day == day
    requires 1 <= day <= 9 && id % 10000 == 1
    ensures OrderNumber(t, id) == Some("M21110" + [DigitChar(day)] + "00001")
  {
    var local := InTaipei(t);
    var year := IntToString(local.year);
    Year2021(local.year);
    var m, d, n := ZeroPad(local.month, 2), ZeroPad(local.day, 2), ZeroPad(id % 10000, 5);
    PadTwoDigits(11);
    assert m == "11";
    PadOneDigit(day, 2);
    assert d == "0" + [DigitChar(day)];
    PadOneDigit(1, 5);
    assert n == "00001";
    assert OrderNumber(t, id) == Some("M" + year[2..] + m + d + n);
    assert "M" + "21" + "11" + ("0" + [DigitChar(day)]) + "00001" == "M21110" + [DigitChar(day)] + "00001";
  }

  /**
   * Proof step of the test-case lemmas: a literal order number such as
   * "M21110800001" is the text NovemberOrderNumber builds for its day.
   */
  lemma NovemberText(day: int, text: string)
    requires 1 <= day <= 9 && |text| == 12 && text[..6] == "M21110" && text[7..] == "00001" && text[6] as int == 48 + day
    ensures "M21110" + [DigitChar(day)] + "00001" == text
  {
    assert text == text[..6] + [text[6]] + text[7..];
  }

  /** The four digits of a four-digit number. */
  lemma DecimalFour(n: nat)
    requires 1000 <= n < 10000
    ensures Decimal(n) == [DigitChar(n / 1000), DigitChar(n / 100 % 10), DigitChar(n / 10 % 10), DigitChar(n % 10)]
  {
    var a := n / 10;
    var b := a / 10;
    var c := b / 10;
    Tenths(n);
    assert Decimal(c) == [DigitChar(c)];
    assert Decimal(b) == Decimal(c) + [DigitChar(b % 10)];
    assert Decimal(a) == Decimal(b) + [DigitChar(a % 10)];
    assert Decimal(n) == Decimal(a) + [DigitChar(n % 10)];
  }

  /** Dropping one decimal digit twice, or three times, is dividing by 100, or 1000. */
  lemma Tenths(n: nat)
    requires 1000 <= n < 10000
    ensures n / 10 / 10 == n / 100 && n / 10 / 10 / 10 == n / 1000
    ensures 100 <= n / 10 && 10 <= n / 100 && n / 1000 < 10
  {
  }

  /** Proof step of NovemberOrderNumber: the year 2021 is written "2021", whose cut `[2:]` is "21". */
  lemma Year2021(y: int)
    requires y == 2021
    ensures IntToString(y) == "2021" && IntToString(y)[2..] == "21"
  {
    DecimalFour(y);
  }

  /** Proof step of NovemberOrderNumber: `%02d` of a two-digit number is its two digits (the month 11). */
  lemma PadTwoDigits(n: nat)
    requires 10 <= n < 100
    ensures ZeroPad(n, 2) == [DigitChar(n / 10), DigitChar(n % 10)]
  {
    assert Decimal(n) == Decimal(n / 10) + [DigitChar(n % 10)];
  }

  /** Proof step of NovemberOrderNumber: `%0<width>d` of a single digit is zeros and then that digit (the day, and the id's 00001). */
  lemma PadOneDigit(d: nat, width: nat)
    requires d < 10 && width >= 1
    ensures ZeroPad(d, width) == seq(width - 1, _ => '0') + [DigitChar(d)]
  {
  }
}
