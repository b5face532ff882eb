/** Credits in tenths as a 32-bit value, and their decimal text in the database. */
module CreditCodec {
  import opened Types
  import opened Numerals

  const MAX_INT32: int := 0x7fff_ffff
  const TWO_TO_32: int := 0x1_0000_0000

  /** The conversion of a 64-bit sum to a credit keeps its low 32 bits. */
  function Wrap(x: int): int {
    var m := x % TWO_TO_32;
    if m > MAX_INT32 then m - TWO_TO_32 else m
  }

  /** Credit.String: one decimal at most, and none for whole credits. */
  function Print(c: int): string {
    var value := if c < 0 then -c else c;
    var prefix := if c < 0 then "-" else "";
    if value % 10 == 0 then prefix + Digits(value / 10)
    else prefix + Digits(value / 10) + "." + Digits(value % 10)
  }

  function TrimLeft(s: string): string {
    if s != "" && IsSpace(s[0]) then TrimLeft(s[1..]) else s
  }

  function TrimRight(s: string): string {
    if s != "" && IsSpace(s[|s| - 1]) then TrimRight(s[..|s| - 1]) else s
  }

  /** strings.Split at every dot. */
  function Split(s: string): (parts: seq<string>)
    ensures |parts| > 0
  {
    if s == "" then [""]
    else if s[0] == '.' then [""] + Split(s[1..])
    else
      var rest := Split(s[1..]);
      [[s[0]] + rest[0]] + rest[1..]
  }

  /** strconv.ParseInt in base ten: an optional sign, then digits, within the given bound. */
  function ParseInt(s: string, max: int): Option<int> {
    var negative := s != "" && s[0] == '-';
    var digits := if s != "" && (s[0] == '-' || s[0] == '+') then s[1..] else s;
    if digits == "" || !AllDigits(digits) then None
    else
      var n: int := if negative then 0 - Value(digits) else Value(digits);
      if -max - 1 <= n <= max then Some(n) else None
  }

  /** The value of an integer part and at most one fractional digit. */
  function ParseParts(parts: seq<string>): Option<int>
    requires |parts| > 0
  {
    if |parts| > 2 then None
    else
      match ParseInt(parts[0], MAX_INT32)
      case None => None
      case Some(integer) =>
        if integer < 0 then None
        else if |parts| == 2 && parts[1] != "" then
          if |parts[1]| > 1 then None
          else
            match ParseInt(parts[1], 127)
            case None => None
            case Some(fraction) => Some(Wrap(integer * 10 + fraction))
        else Some(Wrap(integer * 10))
  }

  /** creditFromDecimalAllowZero. */
  function ParseAllowZero(raw: string): Option<int> {
    var text := TrimRight(TrimLeft(raw));
    if text == "" then None else ParseParts(Split(text))
  }

  /** creditFromDecimal. */
  function Parse(raw: string): Option<int> {
    match ParseAllowZero(raw)
    case None => None
    case Some(c) => if c > 0 then Some(c) else None
  }

  // --- Proofs ----------------------------------------------------------------------------------

  predicate DotFree(s: string) {
    forall i :: 0 <= i < |s| ==> s[i] != '.'
  }

  lemma {:induction false} SplitWhole(s: string)
    requires DotFree(s)
    ensures Split(s) == [s]
  {
    if s != "" {
      SplitWhole(s[1..]);
      assert s == [s[0]] + s[1..];
    }
  }

  lemma {:induction false} SplitAtDot(a: string, b: string)
    requires DotFree(a) && DotFree(b)
    ensures Split(a + "." + b) == [a, b]
  {
    var s := a + "." + b;
    if a == "" {
      assert s[1..] == b;
      SplitWhole(b);
    } else {
      assert s[1..] == a[1..] + "." + b && s[0] == a[0];
      SplitAtDot(a[1..], b);
      assert a == [a[0]] + a[1..];
    }
  }

  lemma NoTrim(s: string)
    requires s != "" && !IsSpace(s[0]) && !IsSpace(s[|s| - 1])
    ensures TrimRight(TrimLeft(s)) == s
  {
  }

  lemma ParseDigits(s: string, max: int)
    requires s != "" && AllDigits(s) && max >= 0
    ensures ParseInt(s, max) == if Value(s) <= max then Some(Value(s)) else None
  {
    assert '0' <= s[0] <= '9';
  }

  lemma ParseMinus(s: string, max: int)
    requires s != "" && AllDigits(s) && max >= 0
    ensures ParseInt("-" + s, max) == if -max - 1 <= 0 - Value(s) then Some(0 - Value(s)) else None
  {
    assert ("-" + s)[1..] == s;
  }

  /** What text made of an integer part and one fractional digit goes through. */
  lemma ParseDotted(a: string, d: nat)
    requires a != "" && !IsSpace(a[0]) && DotFree(a) && d < 10
    ensures ParseAllowZero(a + "." + Digits(d)) == ParseParts([a, Digits(d)])
  {
    var s := a + "." + Digits(d);
    assert s[0] == a[0] && s[|s| - 1] == Digit(d);
    hide ParseParts, Value;
    NoTrim(s);
    SplitAtDot(a, Digits(d));
  }

  lemma ParseWhole(a: string)
    requires a != "" && !IsSpace(a[0]) && !IsSpace(a[|a| - 1]) && DotFree(a)
    ensures ParseAllowZero(a) == ParseParts([a])
  {
    hide ParseParts, Value;
    NoTrim(a);
    SplitWhole(a);
  }

  /** What a plain decimal with one fractional digit, or with none, is read as. */
  lemma ParsedValue(a: string, d: nat)
    requires a != "" && AllDigits(a) && d < 10
    ensures ParseAllowZero(a + "." + Digits(d)) ==
            if Value(a) <= MAX_INT32 then Some(Wrap(10 * Value(a) + d)) else None
    ensures ParseAllowZero(a) == if Value(a) <= MAX_INT32 then Some(Wrap(10 * Value(a))) else None
  {
    hide ParseAllowZero, Wrap, Value, ParseInt, Digits, IsSpace;
    DigitText(a);
    ParseDotted(a, d);
    ParseWhole(a);
    ValueOfDigits(d);
    OneDigit(d);
    ParseDigits(a, MAX_INT32);
    ParseDigits(Digits(d), 127);
  }

  lemma DigitText(a: string)
    requires a != "" && AllDigits(a)
    ensures !IsSpace(a[0]) && !IsSpace(a[|a| - 1]) && DotFree(a)
  {
  }

  lemma OneDigit(d: nat)
    requires d < 10
    ensures |Digits(d)| == 1
  {
  }

  lemma WrapExact(x: int)
    requires 0 <= x <= 10 * MAX_INT32 + 9
    ensures Wrap(x) == x <==> x <= MAX_INT32
  {
  }

  /** Printing and parsing are inverse on every non-negative credit. */
  lemma RoundTrip(c: int)
    requires 0 <= c <= MAX_INT32
    ensures ParseAllowZero(Print(c)) == Some(c)
    ensures c > 0 ==> Parse(Print(c)) == Some(c)
    ensures c == 0 ==> Parse(Print(c)) == None
  {
    hide ParseAllowZero, Wrap, Value, Digits;
    var a, d := c / 10, c % 10;
    ValueOfDigits(a);
    DigitsPlain(a);
    ParsedValue(Digits(a), d);
    WrapExact(c);
    assert "" + Digits(a) == Digits(a);
    assert Print(c) == if d == 0 then Digits(a) else Digits(a) + "." + Digits(d);
  }

  /** Negative credits print but do not read back; below one credit only the fraction survives. */
  lemma NegativeRoundTrip(c: int)
    requires -MAX_INT32 - 1 <= c < 0
    ensures ParseAllowZero(Print(c)) == if c > -10 then Some(-c) else None
  {
    hide ParseAllowZero, Value, Digits, ParseInt, IsSpace, Wrap;
    var value := -c;
    var a, d := value / 10, value % 10;
    var s := "-" + Digits(a);
    ValueOfDigits(a);
    DigitsPlain(a);
    MinusText(Digits(a));
    ParseWhole(s);
    ParseDotted(s, d);
    ValueOfDigits(d);
    OneDigit(d);
    ParseMinus(Digits(a), MAX_INT32);
    ParseDigits(Digits(d), 127);
    WrapExact(d);
    assert Print(c) == if d == 0 then s else s + "." + Digits(d);
  }

  lemma MinusText(a: string)
    requires a != "" && AllDigits(a)
    ensures var s := "-" + a; !IsSpace(s[0]) && !IsSpace(s[|s| - 1]) && DotFree(s)
  {
    var s := "-" + a;
    assert s[0] == '-' && s[|s| - 1] == a[|a| - 1];
    assert forall i :: 1 <= i < |s| ==> s[i] == a[i - 1];
  }

  /** A plain decimal: digits, and after a point at most one more digit. */
  predicate Plain(a: string, point: bool, f: string) {
    a != "" && AllDigits(a) && |f| <= 1 && AllDigits(f) && (!point ==> f == "")
  }

  function Text(a: string, point: bool, f: string): string {
    if point then a + "." + f else a
  }

  /** The tenths that a plain decimal denotes. */
  function Tenths(a: string, f: string): nat
    requires AllDigits(a) && AllDigits(f)
  {
    10 * Value(a) + if f == "" then 0 else Value(f)
  }

  lemma OneDigitValue(f: string)
    requires |f| == 1 && AllDigits(f)
    ensures Value(f) < 10
  {
    assert '0' <= f[0] <= '9' && f[..0] == "";
  }

  lemma PointedText(a: string, f: string)
    requires a != "" && AllDigits(a) && |f| <= 1 && AllDigits(f)
    ensures ParseAllowZero(a + "." + f) == ParseParts([a, f])
  {
    var s := a + "." + f;
    assert s[0] == a[0] && s[|s| - 1] == if f == "" then '.' else f[0];
    hide ParseParts, Value;
    NoTrim(s);
    SplitAtDot(a, f);
  }

  lemma ReadPlain(a: string, point: bool, f: string)
    requires Plain(a, point, f)
    ensures ParseAllowZero(Text(a, point, f)) == if Value(a) <= MAX_INT32 then Some(Wrap(Tenths(a, f))) else None
  {
    hide ParseAllowZero, Wrap, Value, ParseInt, IsSpace;
    DigitText(a);
    ParseDigits(a, MAX_INT32);
    if point {
      PointedText(a, f);
      if f != "" {
        OneDigitValue(f);
        ParseDigits(f, 127);
      }
    } else {
      ParseWhole(a);
    }
  }

  /**
    A plain decimal is read as the value it denotes if and only if that value is a 32-bit credit, and is
    refused if and only if its integer part alone is too large; in between it is read as another value.
   */
  lemma ReadExactly(a: string, point: bool, f: string)
    requires Plain(a, point, f)
    ensures ParseAllowZero(Text(a, point, f)) == Some(Tenths(a, f)) <==> Tenths(a, f) <= MAX_INT32
    ensures ParseAllowZero(Text(a, point, f)) == None <==> Value(a) > MAX_INT32
  {
    hide ParseAllowZero, Wrap, Value;
    ReadPlain(a, point, f);
    if f != "" {
      OneDigitValue(f);
    }
    if Value(a) <= MAX_INT32 {
      WrapExact(Tenths(a, f));
    }
  }

  /** The text 300000000 denotes three thousand million tenths and is read as a negative credit. */
  lemma LargeCreditWraps()
    ensures var a := Digits(300_000_000);
            Plain(a, false, "") && Tenths(a, "") == 3_000_000_000
            && ParseAllowZero(Text(a, false, "")) == Some(-1_294_967_296)
  {
    hide ParseAllowZero, Value, Digits;
    ValueOfDigits(300_000_000);
    DigitsPlain(300_000_000);
    ReadPlain(Digits(300_000_000), false, "");
    assert Wrap(3_000_000_000) == -1_294_967_296;
  }
}
