/**
 * The JavaScript string built-ins the two page scripts apply to field values:
 * `trim`, the two `replace` calls, `parseInt`, `parseFloat`, `isNaN` on a
 * string, and `Number.prototype.toLocaleString('en-IN')` on an integer.
 * Characters are Unicode scalar values; `parseInt` results are exact integers.
 */
module JsText {
  import opened Wrappers
  import opened Numbers

  // ---------------------------------------------------------------------
  // Character classes
  // ---------------------------------------------------------------------

  /** ECMAScript WhiteSpace and LineTerminator: what `trim` and `parseInt` skip. */
  predicate IsWhiteSpace(c: char)
  {
    c == '\t' || c == '\n' || c == '\U{B}' || c == '\U{C}' || c == '\r' || c == ' '
    || c == '\U{A0}' || c == '\U{1680}' || ('\U{2000}' <= c <= '\U{200A}')
    || c == '\U{2028}' || c == '\U{2029}' || c == '\U{202F}' || c == '\U{205F}'
    || c == '\U{3000}' || c == '\U{FEFF}'
  }

  predicate IsDigit(c: char)
  {
    '0' <= c <= '9'
  }

  predicate AllDigits(s: string)
  {
    forall i :: 0 <= i < |s| ==> IsDigit(s[i])
  }

  /** The value of `c` as a digit in any radix up to 36; 36 for a non-digit. */
  function DigitOf(c: char): nat
  {
    if '0' <= c <= '9' then c as int - '0' as int
    else if 'a' <= c <= 'z' then c as int - 'a' as int + 10
    else if 'A' <= c <= 'Z' then c as int - 'A' as int + 10
    else 36
  }

  predicate IsRadixDigit(c: char, radix: nat)
  {
    DigitOf(c) < radix
  }

  predicate AllRadix(s: string, radix: nat)
  {
    forall i :: 0 <= i < |s| ==> IsRadixDigit(s[i], radix)
  }

  // ---------------------------------------------------------------------
  // trim and replace
  // ---------------------------------------------------------------------

  /** The white space `trim` and `parseInt` drop at the front. */
  function TrimStart(s: string): (r: string)
    ensures |r| <= |s| && r == s[|s| - |r|..]
    ensures forall i :: 0 <= i < |s| - |r| ==> IsWhiteSpace(s[i])
    ensures r == [] || !IsWhiteSpace(r[0])
  {
    if s != [] && IsWhiteSpace(s[0]) then TrimStart(s[1..]) else s
  }

  function TrimEnd(s: string): (r: string)
    ensures |r| <= |s| && r == s[..|r|]
    ensures forall i :: |r| <= i < |s| ==> IsWhiteSpace(s[i])
    ensures r == [] || !IsWhiteSpace(r[|r| - 1])
  {
    if s != [] && IsWhiteSpace(s[|s| - 1]) then TrimEnd(s[..|s| - 1]) else s
  }

  /** `s.trim()`. */
  function Trim(s: string): string
  {
    TrimEnd(TrimStart(s))
  }

  /** `s.replace(/[^0-9]/g, '')`: the ASCII digits of `s`, in order. */
  function KeepDigits(s: string): (r: string)
    ensures AllDigits(r)
    ensures forall c :: c in r <==> c in s && IsDigit(c)
    ensures AllDigits(s) ==> r == s
  {
    if s == [] then []
    else
      assert s == [s[0]] + s[1..];
      if IsDigit(s[0]) then [s[0]] + KeepDigits(s[1..]) else KeepDigits(s[1..])
  }

  /** A character on its own is kept exactly when it is a digit. */
  lemma KeepDigitsChar(c: char)
    ensures KeepDigits([c]) == if IsDigit(c) then [c] else []
  {
    assert [c][1..] == [];
  }

  /**
   * The digits of a concatenation are the digits of each part, in order;
   * with `KeepDigitsChar` this fixes the order and the number of the
   * digits kept.
   */
  lemma {:induction false} KeepDigitsConcat(a: string, b: string)
    ensures KeepDigits(a + b) == KeepDigits(a) + KeepDigits(b)
    decreases |a|
  {
    if a == [] {
      assert a + b == b;
    } else {
      assert (a + b)[0] == a[0];
      assert (a + b)[1..] == a[1..] + b;
      KeepDigitsConcat(a[1..], b);
    }
  }

  /** `s.replace(/,/g, '')`. */
  function RemoveCommas(s: string): (r: string)
    ensures ',' !in r
    ensures forall c :: c != ',' ==> (c in r <==> c in s)
    ensures ',' !in s ==> r == s
  {
    if s == [] then []
    else
      var init, last := s[..|s| - 1], s[|s| - 1];
      assert s == init + [last];
      if last == ',' then RemoveCommas(init) else RemoveCommas(init) + [last]
  }

  lemma {:induction false} RemoveCommasConcat(a: string, b: string)
    ensures RemoveCommas(a + b) == RemoveCommas(a) + RemoveCommas(b)
    decreases |b|
  {
    if b == [] {
      assert a + b == a;
    } else {
      var init, last := b[..|b| - 1], b[|b| - 1];
      assert (a + b)[..|a + b| - 1] == a + init;
      assert (a + b)[|a + b| - 1] == last;
      RemoveCommasConcat(a, init);
    }
  }

  // ---------------------------------------------------------------------
  // Digit strings and their values
  // ---------------------------------------------------------------------

  /** The longest prefix of `s` made of digits of `radix`. */
  function DigitPrefix(s: string, radix: nat): (z: string)
    ensures |z| <= |s| && z == s[..|z|]
    ensures AllRadix(z, radix)
    ensures |z| == |s| || !IsRadixDigit(s[|z|], radix)
  {
    if s != [] && IsRadixDigit(s[0], radix) then [s[0]] + DigitPrefix(s[1..], radix) else []
  }

  /** The number a digit string denotes in `radix`, most significant digit first. */
  function DigitsValue(z: string, radix: nat): nat
    requires AllRadix(z, radix)
    decreases |z|
  {
    if z == [] then 0 else DigitsValue(z[..|z| - 1], radix) * radix + DigitOf(z[|z| - 1])
  }

  function DigitChar(d: nat): char
    requires d < 10
  {
    ('0' as int + d) as char
  }

  /** `String(n)` for a non-negative integer: its decimal digits, no leading zero. */
  function Decimal(n: nat): (r: string)
    ensures r != [] && AllDigits(r)
    ensures r[0] == '0' ==> n == 0
    decreases n
  {
    if n < 10 then [DigitChar(n)] else Decimal(n / 10) + [DigitChar(n % 10)]
  }

  /** `String(n)` for any integer. */
  function SignedDecimal(n: int): string
  {
    if n < 0 then "-" + Decimal(-n) else Decimal(n)
  }

  // ---------------------------------------------------------------------
  // parseInt, parseFloat and isNaN
  // ---------------------------------------------------------------------

  /**
   * `parseInt(s)` with no radix: skip leading white space, read one optional
   * sign, switch to radix 16 after `0x` or `0X`, then read the longest run of
   * digits. `None` is NaN (no digit at all).
   */
  function ParseInt(s: string): Option<int>
  {
    var t := TrimStart(s);
    var negative := t != [] && t[0] == '-';
    match ParseMagnitude(if t != [] && (t[0] == '-' || t[0] == '+') then t[1..] else t)
    case None => None
    case Some(m) => Some(if negative then -m else m)
  }

  /** What `parseInt` reads after the sign: a hexadecimal run after `0x`, else a decimal run. */
  function ParseMagnitude(u: string): Option<int>
  {
    var hex := |u| >= 2 && u[0] == '0' && (u[1] == 'x' || u[1] == 'X');
    var radix := if hex then 16 else 10;
    var z := DigitPrefix(if hex then u[2..] else u, radix);
    if z == [] then None else Some(DigitsValue(z, radix))
  }

  /** `parseInt` read as a number: NaN when it found no digit. */
  function ParseIntNumber(s: string): Float
  {
    match ParseInt(s)
    case None => NaN
    case Some(n) => OfInt(n)
  }

  function Pow10(n: nat): (r: real)
    ensures r >= 1.0
  {
    if n == 0 then 1.0 else 10.0 * Pow10(n - 1)
  }

  function Scale(m: real, e: int): real
  {
    if e >= 0 then m * Pow10(e) else m / Pow10(-e)
  }

  /** The exponent `parseFloat` reads from `e` (`e5`, `E-3`, ...), 0 when there is none. */
  function ExponentOf(e: string): int
  {
    if |e| >= 2 && (e[0] == 'e' || e[0] == 'E') then
      var g := if e[1] == '+' || e[1] == '-' then e[2..] else e[1..];
      var d := DigitPrefix(g, 10);
      var k: int := if d == [] then 0 else DigitsValue(d, 10);
      if e[1] == '-' then -k else k
    else 0
  }

  /**
   * `parseFloat(s)`: skip leading white space and read the longest prefix
   * that is a signed decimal literal (`Infinity`, digits with an optional
   * fraction and an optional exponent); NaN when there is none.
   */
  function ParseFloat(s: string): Float
  {
    var t := TrimStart(s);
    var negative := t != [] && t[0] == '-';
    var u := if t != [] && (t[0] == '-' || t[0] == '+') then t[1..] else t;
    if |u| >= 8 && u[..8] == "Infinity" then Inf(negative)
    else
      match UnsignedFloat(u)
      case None => NaN
      case Some(m) => Finite(if negative then -m else m)
  }

  /** The value of the longest unsigned decimal literal at the start of `u`, if any. */
  function UnsignedFloat(u: string): Option<real>
  {
    var i := DigitPrefix(u, 10);
    var rest := u[|i|..];
    var point := rest != [] && rest[0] == '.';
    var f := if point then DigitPrefix(rest[1..], 10) else [];
    var tail := if point then rest[1 + |f|..] else rest;
    if i == [] && f == [] then None
    else
      var mantissa := DigitsValue(i, 10) as real + DigitsValue(f, 10) as real / Pow10(|f|);
      Some(Scale(mantissa, ExponentOf(tail)))
  }

  /** An exponent part of a numeric string: `e` or `E`, an optional sign, digits. */
  predicate IsExponentPart(e: string)
  {
    |e| >= 2 && (e[0] == 'e' || e[0] == 'E') &&
    var f := if e[1] == '+' || e[1] == '-' then e[2..] else e[1..];
    f != [] && AllDigits(f)
  }

  /** StrUnsignedDecimalLiteral without `Infinity`: `12`, `12.`, `12.5`, `.5`, each with an optional exponent. */
  predicate IsUnsignedDecimal(u: string)
  {
    var i := DigitPrefix(u, 10);
    var rest := u[|i|..];
    if rest != [] && rest[0] == '.' then
      var f := DigitPrefix(rest[1..], 10);
      var tail := rest[1 + |f|..];
      |i| + |f| > 0 && (tail == [] || IsExponentPart(tail))
    else
      i != [] && (rest == [] || IsExponentPart(rest))
  }

  /** StrDecimalLiteral: an optional sign, then `Infinity` or an unsigned decimal. */
  predicate IsStrDecimal(t: string)
  {
    var u := if t != [] && (t[0] == '+' || t[0] == '-') then t[1..] else t;
    u == "Infinity" || IsUnsignedDecimal(u)
  }

  /** NonDecimalIntegerLiteral: `0x`, `0o` or `0b` and at least one digit of that radix. */
  predicate IsNonDecimalInteger(t: string)
  {
    |t| >= 3 && t[0] == '0' &&
    (((t[1] == 'x' || t[1] == 'X') && AllRadix(t[2..], 16))
     || ((t[1] == 'o' || t[1] == 'O') && AllRadix(t[2..], 8))
     || ((t[1] == 'b' || t[1] == 'B') && AllRadix(t[2..], 2)))
  }

  /**
   * `isNaN(s)` on a string, that is `Number(s)` is NaN: after trimming, `s`
   * is neither empty (which converts to 0) nor a numeric literal.
   */
  predicate NumberIsNaN(s: string)
  {
    !IsNumericLiteral(Trim(s))
  }

  /** StringNumericLiteral once trimmed: empty, a non-decimal integer or a decimal. */
  predicate IsNumericLiteral(t: string)
  {
    t == [] || IsNonDecimalInteger(t) || IsStrDecimal(t)
  }

  // ---------------------------------------------------------------------
  // toLocaleString('en-IN')
  // ---------------------------------------------------------------------

  function Pad2(b: nat): string
    requires b < 100
  {
    [DigitChar(b / 10), DigitChar(b % 10)]
  }

  function Pad3(b: nat): string
    requires b < 1000
  {
    [DigitChar(b / 100)] + Pad2(b % 100)
  }

  /** The groups of two digits the Indian numbering system puts above the thousands. */
  function Pairs(m: nat): string
    decreases m
  {
    if m < 100 then Decimal(m) else Pairs(m / 100) + "," + Pad2(m % 100)
  }

  /** `n.toLocaleString('en-IN')` for n >= 0: the last three digits, then groups of two. */
  function GroupedEnIn(n: nat): string
  {
    if n < 1000 then Decimal(n) else Pairs(n / 1000) + "," + Pad3(n % 1000)
  }

  /** `n.toLocaleString('en-IN')` for an integer `n`. */
  function ToLocaleEnIn(n: int): string
  {
    if n < 0 then "-" + GroupedEnIn(-n) else GroupedEnIn(n)
  }

  /** How `toLocaleString` prints NaN. */
  const NaNText := "NaN"

  /**
   * A text that starts with a letter other than `I` (of `Infinity`), and
   * whose ends are not white space, does not convert to a number.
   */
  lemma LetterTextIsNaN(t: string)
    requires t != [] && ('A' <= t[0] <= 'Z' || 'a' <= t[0] <= 'z') && t[0] != 'I'
    requires !IsWhiteSpace(t[|t| - 1])
    ensures NumberIsNaN(t)
  {
    TrimUnchanged(t);
    assert !IsRadixDigit(t[0], 10);
    assert DigitPrefix(t, 10) == [];
  }

  /** The text `NaN` has no separator and does not convert to a number. */
  lemma NaNTextIsNaN()
    ensures ',' !in NaNText && NumberIsNaN(NaNText)
  {
    assert NaNText[0] == 'N' && NaNText[|NaNText| - 1] == 'N';
    LetterTextIsNaN(NaNText);
  }

  /** `parseInt(...).toLocaleString('en-IN')`, where NaN prints as `NaN`. */
  function ToLocaleOrNaN(x: Option<int>): string
  {
    match x
    case None => NaNText
    case Some(n) => ToLocaleEnIn(n)
  }

  /** The same grouping rule stated on a digit string instead of on an integer. */
  function GroupPairs(p: string): string
    decreases |p|
  {
    if |p| <= 2 then p else GroupPairs(p[..|p| - 2]) + "," + p[|p| - 2..]
  }

  function GroupDigits(d: string): string
  {
    if |d| <= 3 then d else GroupPairs(d[..|d| - 3]) + "," + d[|d| - 3..]
  }

  // ---------------------------------------------------------------------
  // Lemmas about decimal strings
  // ---------------------------------------------------------------------

  lemma DigitCharValue(d: nat)
    requires d < 10
    ensures IsDigit(DigitChar(d)) && DigitOf(DigitChar(d)) == d
  {
  }

  /** Appending a digit to a positive number appends its character. */
  lemma DecimalSnoc(a: nat, d: nat)
    requires 1 <= a && d < 10
    ensures Decimal(10 * a + d) == Decimal(a) + [DigitChar(d)]
  {
    var n := 10 * a + d;
    assert n / 10 == a && n % 10 == d;
  }

  lemma DecimalPad2(a: nat, b: nat)
    requires 1 <= a && b < 100
    ensures Decimal(100 * a + b) == Decimal(a) + Pad2(b)
  {
    DecimalSnoc(a, b / 10);
    DecimalSnoc(10 * a + b / 10, b % 10);
    assert 100 * a + b == 10 * (10 * a + b / 10) + b % 10;
  }

  lemma DecimalPad3(a: nat, b: nat)
    requires 1 <= a && b < 1000
    ensures Decimal(1000 * a + b) == Decimal(a) + Pad3(b)
  {
    DecimalSnoc(a, b / 100);
    DecimalPad2(10 * a + b / 100, b % 100);
    assert 1000 * a + b == 100 * (10 * a + b / 100) + b % 100;
  }

  lemma DecimalLength(n: nat)
    ensures |Decimal(n)| <= 2 <==> n < 100
    ensures |Decimal(n)| <= 3 <==> n < 1000
  {
    if n >= 10 {
      DecimalLength(n / 10);
    }
  }

  /** Reading back the digits of `n` gives `n`. */
  lemma {:induction false} DecimalValue(n: nat)
    ensures DigitsValue(Decimal(n), 10) == n
    decreases n
  {
    var d := Decimal(n);
    if n < 10 {
      DigitCharValue(n);
    } else {
      DecimalValue(n / 10);
      DigitCharValue(n % 10);
      assert d[..|d| - 1] == Decimal(n / 10);
    }
  }

  /** The integer definition of the en-IN grouping agrees with the digit-string one. */
  lemma {:induction false} PairsAsDigits(m: nat)
    ensures Pairs(m) == GroupPairs(Decimal(m))
    decreases m
  {
    DecimalLength(m);
    if m >= 100 {
      var d := Decimal(m);
      DecimalPad2(m / 100, m % 100);
      assert d == Decimal(m / 100) + Pad2(m % 100);
      assert d[..|d| - 2] == Decimal(m / 100);
      assert d[|d| - 2..] == Pad2(m % 100);
      PairsAsDigits(m / 100);
    }
  }

  lemma GroupedAsDigits(n: nat)
    ensures GroupedEnIn(n) == GroupDigits(Decimal(n))
  {
    DecimalLength(n);
    if n >= 1000 {
      var d := Decimal(n);
      DecimalPad3(n / 1000, n % 1000);
      assert d == Decimal(n / 1000) + Pad3(n % 1000);
      assert d[..|d| - 3] == Decimal(n / 1000);
      assert d[|d| - 3..] == Pad3(n % 1000);
      PairsAsDigits(n / 1000);
    }
  }

  lemma NoCommaInParts(s: string, k: nat)
    requires ',' !in s && k <= |s|
    ensures ',' !in s[..k] && ',' !in s[k..]
  {
    assert forall c :: c in s[..k] ==> c in s;
    assert forall c :: c in s[k..] ==> c in s;
  }

  /** Removing the separators around one comma. */
  lemma RemoveCommasAround(a: string, b: string)
    requires ',' !in b
    ensures RemoveCommas((a + ",") + b) == RemoveCommas(a) + b
  {
    RemoveCommasConcat(a + ",", b);
    assert (a + ",")[..|a|] == a;
  }

  lemma {:induction false} GroupPairsUngroup(p: string)
    requires ',' !in p
    ensures RemoveCommas(GroupPairs(p)) == p
    decreases |p|
  {
    if |p| > 2 {
      var a, b := p[..|p| - 2], p[|p| - 2..];
      NoCommaInParts(p, |a|);
      assert GroupPairs(p) == (GroupPairs(a) + ",") + b;
      GroupPairsUngroup(a);
      RemoveCommasAround(GroupPairs(a), b);
      assert p == a + b;
    }
  }

  lemma GroupDigitsUngroup(d: string)
    requires ',' !in d
    ensures RemoveCommas(GroupDigits(d)) == d
  {
    if |d| > 3 {
      var a, b := d[..|d| - 3], d[|d| - 3..];
      NoCommaInParts(d, |a|);
      assert GroupDigits(d) == (GroupPairs(a) + ",") + b;
      GroupPairsUngroup(a);
      RemoveCommasAround(GroupPairs(a), b);
      assert d == a + b;
    }
  }

  lemma DigitsHaveNoComma(d: string)
    requires AllDigits(d)
    ensures ',' !in d
  {
  }

  /** Removing the separators from `toLocaleString('en-IN')` gives back `String(n)`. */
  lemma UngroupLocale(n: int)
    ensures RemoveCommas(ToLocaleEnIn(n)) == SignedDecimal(n)
  {
    var m: nat := if n < 0 then -n else n;
    GroupedAsDigits(m);
    DigitsHaveNoComma(Decimal(m));
    GroupDigitsUngroup(Decimal(m));
    if n < 0 {
      RemoveCommasConcat("-", GroupedEnIn(m));
    }
  }

  lemma DigitsAreRadix10(d: string)
    requires AllDigits(d)
    ensures AllRadix(d, 10) && DigitPrefix(d, 10) == d
  {
    var z := DigitPrefix(d, 10);
    assert |z| == |d|;
  }

  lemma DigitIsNotWhiteSpace(c: char)
    requires IsDigit(c)
    ensures !IsWhiteSpace(c)
  {
  }

  lemma ParseMagnitudeDigits(d: string)
    requires d != [] && AllDigits(d)
    ensures ParseMagnitude(d) == Some(DigitsValue(d, 10))
  {
    if |d| >= 2 {
      assert IsDigit(d[1]);
    }
    DigitsAreRadix10(d);
  }

  /** `parseInt` of a non-empty digit string is its decimal value. */
  lemma ParseIntDigits(s: string)
    requires s != [] && AllDigits(s)
    ensures ParseInt(s) == Some(DigitsValue(s, 10))
  {
    DigitIsNotWhiteSpace(s[0]);
    assert TrimStart(s) == s;
    ParseMagnitudeDigits(s);
  }

  /** `parseInt(String(n)) == n`. */
  lemma ParseIntSignedDecimal(n: int)
    ensures ParseInt(SignedDecimal(n)) == Some(n)
  {
    if n >= 0 {
      ParseIntDigits(Decimal(n));
      DecimalValue(n);
    } else {
      var d := Decimal(-n);
      var s := SignedDecimal(n);
      assert TrimStart(s) == s;
      assert s[1..] == d;
      ParseMagnitudeDigits(d);
      DecimalValue(-n);
    }
  }

  /** `parseInt(String(n))` read as a number is `n`. */
  lemma ParseIntNumberDecimal(n: nat)
    ensures ParseIntNumber(Decimal(n)) == OfInt(n)
  {
    ParseIntSignedDecimal(n);
  }

  lemma UnsignedDigits(d: string)
    requires d != [] && AllDigits(d)
    ensures IsUnsignedDecimal(d)
    ensures UnsignedFloat(d) == Some(DigitsValue(d, 10) as real)
  {
    DigitsAreRadix10(d);
    var i := DigitPrefix(d, 10);
    assert i == d;
    var rest := d[|i|..];
    assert rest == [];
    assert DigitsValue(d, 10) as real + DigitsValue([], 10) as real / Pow10(0) == DigitsValue(d, 10) as real;
    assert ExponentOf(rest) == 0;
  }

  lemma TrimUnchanged(s: string)
    requires s != [] && !IsWhiteSpace(s[0]) && !IsWhiteSpace(s[|s| - 1])
    ensures Trim(s) == s
  {
    assert TrimStart(s) == s;
  }

  /** `String(n)` is a numeric literal once trimmed: `isNaN(String(n))` is false. */
  lemma SignedDecimalIsNumber(n: int)
    ensures !NumberIsNaN(SignedDecimal(n))
  {
    var m: nat := if n < 0 then -n else n;
    var d := Decimal(m);
    var s := SignedDecimal(n);
    DigitIsNotWhiteSpace(d[|d| - 1]);
    UnsignedDigits(d);
    if n < 0 {
      assert s[|s| - 1] == d[|d| - 1];
      TrimUnchanged(s);
      assert s[1..] == d;
      assert IsStrDecimal(s);
    } else {
      DigitIsNotWhiteSpace(d[0]);
      TrimUnchanged(d);
      assert IsStrDecimal(d);
    }
  }

  /** `parseFloat(String(n)) == n`. */
  lemma ParseFloatDecimal(n: nat)
    ensures ParseFloat(Decimal(n)) == Finite(n as real)
  {
    DecimalValue(n);
    ParseFloatDigits(Decimal(n));
  }

  /** `parseFloat` of a run of decimal digits is its value. */
  lemma ParseFloatDigits(d: string)
    requires d != [] && AllDigits(d)
    ensures ParseFloat(d) == Finite(DigitsValue(d, 10) as real)
  {
    DigitIsNotWhiteSpace(d[0]);
    assert TrimStart(d) == d;
    assert IsDigit(d[0]) && d[0] != '-' && d[0] != '+';
    if |d| >= 8 {
      assert d[..8][0] == d[0] != 'I';
    }
    UnsignedDigits(d);
  }

}
