/**
 * The slice of JavaScript's value semantics that the route handlers and the
 * screens rely on: truthiness, `x || null`, `Number(x)`, `parseInt(s)`,
 * `String.prototype.trim`, `toLowerCase` and `includes`.
 */
module Js {
  import opened Wrappers

  /**
   * A JavaScript number: a finite value or NaN. Values are exact reals, so
   * double rounding and the overflow of very long numerals to Infinity are
   * not represented.
   */
  datatype JsNumber = Finite(value: real) | NaN

  /** A JSON-like value as it arrives in a request body. */
  datatype JsValue =
    | Undefined
    | Null
    | Bool(b: bool)
    | Number(n: JsNumber)
    | Str(s: string)
    | Arr(items: seq<JsValue>)
    | Obj

  /** The value `!!v`: false, 0, NaN, "", null and undefined are falsy. */
  predicate Truthy(v: JsValue) {
    match v
    case Undefined => false
    case Null => false
    case Bool(b) => b
    case Number(n) => n.Finite? && n.value != 0.0
    case Str(s) => s != ""
    case Arr(_) => true
    case Obj => true
  }

  /** The value of `v || null`. */
  function OrNull(v: JsValue): JsValue {
    if Truthy(v) then v else Null
  }

  // ---------------------------------------------------------------------------
  // White space and trim

  /** The WhiteSpace and LineTerminator code points that `trim` removes. */
  predicate IsWhiteSpace(c: char) {
    || c == '\t' || c == '\n' || c == '\U{000B}' || c == '\U{000C}' || c == '\r'
    || c == ' ' || c == '\U{00A0}' || c == '\U{1680}' || ('\U{2000}' <= c <= '\U{200A}')
    || c == '\U{2028}' || c == '\U{2029}' || c == '\U{202F}' || c == '\U{205F}'
    || c == '\U{3000}' || c == '\U{FEFF}'
  }

  predicate AllWhiteSpace(s: string) {
    forall i | 0 <= i < |s| :: IsWhiteSpace(s[i])
  }

  /** `trimStart`: drops the longest white-space prefix. */
  function TrimStart(s: string): (r: string)
    ensures |r| <= |s| && r == s[|s| - |r|..]
    ensures AllWhiteSpace(s[..|s| - |r|])
    ensures r == [] || !IsWhiteSpace(r[0])
  {
    if s != [] && IsWhiteSpace(s[0]) then
      var r := TrimStart(s[1..]);
      var k := |s| - |r|;
      assert forall i | 1 <= i < k :: s[..k][i] == s[1..][..k - 1][i - 1];
      r
    else
      s
  }

  /** `trimEnd`: drops the longest white-space suffix. */
  function TrimEnd(s: string): (r: string)
    ensures |r| <= |s| && r == s[..|r|]
    ensures AllWhiteSpace(s[|r|..])
    ensures r == [] || !IsWhiteSpace(r[|r| - 1])
  {
    if s != [] && IsWhiteSpace(s[|s| - 1]) then
      var r := TrimEnd(s[..|s| - 1]);
      assert s[|r|..] == s[..|s| - 1][|r|..] + [s[|s| - 1]];
      r
    else
      s
  }

  /** `s.trim()`: empty exactly when `s` is all white space, otherwise starting and ending on a non-space. */
  function Trim(s: string): (r: string)
    ensures r == [] <==> AllWhiteSpace(s)
    ensures r != [] ==> !IsWhiteSpace(r[0]) && !IsWhiteSpace(r[|r| - 1])
  {
    TrimParts(s);
    TrimEnd(TrimStart(s))
  }

  /** Trim's contract, from those of the two halves. */
  lemma TrimParts(s: string)
    ensures var r := TrimEnd(TrimStart(s));
      && (r == [] <==> AllWhiteSpace(s))
      && (r != [] ==> !IsWhiteSpace(r[0]) && !IsWhiteSpace(r[|r| - 1]))
  {
    var a := TrimStart(s);
    var r := TrimEnd(a);
    if r == [] {
      assert a[|r|..] == a;
      WhiteSpaceBeforeTrimStart(s);
    } else {
      assert r[0] == a[0] == s[|s| - |a|];
    }
  }

  /** A string with no white space at either end is its own trim. */
  lemma TrimUnpadded(s: string)
    requires s != [] && !IsWhiteSpace(s[0]) && !IsWhiteSpace(s[|s| - 1])
    ensures TrimStart(s) == s && Trim(s) == s
  {
    assert TrimStart(s) == s;
    assert TrimEnd(s) == s;
  }

  /** A string whose trimStart is all white space is all white space. */
  lemma WhiteSpaceBeforeTrimStart(s: string)
    requires AllWhiteSpace(TrimStart(s))
    ensures AllWhiteSpace(s)
  {
    var a := TrimStart(s);
    var k := |s| - |a|;
    assert s == s[..k] + a;
    AllWhiteSpaceConcat(s[..k], a);
  }

  lemma AllWhiteSpaceConcat(x: string, y: string)
    requires AllWhiteSpace(x) && AllWhiteSpace(y)
    ensures AllWhiteSpace(x + y)
  {
    forall i | 0 <= i < |x + y|
      ensures IsWhiteSpace((x + y)[i])
    {
      if i < |x| {
        assert (x + y)[i] == x[i];
      } else {
        assert (x + y)[i] == y[i - |x|];
      }
    }
  }

  // ---------------------------------------------------------------------------
  // Digits

  predicate IsDigit(c: char) { '0' <= c <= '9' }

  predicate IsHexDigit(c: char) { IsDigit(c) || 'a' <= c <= 'f' || 'A' <= c <= 'F' }

  /** A digit of radix 16 when `hex`, of radix 10 otherwise. */
  predicate IsDigitOf(c: char, hex: bool) { if hex then IsHexDigit(c) else IsDigit(c) }

  function Radix(hex: bool): nat { if hex then 16 else 10 }

  predicate AllDigits(s: string, hex: bool) {
    forall i | 0 <= i < |s| :: IsDigitOf(s[i], hex)
  }

  function DigitOf(c: char, hex: bool): (d: nat)
    requires IsDigitOf(c, hex)
    ensures d < Radix(hex)
  {
    if IsDigit(c) then c as int - '0' as int
    else if 'a' <= c <= 'f' then c as int - 'a' as int + 10
    else c as int - 'A' as int + 10
  }

  /** The length of the longest prefix of `s` made of digits. */
  function DigitRun(s: string, hex: bool): (k: nat)
    ensures k <= |s| && AllDigits(s[..k], hex)
    ensures k == |s| || !IsDigitOf(s[k], hex)
  {
    if s != [] && IsDigitOf(s[0], hex) then
      var k := 1 + DigitRun(s[1..], hex);
      assert s[..k] == [s[0]] + s[1..][..k - 1];
      k
    else
      0
  }

  /** The value of a digit string, most significant digit first. */
  function DigitsValue(ds: string, hex: bool): nat
    requires AllDigits(ds, hex)
  {
    if ds == [] then 0
    else DigitsValue(ds[..|ds| - 1], hex) * Radix(hex) + DigitOf(ds[|ds| - 1], hex)
  }

  /** The value of the digits after a decimal point. */
  function FractionValue(ds: string): (r: real)
    requires AllDigits(ds, false)
    ensures 0.0 <= r < 1.0
  {
    if ds == [] then 0.0
    else (DigitOf(ds[0], false) as real + FractionValue(ds[1..])) / 10.0
  }

  function DigitChar(d: nat): (c: char)
    requires d < 10
    ensures IsDigit(c) && DigitOf(c, false) == d
  {
    ('0' as int + d) as char
  }

  /** The decimal form of a natural number, as template literals print it. */
  function NatToString(n: nat): (r: string)
    ensures r != [] && AllDigits(r, false)
    ensures |r| > 1 ==> r[0] != '0'
  {
    if n < 10 then [DigitChar(n)] else NatToString(n / 10) + [DigitChar(n % 10)]
  }

  lemma {:induction false} NatToStringValue(n: nat)
    ensures DigitsValue(NatToString(n), false) == n
  {
    if n >= 10 {
      var a := NatToString(n / 10);
      assert (a + [DigitChar(n % 10)])[..|a|] == a;
      NatToStringValue(n / 10);
    }
  }

  /** A digit run stops exactly where the digits of its prefix end. */
  lemma {:induction false} DigitRunOfDigits(ds: string, rest: string, hex: bool)
    requires AllDigits(ds, hex)
    requires rest == [] || !IsDigitOf(rest[0], hex)
    ensures DigitRun(ds + rest, hex) == |ds|
  {
    if ds != [] {
      assert (ds + rest)[1..] == ds[1..] + rest;
      DigitRunOfDigits(ds[1..], rest, hex);
    }
  }

  // ---------------------------------------------------------------------------
  // Number(x) and parseInt(s)

  /** An unsigned decimal literal `digits [. digits]` with at least one digit. */
  function UnsignedDecimal(t: string): JsNumber {
    var k := DigitRun(t, false);
    if k == |t| then
      (if k > 0 then Finite(DigitsValue(t[..k], false) as real) else NaN)
    else if t[k] != '.' then NaN
    else
      var f := t[k + 1..];
      var m := DigitRun(f, false);
      if m == |f| && k + m > 0 then
        Finite(DigitsValue(t[..k], false) as real + FractionValue(f[..m]))
      else NaN
  }

  function Negate(n: JsNumber): JsNumber {
    match n
    case Finite(v) => Finite(-v)
    case NaN => NaN
  }

  /** `Number(s)` on a string: trimmed, empty is 0, then a signed decimal or an unsigned hex literal. */
  function StringToNumber(s: string): (r: JsNumber)
    ensures AllWhiteSpace(s) ==> r == Finite(0.0)
    ensures s != [] && AllDigits(s, false) ==> r == Finite(DigitsValue(s, false) as real)
    ensures Trim(s) != [] && !IsDigit(Trim(s)[0]) && Trim(s)[0] != '+' && Trim(s)[0] != '-' && Trim(s)[0] != '.' ==>
      r.NaN?
  {
    var t := Trim(s);
    DigitsTrimToThemselves(s);
    if t == [] then Finite(0.0)
    else if |t| > 2 && t[0] == '0' && (t[1] == 'x' || t[1] == 'X') then
      var h := t[2..];
      if DigitRun(h, true) == |h| then Finite(DigitsValue(h, true) as real) else NaN
    else if t[0] == '-' then Negate(UnsignedDecimal(t[1..]))
    else if t[0] == '+' then UnsignedDecimal(t[1..])
    else
      UnsignedDecimalFacts(t);
      UnsignedDecimal(t)
  }

  /** A digit string has nothing to trim. */
  lemma DigitsTrimToThemselves(s: string)
    ensures s != [] && AllDigits(s, false) ==> Trim(s) == s
  {
    if s != [] && AllDigits(s, false) {
      TrimUnpadded(s);
    }
  }

  /** An unsigned literal made only of digits reads as their value; one starting with neither a digit nor a point is NaN. */
  lemma UnsignedDecimalFacts(t: string)
    ensures t != [] && AllDigits(t, false) ==> UnsignedDecimal(t) == Finite(DigitsValue(t, false) as real)
    ensures t != [] && !IsDigit(t[0]) && t[0] != '.' ==> UnsignedDecimal(t).NaN?
  {
    if t != [] && AllDigits(t, false) {
      DigitRunOfDigits(t, [], false);
      assert t + [] == t;
    }
  }

  /** `Number(v)`. An array converts through its comma-joined string form. */
  function ToNumber(v: JsValue): (r: JsNumber)
    ensures !Truthy(v) && v != Undefined && v != Number(NaN) ==> r == Finite(0.0)
    ensures v.Number? ==> r == v.n
    ensures v.Arr? && |v.items| == 1 && v.items[0].Number? ==> r == v.items[0].n
    ensures v.Arr? && |v.items| > 1 ==> r.NaN?
  {
    match v
    case Undefined => NaN
    case Null => Finite(0.0)
    case Bool(b) => Finite(if b then 1.0 else 0.0)
    case Number(n) => n
    case Str(s) => StringToNumber(s)
    case Arr(xs) =>
      if |xs| == 0 then Finite(0.0)
      else if |xs| > 1 then NaN // the joined form holds a comma
      else
        (match xs[0]
         case Undefined => Finite(0.0)
         case Null => Finite(0.0)
         case Bool(_) => NaN
         case Obj => NaN
         case _ => ToNumber(xs[0]))
    case Obj => NaN
  }

  /** The value of `Number(v) || 0`. */
  function NumberOrZero(v: JsValue): real {
    match ToNumber(v)
    case Finite(x) => x
    case NaN => 0.0
  }

  /**
   * `parseInt(s)` with no radix: leading white space, an optional sign, an
   * optional `0x` prefix, then the longest run of digits. None stands for NaN.
   */
  function ParseInt(s: string): (r: Option<int>)
    ensures AllWhiteSpace(s) ==> r.None?
    ensures r.Some? && r.value < 0 ==> TrimStart(s) != [] && TrimStart(s)[0] == '-'
    ensures s != [] && IsDigit(s[0]) && (|s| < 2 || s[0] != '0' || (s[1] != 'x' && s[1] != 'X')) ==> r.Some?
  {
    LeadingDigitKept(s);
    var t := TrimStart(s);
    var neg := t != [] && t[0] == '-';
    var u := if t != [] && (t[0] == '-' || t[0] == '+') then t[1..] else t;
    var hex := |u| >= 2 && u[0] == '0' && (u[1] == 'x' || u[1] == 'X');
    var ds := if hex then u[2..] else u;
    var k := DigitRun(ds, hex);
    if k == 0 then None
    else
      var n: int := DigitsValue(ds[..k], hex);
      Some(if neg then -n else n)
  }

  /** A string that starts with a digit is its own trimStart and opens with a digit run. */
  lemma LeadingDigitKept(s: string)
    ensures s != [] && IsDigit(s[0]) ==> TrimStart(s) == s && DigitRun(s, false) > 0
  {
  }

  /** The value of `parseInt(s) || 0`. */
  function ParseIntOrZero(s: string): int {
    ParseInt(s).GetOr(0)
  }

  /** parseInt on a string that starts with a digit and no `0x` reads its leading digit run. */
  lemma ParseIntOfDigitRun(s: string)
    requires s != [] && IsDigit(s[0])
    requires |s| >= 2 && s[0] == '0' ==> s[1] != 'x' && s[1] != 'X'
    ensures DigitRun(s, false) > 0
    ensures ParseInt(s) == Some(DigitsValue(s[..DigitRun(s, false)], false))
  {
    assert !IsWhiteSpace(s[0]);
    var t := TrimStart(s);
    assert t == s;
    assert !(t[0] == '-' || t[0] == '+');
    assert !(|t| >= 2 && t[0] == '0' && (t[1] == 'x' || t[1] == 'X'));
    var k := DigitRun(s, false);
    assert k > 0;
  }

  /** parseInt reads back the decimal form of a number, whatever non-digit text follows it. */
  lemma ParseIntOfDecimal(n: nat, rest: string)
    requires rest == [] || (!IsDigit(rest[0]) && rest[0] != 'x' && rest[0] != 'X')
    ensures ParseInt(NatToString(n) + rest) == Some(n)
  {
    var a := NatToString(n);
    var s := a + rest;
    assert s[0] == a[0];
    assert |s| >= 2 && s[0] == '0' ==> s[1] != 'x' && s[1] != 'X' by {
      if |s| >= 2 && s[0] == '0' {
        assert |a| == 1 && s[1] == rest[0];
      }
    }
    ParseIntOfDigitRun(s);
    DigitRunOfDigits(a, rest, false);
    assert s[..|a|] == a;
    NatToStringValue(n);
  }

  // ---------------------------------------------------------------------------
  // Case and substrings

  /**
   * `toLowerCase` on one character. Besides A-Z, the Kelvin sign and the
   * capital I with dot above are the only characters whose lower case holds
   * an ASCII letter.
   */
  function LowerChar(c: char): string {
    if 'A' <= c <= 'Z' then [(c as int + 32) as char]
    else if c == '\U{212A}' then "k"
    else if c == '\U{0130}' then "i\U{0307}"
    else [c]
  }

  function ToLower(s: string): string {
    if s == [] then [] else LowerChar(s[0]) + ToLower(s[1..])
  }

  /** `s.includes(sub)`: `sub` occurs in `s` at some position. */
  function Includes(s: string, sub: string): (r: bool)
    ensures r <==> exists i | 0 <= i <= |s| :: sub <= s[i..]
  {
    if sub <= s then
      assert sub <= s[0..];
      true
    else if s == [] then
      false
    else
      var r := Includes(s[1..], sub);
      assert r ==> exists i | 0 <= i <= |s| :: sub <= s[i..] by {
        if r {
          var j :| 0 <= j <= |s| - 1 && sub <= s[1..][j..];
          assert s[1..][j..] == s[j + 1..];
        }
      }
      assert (exists i | 0 <= i <= |s| :: sub <= s[i..]) ==> r by {
        assert s[0..] == s;
        forall i | 1 <= i <= |s| ensures s[i..] == s[1..][i - 1..] {}
      }
      r
  }

  /** Some keyword of `keywords` occurs in `s`. */
  function IncludesAny(s: string, keywords: seq<string>): bool {
    exists k | 0 <= k < |keywords| :: Includes(s, keywords[k])
  }
}
