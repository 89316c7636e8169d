/**
 * The pieces of JavaScript's string and number semantics that the storefront's
 * handlers, forms and selectors depend on: truthiness, String.prototype.trim,
 * startsWith, includes, toLowerCase (ASCII), parseInt / parseFloat in radix 10,
 * Number-to-string for naturals, and the code-point order of strings (the order
 * of Firestore document ids).
 */
module Js {
  import opened Wrappers

  /** A JavaScript value, as far as the storefront inspects one. NaN is not a
      `Num`: the parsers below answer None where JavaScript answers NaN. */
  datatype JsValue = Undefined | Null | Bool(b: bool) | Num(n: real) | Str(s: string)

  /** JavaScript truthiness. */
  predicate Truthy(v: JsValue)
  {
    match v
    case Undefined => false
    case Null => false
    case Bool(b) => b
    case Num(n) => n != 0.0
    case Str(s) => s != ""
  }

  /** `v === undefined || v === null` */
  predicate IsNullish(v: JsValue)
  {
    v.Undefined? || v.Null?
  }

  // ---------------------------------------------------------------------------
  // White space and trim
  // ---------------------------------------------------------------------------

  /** The characters String.prototype.trim removes: ECMAScript WhiteSpace
      (TAB, VT, FF, SP, NBSP, ZWNBSP and the Zs category) and LineTerminator. */
  predicate IsSpace(c: char)
  {
    || c == '\t' || c == '\n' || c == '\U{B}' || c == '\U{C}' || c == '\r' || c == ' '
    || c == '\U{A0}' || c == '\U{1680}' || ('\U{2000}' <= c <= '\U{200A}')
    || c == '\U{2028}' || c == '\U{2029}' || c == '\U{202F}' || c == '\U{205F}'
    || c == '\U{3000}' || c == '\U{FEFF}'
  }

  /** s without its leading white space. */
  function TrimStart(s: string): (r: string)
    ensures |r| <= |s|
  {
    if s != [] && IsSpace(s[0]) then TrimStart(s[1..]) else s
  }

  /** What trimStart removes is a run of white space, and what it keeps is the rest
      of s, starting with a non-space character. */
  lemma {:induction false} TrimStartShape(s: string)
    ensures var r := TrimStart(s);
      && r == s[|s| - |r|..]
      && (r == [] || !IsSpace(r[0]))
      && forall i :: 0 <= i < |s| - |r| ==> IsSpace(s[i])
  {
    if s != [] && IsSpace(s[0]) {
      TrimStartShape(s[1..]);
      var r := TrimStart(s);
      assert forall i :: 1 <= i < |s| - |r| ==> s[i] == s[1..][i - 1];
    }
  }

  /** s without its trailing white space. */
  function TrimEnd(s: string): (r: string)
    ensures |r| <= |s|
  {
    if s != [] && IsSpace(s[|s| - 1]) then TrimEnd(s[..|s| - 1]) else s
  }

  /** What trimEnd removes is a run of white space, and what it keeps is the start
      of s, ending with a non-space character. */
  lemma {:induction false} TrimEndShape(s: string)
    ensures var r := TrimEnd(s);
      && r == s[..|r|]
      && (r == [] || !IsSpace(r[|r| - 1]))
      && forall i :: |r| <= i < |s| ==> IsSpace(s[i])
  {
    if s != [] && IsSpace(s[|s| - 1]) {
      TrimEndShape(s[..|s| - 1]);
      var r := TrimEnd(s);
      assert forall i :: |r| <= i < |s| - 1 ==> s[i] == s[..|s| - 1][i];
    }
  }

  /** String.prototype.trim: the blank result is exactly the all-white-space input,
      and a non-blank result starts and ends with a non-space character. */
  function Trim(s: string): (r: string)
    ensures |r| <= |s|
    ensures r == [] <==> forall i :: 0 <= i < |s| ==> IsSpace(s[i])
    ensures r != [] ==> !IsSpace(r[0]) && !IsSpace(r[|r| - 1])
  {
    TrimBlank(s);
    TrimEdges(s);
    TrimEnd(TrimStart(s))
  }

  lemma TrimEdges(s: string)
    ensures var r := TrimEnd(TrimStart(s));
      |r| <= |s| && (r != [] ==> !IsSpace(r[0]) && !IsSpace(r[|r| - 1]))
  {
    var t := TrimStart(s);
    var r := TrimEnd(t);
    TrimStartShape(s);
    TrimEndShape(t);
    if r != [] {
      assert r[0] == t[0];
    }
  }

  lemma TrimBlank(s: string)
    ensures TrimEnd(TrimStart(s)) == [] <==> forall i :: 0 <= i < |s| ==> IsSpace(s[i])
  {
    var t := TrimStart(s);
    TrimStartShape(s);
    TrimEndShape(t);
    if t != [] {
      assert t[0] == s[|s| - |t|];
    }
  }

  /** Trimming twice is trimming once. */
  lemma TrimIdempotent(s: string)
    ensures Trim(Trim(s)) == Trim(s)
  {
    var r := Trim(s);
    if r != [] {
      assert TrimStart(r) == r;
      assert TrimEnd(r) == r;
    }
  }

  // ---------------------------------------------------------------------------
  // startsWith, includes, toLowerCase
  // ---------------------------------------------------------------------------

  /** String.prototype.startsWith */
  predicate StartsWith(s: string, prefix: string)
  {
    |prefix| <= |s| && s[..|prefix|] == prefix
  }

  /** String.prototype.includes */
  predicate Includes(haystack: string, needle: string)
    decreases |haystack|
  {
    StartsWith(haystack, needle) || (haystack != [] && Includes(haystack[1..], needle))
  }

  /** `includes` finds a needle exactly when it occurs at some offset. */
  lemma {:induction false} IncludesIff(haystack: string, needle: string)
    ensures Includes(haystack, needle) <==>
      exists k :: 0 <= k <= |haystack| - |needle| && StartsWith(haystack[k..], needle)
    decreases |haystack|
  {
    assert haystack[0..] == haystack;
    if haystack != [] {
      IncludesIff(haystack[1..], needle);
      if Includes(haystack[1..], needle) {
        var k :| 0 <= k <= |haystack[1..]| - |needle| && StartsWith(haystack[1..][k..], needle);
        assert haystack[1..][k..] == haystack[k + 1..];
      }
      if exists k :: 0 <= k <= |haystack| - |needle| && StartsWith(haystack[k..], needle) {
        var k :| 0 <= k <= |haystack| - |needle| && StartsWith(haystack[k..], needle);
        if k > 0 {
          assert haystack[1..][k - 1..] == haystack[k..];
        }
      }
    }
  }

  /** Lower-cases one character (ASCII letters only). */
  function LowerChar(c: char): char
  {
    if 'A' <= c <= 'Z' then (c as int + 32) as char else c
  }

  /** String.prototype.toLowerCase, restricted to ASCII letters. */
  function ToLower(s: string): (r: string)
    ensures |r| == |s|
    ensures forall i :: 0 <= i < |s| ==> r[i] == LowerChar(s[i])
  {
    if s == [] then [] else [LowerChar(s[0])] + ToLower(s[1..])
  }

  // ---------------------------------------------------------------------------
  // Numbers: decimal digits, parseInt, parseFloat, Number-to-string
  // ---------------------------------------------------------------------------

  predicate IsDigit(c: char)
  {
    '0' <= c <= '9'
  }

  predicate AllDigits(s: string)
  {
    forall i :: 0 <= i < |s| ==> IsDigit(s[i])
  }

  function DigitValue(c: char): nat
    requires IsDigit(c)
  {
    c as int - '0' as int
  }

  function DigitChar(d: nat): char
    requires d < 10
  {
    ('0' as int + d) as char
  }

  /** The longest prefix of s made of decimal digits. */
  function DigitPrefix(s: string): (r: string)
    ensures |r| <= |s| && r == s[..|r|]
    ensures AllDigits(r)
    ensures |r| < |s| ==> !IsDigit(s[|r|])
  {
    if s != [] && IsDigit(s[0]) then [s[0]] + DigitPrefix(s[1..]) else []
  }

  /** The value of a string of decimal digits, most significant digit first. */
  function DigitsValue(ds: string): nat
    requires AllDigits(ds)
  {
    if ds == [] then 0 else DigitsValue(ds[..|ds| - 1]) * 10 + DigitValue(ds[|ds| - 1])
  }

  /** Number.prototype.toString for a natural number. */
  function Decimal(n: nat): (r: string)
    ensures r != [] && AllDigits(r)
  {
    if n < 10 then [DigitChar(n)] else Decimal(n / 10) + [DigitChar(n % 10)]
  }

  /** Splits the optional sign off a string whose leading white space is gone. */
  function SignAndBody(t: string): (bool, string)
  {
    if t != [] && (t[0] == '-' || t[0] == '+') then (t[0] == '-', t[1..]) else (false, t)
  }

  /** parseInt(s) with radix 10: leading white space, an optional sign, then the
      longest run of digits; None where JavaScript gives NaN. */
  function ParseInt(s: string): Option<int>
  {
    var (negative, body) := SignAndBody(TrimStart(s));
    var ds := DigitPrefix(body);
    if ds == [] then None
    else Some(if negative then -(DigitsValue(ds) as int) else DigitsValue(ds))
  }

  /** parseFloat(s): leading white space, an optional sign, digits with an optional
      fraction; None where JavaScript gives NaN. */
  function ParseFloat(s: string): Option<real>
  {
    var (negative, body) := SignAndBody(TrimStart(s));
    var whole := DigitPrefix(body);
    var rest := body[|whole|..];
    var fraction := FractionDigits(rest);
    if whole == [] && fraction == [] then None
    else
      var m := DecimalNumber(whole, fraction);
      Some(if negative then -m else m)
  }

  /** The digits after a decimal point that starts `rest`, if any. */
  function FractionDigits(rest: string): (f: string)
    ensures AllDigits(f)
  {
    if rest != [] && rest[0] == '.' then DigitPrefix(rest[1..]) else []
  }

  /** x divided by 10 k times: the value of k places after the decimal point. */
  function Shift(x: real, k: nat): real
  {
    if k == 0 then x else Shift(x, k - 1) / 10.0
  }

  /** The number written `whole.fraction`. */
  function DecimalNumber(whole: string, fraction: string): real
    requires AllDigits(whole) && AllDigits(fraction)
  {
    DigitsValue(whole) as real + Shift(DigitsValue(fraction) as real, |fraction|)
  }

  /** Truncation toward zero, what parseInt does to a number. */
  function Trunc(x: real): int
  {
    if x >= 0.0 then x.Floor else -((-x).Floor)
  }

  /** parseFloat applied to any value. */
  function ParseFloatOf(v: JsValue): Option<real>
  {
    match v
    case Str(s) => ParseFloat(s)
    case Num(n) => Some(n)
    case _ => None
  }

  /** parseInt applied to any value. */
  function ParseIntOf(v: JsValue): Option<int>
  {
    match v
    case Str(s) => ParseInt(s)
    case Num(n) => Some(Trunc(n))
    case _ => None
  }

  lemma {:induction false} DecimalValue(n: nat)
    ensures DigitsValue(Decimal(n)) == n
    decreases n
  {
    if n >= 10 {
      DecimalValue(n / 10);
      var r := Decimal(n);
      assert r[..|r| - 1] == Decimal(n / 10);
    }
  }

  lemma {:induction false} DigitPrefixOfDigits(ds: string)
    requires AllDigits(ds)
    ensures DigitPrefix(ds) == ds
  {
    if ds != [] {
      DigitPrefixOfDigits(ds[1..]);
    }
  }

  /** parseInt reads back what Number-to-string writes, for either sign. */
  lemma ParseIntDecimal(n: nat)
    ensures ParseInt(Decimal(n)) == Some(n)
    ensures ParseInt("-" + Decimal(n)) == Some(-(n as int))
  {
    var d := Decimal(n);
    DecimalValue(n);
    DigitPrefixOfDigits(d);
    assert TrimStart(d) == d by { assert !IsSpace(d[0]); }
    var m := "-" + d;
    assert TrimStart(m) == m by { assert !IsSpace(m[0]); }
    assert m[1..] == d;
  }

  /** parseFloat reads back what Number-to-string writes for a natural number. */
  lemma ParseFloatDecimal(n: nat)
    ensures ParseFloat(Decimal(n)) == Some(n as real)
  {
    var d := Decimal(n);
    DecimalValue(n);
    DigitPrefixOfDigits(d);
    assert TrimStart(d) == d by { assert !IsSpace(d[0]); }
    assert SignAndBody(d) == (false, d);
    assert d[|d|..] == [];
    assert FractionDigits([]) == [];
    assert DecimalNumber(d, []) == n as real;
  }

  /** A number keeps its integer value under parseInt. */
  lemma TruncOfInt(k: int)
    ensures Trunc(k as real) == k
  {
  }

  // ---------------------------------------------------------------------------
  // Code-point order of strings
  // ---------------------------------------------------------------------------

  /** a strictly precedes b in code-point lexicographic order. */
  predicate Before(a: string, b: string)
    decreases |a|
  {
    b != [] && (a == [] || a[0] < b[0] || (a[0] == b[0] && Before(a[1..], b[1..])))
  }

  lemma {:induction false} BeforeIrreflexive(a: string)
    ensures !Before(a, a)
    decreases |a|
  {
    if a != [] {
      BeforeIrreflexive(a[1..]);
    }
  }

  lemma {:induction false} BeforeTransitive(a: string, b: string, c: string)
    requires Before(a, b) && Before(b, c)
    ensures Before(a, c)
    decreases |a|
  {
    if a != [] && a[0] == b[0] && b[0] == c[0] {
      BeforeTransitive(a[1..], b[1..], c[1..]);
    }
  }

  lemma {:induction false} BeforeTotal(a: string, b: string)
    requires a != b
    ensures Before(a, b) || Before(b, a)
    decreases |a|
  {
    if a != [] && b != [] && a[0] == b[0] {
      BeforeTotal(a[1..], b[1..]);
    }
  }

  lemma BeforeAsymmetric(a: string, b: string)
    requires Before(a, b)
    ensures !Before(b, a)
  {
    if Before(b, a) {
      BeforeTransitive(a, b, a);
      BeforeIrreflexive(a);
    }
  }

  /** Every finite non-empty set of strings has a least element. */
  lemma {:induction false} LeastExists(s: set<string>) returns (m: string)
    requires s != {}
    ensures m in s && forall x :: x in s && x != m ==> Before(m, x)
    decreases |s|
  {
    var x :| x in s;
    if s == {x} {
      m := x;
    } else {
      var m' := LeastExists(s - {x});
      if Before(x, m') {
        m := x;
        forall y | y in s && y != m
          ensures Before(m, y)
        {
          if y != m' {
            BeforeTransitive(x, m', y);
          }
        }
      } else {
        BeforeTotal(x, m');
        m := m';
      }
    }
  }
}
