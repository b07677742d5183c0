/**
 * JavaScript values as the dashboard's TypeScript code handles them, with the
 * coercions that code relies on: truthiness, `a || b`, property reads,
 * `Number(v)`, `parseInt(s, 10)`, `String(v)` and `s.trim()`.
 *
 * Numbers are the integers plus NaN; fractions, infinities and -0 are not
 * represented (see README, "Left out").
 */
module JsValues {

  datatype Value =
    | Undefined
    | Null
    | Bool(b: bool)
    | Num(n: int)
    | NaN
    | Str(s: string)
    | Arr(elems: seq<Value>)
    | Obj(fields: map<string, Value>)

  /** An object literal: property name to value (property order is not modelled). */
  type Record = map<string, Value>

  /** JavaScript truthiness: false, 0, NaN, "", null and undefined are falsy. */
  predicate Truthy(v: Value)
  {
    match v
    case Undefined => false
    case Null => false
    case Bool(b) => b
    case Num(n) => n != 0
    case NaN => false
    case Str(s) => s != ""
    case Arr(_) => true
    case Obj(_) => true
  }

  predicate Nullish(v: Value)
  {
    v.Undefined? || v.Null?
  }

  predicate IsNumber(v: Value)
  {
    v.Num? || v.NaN?
  }

  /** `a || b` */
  function Or(a: Value, b: Value): Value
  {
    if Truthy(a) then a else b
  }

  /** `r.k` on an object literal; a missing property reads as undefined. */
  function Lookup(r: Record, k: string): Value
  {
    if k in r then r[k] else Undefined
  }

  /** `v.k` on a value that is not null or undefined (reading a property of
      those throws a TypeError, which the callers model where it happens). */
  function Field(v: Value, k: string): Value
  {
    match v
    case Obj(m) => Lookup(m, k)
    case Arr(xs) => if k == "length" then Num(|xs|) else Undefined
    case Str(s) => if k == "length" then Num(|s|) else Undefined
    case _ => Undefined
  }

  /** The properties `{...v}` copies from an object. For other values the
      result is empty: the index keys a string or an array would give are
      left out, as results are only read at named keys. */
  function Spread(v: Value): Record
  {
    if v.Obj? then v.fields else map[]
  }

  // ---------------------------------------------------------------------------
  // Characters and digit strings

  /** ECMAScript WhiteSpace and LineTerminator code points (what `trim` and
      `parseInt` skip). */
  predicate IsSpace(c: char)
  {
    || c == ' ' || c == '\t' || c == '\n' || c == '\r' || c == '\U{B}' || c == '\U{C}'
    || c == '\U{A0}' || c == '\U{1680}' || ('\U{2000}' <= c <= '\U{200A}')
    || c == '\U{2028}' || c == '\U{2029}' || c == '\U{202F}' || c == '\U{205F}'
    || c == '\U{3000}' || c == '\U{FEFF}'
  }

  predicate AllSpace(s: string)
  {
    forall i :: 0 <= i < |s| ==> IsSpace(s[i])
  }

  function TrimStart(s: string): string
  {
    if s != [] && IsSpace(s[0]) then TrimStart(s[1..]) else s
  }

  function TrimEnd(s: string): string
  {
    if s != [] && IsSpace(s[|s| - 1]) then TrimEnd(s[..|s| - 1]) else s
  }

  /** `s.trim()` */
  function Trim(s: string): string
  {
    TrimEnd(TrimStart(s))
  }

  predicate IsDigit(c: char)
  {
    '0' <= c <= '9'
  }

  predicate AllDigits(s: string)
  {
    forall i :: 0 <= i < |s| ==> IsDigit(s[i])
  }

  function DigitValue(c: char): nat
    requires IsDigit(c)
  {
    (c as int) - ('0' as int)
  }

  function DigitChar(d: nat): char
    requires d < 10
  {
    (('0' as int) + d) as char
  }

  /** The number a string of decimal digits denotes. */
  function DigitsValue(s: string): nat
    requires AllDigits(s)
  {
    if s == [] then 0 else DigitsValue(s[..|s| - 1]) * 10 + DigitValue(s[|s| - 1])
  }

  /** The decimal digits of `n`, most significant first, without leading zeros. */
  function NatToDigits(n: nat): string
  {
    if n < 10 then [DigitChar(n)] else NatToDigits(n / 10) + [DigitChar(n % 10)]
  }

  /** The length of the run of decimal digits that `s` starts with. */
  function DigitRun(s: string): nat
  {
    if s != [] && IsDigit(s[0]) then 1 + DigitRun(s[1..]) else 0
  }

  // ---------------------------------------------------------------------------
  // Conversions

  /** `String(n)` for an integer. */
  function IntToString(n: int): string
  {
    if n < 0 then "-" + NatToDigits(-n) else NatToDigits(n)
  }

  /** `parseInt(s, 10)`: leading white space, an optional sign, then the
      longest run of decimal digits; NaN when there is no digit. */
  function ParseInt(s: string): (r: Value)
    ensures IsNumber(r)
  {
    var t := TrimStart(s);
    var negative := t != [] && t[0] == '-';
    var rest := if t != [] && (t[0] == '-' || t[0] == '+') then t[1..] else t;
    var k := DigitRun(rest);
    DigitRunPrefix(rest);
    if k == 0 then NaN
    else Num(if negative then -(DigitsValue(rest[..k]) as int) else DigitsValue(rest[..k]))
  }

  /** `Number(s)` for a string: an optionally signed run of decimal digits with
      white space around it; a string of white space only is 0; anything else
      is NaN (decimal fractions, exponents, hexadecimal and "Infinity" are not
      represented). */
  function StringToNumber(s: string): Value
  {
    var t := Trim(s);
    if t == "" then Num(0)
    else
      var negative := t[0] == '-';
      var rest := if t[0] == '-' || t[0] == '+' then t[1..] else t;
      if rest != "" && AllDigits(rest) then
        Num(if negative then -(DigitsValue(rest) as int) else DigitsValue(rest))
      else NaN
  }

  /** `Number(v)`; arrays and objects read as NaN. */
  function ToNumber(v: Value): (r: Value)
    ensures IsNumber(r)
  {
    match v
    case Undefined => NaN
    case Null => Num(0)
    case Bool(b) => Num(if b then 1 else 0)
    case Num(_) => v
    case NaN => NaN
    case Str(s) => StringToNumber(s)
    case Arr(_) => NaN
    case Obj(_) => NaN
  }

  /** `String(v)`, also what a template literal `${v}` inserts. */
  function ToStr(v: Value): string
  {
    match v
    case Undefined => "undefined"
    case Null => "null"
    case Bool(b) => if b then "true" else "false"
    case Num(n) => IntToString(n)
    case NaN => "NaN"
    case Str(s) => s
    case Arr(xs) =>
      Join(seq(|xs|, i requires 0 <= i < |xs| => if Nullish(xs[i]) then "" else ToStr(xs[i])), ",")
    case Obj(_) => "[object Object]"
  }

  function Join(parts: seq<string>, sep: string): string
  {
    if parts == [] then ""
    else if |parts| == 1 then parts[0]
    else parts[0] + sep + Join(parts[1..], sep)
  }

  // ---------------------------------------------------------------------------
  // Lemmas

  lemma {:induction false} DigitRunPrefix(s: string)
    ensures DigitRun(s) <= |s| && AllDigits(s[..DigitRun(s)])
    ensures DigitRun(s) < |s| ==> !IsDigit(s[DigitRun(s)])
  {
    if s != [] && IsDigit(s[0]) {
      DigitRunPrefix(s[1..]);
      assert s[..DigitRun(s)] == [s[0]] + s[1..][..DigitRun(s[1..])];
    }
  }

  lemma {:induction false} DigitRunOfDigits(s: string)
    requires AllDigits(s)
    ensures DigitRun(s) == |s|
  {
    if s != [] {
      DigitRunOfDigits(s[1..]);
    }
  }

  /** The digits of a natural number are a non-empty digit string denoting it. */
  lemma {:induction false} NatToDigitsDenotes(n: nat)
    ensures NatToDigits(n) != [] && AllDigits(NatToDigits(n))
    ensures DigitsValue(NatToDigits(n)) == n
  {
    if n >= 10 {
      NatToDigitsDenotes(n / 10);
      var d := NatToDigits(n);
      assert d[..|d| - 1] == NatToDigits(n / 10);
    }
  }

  /** `parseInt(String(n), 10) == n` for every integer. */
  lemma ParseIntOfIntToString(n: int)
    ensures ParseInt(IntToString(n)) == Num(n)
  {
    var m: nat := if n < 0 then -n else n;
    var d := NatToDigits(m);
    NatToDigitsDenotes(m);
    DigitRunOfDigits(d);
    var t := IntToString(n);
    assert !IsSpace(t[0]);
    assert TrimStart(t) == t;
    var rest := if t[0] == '-' || t[0] == '+' then t[1..] else t;
    assert rest == d;
    assert rest[..DigitRun(rest)] == d;
  }

  /** `Number(String(n)) == n` for every integer. */
  lemma NumberOfIntToString(n: int)
    ensures ToNumber(Str(IntToString(n))) == Num(n)
  {
    var m: nat := if n < 0 then -n else n;
    var d := NatToDigits(m);
    NatToDigitsDenotes(m);
    var t := IntToString(n);
    assert !IsSpace(t[0]);
    assert TrimStart(t) == t;
    assert !IsSpace(t[|t| - 1]) by {
      assert t[|t| - 1] == d[|d| - 1];
    }
    assert Trim(t) == t;
  }

  /** `String(n)` is never empty, so it is always truthy as a string. */
  lemma IntToStringNonEmpty(n: int)
    ensures IntToString(n) != ""
  {
    NatToDigitsDenotes(if n < 0 then -n else n);
  }

  /** `s.trim() === ''` exactly when `s` is white space only. */
  lemma {:induction false} TrimEmptyIffAllSpace(s: string)
    ensures Trim(s) == "" <==> AllSpace(s)
  {
    TrimStartSuffix(s);
    var t := TrimStart(s);
    TrimEndPrefix(t);
    if AllSpace(s) {
      TrimStartOfSpace(s);
    } else {
      var i :| 0 <= i < |s| && !IsSpace(s[i]);
      if t == "" {
        TrimStartOnlySkipsSpace(s, i);
      } else {
        assert !IsSpace(t[0]);
        assert TrimEnd(t) != "" by { TrimEndKeepsNonSpace(t); }
      }
    }
  }

  lemma {:induction false} TrimStartSuffix(s: string)
    ensures |TrimStart(s)| <= |s| && TrimStart(s) == s[|s| - |TrimStart(s)|..]
    ensures TrimStart(s) != "" ==> !IsSpace(TrimStart(s)[0])
  {
    if s != [] && IsSpace(s[0]) {
      TrimStartSuffix(s[1..]);
    }
  }

  lemma {:induction false} TrimEndPrefix(s: string)
    ensures |TrimEnd(s)| <= |s| && TrimEnd(s) == s[..|TrimEnd(s)|]
  {
    if s != [] && IsSpace(s[|s| - 1]) {
      TrimEndPrefix(s[..|s| - 1]);
    }
  }

  lemma {:induction false} TrimStartOfSpace(s: string)
    requires AllSpace(s)
    ensures TrimStart(s) == ""
  {
    if s != [] {
      TrimStartOfSpace(s[1..]);
    }
  }

  lemma {:induction false} TrimStartOnlySkipsSpace(s: string, i: nat)
    requires i < |s| && !IsSpace(s[i])
    ensures TrimStart(s) != ""
  {
    if IsSpace(s[0]) {
      TrimStartOnlySkipsSpace(s[1..], i - 1);
    }
  }

  lemma {:induction false} TrimEndKeepsNonSpace(s: string)
    requires s != [] && !IsSpace(s[0])
    ensures TrimEnd(s) != ""
  {
    if IsSpace(s[|s| - 1]) {
      TrimEndKeepsNonSpace(s[..|s| - 1]);
    }
  }
}
