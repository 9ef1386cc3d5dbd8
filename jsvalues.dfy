/**
  The slice of JavaScript's value model that the nodes depend on: values,
  truthiness, property access, the string builtins they call (slice, substring,
  substr, indexOf, lastIndexOf, trim, toUpperCase, toLowerCase, includes),
  String(), Number() and the loose equality `==`.

  Numbers are integers; objects are compared by their contents (JavaScript
  compares them by identity). Exceptions that JavaScript would throw are
  reported as `Err(TypeError)`.
*/
module JsValues {
  import opened Wrappers

  datatype JsValue =
    | Undefined
    | Null
    | Bool(b: bool)
    | Num(n: int)
    | Str(s: string)
    | Arr(elems: seq<JsValue>)
    | Obj(fields: map<string, JsValue>)

  /** A JavaScript exception: reading a property of undefined or null,
      calling a method a value does not have, an undeclared identifier. */
  datatype JsError = TypeError | ReferenceError

  /** JavaScript's ToBoolean: false, 0, "", null and undefined are falsy. */
  predicate Truthy(v: JsValue) {
    match v
    case Undefined => false
    case Null => false
    case Bool(b) => b
    case Num(n) => n != 0
    case Str(s) => s != ""
    case Arr(_) => true
    case Obj(_) => true
  }

  /** `v[key]`: throws on undefined and null, looks the key up in an object,
      and is undefined on every other value. */
  function Prop(v: JsValue, key: string): (r: Result<JsValue, JsError>)
    ensures r.Err? <==> v.Undefined? || v.Null?
    ensures v.Obj? && key !in v.fields ==> r == Ok(Undefined)
  {
    match v
    case Undefined => Err(TypeError)
    case Null => Err(TypeError)
    case Obj(m) => Ok(if key in m then m[key] else Undefined)
    case _ => Ok(Undefined)
  }

  // ---------------------------------------------------------------------------
  // String builtins
  // ---------------------------------------------------------------------------

  function Min(a: int, b: int): int { if a <= b then a else b }
  function Max(a: int, b: int): int { if a <= b then b else a }

  /** Clamps a relative index the way `String.prototype.slice` does. */
  function SliceIndex(i: int, len: nat): (r: nat)
    ensures r <= len
  {
    if i < 0 then Max(len + i, 0) else Min(i, len)
  }

  /** `s.slice(start, end)`. */
  function Slice(s: string, start: int, end: int): (r: string)
    ensures |r| <= |s|
    ensures r == s[SliceIndex(start, |s|)..Max(SliceIndex(start, |s|), SliceIndex(end, |s|))]
  {
    var from := SliceIndex(start, |s|);
    var to := SliceIndex(end, |s|);
    if from < to then s[from..to] else ""
  }

  /** `s.substring(start, end)`: both clamped to the string, then swapped when reversed. */
  function Substring(s: string, start: int, end: int): (r: string)
    ensures |r| <= |s|
  {
    var a := Min(Max(start, 0), |s|);
    var b := Min(Max(end, 0), |s|);
    s[Min(a, b)..Max(a, b)]
  }

  /** `s.substr(0, length)`: the first `length` characters, none when `length` is negative. */
  function Prefix(s: string, length: int): (r: string)
    ensures |r| == Min(Max(length, 0), |s|)
    ensures r <= s
  {
    s[..Min(Max(length, 0), |s|)]
  }

  /** `s.indexOf(c, from)` for a one-character search string. */
  function IndexOfFrom(s: string, c: char, from: int): (r: int)
    decreases |s| - Min(Max(from, 0), |s|)
    ensures -1 <= r < |s|
    ensures r >= 0 ==> Max(from, 0) <= r && s[r] == c
    ensures r >= 0 ==> forall k :: Max(from, 0) <= k < r ==> s[k] != c
    ensures r == -1 ==> forall k :: Max(from, 0) <= k < |s| ==> s[k] != c
  {
    var i := Min(Max(from, 0), |s|);
    if i == |s| then -1
    else if s[i] == c then i
    else IndexOfFrom(s, c, i + 1)
  }

  /** `s.lastIndexOf(c)` for a one-character search string. */
  function LastIndexOf(s: string, c: char): (r: int)
    ensures -1 <= r < |s|
    ensures r >= 0 ==> s[r] == c
    ensures forall k :: r < k < |s| ==> s[k] != c
  {
    if s == [] then -1
    else if s[|s| - 1] == c then |s| - 1
    else LastIndexOf(s[..|s| - 1], c)
  }

  /** `s.includes(sub)`. */
  predicate Contains(s: string, sub: string) {
    sub <= s || (s != [] && Contains(s[1..], sub))
  }

  /** The characters `String.prototype.trim` removes (WhiteSpace and LineTerminator). */
  predicate IsJsWhitespace(c: char) {
    c == ' ' || c == '\t' || c == '\n' || c == '\r' || c == '\U{B}' || c == '\U{C}'
    || c == '\U{A0}' || c == '\U{1680}' || ('\U{2000}' <= c <= '\U{200A}')
    || c == '\U{2028}' || c == '\U{2029}' || c == '\U{202F}' || c == '\U{205F}'
    || c == '\U{3000}' || c == '\U{FEFF}'
  }

  function TrimStart(s: string): (r: string)
    ensures |r| <= |s| && r == s[|s| - |r|..]
    ensures r != [] ==> !IsJsWhitespace(r[0])
    ensures forall k :: 0 <= k < |s| - |r| ==> IsJsWhitespace(s[k])
  {
    if s != [] && IsJsWhitespace(s[0]) then TrimStart(s[1..]) else s
  }

  function TrimEnd(s: string): (r: string)
    ensures |r| <= |s| && r == s[..|r|]
    ensures r != [] ==> !IsJsWhitespace(r[|r| - 1])
    ensures forall k :: |r| <= k < |s| ==> IsJsWhitespace(s[k])
  {
    if s != [] && IsJsWhitespace(s[|s| - 1]) then TrimEnd(s[..|s| - 1]) else s
  }

  /** `s.trim()`. */
  function Trim(s: string): (r: string)
    ensures |r| <= |s|
    ensures r != [] ==> !IsJsWhitespace(r[0]) && !IsJsWhitespace(r[|r| - 1])
  {
    TrimEnd(TrimStart(s))
  }

  function UpperChar(c: char): char {
    if 'a' <= c <= 'z' then (c as int - 32) as char else c
  }

  function LowerChar(c: char): char {
    if 'A' <= c <= 'Z' then (c as int + 32) as char else c
  }

  /** `s.toUpperCase()` on the ASCII letters. */
  function ToUpper(s: string): (r: string)
    ensures |r| == |s|
    ensures forall k :: 0 <= k < |s| ==> r[k] == UpperChar(s[k])
  {
    if s == [] then [] else [UpperChar(s[0])] + ToUpper(s[1..])
  }

  /** `s.toLowerCase()` on the ASCII letters. */
  function ToLower(s: string): (r: string)
    ensures |r| == |s|
    ensures forall k :: 0 <= k < |s| ==> r[k] == LowerChar(s[k])
  {
    if s == [] then [] else [LowerChar(s[0])] + ToLower(s[1..])
  }

  /** `a < b` on two strings: code-unit lexicographic order. */
  predicate StrLess(a: string, b: string) {
    if a == [] then b != []
    else if b == [] then false
    else if a[0] != b[0] then a[0] < b[0]
    else StrLess(a[1..], b[1..])
  }

  lemma {:induction false} StrLessIrreflexive(a: string)
    ensures !StrLess(a, a)
  {
    if a != [] { StrLessIrreflexive(a[1..]); }
  }

  lemma {:induction false} StrLessTransitive(a: string, b: string, c: string)
    requires StrLess(a, b) && StrLess(b, c)
    ensures StrLess(a, c)
  {
    if a != [] && b != [] && c != [] && a[0] == b[0] && b[0] == c[0] {
      StrLessTransitive(a[1..], b[1..], c[1..]);
    }
  }

  lemma {:induction false} StrLessTotal(a: string, b: string)
    ensures a == b || StrLess(a, b) || StrLess(b, a)
  {
    if a != [] && b != [] && a[0] == b[0] {
      StrLessTotal(a[1..], b[1..]);
      assert a == [a[0]] + a[1..] && b == [b[0]] + b[1..];
    }
  }

  lemma {:induction false} StrLessAsymmetric(a: string, b: string)
    requires StrLess(a, b)
    ensures !StrLess(b, a)
  {
    if a != [] && b != [] && a[0] == b[0] {
      StrLessAsymmetric(a[1..], b[1..]);
    }
  }

  // ---------------------------------------------------------------------------
  // Conversions
  // ---------------------------------------------------------------------------

  function DigitChar(d: nat): char
    requires d < 10
  {
    "0123456789"[d]
  }

  function NatToString(n: nat): (r: string)
    ensures r != []
  {
    if n < 10 then [DigitChar(n)] else NatToString(n / 10) + [DigitChar(n % 10)]
  }

  /** `String(n)` for an integer. */
  function IntToString(n: int): string {
    if n < 0 then "-" + NatToString(-n) else NatToString(n)
  }

  /** `String(v)`: arrays join their elements with ',' (undefined and null
      elements become ""), plain objects print as "[object Object]". */
  function ToStr(v: JsValue): string
    decreases v, 1
  {
    match v
    case Undefined => "undefined"
    case Null => "null"
    case Bool(b) => if b then "true" else "false"
    case Num(n) => IntToString(n)
    case Str(s) => s
    case Arr(es) => Join(es)
    case Obj(_) => "[object Object]"
  }

  function Join(es: seq<JsValue>): string
    decreases es, 0
  {
    if es == [] then ""
    else
      var prefix := Join(es[..|es| - 1]);
      var last := es[|es| - 1];
      var text := if last.Undefined? || last.Null? then "" else ToStr(last);
      if |es| == 1 then text else prefix + "," + text
  }

  predicate IsDigit(c: char) { '0' <= c <= '9' }

  function DigitsValue(d: string): nat
    requires forall k :: 0 <= k < |d| ==> IsDigit(d[k])
  {
    if d == [] then 0
    else
      assert IsDigit(d[|d| - 1]);
      10 * DigitsValue(d[..|d| - 1]) + (d[|d| - 1] as int - '0' as int)
  }

  predicate AllDigits(d: string) {
    d != [] && forall k :: 0 <= k < |d| ==> IsDigit(d[k])
  }

  /** `Number(s)` on a string, for decimal integer literals: surrounding white
      space is ignored, the empty string is 0, anything else is NaN (None). */
  function StringToNumber(s: string): (r: Option<int>)
    ensures Trim(s) == [] ==> r == Some(0)
  {
    var t := Trim(s);
    if t == [] then Some(0)
    else if AllDigits(t) then Some(DigitsValue(t))
    else if |t| > 1 && t[0] == '-' && AllDigits(t[1..]) then Some(0 - DigitsValue(t[1..]) as int)
    else if |t| > 1 && t[0] == '+' && AllDigits(t[1..]) then Some(DigitsValue(t[1..]))
    else None
  }

  lemma DigitsAreNotWhitespace(c: char)
    requires IsDigit(c)
    ensures !IsJsWhitespace(c)
  {
  }

  /** A string of decimal digits converts to the number it spells. */
  lemma DigitStringToNumber(d: string)
    requires AllDigits(d)
    ensures StringToNumber(d) == Some(DigitsValue(d))
  {
    DigitsAreNotWhitespace(d[0]);
    DigitsAreNotWhitespace(d[|d| - 1]);
    assert TrimStart(d) == d;
    assert TrimEnd(d) == d;
  }

  /** `Number(v)`; None stands for NaN. */
  function ToNumber(v: JsValue): Option<int> {
    match v
    case Undefined => None
    case Null => Some(0)
    case Bool(b) => Some(if b then 1 else 0)
    case Num(n) => Some(n)
    case Str(s) => StringToNumber(s)
    case _ => StringToNumber(ToStr(v))
  }

  predicate IsNullish(v: JsValue) { v.Undefined? || v.Null? }

  predicate IsObject(v: JsValue) { v.Arr? || v.Obj? }

  /** ToPrimitive for `==`: objects become their string form. */
  function ToPrimitive(v: JsValue): (r: JsValue)
    ensures !IsObject(r)
  {
    if IsObject(v) then Str(ToStr(v)) else v
  }

  /** Booleans compare as the numbers 0 and 1 under `==`. */
  function BoolAsNum(v: JsValue): (r: JsValue)
    ensures !r.Bool?
  {
    if v.Bool? then Num(if v.b then 1 else 0) else v
  }

  /** Loose equality between two defined, non-object values after booleans became numbers. */
  predicate LoosePrimitive(a: JsValue, b: JsValue)
    requires !IsNullish(a) && !IsNullish(b) && !IsObject(a) && !IsObject(b)
    requires !a.Bool? && !b.Bool?
  {
    match (a, b)
    case (Num(x), Num(y)) => x == y
    case (Str(x), Str(y)) => x == y
    case (Num(x), Str(y)) => StringToNumber(y) == Some(x)
    case (Str(x), Num(y)) => StringToNumber(x) == Some(y)
  }

  /** `a == b` (JavaScript's Abstract Equality Comparison). */
  predicate LooseEquals(a: JsValue, b: JsValue) {
    if IsNullish(a) || IsNullish(b) then IsNullish(a) && IsNullish(b)
    else if IsObject(a) && IsObject(b) then a == b
    else if a.Bool? && b.Bool? then a == b
    else LoosePrimitive(BoolAsNum(ToPrimitive(a)), BoolAsNum(ToPrimitive(b)))
  }

  lemma LooseEqualsSymmetric(a: JsValue, b: JsValue)
    ensures LooseEquals(a, b) == LooseEquals(b, a)
  {
  }

  lemma LooseEqualsReflexive(a: JsValue)
    ensures LooseEquals(a, a)
  {
  }
}
