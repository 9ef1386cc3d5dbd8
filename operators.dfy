/**
  The comparator table of the trigger node (`OPERATORS` in
  public/js/node-red-openhab-v2-operators.js): six comparators keyed by name,
  and the trigger engine's fall-back to an always-false comparator for a key
  the table does not define.
*/
module Operators {
  import opened Wrappers
  import opened JsValues

  datatype Operator = Eq | Neq | Lt | Lte | Gt | Gte

  /** The keys the frozen table defines. */
  const Keys: set<string> := {"eq", "neq", "lt", "lte", "gt", "gte"}

  /** `OPERATORS[key]`, restricted to the table's own keys. */
  function Lookup(key: string): (r: Option<Operator>)
    ensures r.Some? <==> key in Keys
    ensures r == Some(Eq) <==> key == "eq"
    ensures r == Some(Neq) <==> key == "neq"
    ensures r == Some(Lt) <==> key == "lt"
    ensures r == Some(Lte) <==> key == "lte"
    ensures r == Some(Gt) <==> key == "gt"
    ensures r == Some(Gte) <==> key == "gte"
  {
    if key == "eq" then Some(Eq)
    else if key == "neq" then Some(Neq)
    else if key == "lt" then Some(Lt)
    else if key == "lte" then Some(Lte)
    else if key == "gt" then Some(Gt)
    else if key == "gte" then Some(Gte)
    else None
  }

  /** JavaScript's Abstract Relational Comparison `a < b`: two strings compare
      lexicographically, everything else as numbers; None is JavaScript's
      `undefined` outcome (a NaN operand). */
  function LessThan(a: JsValue, b: JsValue): Option<bool> {
    var pa := ToPrimitive(a);
    var pb := ToPrimitive(b);
    if pa.Str? && pb.Str? then Some(StrLess(pa.s, pb.s))
    else
      match ToNumber(pa)
      case None => None
      case Some(x) =>
        match ToNumber(pb)
        case None => None
        case Some(y) => Some(x < y)
  }

  /** The `method` of each table entry: `===`, `!==`, `<`, `<=`, `>`, `>=`. */
  predicate Apply(op: Operator, a: JsValue, b: JsValue) {
    match op
    case Eq => a == b
    case Neq => a != b
    case Lt => LessThan(a, b) == Some(true)
    case Lte => LessThan(b, a) == Some(false)
    case Gt => LessThan(b, a) == Some(true)
    case Gte => LessThan(a, b) == Some(false)
  }

  /** `condition.compare(a, b)` as the trigger engine resolves it: the table's
      method for a known key, `_ => false` for any other key. */
  predicate Compare(key: string, a: JsValue, b: JsValue) {
    match Lookup(key)
    case Some(op) => Apply(op, a, b)
    case None => false
  }

  lemma UnknownKeyIsFalse(key: string, a: JsValue, b: JsValue)
    requires key !in Keys
    ensures !Compare(key, a, b)
  {
  }

  lemma NeqIsNotEq(a: JsValue, b: JsValue)
    ensures Compare("neq", a, b) == !Compare("eq", a, b)
    ensures Compare("eq", a, b) <==> a == b
  {
  }

  lemma GtIsFlippedLt(a: JsValue, b: JsValue)
    ensures Compare("gt", a, b) == Compare("lt", b, a)
    ensures Compare("gte", a, b) == Compare("lte", b, a)
  {
    assert Lookup("gt") == Some(Gt) && Lookup("lt") == Some(Lt);
    assert Lookup("gte") == Some(Gte) && Lookup("lte") == Some(Lte);
  }

  /** On two integers the non-strict comparators are the strict ones or equality. */
  lemma NumberOrdering(x: int, y: int)
    ensures Compare("lte", Num(x), Num(y)) == (Compare("lt", Num(x), Num(y)) || Compare("eq", Num(x), Num(y)))
    ensures Compare("gte", Num(x), Num(y)) == (Compare("gt", Num(x), Num(y)) || Compare("eq", Num(x), Num(y)))
    ensures Compare("lt", Num(x), Num(y)) <==> x < y
  {
  }

  /** The same holds for two strings, where it rests on the lexicographic order being total. */
  lemma {:induction false} StringOrdering(x: string, y: string)
    ensures Compare("lte", Str(x), Str(y)) == (Compare("lt", Str(x), Str(y)) || Compare("eq", Str(x), Str(y)))
    ensures Compare("gte", Str(x), Str(y)) == (Compare("gt", Str(x), Str(y)) || Compare("eq", Str(x), Str(y)))
  {
    StrLessTotal(x, y);
    StrLessIrreflexive(x);
    if StrLess(x, y) { StrLessAsymmetric(x, y); }
    if StrLess(y, x) { StrLessAsymmetric(y, x); }
  }

  /** `lt` on strings is a strict order: irreflexive and transitive. */
  lemma StringLtIsStrictOrder(x: string, y: string, z: string)
    ensures !Compare("lt", Str(x), Str(x))
    ensures Compare("lt", Str(x), Str(y)) && Compare("lt", Str(y), Str(z)) ==> Compare("lt", Str(x), Str(z))
  {
    StrLessIrreflexive(x);
    if StrLess(x, y) && StrLess(y, z) { StrLessTransitive(x, y, z); }
  }

  /** An undefined operand is NaN, so every ordering comparator is false. */
  lemma UndefinedNeverOrders(a: JsValue)
    ensures !Compare("lt", Undefined, a) && !Compare("lte", Undefined, a)
    ensures !Compare("gt", Undefined, a) && !Compare("gte", Undefined, a)
  {
  }

  /** A state string of digits is ordered against a number operand as the
      number it spells, while `eq` stays strict: the string is never equal to
      the number. */
  lemma DigitStringAgainstNumber(d: string, n: int)
    requires AllDigits(d)
    ensures Compare("gt", Str(d), Num(n)) <==> DigitsValue(d) > n
    ensures Compare("lt", Str(d), Num(n)) <==> DigitsValue(d) < n
    ensures !Compare("eq", Str(d), Num(n))
  {
    DigitStringToNumber(d);
    NumericStringGt(d, n, DigitsValue(d));
    NumericStringLt(d, n, DigitsValue(d));
    assert Lookup("eq") == Some(Eq);
  }

  /** A numeric string is ordered against a number by its value. */
  lemma NumericStringGt(d: string, n: int, v: int)
    requires StringToNumber(d) == Some(v)
    ensures Compare("gt", Str(d), Num(n)) <==> v > n
  {
    PrimitiveOperands(d, n, v);
    MixedOperandsCompareAsNumbers(Num(n), Str(d), n, v);
    assert Lookup("gt") == Some(Gt);
  }

  lemma NumericStringLt(d: string, n: int, v: int)
    requires StringToNumber(d) == Some(v)
    ensures Compare("lt", Str(d), Num(n)) <==> v < n
  {
    PrimitiveOperands(d, n, v);
    MixedOperandsCompareAsNumbers(Str(d), Num(n), v, n);
    assert Lookup("lt") == Some(Lt);
  }

  lemma PrimitiveOperands(d: string, n: int, v: int)
    requires StringToNumber(d) == Some(v)
    ensures ToPrimitive(Str(d)) == Str(d) && ToPrimitive(Num(n)) == Num(n)
    ensures ToNumber(Str(d)) == Some(v) && ToNumber(Num(n)) == Some(n)
  {
  }

  /** Unless both operands are strings, `<` compares their numeric values. */
  lemma MixedOperandsCompareAsNumbers(a: JsValue, b: JsValue, x: int, y: int)
    requires !(ToPrimitive(a).Str? && ToPrimitive(b).Str?)
    requires ToNumber(ToPrimitive(a)) == Some(x) && ToNumber(ToPrimitive(b)) == Some(y)
    ensures LessThan(a, b) == Some(x < y)
  {
  }

  /** For any two operands, when `a < b` holds, `b < a` is false rather than
      undefined: so `lte(a, b)` holds and `lt(b, a)` does not, whatever mix of
      strings, numbers and objects the comparators are given. */
  lemma {:induction false} LessThanAsymmetric(a: JsValue, b: JsValue)
    requires LessThan(a, b) == Some(true)
    ensures LessThan(b, a) == Some(false)
  {
    var pa := ToPrimitive(a);
    var pb := ToPrimitive(b);
    if pa.Str? && pb.Str? {
      StrLessAsymmetric(pa.s, pb.s);
    } else {
      var x := ToNumber(pa).value;
      var y := ToNumber(pb).value;
      assert LessThan(b, a) == Some(y < x);
    }
  }
}
