/** The slice of JavaScript value semantics the fund views rely on: the
    values a JSON payload or a parsed input can hold, truthiness of strings,
    and the relational operators `<` / `>` with their numeric coercion. */
module JsValues {

  datatype Option<+T> = None | Some(value: T)

  /** A JavaScript value as it can appear in a fund record, a return entry
      or an edited input. `NaN` is what `parseFloat` yields for text that is
      not a number. Numbers are modelled as exact reals. */
  datatype Value = Null | Undef | NaN | Num(n: real) | Str(s: string)

  /** A return entry's value: a (nullable) number, never a string. */
  type Amount = v: Value | !v.Str? witness Null

  /** JavaScript truthiness of an optional string (`null`/`undefined` and
      `""` are falsy). */
  predicate Truthy(s: Option<string>)
  {
    s.Some? && s.value != ""
  }

  /** `a || b` on two optional strings. */
  function Or(a: Option<string>, b: Option<string>): (r: Option<string>)
    ensures r == a || r == b
    ensures Truthy(r) <==> Truthy(a) || Truthy(b)
  {
    if Truthy(a) then a else b
  }

  /** The numeric coercion applied by `<` when the operands are not both
      strings; `None` stands for NaN. `null` becomes 0. A string meeting a
      non-string is taken as non-numeric (as every fund code and name is). */
  function ToNumber(v: Value): Option<real>
  {
    match v
    case Null => Some(0.0)
    case Num(x) => Some(x)
    case _ => None
  }

  /** `a < b` for operands that are not both strings. */
  predicate Less(a: Value, b: Value)
  {
    ToNumber(a).Some? && ToNumber(b).Some? && ToNumber(a).value < ToNumber(b).value
  }

  /** `a > b`, which JavaScript evaluates as `b < a`. */
  predicate Greater(a: Value, b: Value)
  {
    Less(b, a)
  }

  /** At most one of `a < b` and `a > b` holds, and neither holds when an
      operand coerces to NaN. */
  lemma LessAsymmetric(a: Value, b: Value)
    ensures !(Less(a, b) && Greater(a, b))
    ensures (ToNumber(a).None? || ToNumber(b).None?) ==> !Less(a, b) && !Greater(a, b)
  {
  }
}
