/** The values a numeric property of a JavaScript object can hold, as far as
    the signal engine observes them.

    A property that was never assigned reads as `undefined`, which is NOT the
    same as `null`: the rule guards of the signal synthesiser test `!== null`,
    so an absent property passes them. Every relational comparison involving
    `undefined` or `NaN` is false, while `null` is coerced to 0. Truthiness
    treats 0, `null`, `undefined` and `NaN` as false. */
module JsValues {
  import opened Wrappers

  datatype Num = Undefined | Null | NaN | Finite(v: real)

  /** JavaScript truthiness of a numeric slot (`if (x)`, `x || d`, `x && y`). */
  predicate Truthy(x: Num) {
    x.Finite? && x.v != 0.0
  }

  /** The strict test `x !== null`. */
  predicate NotNull(x: Num) {
    x != Null
  }

  /** The number a relational operator sees: `null` becomes 0, `undefined`
      becomes NaN. */
  function ToNumber(x: Num): Num {
    match x
    case Undefined => NaN
    case Null => Finite(0.0)
    case NaN => NaN
    case Finite(v) => x
  }

  /** `a < b` on two numeric slots. */
  predicate Less(a: Num, b: Num) {
    var x, y := ToNumber(a), ToNumber(b);
    x.Finite? && y.Finite? && x.v < y.v
  }

  /** `a > b` on two numeric slots. */
  predicate Greater(a: Num, b: Num) {
    Less(b, a)
  }

  /** `x || d`: the slot's number when it is truthy, otherwise `d`. */
  function OrElse(x: Num, d: real): (r: real)
    ensures x.Finite? ==> (r == x.v || (x.v == 0.0 && r == d))
    ensures !x.Finite? ==> r == d
  {
    if Truthy(x) then x.v else d
  }

  /** The slot a helper's result lands in: a number, or `null`. */
  function FromOption(o: Option<real>): Num {
    match o
    case Some(v) => Finite(v)
    case None => Null
  }


  /** JavaScript truthiness of an optional string property: present and
      non-empty. */
  predicate Present(s: Option<string>) {
    s.Some? && |s.value| > 0
  }

  /** `s || d` on an optional string property. */
  function StringOr(s: Option<string>, d: string): (r: string)
    ensures Present(s) ==> r == s.value
    ensures !Present(s) ==> r == d
  {
    if Present(s) then s.value else d
  }
}
