/** What the Express routes see of a request and what they send back. */
module Web {

  datatype Option<T> = None | Some(value: T)

  /** A numeric field of a JSON request body as the routes' guards see it:
      absent (undefined, null or the empty string), present but not a number
      (`isNaN` holds), a JSON number, or a JSON string holding a plain
      decimal number, read as `value` (`"12"`, `"0"`, `"-3"`).
      The customer dashboard sends `cust_id` as such a string, straight from
      `localStorage`. */
  datatype Field<T> = Missing | NotANumber | Num(value: T) | Text(value: T)

  /** An HTTP status code with the `message` text of the JSON body. */
  datatype Response = Response(status: int, message: string)

  /** The field carries a number, as a JSON number or as a numeric string. */
  predicate Present<T>(f: Field<T>) {
    f.Num? || f.Text?
  }

  /** JavaScript truthiness: a missing field and the number 0 are falsy;
      every non-empty string is truthy, `"0"` included. A value `isNaN`
      accepts is counted truthy (`"abc"`, `{}`); for NaN itself, which is
      falsy, the guards below do not depend on the choice. */
  predicate Truthy(f: Field<int>) {
    match f
    case Missing => false
    case NotANumber => true
    case Num(v) => v != 0
    case Text(_) => true
  }

  /** `isNaN(x)`. A missing field reads as `undefined`, `null` or `""`; it is
      counted as not-a-number here, which the guards below cannot observe
      because `!x` rejects it first. */
  predicate IsNaN<T>(f: Field<T>) {
    !Present(f)
  }

  /** The guard `!x || isNaN(x)` lets the field through: a numeric string of
      any value, or a non-zero number. Negative numbers pass. */
  predicate IsId(f: Field<int>) {
    f.Text? || (f.Num? && f.value != 0)
  }

  /** The guard `!x || isNaN(x) || x <= 0` lets an integer field through;
      a numeric string is compared by its value. */
  predicate IsPositiveInt(f: Field<int>) {
    Present(f) && f.value > 0
  }

  /** The guard `!x || isNaN(x) || x <= 0` lets a money field through. */
  predicate IsPositiveAmount(f: Field<real>) {
    Present(f) && f.value > 0.0
  }

  /** The three predicates are the routes' guards, read through JavaScript's
      truthiness and `isNaN`: `IsId` is `!(!x || isNaN(x))`, the quantity
      check adds `x <= 0`, and in the money check `x <= 0` already covers
      `!x`. A quoted `"0"` gets through the first guard and not the second. */
  lemma GuardsAreJavaScriptGuards(f: Field<int>, g: Field<real>)
    ensures IsId(f) <==> !(!Truthy(f) || IsNaN(f))
    ensures IsPositiveInt(f) <==> !(!Truthy(f) || IsNaN(f) || f.value <= 0)
    ensures IsPositiveAmount(g) <==> !(IsNaN(g) || g.value <= 0.0)
    ensures IsId(Text(0)) && !IsPositiveInt(Text(0)) && !IsId(Num(0))
  {
  }
}
