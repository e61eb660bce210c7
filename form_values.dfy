/** Numeric form values and the "parse or zero" coercion the invoice applies before any arithmetic. */
module FormValues {

  /** What `Number(x)` yields for a numeric form field: the field holds either a number
      (the initial values) or the text last typed into its input. A finite number is
      `Numeric`; anything `Number` cannot read (NaN) is `NotANumber`.
      The empty string reads as `Numeric(0.0)`, as `Number("")` does. */
  datatype NumInput = Numeric(value: real) | NotANumber

  /** `Number(x) || 0`: a number passes through (a zero stays zero), NaN becomes 0. */
  function Coerce(v: NumInput): (r: real)
    ensures v.NotANumber? ==> r == 0.0
    ensures v.Numeric? ==> r == v.value
  {
    match v
    case Numeric(x) => x
    case NotANumber => 0.0
  }
}
