/** The values that flow through the dashboard's data page: spreadsheet cells and
    Python floats, with the comparison semantics of IEEE 754 doubles. */
module Values {
  import opened Wrappers

  /** A Python float. NaN and the two infinities are kept as such; a finite value
      is represented exactly (no rounding to 53 bits). */
  datatype Float = NaN | Infinity(negative: bool) | Finite(x: real)

  /** A spreadsheet cell as pandas reads it: text, or a number (a missing
      cell is the number NaN). */
  datatype Cell = Text(s: string) | Number(f: Float)

  /** Python's `float(c)`: a number passes through, text is handed to the
      string-to-number conversion `parse`, whose `None` is the ValueError. */
  function ToFloat(c: Cell, parse: string -> Option<Float>): (r: Option<Float>)
    ensures c.Number? ==> r == Some(c.f)
    ensures c.Text? ==> r == parse(c.s)
  {
    match c
    case Number(f) => Some(f)
    case Text(s) => parse(s)
  }

  /** `f == c` for a finite constant `c`: false for NaN and the infinities. */
  predicate EqualTo(f: Float, c: real) {
    f.Finite? && f.x == c
  }

  /** `c < f`: +inf exceeds every finite constant; NaN and -inf exceed none. */
  predicate Exceeds(f: Float, c: real) {
    match f
    case NaN => false
    case Infinity(negative) => !negative
    case Finite(x) => c < x
  }

  /** `f <= c`: -inf is below every finite constant; NaN and +inf are below none. */
  predicate AtMost(f: Float, c: real) {
    match f
    case NaN => false
    case Infinity(negative) => negative
    case Finite(x) => x <= c
  }
}
