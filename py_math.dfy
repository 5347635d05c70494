/** The two functions of Python's `math` module that the link model calls. Their numerics
    are not modelled: each is a parameter, and `sqrt` carries only the laws the model needs. */
module PyMath {

  /** sqrt(0) = 0 and sqrt(x) > 0 for x > 0. */
  ghost predicate SqrtLaws(f: real -> real) {
    f(0.0) == 0.0 && forall x: real :: x > 0.0 ==> f(x) > 0.0
  }

  /** Any function obeying the square-root laws; the witness is only there to show the type
      is inhabited. */
  type SqrtFn = f: real -> real | SqrtLaws(f) witness (x: real) => if x > 0.0 then x else 0.0

  /** `math.sqrt` and `math.log10`. */
  datatype MathLib = MathLib(sqrt: SqrtFn, log10: real -> real)
}
