/**
 * JavaScript numbers as the triage rules see them: a finite value or NaN.
 * Every ordered comparison involving NaN is false, which is what makes a NaN
 * gate statistic fail its gate. Binary floating point is idealised as `real`.
 */
module Numbers {

  datatype Num = Fin(v: real) | NaN

  /** `a < b` */
  predicate Lt(a: Num, b: Num) {
    a.Fin? && b.Fin? && a.v < b.v
  }

  /** `a > b` */
  predicate Gt(a: Num, b: Num) {
    a.Fin? && b.Fin? && a.v > b.v
  }

  /** `a >= b` */
  predicate Ge(a: Num, b: Num) {
    a.Fin? && b.Fin? && a.v >= b.v
  }

  /**
   * The order in which the classifier treats its inputs: NaN is below every
   * number, because every comparison it takes part in is false.
   */
  predicate NumLe(a: Num, b: Num) {
    a.NaN? || (b.Fin? && a.v <= b.v)
  }

  function Min(a: int, b: int): int {
    if a < b then a else b
  }
}
