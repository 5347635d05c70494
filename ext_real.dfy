/** The Python `float` values the link model produces: a finite value, one of the two
    infinities, or NaN. Rounding and overflow are not modelled: a finite value is an exact
    real. Subtraction and the four comparisons follow IEEE 754, so every comparison that
    involves NaN is false. */
module ExtReal {

  datatype Ext = Fin(value: real) | PosInf | NegInf | NaN

  /** IEEE subtraction `a - b`. */
  function Minus(a: Ext, b: Ext): (r: Ext)
    ensures r.Fin? <==> a.Fin? && b.Fin?
    ensures r.Fin? ==> r.value == a.value - b.value
    ensures r.NaN? <==> a.NaN? || b.NaN? || (a == b && (a.PosInf? || a.NegInf?))
    ensures r.PosInf? <==> (a.PosInf? && !b.PosInf? && !b.NaN?) || (a.Fin? && b.NegInf?)
    ensures r.NegInf? <==> (a.NegInf? && !b.NegInf? && !b.NaN?) || (a.Fin? && b.PosInf?)
  {
    if a.NaN? || b.NaN? then NaN
    else if a.PosInf? then (if b.PosInf? then NaN else PosInf)
    else if a.NegInf? then (if b.NegInf? then NaN else NegInf)
    else if b.PosInf? then NegInf
    else if b.NegInf? then PosInf
    else Fin(a.value - b.value)
  }

  /** `a < b` on floats: the extended-real order -inf < finite values < +inf, with NaN
      below, above and equal to nothing. */
  predicate Less(a: Ext, b: Ext): (lt: bool)
    ensures a.Fin? && b.Fin? ==> (lt <==> a.value < b.value)
    ensures a.NegInf? ==> (lt <==> b.Fin? || b.PosInf?)
    ensures b.PosInf? ==> (lt <==> a.Fin? || a.NegInf?)
    ensures a.NaN? || b.NaN? || a.PosInf? || b.NegInf? ==> !lt
  {
    match a
    case NaN => false
    case PosInf => false
    case NegInf => b.Fin? || b.PosInf?
    case Fin(u) => (b.Fin? && u < b.value) || b.PosInf?
  }

  /** `a <= b`: reflexive on every value except NaN. */
  predicate LessEq(a: Ext, b: Ext): (le: bool)
    ensures a.Fin? && b.Fin? ==> (le <==> a.value <= b.value)
    ensures a.NegInf? ==> (le <==> !b.NaN?)
    ensures b.PosInf? ==> (le <==> !a.NaN?)
    ensures a.NaN? || b.NaN? ==> !le
    ensures a.PosInf? ==> (le <==> b.PosInf?)
    ensures b.NegInf? ==> (le <==> a.NegInf?)
  {
    Less(a, b) || (a == b && !a.NaN?)
  }

  /** `a > b` */
  predicate Greater(a: Ext, b: Ext): (gt: bool)
    ensures a.Fin? && b.Fin? ==> (gt <==> a.value > b.value)
    ensures a.PosInf? ==> (gt <==> b.Fin? || b.NegInf?)
    ensures b.NegInf? ==> (gt <==> a.Fin? || a.PosInf?)
    ensures a.NegInf? || b.PosInf? ==> !gt
    ensures gt ==> !a.NaN? && !b.NaN? && a != b
  {
    Less(b, a)
  }

  /** `a >= b` */
  predicate GreaterEq(a: Ext, b: Ext): (ge: bool)
    ensures a.Fin? && b.Fin? ==> (ge <==> a.value >= b.value)
    ensures a.PosInf? ==> (ge <==> !b.NaN?)
    ensures b.NegInf? ==> (ge <==> !a.NaN?)
    ensures a.NegInf? ==> (ge <==> b.NegInf?)
    ensures b.PosInf? ==> (ge <==> a.PosInf?)
    ensures a.NaN? || b.NaN? ==> !ge
  {
    LessEq(b, a)
  }

  /** `<` is a strict order: irreflexive and transitive. */
  lemma LessIsStrictOrder(a: Ext, b: Ext, c: Ext)
    ensures !Less(a, a)
    ensures Less(a, b) && Less(b, c) ==> Less(a, c)
  {
  }

  /** Without NaN the order is total, so each comparison is the negation of its opposite. */
  lemma OrderWithoutNaN(a: Ext, b: Ext)
    requires !a.NaN? && !b.NaN?
    ensures GreaterEq(a, b) <==> !Less(a, b)
    ensures Greater(a, b) <==> !LessEq(a, b)
  {
  }

  /** With NaN on either side every comparison is false, so `not (a < b)` holds while
      `a >= b` does not. */
  lemma NaNIsUnordered(a: Ext, b: Ext)
    requires a.NaN? || b.NaN?
    ensures !Less(a, b) && !LessEq(a, b) && !Greater(a, b) && !GreaterEq(a, b)
  {
  }
}
