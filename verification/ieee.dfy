/**
 * IEEE-754 values seen through their ordering. Finite values are exact reals
 * (both +0.0 and -0.0 are `Fin(0.0)`); there are two infinities and one NaN.
 * Every comparison that involves NaN is false, as the standard requires.
 * Rounding and overflow of finite arithmetic are not modelled.
 */
module Ieee {

  datatype Float = Fin(r: real) | PosInf | NegInf | NaN

  /** `a < b` */
  predicate Lt(a: Float, b: Float) {
    match (a, b)
    case (Fin(x), Fin(y)) => x < y
    case (NegInf, Fin(_)) => true
    case (NegInf, PosInf) => true
    case (Fin(_), PosInf) => true
    case _ => false
  }

  /** `a == b`: NaN is equal to nothing, not even itself. */
  predicate Eq(a: Float, b: Float) {
    !a.NaN? && a == b
  }

  /** `a <= b` */
  predicate Le(a: Float, b: Float) {
    Lt(a, b) || Eq(a, b)
  }

  /** `a > b` */
  predicate Gt(a: Float, b: Float) {
    Lt(b, a)
  }

  /** `a >= b` */
  predicate Ge(a: Float, b: Float) {
    Le(b, a)
  }

  /** Position of a non-NaN value on the extended real line, used to state the order. */
  function Rank(a: Float): int
    requires !a.NaN?
  {
    match a
    case NegInf => -1
    case Fin(_) => 0
    case PosInf => 1
  }

  /** The comparisons on floats are the comparisons of the extended real line. */
  lemma OrderIsExtendedRealOrder(a: Float, b: Float)
    requires !a.NaN? && !b.NaN?
    ensures Lt(a, b) <==> Rank(a) < Rank(b) || (a.Fin? && b.Fin? && a.r < b.r)
    ensures Le(a, b) <==> Rank(a) < Rank(b) || (Rank(a) == Rank(b) && (a.Fin? ==> a.r <= b.r))
  {
  }

  /** NaN is unordered: it is neither below, above nor equal to anything. */
  lemma NaNIsUnordered(x: Float)
    ensures !Lt(NaN, x) && !Lt(x, NaN)
    ensures !Le(NaN, x) && !Le(x, NaN)
    ensures !Eq(NaN, x) && !Eq(x, NaN)
  {
  }

  /** On non-NaN values exactly one of `<`, `==`, `>` holds, and `<` is transitive. */
  lemma Trichotomy(a: Float, b: Float, c: Float)
    requires !a.NaN? && !b.NaN? && !c.NaN?
    ensures (Lt(a, b) && !Eq(a, b) && !Lt(b, a))
         || (!Lt(a, b) && Eq(a, b) && !Lt(b, a))
         || (!Lt(a, b) && !Eq(a, b) && Lt(b, a))
    ensures Lt(a, b) && Lt(b, c) ==> Lt(a, c)
  {
  }

  /** `-x` */
  function Neg(a: Float): (r: Float)
    ensures r.Fin? <==> a.Fin?
    ensures r.NaN? <==> a.NaN?
  {
    match a
    case Fin(x) => Fin(-x)
    case PosInf => NegInf
    case NegInf => PosInf
    case NaN => NaN
  }

  /** `a + b` with exact finite arithmetic; `inf + -inf` is NaN. */
  function Add(a: Float, b: Float): Float {
    match (a, b)
    case (NaN, _) => NaN
    case (_, NaN) => NaN
    case (Fin(x), Fin(y)) => Fin(x + y)
    case (PosInf, NegInf) => NaN
    case (NegInf, PosInf) => NaN
    case (PosInf, _) => PosInf
    case (NegInf, _) => NegInf
    case (_, PosInf) => PosInf
    case (_, NegInf) => NegInf
  }

  /** Negation is an involution that reverses the order. */
  lemma NegLaws(a: Float, b: Float)
    ensures Neg(Neg(a)) == a
    ensures Lt(a, b) <==> Lt(Neg(b), Neg(a))
  {
  }

  /** `a - b` */
  function Sub(a: Float, b: Float): Float {
    Add(a, Neg(b))
  }

  /** Addition is commutative, NaN absorbs, and adding an infinity never gives a finite value. */
  lemma AddLaws(a: Float, b: Float)
    ensures Add(a, b) == Add(b, a)
    ensures a.NaN? || b.NaN? ==> Add(a, b).NaN?
    ensures b.PosInf? || b.NegInf? ==> !Add(a, b).Fin?
    ensures a.Fin? && b.Fin? ==> Add(a, b).Fin? && Add(a, b).r == a.r + b.r
  {
  }

  /** `a * k` for a positive finite constant `k`: signs of infinities are kept. */
  function Scale(a: Float, k: real): (r: Float)
    requires k > 0.0
    ensures r.Fin? <==> a.Fin?
    ensures r.NaN? <==> a.NaN?
  {
    match a
    case Fin(x) => Fin(x * k)
    case _ => a
  }

  /** Scaling by `k` and then by `1/k` is the identity. */
  lemma ScaleInverse(a: Float, k: real)
    requires k > 0.0
    ensures Scale(Scale(a, k), 1.0 / k) == a
  {
    if a.Fin? {
      calc {
        a.r * k * (1.0 / k);
        a.r * (k * (1.0 / k));
        a.r;
      }
    }
  }
}
