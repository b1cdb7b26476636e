/**
  Reference semantics for the derivatives the engine's backward rules use.

  `Pow` is the exact value of `x ** n` for a natural exponent. Dual numbers
  (`re + eps * h` with `h * h == 0`) carry a value together with its first
  derivative along one direction; evaluating an operation on dual numbers is
  forward-mode differentiation. Sums and products follow the sum and product
  rules, and a power is differentiated by applying the product rule step by
  step, so its derivative is derived here rather than copied from the
  engine's power rule. The rectifier's derivative is not derived: it is
  taken by convention as 1 above 0 and 0 at or below 0.
 */
module Calculus {

  /** `x ** n` for a natural exponent. */
  function Pow(x: real, n: nat): real
  {
    if n == 0 then 1.0 else x * Pow(x, n - 1)
  }

  /** A value `re` together with its derivative `eps` along one direction. */
  datatype Dual = Dual(re: real, eps: real)

  /** Sum rule: `(x + y)' == x' + y'`. */
  function DualAdd(x: Dual, y: Dual): Dual
  {
    Dual(x.re + y.re, x.eps + y.eps)
  }

  /** Product rule: `(x * y)' == x * y' + x' * y`. */
  function DualMul(x: Dual, y: Dual): Dual
  {
    Dual(x.re * y.re, x.re * y.eps + x.eps * y.re)
  }

  /**
    The derivative of `x ** n` when `x` moves with speed `t`, obtained by
    applying the product rule to `x ** n == x * x ** (n - 1)` step by step.
   */
  function PowTangent(x: real, t: real, n: nat): real
  {
    if n == 0 then 0.0 else x * PowTangent(x, t, n - 1) + t * Pow(x, n - 1)
  }

  /** `x ** n` on dual numbers. */
  function PowD(x: Dual, n: nat): Dual
  {
    Dual(Pow(x.re, n), PowTangent(x.re, x.eps, n))
  }

  /** Rectifier, by convention: derivative 1 above 0, and 0 at or below 0. */
  function DualRelu(x: Dual): Dual
  {
    if x.re > 0.0 then x else Dual(0.0, 0.0)
  }

  /**
    `PowD` is repeated dual multiplication: raising to the power `n` is
    multiplying by the base once more than raising to `n - 1`. Nothing
    calls it; it records that `PowD` is the product rule applied `n` times.
   */
  lemma PowDIsRepeatedMul(x: Dual, n: nat)
    requires n >= 1
    ensures PowD(x, n) == DualMul(x, PowD(x, n - 1))
  {
  }

  /**
    Power rule: differentiating `x ** n` by repeated products gives
    `n * x ** (n - 1)` times the speed `t`.
   */
  lemma {:induction false} PowerRule(x: real, t: real, n: nat)
    requires n >= 1
    ensures PowTangent(x, t, n) == t * (n as real * Pow(x, n - 1))
  {
    if n > 1 {
      PowerRule(x, t, n - 1);
      PowerStep(x, t, (n - 1) as real, Pow(x, n - 1), Pow(x, n - 2));
    }
  }

  /** The arithmetic of one induction step of `PowerRule`. */
  lemma PowerStep(x: real, t: real, m: real, p: real, q: real)
    requires p == x * q
    ensures x * (t * (m * q)) + t * p == t * ((m + 1.0) * p)
  {
  }
}
