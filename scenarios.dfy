/**
  Small programs over the engine, each stating what the source computes for
  one expression followed by `backward()`. Because `backward()` runs only the
  output's own rule, gradients reach the output's immediate operands and no
  further; where that differs from a full reverse-mode pass, the comment
  gives the value a full pass would produce.
 */
module Scenarios {
  import opened Calculus
  import opened Engine

  /** `a + b`, then `backward()`: each operand receives 1. */
  method AddThenBackward(x: real, y: real) returns (value: real, gx: real, gy: real)
    ensures value == x + y && gx == 1.0 && gy == 1.0
  {
    var a := new Scalar(x, [], "");
    var b := new Scalar(y, [], "");
    var c := a.Add(Node(b));
    c.Backward();
    value, gx, gy := c.data, a.grad, b.grad;
  }

  /**
    `a + a`, then `backward()`: the node has one parent, and both halves of
    the rule update it, so it receives 2.
   */
  method DoubleThenBackward(x: real) returns (value: real, parents: nat, gx: real)
    ensures value == 2.0 * x && parents == 1 && gx == 2.0
  {
    var a := new Scalar(x, [], "");
    var c := a.Add(Node(a));
    assert c.prev == {a};
    c.Backward();
    value, parents, gx := c.data, |c.prev|, a.grad;
  }

  /** `a * b`, then `backward()`: each operand receives the other's value. */
  method MulThenBackward(x: real, y: real) returns (value: real, gx: real, gy: real)
    ensures value == x * y && gx == y && gy == x
  {
    var a := new Scalar(x, [], "");
    var b := new Scalar(y, [], "");
    var c := a.Mul(Node(b));
    c.Backward();
    value, gx, gy := c.data, a.grad, b.grad;
  }

  /**
    `a * a`, then `backward()`: the node has one parent, and both halves of
    the rule update it, so it receives `2 * a.data`.
   */
  method SquareThenBackward(x: real) returns (value: real, parents: nat, gx: real)
    ensures value == x * x && parents == 1 && gx == 2.0 * x
  {
    var a := new Scalar(x, [], "");
    var c := a.Mul(Node(a));
    assert c.prev == {a};
    c.Backward();
    value, parents, gx := c.data, |c.prev|, a.grad;
  }

  /**
    `a ** n`, then `backward()`: the result lists no parents, yet its rule
    still gives `a` the power-rule derivative.
   */
  method PowerThenBackward(x: real, n: PosNat) returns (value: real, parents: nat, gx: real)
    ensures value == Pow(x, n) && parents == 0
    ensures gx == n as real * Pow(x, n - 1)
  {
    var a := new Scalar(x, [], "");
    var r := a.Power(Numeric(n));
    var c := r.value;
    c.Backward();
    value, parents, gx := c.data, |c.prev|, a.grad;
  }

  /** `-a`, then `backward()`: the operand receives -1. */
  method NegThenBackward(x: real) returns (value: real, gx: real)
    ensures value == -x && gx == -1.0
  {
    var a := new Scalar(x, [], "");
    var c := a.Neg();
    c.Backward();
    value, gx := c.data, a.grad;
  }

  /**
    `a - b`, then `backward()`: `b` sits behind the negation node, one level
    too deep, so its gradient stays 0 (a full pass would give -1).
   */
  method SubThenBackward(x: real, y: real) returns (value: real, gx: real, gy: real)
    ensures value == x - y && gx == 1.0 && gy == 0.0
  {
    var a := new Scalar(x, [], "");
    var b := new Scalar(y, [], "");
    var c := a.Sub(Node(b));
    c.Backward();
    value, gx, gy := c.data, a.grad, b.grad;
  }

  /**
    `k - a`, then `backward()`: `a` sits behind the negation node, so its
    gradient stays 0 (a full pass would give -1).
   */
  method RSubThenBackward(k: real, x: real) returns (value: real, gx: real)
    ensures value == k - x && gx == 0.0
  {
    var a := new Scalar(x, [], "");
    var c := a.RSub(k);
    c.Backward();
    value, gx := c.data, a.grad;
  }

  /**
    With `a = -4` and `b = 2`, `f = a * b + b ** 3`, then `f.backward()`:
    the value is 0, the two intermediate nodes receive 1, and the leaves keep
    gradient 0 (a full pass would give 2 and 8).
   */
  method CompositeThenBackward() returns (value: real, gProduct: real, gCube: real, ga: real, gb: real)
    ensures value == 0.0 && gProduct == 1.0 && gCube == 1.0
    ensures ga == 0.0 && gb == 0.0
  {
    var a := new Scalar(-4.0, [], "");
    var b := new Scalar(2.0, [], "");
    var product := a.Mul(Node(b));
    var r := b.Power(Numeric(3));
    var cube := r.value;
    var f := product.Add(Node(cube));
    f.Backward();
    value, gProduct, gCube, ga, gb := f.data, product.grad, cube.grad, a.grad, b.grad;
  }

  /**
    The corrected `relu()`, then `backward()`: the value is rectified and the
    gradient passes through only for a positive input, 0 included in the
    zero branch.
   */
  method ReluFixedThenBackward(x: real) returns (value: real, gx: real)
    ensures value == (if x > 0.0 then x else 0.0)
    ensures gx == (if x > 0.0 then 1.0 else 0.0)
  {
    var a := new Scalar(x, [], "");
    var c := a.ReluFixed();
    c.Backward();
    value, gx := c.data, a.grad;
  }

  /** `backward()` on a leaf only sets its own gradient to 1. */
  method LeafBackward(x: real) returns (value: real, g: real)
    ensures value == x && g == 1.0
  {
    var a := new Scalar(x, [], "");
    a.Backward();
    value, g := a.data, a.grad;
  }

  /**
    `backward()` twice on `a * b`: the output's gradient is reset to 1 each
    time while the operands accumulate, ending at twice one call's gradient.
   */
  method BackwardTwice(x: real, y: real) returns (g: real, gx: real, gy: real)
    ensures g == 1.0 && gx == 2.0 * y && gy == 2.0 * x
  {
    var a := new Scalar(x, [], "");
    var b := new Scalar(y, [], "");
    var c := a.Mul(Node(b));
    c.Backward();
    c.Backward();
    g, gx, gy := c.grad, a.grad, b.grad;
  }
}
