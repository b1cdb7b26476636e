/**
  The scalar reverse-mode autodiff node of autograd_engine.py.

  A `Scalar` holds a forward value `data`, a gradient accumulator `grad`, the
  set `prev` of nodes it was built from, and a backward rule. The source keeps
  the rule as a per-node closure; here it is a `Rule` value naming the
  operation together with the operand objects the closure captured, and one
  method, `BackwardStep`, dispatches on it. The node that owns the rule plays
  the part of the closure's captured `out`.
 */
module Engine {
  import opened Calculus

  /** An exponent of `**` that is at least one. */
  type PosNat = n: nat | n >= 1 witness 1

  /** The right operand of `+`, `*` and `-`: a node, or a bare number. */
  datatype Operand = Node(node: Scalar) | Num(value: real)

  /** The right operand of `**`: a number, or anything else (such as a node). */
  datatype Exponent = Numeric(n: PosNat) | NonNumeric

  /** The exceptions the core raises. */
  datatype Error = AssertionError(message: string) | UnboundLocalError(name: string)

  datatype Outcome<T> = Ok(value: T) | Raised(error: Error)

  /** The backward rule of a node: which closure it is and what the closure captured. */
  datatype Rule =
    | NoOp
    | AddRule(a: Scalar, b: Scalar)
    | MulRule(a: Scalar, b: Scalar)
    | PowRule(a: Scalar, n: PosNat)
    | ReluRule(a: Scalar, d: real)

  /** The nodes whose `grad` a rule updates. */
  function Operands(rule: Rule): set<Scalar>
  {
    match rule
    case NoOp => {}
    case AddRule(a, b) => {a, b}
    case MulRule(a, b) => {a, b}
    case PowRule(a, _) => {a}
    case ReluRule(a, _) => {a}
  }

  /**
    How much running `rule` on a node whose own gradient is `g` adds to
    `t.grad`. A node that is both operands of `+` or `*` receives both
    contributions.
   */
  function Contribution(rule: Rule, t: Scalar, g: real): real
    reads Operands(rule)
  {
    match rule
    case NoOp => 0.0
    case AddRule(a, b) => (if t == a then g else 0.0) + (if t == b then g else 0.0)
    case MulRule(a, b) => (if t == a then b.data * g else 0.0) + (if t == b then a.data * g else 0.0)
    case PowRule(a, n) => if t == a then (n as real * Pow(a.data, n - 1)) * g else 0.0
    case ReluRule(a, d) => if t == a then (if d > 0.0 then 1.0 else 0.0) * g else 0.0
  }

  /** The dual number of node `s` when differentiating with respect to `t`. */
  function Seed(s: Scalar, t: Scalar): Dual
    reads s
  {
    Dual(s.data, if s == t then 1.0 else 0.0)
  }

  /**
    The derivative, with respect to `t`, of the value a rule's operation
    computes, obtained by evaluating that operation on dual numbers.
   */
  function ForwardDerivative(rule: Rule, t: Scalar): real
    reads Operands(rule)
  {
    match rule
    case NoOp => 0.0
    case AddRule(a, b) => DualAdd(Seed(a, t), Seed(b, t)).eps
    case MulRule(a, b) => DualMul(Seed(a, t), Seed(b, t)).eps
    case PowRule(a, n) => PowD(Seed(a, t), n).eps
    case ReluRule(a, d) => DualRelu(Dual(d, if a == t then 1.0 else 0.0)).eps
  }

  /**
    Chain rule: every backward rule adds to an operand exactly the node's
    gradient times the derivative of the node's operation with respect to
    that operand. For `a * a` this is `2 * a.data * g`, not `a.data * g`.
   */
  lemma ContributionIsChainRule(rule: Rule, t: Scalar, g: real)
    ensures Contribution(rule, t, g) == g * ForwardDerivative(rule, t)
  {
    match rule
    case NoOp =>
    case AddRule(a, b) => SumChainRule(a, b, t, g);
    case MulRule(a, b) => ProductChainRule(a, b, t, g);
    case PowRule(a, n) => PowerChainRule(a, n, t, g);
    case ReluRule(a, d) => RectifierChainRule(a, d, t, g);
  }

  /** The sum case of `ContributionIsChainRule`. */
  lemma SumChainRule(a: Scalar, b: Scalar, t: Scalar, g: real)
    ensures Contribution(AddRule(a, b), t, g) == g * ForwardDerivative(AddRule(a, b), t)
  {
  }

  /** The rectifier case of `ContributionIsChainRule`. */
  lemma RectifierChainRule(a: Scalar, d: real, t: Scalar, g: real)
    ensures Contribution(ReluRule(a, d), t, g) == g * ForwardDerivative(ReluRule(a, d), t)
  {
  }

  /** The product case of `ContributionIsChainRule`, one operand identity at a time. */
  lemma ProductChainRule(a: Scalar, b: Scalar, t: Scalar, g: real)
    ensures Contribution(MulRule(a, b), t, g) == g * ForwardDerivative(MulRule(a, b), t)
  {
  }

  /** The power case of `ContributionIsChainRule`. */
  lemma PowerChainRule(a: Scalar, n: PosNat, t: Scalar, g: real)
    ensures Contribution(PowRule(a, n), t, g) == g * ForwardDerivative(PowRule(a, n), t)
  {
    var p := Pow(a.data, n - 1);
    if t == a {
      PowerRule(a.data, 1.0, n);
      assert ForwardDerivative(PowRule(a, n), t) == n as real * p;
    } else {
      PowerRule(a.data, 0.0, n);
      assert ForwardDerivative(PowRule(a, n), t) == 0.0;
    }
  }

  /** The number `o` stands for, or the value of the node it names. */
  function OperandValue(o: Operand): real
    reads if o.Node? then {o.node} else {}
  {
    match o
    case Node(s) => s.data
    case Num(v) => v
  }

  /**
    The implicit coercion of `+` and `*`: a node is used as it is, a number
    becomes a fresh leaf.
   */
  method AsScalar(o: Operand) returns (s: Scalar)
    ensures o.Node? ==> s == o.node
    ensures o.Num? ==> fresh(s) && s.IsLeaf(o.value)
    ensures s.data == OperandValue(o)
  {
    match o
    case Node(n) =>
      s := n;
    case Num(v) =>
      s := new Scalar(v, [], "");
  }

  class Scalar {
    var data: real
    const prev: set<Scalar>
    var grad: real
    var rule: Rule

    /** The rule never updates the node that owns it. */
    ghost predicate Valid()
      reads this
    {
      this !in Operands(rule)
    }

    /** A node built from the number `v` with no parents and the no-op rule. */
    ghost predicate IsLeaf(v: real)
      reads this
    {
      data == v && prev == {} && grad == 0.0 && rule == NoOp
    }

    /** `Scalar(data, children, op)`; the operation name is not kept. */
    constructor (data: real, children: seq<Scalar>, op: string)
      ensures this.data == data && prev == (set c | c in children)
      ensures grad == 0.0 && rule == NoOp && Valid()
    {
      this.data := data;
      prev := set c | c in children;
      grad := 0.0;
      rule := NoOp;
    }

    /** `self + other`. */
    method Add(other: Operand) returns (out: Scalar)
      ensures fresh(out) && out.Valid()
      ensures out.rule.AddRule? && out.rule.a == this
      ensures other.Node? ==> out.rule.b == other.node
      ensures other.Num? ==> fresh(out.rule.b) && out.rule.b.IsLeaf(other.value)
      ensures out.data == data + OperandValue(other)
      ensures out.prev == {this, out.rule.b} && out.grad == 0.0
    {
      var o := AsScalar(other);
      out := new Scalar(data + o.data, [this, o], "+");
      out.rule := AddRule(this, o);
    }

    /** `other + self` for a number `other`. */
    method RAdd(other: real) returns (out: Scalar)
      ensures fresh(out) && out.Valid()
      ensures out.rule.AddRule? && out.rule.a == this
      ensures fresh(out.rule.b) && out.rule.b.IsLeaf(other)
      ensures out.data == data + other
      ensures out.prev == {this, out.rule.b} && out.grad == 0.0
    {
      out := Add(Num(other));
    }

    /** `self * other`. */
    method Mul(other: Operand) returns (out: Scalar)
      ensures fresh(out) && out.Valid()
      ensures out.rule.MulRule? && out.rule.a == this
      ensures other.Node? ==> out.rule.b == other.node
      ensures other.Num? ==> fresh(out.rule.b) && out.rule.b.IsLeaf(other.value)
      ensures out.data == data * OperandValue(other)
      ensures out.prev == {this, out.rule.b} && out.grad == 0.0
    {
      var o := AsScalar(other);
      out := new Scalar(data * o.data, [this, o], "*");
      out.rule := MulRule(this, o);
    }

    /** `other * self` for a number `other`. */
    method RMul(other: real) returns (out: Scalar)
      ensures fresh(out) && out.Valid()
      ensures out.rule.MulRule? && out.rule.a == this
      ensures fresh(out.rule.b) && out.rule.b.IsLeaf(other)
      ensures out.data == data * other
      ensures out.prev == {this, out.rule.b} && out.grad == 0.0
    {
      out := Mul(Num(other));
    }

    /** `-self`, which is `self * -1`. */
    method Neg() returns (out: Scalar)
      ensures fresh(out) && out.Valid()
      ensures out.rule.MulRule? && out.rule.a == this
      ensures fresh(out.rule.b) && out.rule.b.IsLeaf(-1.0)
      ensures out.data == -data
      ensures out.prev == {this, out.rule.b} && out.grad == 0.0
    {
      out := Mul(Num(-1.0));
    }

    /**
      `self - other`, which is `self + (-other)`: a node is negated through
      `Neg`, a number by plain arithmetic before it is wrapped.
     */
    method Sub(other: Operand) returns (out: Scalar)
      ensures fresh(out) && out.Valid()
      ensures out.rule.AddRule? && out.rule.a == this && fresh(out.rule.b)
      ensures other.Node? ==> out.rule.b.rule.MulRule? && out.rule.b.rule.a == other.node
      ensures other.Node? ==> out.rule.b.Valid() && out.rule.b.data == -other.node.data && out.rule.b.grad == 0.0
      ensures other.Node? ==> fresh(out.rule.b.rule.b) && out.rule.b.rule.b.IsLeaf(-1.0)
      ensures other.Node? ==> out.rule.b.prev == {other.node, out.rule.b.rule.b}
      ensures other.Num? ==> out.rule.b.IsLeaf(-other.value)
      ensures out.data == data - OperandValue(other)
      ensures out.prev == {this, out.rule.b} && out.grad == 0.0
    {
      match other
      case Node(s) =>
        var negated := s.Neg();
        out := Add(Node(negated));
      case Num(v) =>
        out := Add(Num(-v));
    }

    /** `other - self` for a number `other`, which is `(-self) + other`. */
    method RSub(other: real) returns (out: Scalar)
      ensures fresh(out) && out.Valid()
      ensures out.rule.AddRule? && fresh(out.rule.a) && fresh(out.rule.b)
      ensures out.rule.a.rule.MulRule? && out.rule.a.rule.a == this
      ensures out.rule.a.Valid() && out.rule.a.data == -data && out.rule.a.grad == 0.0
      ensures fresh(out.rule.a.rule.b) && out.rule.a.rule.b.IsLeaf(-1.0)
      ensures out.rule.a.prev == {this, out.rule.a.rule.b}
      ensures out.rule.b.IsLeaf(other)
      ensures out.data == other - data
      ensures out.prev == {out.rule.a, out.rule.b} && out.grad == 0.0
    {
      var negated := Neg();
      out := negated.Add(Num(other));
    }

    /**
      `self ** other`. A non-numeric exponent fails the assertion; otherwise
      the result is built without parents, though its rule updates `self`.
     */
    method Power(other: Exponent) returns (r: Outcome<Scalar>)
      ensures other.NonNumeric? ==> r == Raised(AssertionError("Only supporting int and float powers"))
      ensures other.Numeric? ==> r.Ok? && fresh(r.value) && r.value.Valid()
      ensures other.Numeric? ==> r.value.data == Pow(data, other.n)
      ensures other.Numeric? ==> r.value.rule == PowRule(this, other.n)
      ensures other.Numeric? ==> r.value.prev == {} && r.value.grad == 0.0
    {
      match other
      case NonNumeric =>
        r := Raised(AssertionError("Only supporting int and float powers"));
      case Numeric(n) =>
        var out := new Scalar(Pow(data, n), [], "");
        out.rule := PowRule(this, n);
        r := Ok(out);
    }

    /**
      `self.relu()` as written: the rule is attached to `out` before `out`
      is assigned, so every call raises and nothing is built.
     */
    method Relu() returns (r: Outcome<Scalar>)
      ensures r == Raised(UnboundLocalError("out"))
    {
      var d := data;
      r := Raised(UnboundLocalError("out"));
    }

    /**
      `self.relu()` with the node built before its rule is attached: the
      result is the rectified value, and its rule passes the gradient through
      only when the captured value was positive.
     */
    method ReluFixed() returns (out: Scalar)
      ensures fresh(out) && out.Valid()
      ensures out.data >= 0.0 && out.data >= data
      ensures out.data == data || out.data == 0.0
      ensures out.rule == ReluRule(this, data)
      ensures out.prev == {} && out.grad == 0.0
    {
      var d := data;
      out := new Scalar(if d > 0.0 then d else 0.0, [], "");
      out.rule := ReluRule(this, d);
    }

    /**
      `self._backward()`: runs this node's backward rule, so each operand's
      `grad` grows by its `Contribution` (both halves of it when one node is
      both operands); no other field and no other node changes.
     */
    method BackwardStep()
      requires Valid()
      modifies Operands(rule)`grad
      ensures !rule.NoOp? ==> rule.a.grad == old(rule.a.grad) + Contribution(rule, rule.a, grad)
      ensures rule.AddRule? || rule.MulRule? ==> rule.b.grad == old(rule.b.grad) + Contribution(rule, rule.b, grad)
    {
      match rule
      case NoOp =>
      case AddRule(a, b) =>
        AddBackward(a, b);
      case MulRule(a, b) =>
        MulBackward(a, b);
      case PowRule(a, n) =>
        PowBackward(a, n);
      case ReluRule(a, d) =>
        ReluBackward(a, d);
    }

    /** The rule of `+`: each operand's gradient grows by this node's gradient. */
    method AddBackward(a: Scalar, b: Scalar)
      requires this != a && this != b
      modifies a`grad, b`grad
      ensures a != b ==> a.grad == old(a.grad) + grad && b.grad == old(b.grad) + grad
      ensures a == b ==> a.grad == old(a.grad) + 2.0 * grad
      ensures a.grad == old(a.grad) + Contribution(AddRule(a, b), a, grad)
      ensures b.grad == old(b.grad) + Contribution(AddRule(a, b), b, grad)
    {
      a.grad := a.grad + grad;
      b.grad := b.grad + grad;
    }

    /** The rule of `*`: each operand's gradient grows by the other's value times this node's gradient. */
    method MulBackward(a: Scalar, b: Scalar)
      requires this != a && this != b
      modifies a`grad, b`grad
      ensures a != b ==> a.grad == old(a.grad) + b.data * grad && b.grad == old(b.grad) + a.data * grad
      ensures a == b ==> a.grad == old(a.grad) + 2.0 * (a.data * grad)
      ensures a.grad == old(a.grad) + Contribution(MulRule(a, b), a, grad)
      ensures b.grad == old(b.grad) + Contribution(MulRule(a, b), b, grad)
    {
      a.grad := a.grad + b.data * grad;
      b.grad := b.grad + a.data * grad;
    }

    /** The rule of `** n`: the base's gradient grows by `n * a.data ** (n - 1)` times this node's gradient. */
    method PowBackward(a: Scalar, n: PosNat)
      requires this != a
      modifies a`grad
      ensures a.grad == old(a.grad) + (n as real * Pow(a.data, n - 1)) * grad
      ensures a.grad == old(a.grad) + Contribution(PowRule(a, n), a, grad)
    {
      a.grad := a.grad + (n as real * Pow(a.data, n - 1)) * grad;
    }

    /** The rule of the corrected `relu()`: the gradient passes only if the captured value was positive. */
    method ReluBackward(a: Scalar, d: real)
      requires this != a
      modifies a`grad
      ensures a.grad == old(a.grad) + (if d > 0.0 then grad else 0.0)
      ensures a.grad == old(a.grad) + Contribution(ReluRule(a, d), a, grad)
    {
      a.grad := a.grad + (if d > 0.0 then 1.0 else 0.0) * grad;
    }

    /**
      `backward()`: sets this node's gradient to 1.0 and runs its own rule
      once. Only the immediate operands are updated; nothing deeper is
      visited.
     */
    method Backward()
      requires Valid()
      modifies this`grad, Operands(rule)`grad
      ensures grad == 1.0
      ensures !rule.NoOp? ==> rule.a.grad == old(rule.a.grad) + Contribution(rule, rule.a, 1.0)
      ensures rule.AddRule? || rule.MulRule? ==> rule.b.grad == old(rule.b.grad) + Contribution(rule, rule.b, 1.0)
    {
      grad := 1.0;
      BackwardStep();
    }
  }
}
