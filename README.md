# Scalar autograd engine, modelled in Dafny

This project models the `Scalar` class of `autograd_engine.py`. A `Scalar` is one node of a reverse-mode automatic-differentiation graph. It holds:

- a forward value `data`;
- a gradient accumulator `grad`;
- the set `_prev` of nodes it was built from;
- a backward rule.

Each operator (`+`, `*`, unary `-`, `-`, `**`, `relu`) computes its result eagerly and attaches a rule. The rule adds chain-rule contributions into the operands' `grad` fields in place. `backward()` seeds the node's own gradient with 1.0 and runs its rule.

The model follows the code as written, including the places where it differs from a textbook engine:

- `backward()` goes down one level only. It runs the output's own rule and nothing else, with no topological traversal.
- `**` builds its result with no parents.
- `relu()` reads `out` before assigning it, so every call raises.
- The `_op` argument of the constructor is accepted and discarded.
- There is no zero-gradient operation.

Files:

- `calculus.dfy` (module `Calculus`) holds the exact power `Pow` and dual numbers. Evaluating an operation on dual numbers is forward-mode differentiation. Sums and products follow the sum and product rules. The derivative of a power is derived by applying the product rule step by step, so the power case is checked against a tangent computed independently of the engine's power rule. The rectifier's derivative is not derived: it is taken by convention as 1 above 0 and 0 at or below 0, so the rectifier case holds by that convention. `PowerRule` proves `n * x ** (n - 1)` by induction.
- `engine.dfy` (module `Engine`) holds the node as a class `Scalar`:
  - `var data: real`;
  - `const prev: set<Scalar>`;
  - `var grad: real`;
  - `var rule: Rule`.

  Each Python closure becomes a `Rule` value that names the operation and holds the objects the closure captured. The node that owns the rule is the closure's `out`. Each closure is one method (`AddBackward`, `MulBackward`, `PowBackward`, `ReluBackward`), and `BackwardStep` dispatches on the tag. `Contribution` says how much a rule adds to a given node's `grad`. `ContributionIsChainRule` proves that this amount is the node's gradient times the dual-number derivative of the operation.
- `scenarios.dfy` (module `Scenarios`) holds short programs that build an expression, call `backward()` and return the values and gradients the code produces. They include the cases where the single-level `backward()` leaves deeper nodes at gradient 0.

A right operand that may be a node or a bare number is an `Operand`. The exponent of `**` is an `Exponent`. Exceptions are `Outcome.Raised` values.

## Model

| member | source | states |
|---|---|---|
| Engine.Scalar.constructor | autograd_engine.py:6-10 | A new node has the given `data`, `prev` equal to the set of the given children (duplicates collapse), `grad == 0.0` and the no-op rule; the operation name is not stored |
| Engine.AsScalar | autograd_engine.py:16 | A node operand is used as it is; a number becomes a fresh leaf with that value, no parents, grad 0 and the no-op rule |
| Engine.Scalar.Add | autograd_engine.py:15-24 | `a + b` is a fresh node with `data == a.data + b.data`, parents `{a, b}`, grad 0 and the add rule over `a` and the (coerced) `b`; no existing node changes |
| Engine.Scalar.RAdd | autograd_engine.py:26-27 | `k + a` is `a + k`: data `a.data + k`, add rule over `a` and a fresh leaf `k` |
| Engine.Scalar.Mul | autograd_engine.py:29-38 | `a * b` is a fresh node with `data == a.data * b.data`, parents `{a, b}` (so `{a}` for `a * a`), grad 0 and the multiply rule |
| Engine.Scalar.RMul | autograd_engine.py:40-41 | `k * a` is `a * k`: data `a.data * k`, multiply rule over `a` and a fresh leaf `k` |
| Engine.Scalar.Neg | autograd_engine.py:43-44 | `-a` is `a * -1`: data `-a.data`, multiply rule over `a` and a fresh leaf -1 |
| Engine.Scalar.Sub | autograd_engine.py:46-47 | `a - b` is `a + (-b)`: data `a.data - b.data`; a node `b` is negated through a fresh multiply node over `b` and a fresh leaf -1, whose value is `-b.data`, parents `{b, leaf}` and grad 0; a number is negated before it is wrapped |
| Engine.Scalar.RSub | autograd_engine.py:49-50 | `k - a` is `(-a) + k`: data `k - a.data`, add rule over a fresh negation node and a fresh leaf `k`; the negation node is a multiply node over `a` and a fresh leaf -1, with value `-a.data`, parents `{a, leaf}` and grad 0 |
| Engine.Scalar.Power | autograd_engine.py:52-60 | A non-numeric exponent raises the assertion error with the source's message; otherwise a fresh node with `data == a.data ** n`, NO parents, grad 0, and a rule that updates `a` |
| Engine.Scalar.Relu | autograd_engine.py:62-70 | As written, every call raises `UnboundLocalError` for `out` and builds nothing |
| Engine.Scalar.ReluFixed | autograd_engine.py:62-70 | With lines 68 and 69 swapped: data is `max(a.data, 0)` (non-negative, at least `a.data`, equal to it or to 0), no parents, and a rule capturing the value `d` |
| Engine.Scalar.AddBackward | autograd_engine.py:19-21 | The add rule raises each operand's grad by the node's grad, or a shared operand's by twice that; it equals `Contribution`; only the operands' `grad` fields change |
| Engine.Scalar.MulBackward | autograd_engine.py:33-35 | The multiply rule raises `a.grad` by `b.data * g` and `b.grad` by `a.data * g`, or a shared operand's by `2 * a.data * g`; only the operands' `grad` fields change |
| Engine.Scalar.PowBackward | autograd_engine.py:56-57 | The power rule raises `a.grad` by `n * a.data ** (n - 1) * g` and touches nothing else |
| Engine.Scalar.ReluBackward | autograd_engine.py:65-66 | The corrected relu rule raises `a.grad` by `g` when the captured `d > 0` and by 0 otherwise (0 included) |
| Engine.Scalar.BackwardStep | autograd_engine.py:74 | Running the stored rule raises each operand's grad by exactly its `Contribution`; only operands' `grad` fields change, and the no-op rule of a leaf changes nothing |
| Engine.Scalar.Backward | autograd_engine.py:72-74 | `backward()` overwrites the node's grad with 1.0 and runs only its own rule: immediate operands gain `Contribution(rule, t, 1.0)`, and no other node or field changes |
| Engine.ContributionIsChainRule | autograd_engine.py:19-66 | Every rule adds exactly `g` times the forward-mode (dual-number) derivative of its operation with respect to the operand: sum, product (including `a * a`), power and rectifier rules (the rectifier's derivative is the convention 1 above 0, 0 at or below) |
| Engine.ProductChainRule | autograd_engine.py:33-35 | The multiply rule's contribution to any node is `g` times the product-rule derivative with respect to it, whether the node is `a`, `b`, both or neither |
| Engine.PowerChainRule | autograd_engine.py:56-57 | The power rule's contribution to any node is `g` times the dual-number derivative of `a ** n` with respect to it: `n * a ** (n - 1) * g` for `a`, 0 for any other node |
| Calculus.PowerRule | autograd_engine.py:57 | Differentiating `x ** n` by repeated products gives `t * n * x ** (n - 1)`, which is the factor the power rule uses |
| Scenarios.AddThenBackward | autograd_engine.py:15-24 | For leaves `a`, `b`: `(a + b).data == a + b`, and after `backward()` both operands have grad 1 |
| Scenarios.DoubleThenBackward | autograd_engine.py:19-21 | `a + a` has one parent, and after `backward()` `a.grad == 2` |
| Scenarios.MulThenBackward | autograd_engine.py:29-38 | `(a * b).data == a * b`; after `backward()` `a.grad == b` and `b.grad == a` |
| Scenarios.SquareThenBackward | autograd_engine.py:33-35 | `a * a` has one parent; after `backward()` `a.grad == 2 * a` |
| Scenarios.PowerThenBackward | autograd_engine.py:52-60 | `a ** n` has value `a ** n` and no parents, yet after `backward()` `a.grad == n * a ** (n - 1)` |
| Scenarios.NegThenBackward | autograd_engine.py:43-44 | `(-a).data == -a`; after `backward()` `a.grad == -1` |
| Scenarios.SubThenBackward | autograd_engine.py:46-47 | `(a - b).data == a - b`; after `backward()` `a.grad == 1` but `b.grad == 0`, because `b` sits behind the negation node |
| Scenarios.RSubThenBackward | autograd_engine.py:49-50 | `(k - a).data == k - a`; after `backward()` `a.grad == 0`, because `a` sits behind the negation node |
| Scenarios.CompositeThenBackward | autograd_engine.py:72-74 | With `a = -4`, `b = 2`, `f = a * b + b ** 3` has value 0. After `f.backward()` both intermediate nodes have grad 1 and both leaves keep grad 0, where a full reverse pass would give 2 and 8 |
| Scenarios.ReluFixedThenBackward | autograd_engine.py:62-70 | With the corrected relu: value `max(a, 0)`; after `backward()` `a.grad` is 1 for `a > 0` and 0 otherwise |
| Scenarios.LeafBackward | autograd_engine.py:72-74 | `backward()` on a leaf only sets its own grad to 1 |
| Scenarios.BackwardTwice | autograd_engine.py:72-74 | Calling `backward()` twice on `a * b` leaves the output's grad at 1 and doubles the operands' gradients (`2 * b`, `2 * a`) |

## Findings

| source | as written | input that shows it | evidently intended | confidence | as-written member | corrected member |
|---|---|---|---|---|---|---|
| autograd_engine.py:68-69 | `out._backward = _backward` runs before `out = Scalar(...)`. Because the inner closure refers to `out`, `out` is a cell variable of `relu`, and reading it unbound raises `UnboundLocalError`. | any node, e.g. `Scalar(1.0).relu()` | build `out` first, then attach the rule: value `max(d, 0)`, rule `grad += (d > 0) * out.grad` | high (not executed) | Engine.Scalar.Relu | Engine.Scalar.ReluFixed |

## Left out

- neural_network.py (`Neuron`, `Layer`, `MLP`) is not part of this model. Its weights come from `np.random.uniform`, it never imports `np`, and the rest of it only arranges lists of `Scalar` values.
- `__repr__` is left out because it only formats a diagnostic string.
- The unused `math` and `numpy` imports are left out.
- Floating point is modelled as exact `real` arithmetic. NaN, infinity, rounding, and the `-0.0` that `d * (d > 0)` yields for negative `d` are not modelled.
- Engine.Scalar.Power: numeric exponents are integers of at least 1. Zero, negative and fractional exponents (float or int) are not modelled, nor is the `ZeroDivisionError` that `0.0 ** -1` raises in the rule when the exponent is 0.
- Operands that are neither a `Scalar` nor a number (e.g. a string passed to `+`) are not modelled. The source would wrap them in a `Scalar` and fail later, or succeed, depending on the type.
- Python closures as first-class values are replaced by the `Rule` tag. A closure's identity and any rebinding of `_backward` from outside the class are not modelled.
- There is no topological traversal and no zero-gradient operation, because the source has neither. The intended design of the engine is a full reverse pass over every ancestor, with relu working and `**` recording its parent, but the model follows the code. The scenarios show where the two differ.
- Python's dynamic dispatch between `__add__` and `__radd__` (and the `__mul__` and `__sub__` pairs) is modelled by separate methods for a number on the left.
