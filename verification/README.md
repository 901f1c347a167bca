# Reverse-mode autodiff: engine, backward pass and operator contracts

This project models the core of a small reverse-mode automatic
differentiation library. It is written in Dafny and proves properties of that
model.

- `GradEngine` is a per-node join barrier. It holds the number of consumer
  deliveries still pending, the gradient accumulated so far, and a `working`
  flag.
- The backward pass of `Var` is `backward`, the discovery recursion
  `_start_task`, the firing recursion `_propagate` / `_do_task`, and
  `_end_task`. `detach` and the operator special methods belong here too.
- The operator contracts are `compute` and `gradient` for add, sub, mul, div,
  neg and pow, plus `reciprocal` and `_val`.

Files, one module each:

| file | module | contents |
|---|---|---|
| errors.dfy | `Errors` | the exceptions the core raises, as one `Error` datatype; `Option` and `Result` |
| engine.dfy | `Engine` | `GradEngine` as an immutable record and its guarded transitions |
| ops.dfy | `Ops` | the operator formulas over `real`, with arity and domain errors |
| vars.dfy | `Vars` | the node store, `Var(...)`, `_Op.__new__`, the special methods, the backward pass, `detach` |
| adjoint.dfy | `Adjoint` | a reference definition of what a pass must compute: dependence and the adjoint equations |
| tally.dfy | `Tally` | counts and sums of deliveries still owed to a node by active consumers |
| discovery.dfy | `Discovery` | what `_start_task` does to the store |
| firing.dfy | `Firing` | what `_propagate` / `_do_task` do to the store |
| soundness.dfy | `Soundness` | the whole pass against the reference definition |
| rerun.dfy | `Rerun` | running a pass again on its own result |
| examples.dfy | `Scenarios` | the library's test scenarios, worked through the model |

## Modelling choices

- **Node store.** Vars live in a store `Graph(nodes: map<nat, Node>, next)`.
  An operand is `Const(real)` or `Ref(id)`. `_Op.__new__` builds its output
  after its inputs, so every `Ref` names a smaller id than its consumer. The
  store is therefore a DAG ordered by id, and every recursion over operands
  terminates on the id.
- **Backward pass.** It is the source's mutual recursion. Each step is a
  function from store to store, or to the error that aborts the pass.
  - Discovery uses the measures `(id, 1)` and `(b, 0, |ps|)`.
  - Firing uses `(id, 2)` for `_propagate`, `(b, 1, |ps|)` for the delivery
    loop and `(id, 3)` for `_do_task`.
- **Reference definition.** `Adjoint.Adj` states what a pass should deliver,
  without engines:
  - the root's adjoint is the seed;
  - a node below the root receives, from every consumer the root depends on,
    what that consumer's operator formula hands it at the consumer's own
    adjoint.

  `Soundness.BackwardSound` proves that the engine-driven pass computes
  exactly this. It also proves that the pass fails exactly when some formula
  the root depends on fails.
- **Gradient ledger.** The proof keeps a ledger during the pass. Each active
  node's pending count equals the operand positions that still name it among
  active consumers (`Tally.RemC`). Its accumulator plus the gradients still to
  come equals its adjoint (`Tally.RemV`). Hence a node fires only after every
  consumer edge has delivered, and it fires with its full adjoint.
- **Numbers.** Values are `real`. `x ** p` and `math.log` are fields of a
  `Math` record passed as a parameter. Nothing is assumed about them.

Behaviour of the code that its own comments do not suggest, which the
model keeps:

- `get_grad` returns the raw accumulator, which starts as `None`
  (autodiff/engine.py:14, 54-55). A node nothing was delivered to reads
  `None`, not `0`.
- `detach` keeps the node's operator (autodiff/var.py:217-220). The comment
  at autodiff/var.py:56 speaks of parents, but `_is_leaf` tests only the
  operator (autodiff/var.py:57). A detached computed node is therefore not a
  leaf. A pass started on it calls the operator's `gradient` with no operands
  and fails the arity assertion (`Scenarios.DetachedBackward`).
- `backward` on a root whose engine already works neither activates nor
  seeds it (autodiff/var.py:149-151). The seed is then ignored
  (`Vars.WorkingRootBackward`).
- The tests call `gradient()` on the root (test/autodiff/test_backward.py:13
  and on), and so does the docstring at autodiff/var.py:142. autodiff/var.py
  defines no such name; the pass is `backward` (autodiff/var.py:136). The
  scenarios below are stated for `backward()`.

Where the code is evidently wrong, the model uses the corrected code and
records the code as written separately (see "## Findings"). This concerns
the gradient of pow:

- As written, `y, x, p = inputs` unpacks three names from two operands
  (autodiff/op.py:179), so every pow gradient raises. As written, too, the
  exponent's gradient is `y * log(x)` (autodiff/op.py:195), not scaled by
  the upstream gradient, and not the `y * ln(p)` of the comment at
  autodiff/op.py:175.
- The model's pow gradient, `Ops.PowGradient`, reads `x, p = inputs` and
  gives the exponent `g * y * log(x)`. `Ops.Gradient` sends pow there, so
  the backward pass and every property proved about it use the corrected
  pow gradient. `log(0)` fails too, so a zero base with a Var exponent is a
  domain error.

## Model

| member | source | states |
|---|---|---|
| Engine.Reset | autodiff/engine.py:17-20 | reset clears the count and the accumulator and stops the engine working |
| Engine.ResetIsFreshAndIdempotent | autodiff/engine.py:7-20 | reset gives the constructor's state; resetting twice is resetting once; afterwards the engine is not working, owes nothing and holds no gradient |
| Engine.Activate | autodiff/engine.py:22-25 | activation fails exactly when the engine is already working; otherwise it sets working and keeps the count and the accumulator |
| Engine.ActivateFresh | autodiff/engine.py:7-28 | a fresh engine activates to working with nothing pending, is then ready, and refuses a second activation |
| Engine.Accumulate | autodiff/engine.py:30-38 | accumulate fails exactly when the engine is not working; otherwise the accumulator becomes the old one (empty read as zero) plus the gradient, and nothing else changes |
| Engine.AddDependency | autodiff/engine.py:40-41 | one more pending delivery, with no working check, and nothing else changes |
| Engine.DelDependency | autodiff/engine.py:43-46 | retiring fails exactly when nothing is pending; otherwise it lowers the count by one, never below zero |
| Engine.JoinBarrier | autodiff/engine.py:34-52 | a working engine owing k deliveries accepts exactly k of them; the accumulator becomes their sum added to what it held; it is ready exactly after the last one; one more delivery underflows |
| Engine.NumDepNeverNegative | autodiff/engine.py:17-52 | from a non-negative count, no sequence of engine calls that succeeds leaves a negative count |
| Ops.AddCompute | autodiff/op.py:65-69 | add needs exactly two operands and yields the sum of their values |
| Ops.AddGradient | autodiff/op.py:72-75 | add's gradient is the upstream gradient at every Var position and absent at every constant; wrong arity fails |
| Ops.SubCompute | autodiff/op.py:81-85 | sub needs two operands and yields the difference |
| Ops.SubGradient | autodiff/op.py:88-93 | sub's gradients are `g` and `-g`, present only for Var operands |
| Ops.MulCompute | autodiff/op.py:99-103 | mul needs two operands and yields the product |
| Ops.MulGradient | autodiff/op.py:106-113 | mul's gradients are `x2*g` and `x1*g`, present only for Var operands |
| Ops.DivCompute | autodiff/op.py:119-126 | div fails exactly on wrong arity or a zero divisor; otherwise the result times the divisor is the dividend |
| Ops.DivGradient | autodiff/op.py:129-138 | div's gradient fails exactly on wrong arity or a zero divisor; otherwise it is `g/x2` and `-x1*g/x2²` at the Var positions |
| Ops.NegCompute | autodiff/op.py:144-148 | neg needs one operand and yields its additive inverse |
| Ops.NegGradient | autodiff/op.py:151-154 | neg's gradient is `-g`, present even for a constant operand |
| Ops.PowCompute | autodiff/op.py:160-168 | pow fails exactly on wrong arity or a zero base with a negative exponent; otherwise it yields `x ** p` |
| Ops.PowGradientAsWritten | autodiff/op.py:171-180 | pow's gradient as written never succeeds: the arity assertion or the three-name unpacking of two operands fails |
| Ops.PowGradientUnscaled | autodiff/op.py:182-199 | pow's gradient with the operands unpacked as intended and otherwise as written: it fails exactly for a Var base at zero with exponent below one (zero division) or a Var exponent over a non-positive base (domain); otherwise the base's gradient is `g*p*y/x` (zero at a zero base) and the exponent's is `y*log(x)`, with no factor `g` |
| Ops.PowGradient | autodiff/op.py:182-199 | the corrected pow gradient fails in exactly the same cases with the same errors and gives the base the same gradient; the exponent's gradient is `g*y*log(x)`, scaled by the upstream gradient as the base's is |
| Ops.Compute | autodiff/op.py:46-51 | every operator's compute fails on wrong arity and fails only with an arithmetic error |
| Ops.Gradient | autodiff/var.py:192-194 | every operator's gradient fails on wrong arity and fails only with an arithmetic error |
| Ops.GradientAlignment | autodiff/op.py:38-45 | a successful gradient has one entry per operand, present at every Var, and absent at every constant except under negation |
| Ops.DivRefusesZeroBothWays | autodiff/op.py:119-138 | division refuses exactly a zero divisor, in compute and in gradient alike, with a zero-division error |
| Ops.LinearGradientIsDerivative | autodiff/op.py:62-113 | for add, sub, mul and neg, moving a Var operand by `h` moves the output by exactly `h` times its gradient at upstream one |
| Ops.DivGradientIsDerivative | autodiff/op.py:116-138 | div's gradients are its derivatives: exact in the dividend, and in the divisor up to a remainder quadratic in the step |
| Ops.MulGradientScales | autodiff/op.py:106-113 | mul's gradient at upstream `g` is `g` times its gradient at upstream one |
| Ops.DivGradientScales | autodiff/op.py:129-138 | div's gradient at upstream `g` is `g` times its gradient at upstream one |
| Ops.PowBaseGradientScales | autodiff/op.py:183-186 | the base's gradient of pow scales with the upstream gradient |
| Ops.PowExponentGradientIgnoresUpstream | autodiff/op.py:190-197 | as written, whenever pow's gradient succeeds at one upstream gradient it succeeds at every other, and the exponent receives the same value at all of them |
| Ops.PowExponentDiscrepancy | autodiff/op.py:195 | on `Var(2) ** Var(3)` under upstream two, the exponent receives `8*ln(2)` as written and `16*ln(2)` corrected |
| Ops.PowExponentGradientScales | autodiff/op.py:186-195 | the corrected exponent's gradient at upstream `g` is `g` times its gradient at upstream one |
| Ops.PowUnpackDiscrepancy | autodiff/op.py:177-180 | on `2 ** 3` with a Var base, the gradient as written fails to unpack, while the corrected one yields `12` for the base and nothing for the constant exponent |
| Ops.ReciprocalGradient | autodiff/op.py:26-27 | `reciprocal(x)` yields `1/x`, no gradient for the constant one, and `-g/x²` for `x` |
| Vars.NewVar | autodiff/var.py:11-24 | `Var(val)` adds a new node under a new id and leaves the others alone; the node is a leaf with no operands, no gradient and a fresh engine, holding the given value and name |
| Vars.ToArg | autodiff/op.py:202-203 | `_val`: a Var operand is read as its node's value, a constant as itself, and the Var/constant distinction is kept |
| Vars.Resolve | autodiff/op.py:202-203 | an operand list resolves position by position |
| Vars.Apply | autodiff/op.py:46-51 | applying an operator fails exactly when its compute fails; otherwise it adds one node whose operator is that one, whose operands are the inputs verbatim (constants included, all older than it) and whose value is compute's |
| Vars.Route | autodiff/var.py:68-96 | `+` and reflected `+` route to add, `-` and reflected `-` to sub, `*` and reflected `*` to mul, `/` and reflected `/` to div, unary `-` to neg and `**` to pow; the reflected add and mul keep `self` first, while the reflected sub and div put the other operand first |
| Vars.Dispatch | autodiff/var.py:68-96 | `**` with a modulus fails as unsupported; otherwise the call fails exactly on a zero divisor (the other operand for `/`, `self` for reflected `/`) or a zero base under a negative exponent, always with a zero-division error; on success it adds one new node, with no name, gradient or running engine, whose operator is the one the special method names, whose operands are `self` and the other operand in the order of the call (other first for reflected `-` and `/`), and whose value is that operator's compute on them, leaving every other node alone |
| Vars.Detach | autodiff/var.py:217-220 | detach empties the operands, clears the gradient and resets the engine; it keeps the value, the name and the operator, and leaves every other node alone |
| Vars.DetachIdempotent | autodiff/var.py:217-220 | detaching a node a second time changes nothing |
| Vars.EndTask | autodiff/var.py:213-215 | ending a node's task returns its engine to the fresh state and leaves its gradient and every other node alone |
| Vars.WorkingRootBackward | autodiff/var.py:148-159 | `backward` on a root whose engine already works ignores the seed and starts discovery from the store unchanged; a leaf root then stores whatever its engine held, possibly nothing |
| Vars.LeafBackward | autodiff/var.py:148-191 | `backward` on a leaf with an idle engine stores the seed, one by default, as the leaf's gradient and leaves its engine fresh |
| Discovery.RepeatVisit | autodiff/var.py:180-181 | a later visit to an active node only adds one count; everything the node depends on is active already |
| Discovery.FirstVisit | autodiff/var.py:174-176 | the first visit activates the node with one count, touching nothing else |
| Discovery.StartTaskSpec | autodiff/var.py:161-181 | discovery from a node activates exactly the nodes it depends on, adds one count to it, and adds to each node one count per operand position naming it among newly active consumers |
| Discovery.StartTasksSpec | autodiff/var.py:177-179 | the loop over a node's operands activates what the list depends on and adds one count per position naming a node |
| Soundness.DiscoverySpec | autodiff/var.py:148-156 | after seeding and discovery, a node is active exactly when the root depends on it, and its count equals the deliveries owed to it |
| Firing.DoTaskOutcome | autodiff/var.py:202-211 | a delivery to an idle node fails as not working, one to a node owed nothing fails as a dependency underflow, and otherwise it accumulates the gradient, retires one count, and fires the node exactly when the count reaches zero |
| Firing.DoTaskSpec | autodiff/var.py:202-211 | `_do_task` on a node owed the delivery keeps the ledger; it either settles the node and everything it sets off, or fails with an arithmetic error |
| Firing.DoTaskFires | autodiff/var.py:207-211 | the delivery that empties a node's count makes it fire with its full adjoint |
| Firing.DeliverSpec | autodiff/var.py:194-197 | the loop over `zip(grads, parents)` delivers each present gradient to its Var operand and keeps the ledger, or fails with an arithmetic error |
| Firing.PropagateSpec | autodiff/var.py:183-200 | a due node fires with its adjoint: a leaf stores it as its gradient, a computed node discharges every delivery it owes; either way its engine is reset; a failure is an arithmetic error of a formula below |
| Soundness.BackwardSound | autodiff/var.py:136-159 | on a store between passes, `backward` succeeds exactly when no operator formula the root depends on fails; it fails only with an arithmetic error; on success every engine is fresh again, every leaf the root depends on holds its adjoint, and every other gradient is unchanged |
| Soundness.BackwardSucceeds | autodiff/var.py:136-159 | with no failing formula, the pass succeeds, keeps every node, and leaves no engine working |
| Soundness.BackwardGradient | autodiff/var.py:186-190 | after a successful pass a node's gradient is its adjoint if it is a leaf the root depends on, and what it was otherwise |
| Soundness.BackwardResets | autodiff/var.py:213-215 | a successful pass leaves a store between passes, of the same shape |
| Rerun.BackwardAgain | autodiff/var.py:136-159 | a second `backward` on the store a successful pass left behind succeeds and returns that same store |
| Scenarios.DiamondBuilt | test/autodiff/test_backward.py:129-133 | building `y1 = x1*x2; y2 = x2+x3; y3 = y1/y2` from `Var(1), Var(2), Var(3)` through the special methods gives the diamond store |
| Scenarios.DiamondAdjoints | test/autodiff/test_backward.py:129-141 | the diamond's leaves have adjoints `0.4`, `0.12` and `-0.08` |
| Scenarios.DiamondBackward | test/autodiff/test_backward.py:129-141 | `y3.backward()` succeeds; the leaves receive `0.4`, `0.12` and `-0.08`; the computed nodes keep no gradient; no engine is left working |
| Scenarios.DiamondTest | test/autodiff/test_backward.py:129-141 | end to end: building the diamond through the special methods succeeds, and `y3.backward()` on the result gives the leaves `0.4`, `0.12` and `-0.08` |
| Scenarios.ReciprocalBackward | test/autodiff/test_backward.py:101-106 | `reciprocal(Var(2)).backward()` gives `x` the gradient `-0.25` |
| Scenarios.QuotientBackward | test/autodiff/test_backward.py:78-85 | `(Var(1) / Var(2)).backward()` gives the numerator `0.5` and the denominator `-0.25` |
| Scenarios.DetachedBackward | autodiff/var.py:217-220 | a pass started on a detached negation fails with an arity error, because the node keeps its operator |
| Scenarios.PowAtZeroBackward | autodiff/op.py:183-185 | with the corrected unpacking, `(x ** 0.5).backward()` at `x = 0` fails with a zero-division error |

## Left out

- Comparators and equality (autodiff/var.py:102-130): they compare values with float tolerance and take no part in gradients.
- `__str__` / `__repr__` (autodiff/var.py:59-62) and the `val` / `grad` / `name` properties (autodiff/var.py:26-53): the properties are the fields of `Vars.Node`.
- Float rounding: values are `real`, so the model computes exact rationals where the source rounds; `math.isclose` in the tests becomes equality.
- `x ** p` and `math.log` are parameters (`Ops.Math`) with no properties assumed. Complex results of `**` on a negative base are not modelled.
- Python exception classes are mapped to `Errors.Error`. The model does not keep the class (`RuntimeError`, `ValueError`, `ArithmeticError`, `AssertionError`) or the message.
- Engine.IsWorking, Engine.ZeroDependency, Engine.ReadyBackward and Engine.GetGrad have no contract of their own: each reads one field. Their behaviour is stated through `Engine.JoinBarrier`, `Engine.ResetIsFreshAndIdempotent` and `Firing.DoTaskOutcome`.
- Vars.Propagate: a computed node that fires with nothing accumulated is a `MissingGradient` error for every operator. The source passes `None` on as the upstream gradient instead, and what follows depends on the operator (autodiff/op.py:72-199). Add, sub with a constant second operand, and mul or div with only constant operands deliver nothing. Neg raises a `TypeError`, and so does sub with a Var second operand, and mul or div with any Var operand. Div first raises `ZeroDivisionError` at a zero divisor. Pow as written fails to unpack its operands; corrected, a Var base at zero yields `0` without reading the upstream gradient. Only `backward` on a root whose engine already works and holds nothing reaches this case, and only an aborted pass leaves such an engine.
- Soundness.BackwardSound: proved only for a store between passes, where every engine is fresh. When a pass aborts, the source keeps the leaf gradients already written (autodiff/var.py:190) and the engines left working (autodiff/var.py:207-208). `Vars.Backward` returns no store on failure, so the model never produces such a store. It accepts one as input, but no property is proved about passes started from it.
- Ops.Gradient: pow goes to `Ops.PowGradient`, with the unpacking of autodiff/op.py:179 and the missing upstream factor of autodiff/op.py:195 corrected. The code as written, `Ops.PowGradientAsWritten`, fails on every pow gradient. `Vars.Backward`, `Firing.PropagateSpec`, the `Soundness` lemmas, `Rerun.BackwardAgain` and the scenarios therefore describe the pass with the corrected pow gradient, not the one the code runs.
- The engine's `_check_working` helper is folded into `Engine.Accumulate`, its only caller.
- The test file test/autodiff/test_var.py (value arithmetic through the special methods) is covered by `Vars.Apply` and `Vars.Route` in general. Its scenarios are not restated one by one.

## Findings

| source | as written | input that shows it | evidently intended | confidence | as-written member | corrected member |
|---|---|---|---|---|---|---|
| autodiff/op.py:179 | `y, x, p = inputs` unpacks three names from the two operands, so every pow gradient raises | `Var(2) ** 3` then `.backward()`: the unpacking fails instead of giving `x` the gradient `12` (`Ops.PowUnpackDiscrepancy`) | `y = output; x, p = inputs`, as the next line's `_val(output, *inputs)` reads them | high; not executed | Ops.PowGradientAsWritten | Ops.PowGradient |
| autodiff/op.py:195 | `p_grad = y_val * math.log(x_val)` leaves out the upstream gradient, so the exponent's gradient ignores everything above the pow node | with line 179's unpacking corrected, `Var(2) ** Var(3)` under upstream `2`: the exponent receives `8*ln(2)` instead of `16*ln(2)` (`Ops.PowExponentDiscrepancy`) | `grad * y_val * math.log(x_val)`, the chain rule the base's gradient applies on line 186 | high; not executed | Ops.PowGradientUnscaled | Ops.PowGradient |
