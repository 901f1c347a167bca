/** The operator contracts of autodiff/op.py: for each operator a `compute`
    that yields the output value from the operand values and a `gradient`
    that, given the upstream gradient, the output value and the operands,
    yields one local gradient per operand, positionally, `None` where the
    operand is a plain constant. */
module Ops {
  import opened Errors

  /** An operand as an operator sees it: a plain number, or a Var with its
      value. */
  datatype Arg = Lit(c: real) | Var(v: real)

  /** The operator classes `_AddOp` … `_PowOp`. */
  datatype OpKind = Add | Sub | Mul | Div | Neg | Pow

  /** The transcendental functions the source takes from Python: `x ** p`
      and `math.log`. They are parameters of the model, not computed. */
  datatype Math = Math(pow: (real, real) -> real, ln: real -> real)

  /** `y * math.log(x)`, the exponent's local gradient of `y = x ** p`. */
  function YLogX(m: Math, y: real, x: real): real {
    y * m.ln(x)
  }

  type Grads = seq<Option<real>>

  /** `_val`: the value of a Var, a constant passed through. */
  function Val(a: Arg): real {
    match a
    case Lit(c) => c
    case Var(v) => v
  }

  /** The number of operands each operator asserts. */
  function ArityOf(op: OpKind): nat {
    if op == Neg then 1 else 2
  }

  /** The gradient slot for one operand: the local gradient for a Var,
      `None` for a constant. */
  function Slot(a: Arg, g: real): Option<real> {
    if a.Var? then Some(g) else None
  }

  // ---------------------------------------------------------------- add

  function AddCompute(args: seq<Arg>): (r: Result<real>)
    ensures r.Ok? <==> |args| == 2
    ensures r.Err? ==> r.error == Arity
    ensures r.Ok? ==> r.value == Val(args[0]) + Val(args[1])
  {
    if |args| != 2 then Err(Arity) else Ok(Val(args[0]) + Val(args[1]))
  }

  function AddGradient(grad: real, args: seq<Arg>): (r: Result<Grads>)
    ensures r.Ok? <==> |args| == 2
    ensures r.Err? ==> r.error == Arity
    ensures r.Ok? ==> |r.value| == 2
    ensures r.Ok? ==> forall k :: 0 <= k < 2 ==> r.value[k] == Slot(args[k], grad)
  {
    if |args| != 2 then Err(Arity)
    else Ok(seq(2, k requires 0 <= k < 2 => Slot(args[k], grad)))
  }

  // ---------------------------------------------------------------- sub

  function SubCompute(args: seq<Arg>): (r: Result<real>)
    ensures r.Ok? <==> |args| == 2
    ensures r.Err? ==> r.error == Arity
    ensures r.Ok? ==> r.value == Val(args[0]) - Val(args[1])
  {
    if |args| != 2 then Err(Arity) else Ok(Val(args[0]) - Val(args[1]))
  }

  function SubGradient(grad: real, args: seq<Arg>): (r: Result<Grads>)
    ensures r.Ok? <==> |args| == 2
    ensures r.Err? ==> r.error == Arity
    ensures r.Ok? ==> r.value == [Slot(args[0], grad), Slot(args[1], -grad)]
  {
    if |args| != 2 then Err(Arity)
    else Ok([Slot(args[0], grad), Slot(args[1], -grad)])
  }

  // ---------------------------------------------------------------- mul

  function MulCompute(args: seq<Arg>): (r: Result<real>)
    ensures r.Ok? <==> |args| == 2
    ensures r.Err? ==> r.error == Arity
    ensures r.Ok? ==> r.value == Val(args[0]) * Val(args[1])
  {
    if |args| != 2 then Err(Arity) else Ok(Val(args[0]) * Val(args[1]))
  }

  function MulGradient(grad: real, args: seq<Arg>): (r: Result<Grads>)
    ensures r.Ok? <==> |args| == 2
    ensures r.Err? ==> r.error == Arity
    ensures r.Ok? ==> r.value == [Slot(args[0], Val(args[1]) * grad), Slot(args[1], Val(args[0]) * grad)]
  {
    if |args| != 2 then Err(Arity)
    else Ok([Slot(args[0], Val(args[1]) * grad), Slot(args[1], Val(args[0]) * grad)])
  }

  // ---------------------------------------------------------------- div

  function DivCompute(args: seq<Arg>): (r: Result<real>)
    ensures r.Ok? <==> |args| == 2 && Val(args[1]) != 0.0
    ensures r.Err? ==> r.error == (if |args| != 2 then Arity else ZeroDivision)
    ensures r.Ok? ==> r.value * Val(args[1]) == Val(args[0])
  {
    if |args| != 2 then Err(Arity)
    else if Val(args[1]) == 0.0 then Err(ZeroDivision)
    else Ok(Val(args[0]) / Val(args[1]))
  }

  function DivGradient(grad: real, args: seq<Arg>): (r: Result<Grads>)
    ensures r.Ok? <==> |args| == 2 && Val(args[1]) != 0.0
    ensures r.Err? ==> r.error == (if |args| != 2 then Arity else ZeroDivision)
    ensures r.Ok? ==> |r.value| == 2
    ensures r.Ok? ==> r.value[0] == Slot(args[0], grad / Val(args[1]))
    ensures r.Ok? ==> r.value[1] == Slot(args[1], -Val(args[0]) * grad / (Val(args[1]) * Val(args[1])))
  {
    if |args| != 2 then Err(Arity)
    else if Val(args[1]) == 0.0 then Err(ZeroDivision)
    else Ok([Slot(args[0], grad / Val(args[1])),
             Slot(args[1], -Val(args[0]) * grad / (Val(args[1]) * Val(args[1])))])
  }

  // ---------------------------------------------------------------- neg

  function NegCompute(args: seq<Arg>): (r: Result<real>)
    ensures r.Ok? <==> |args| == 1
    ensures r.Err? ==> r.error == Arity
    ensures r.Ok? ==> r.value + Val(args[0]) == 0.0
  {
    if |args| != 1 then Err(Arity) else Ok(-Val(args[0]))
  }

  /** The one gradient is present even for a constant operand. */
  function NegGradient(grad: real, args: seq<Arg>): (r: Result<Grads>)
    ensures r.Ok? <==> |args| == 1
    ensures r.Err? ==> r.error == Arity
    ensures r.Ok? ==> r.value == [Some(-grad)]
  {
    if |args| != 1 then Err(Arity) else Ok([Some(-grad)])
  }

  // ---------------------------------------------------------------- pow

  /** `x ** p`, refused for a zero base and a negative exponent. */
  function PowCompute(args: seq<Arg>, m: Math): (r: Result<real>)
    ensures r.Ok? <==> |args| == 2 && !(Val(args[0]) == 0.0 && Val(args[1]) < 0.0)
    ensures r.Err? ==> r.error == (if |args| != 2 then Arity else ZeroDivision)
    ensures r.Ok? ==> r.value == m.pow(Val(args[0]), Val(args[1]))
  {
    if |args| != 2 then Err(Arity)
    else
      var x, p := Val(args[0]), Val(args[1]);
      if x == 0.0 && p < 0.0 then Err(ZeroDivision)
      else Ok(m.pow(x, p))
  }

  /** The gradient of `y = x ** p` as the source writes it: it unpacks three
      names from the two operands, which always fails. */
  function PowGradientAsWritten(grad: real, output: real, args: seq<Arg>): (r: Result<Grads>)
    ensures r.Err?
    ensures r.error == (if |args| != 2 then Arity else Unpack)
  {
    if |args| != 2 then Err(Arity) else Err(Unpack)
  }

  /** The gradient of `y = x ** p` with the operands unpacked as intended
      (`y` is the output, `x, p` the operands), and otherwise as written. The
      base's gradient is refused at a zero base with exponent below one and
      is zero at a zero base otherwise; the exponent's gradient is
      `y * ln(x)`, refused for a negative base and, through the logarithm,
      for a zero base. As written, the exponent's gradient is not scaled by
      the upstream gradient. */
  function PowGradientUnscaled(grad: real, output: real, args: seq<Arg>, m: Math): (r: Result<Grads>)
    ensures |args| != 2 ==> r == Err(Arity)
    ensures |args| == 2 ==>
      (r.Err? <==> (args[0].Var? && Val(args[0]) == 0.0 && Val(args[1]) < 1.0) || (args[1].Var? && Val(args[0]) <= 0.0))
    ensures |args| == 2 && args[0].Var? && Val(args[0]) == 0.0 && Val(args[1]) < 1.0 ==> r == Err(ZeroDivision)
    ensures |args| == 2 && r.Err? && !(args[0].Var? && Val(args[0]) == 0.0 && Val(args[1]) < 1.0) ==> r == Err(Domain)
    ensures r.Ok? ==> |args| == 2 && |r.value| == 2
    ensures r.Ok? ==> r.value[0] == Slot(args[0], if Val(args[0]) == 0.0 then 0.0 else grad * Val(args[1]) * output / Val(args[0]))
    ensures r.Ok? ==> r.value[1] == Slot(args[1], YLogX(m, output, Val(args[0])))
  {
    if |args| != 2 then Err(Arity)
    else if args[0].Var? && Val(args[0]) == 0.0 && Val(args[1]) < 1.0 then Err(ZeroDivision)
    else if args[1].Var? && Val(args[0]) < 0.0 then Err(Domain)
    else if args[1].Var? && Val(args[0]) == 0.0 then Err(Domain)   // math.log(0)
    else Ok([Slot(args[0], if Val(args[0]) == 0.0 then 0.0 else grad * Val(args[1]) * output / Val(args[0])),
             Slot(args[1], YLogX(m, output, Val(args[0])))])
  }

  /** The gradient of `y = x ** p` as the chain rule wants it: as above,
      with the exponent's gradient `y * ln(x)` scaled by the upstream
      gradient like the base's. This is the pow gradient the model uses. */
  function PowGradient(grad: real, output: real, args: seq<Arg>, m: Math): (r: Result<Grads>)
    ensures |args| != 2 ==> r == Err(Arity)
    ensures |args| == 2 ==>
      (r.Err? <==> (args[0].Var? && Val(args[0]) == 0.0 && Val(args[1]) < 1.0) || (args[1].Var? && Val(args[0]) <= 0.0))
    ensures |args| == 2 && args[0].Var? && Val(args[0]) == 0.0 && Val(args[1]) < 1.0 ==> r == Err(ZeroDivision)
    ensures |args| == 2 && r.Err? && !(args[0].Var? && Val(args[0]) == 0.0 && Val(args[1]) < 1.0) ==> r == Err(Domain)
    ensures r.Ok? ==> |args| == 2 && |r.value| == 2
    ensures r.Ok? ==> r.value[0] == Slot(args[0], if Val(args[0]) == 0.0 then 0.0 else grad * Val(args[1]) * output / Val(args[0]))
    ensures r.Ok? ==> r.value[1] == Slot(args[1], grad * YLogX(m, output, Val(args[0])))
  {
    var u :- PowGradientUnscaled(grad, output, args, m);
    Ok([u[0], Slot(args[1], grad * YLogX(m, output, Val(args[0])))])
  }

  // ----------------------------------------------------------- dispatch

  /** `cls.compute(*inputs)` for the operator class `op`. */
  function Compute(op: OpKind, args: seq<Arg>, m: Math): (r: Result<real>)
    ensures |args| != ArityOf(op) ==> r == Err(Arity)
    ensures r.Err? ==> r.error.IsArithmetic()
  {
    match op
    case Add => AddCompute(args)
    case Sub => SubCompute(args)
    case Mul => MulCompute(args)
    case Div => DivCompute(args)
    case Neg => NegCompute(args)
    case Pow => PowCompute(args, m)
  }

  /** `cls.gradient(grad, output, *inputs)` for the operator class `op`. */
  function Gradient(op: OpKind, grad: real, output: real, args: seq<Arg>, m: Math): (r: Result<Grads>)
    ensures |args| != ArityOf(op) ==> r == Err(Arity)
    ensures r.Err? ==> r.error.IsArithmetic()
  {
    match op
    case Add => AddGradient(grad, args)
    case Sub => SubGradient(grad, args)
    case Mul => MulGradient(grad, args)
    case Div => DivGradient(grad, args)
    case Neg => NegGradient(grad, args)
    case Pow => PowGradient(grad, output, args, m)
  }

  /** `reciprocal(x)` is division of the constant one by `x`. */
  function ReciprocalArgs(x: Arg): seq<Arg> {
    [Lit(1.0), x]
  }

  // ------------------------------------------------------------- lemmas

  /** Gradients line up with the operands: one entry per operand, present
      for every Var, and absent for every constant except under negation. */
  lemma GradientAlignment(op: OpKind, grad: real, output: real, args: seq<Arg>, m: Math)
    ensures var r := Gradient(op, grad, output, args, m);
      r.Ok? ==>
        && |r.value| == |args|
        && (forall k :: 0 <= k < |args| && args[k].Var? ==> r.value[k].Some?)
        && (op != Neg ==> forall k :: 0 <= k < |args| && args[k].Lit? ==> r.value[k].None?)
  {
  }

  /** Division refuses a zero divisor in `compute` and in `gradient` alike. */
  lemma DivRefusesZeroBothWays(grad: real, args: seq<Arg>)
    requires |args| == 2
    ensures DivCompute(args).Err? <==> Val(args[1]) == 0.0
    ensures DivGradient(grad, args).Err? <==> Val(args[1]) == 0.0
    ensures DivCompute(args).Err? ==> DivCompute(args).error == ZeroDivision && DivGradient(grad, args).error == ZeroDivision
  {
  }

  /** The argument list with operand `k` moved by `h`. */
  function Nudge(args: seq<Arg>, k: nat, h: real): seq<Arg>
    requires k < |args|
  {
    args[k := Var(Val(args[k]) + h)]
  }

  /** The local gradients of add, sub, mul and neg are the exact rates of
      change of `compute` in each operand: moving one Var operand by `h`
      moves the output by `h` times its gradient at upstream one. */
  lemma LinearGradientIsDerivative(op: OpKind, args: seq<Arg>, k: nat, h: real, m: Math)
    requires op in {Add, Sub, Mul, Neg}
    requires |args| == ArityOf(op) && k < |args| && args[k].Var?
    ensures Compute(op, args, m).Ok? && Gradient(op, 1.0, 0.0, args, m).Ok?
    ensures Gradient(op, 1.0, 0.0, args, m).value[k].Some?
    ensures Compute(op, Nudge(args, k, h), m)
         == Ok(Compute(op, args, m).value + h * Gradient(op, 1.0, 0.0, args, m).value[k].value)
  {
    var a := Nudge(args, k, h);
    var y := Compute(op, args, m).value;
    var g := Gradient(op, 1.0, 0.0, args, m).value[k].value;
    match op {
      case Add =>
        assert g == 1.0;
        if k == 0 { assert Compute(op, a, m).value == (Val(args[0]) + h) + Val(args[1]); }
        else { assert Compute(op, a, m).value == Val(args[0]) + (Val(args[1]) + h); }
      case Sub =>
        if k == 0 {
          assert g == 1.0;
          assert Compute(op, a, m).value == (Val(args[0]) + h) - Val(args[1]);
        } else {
          assert g == -1.0;
          assert Compute(op, a, m).value == Val(args[0]) - (Val(args[1]) + h);
        }
      case Neg =>
        assert g == -1.0;
        assert Compute(op, a, m).value == -(Val(args[0]) + h);
      case Mul =>
        var x1, x2 := Val(args[0]), Val(args[1]);
        if k == 0 {
          assert g == x2 * 1.0;
          assert Compute(op, a, m).value == (x1 + h) * x2;
          assert (x1 + h) * x2 == x1 * x2 + h * (x2 * 1.0);
        } else {
          assert g == x1 * 1.0;
          assert Compute(op, a, m).value == x1 * (x2 + h);
          assert x1 * (x2 + h) == x1 * x2 + h * (x1 * 1.0);
        }
    }
  }

  lemma CancelFactor(a: real, b: real, c: real)
    requires c != 0.0 && a * c == b * c
    ensures a == b
  {
    assert (a - b) * c == 0.0;
  }

  lemma QuotientShift(x1: real, x2: real, h: real)
    requires x2 != 0.0
    ensures (x1 + h) / x2 == x1 / x2 + h * (1.0 / x2)
  {
  }

  lemma Inverse(b: real)
    requires b != 0.0
    ensures (1.0 / b) * b == 1.0
  {
  }

  lemma QuotientIsProduct(a: real, b: real)
    requires b != 0.0
    ensures a / b == a * (1.0 / b)
  {
  }

  lemma InverseSquare(x1: real, x2: real)
    requires x2 != 0.0
    ensures -x1 * 1.0 / (x2 * x2) == -x1 * (1.0 / x2) * (1.0 / x2)
  {
  }

  /** With u = 1/x and v = 1/(x+h): v = u - h u² + h² u² v. */
  lemma InverseExpansion(u: real, v: real, x: real, h: real)
    requires u * x == 1.0 && v * (x + h) == 1.0
    ensures v == u - h * u * u + h * h * u * u * v
  {
    assert v - u == v * u * x - u * v * (x + h);
  }

  lemma Distribute(x1: real, u: real, v: real, h: real)
    ensures x1 * (u - h * u * u + h * h * u * u * v)
         == x1 * u + h * (-x1 * u * u) + h * h * x1 * u * u * v
  {
  }

  lemma QuotientRemainder(x1: real, x2: real, h: real)
    requires x2 != 0.0 && x2 + h != 0.0
    ensures x1 / (x2 + h)
         == x1 / x2 + h * (-x1 * 1.0 / (x2 * x2)) + h * h * x1 * (1.0 / x2) * (1.0 / x2) * (1.0 / (x2 + h))
  {
    var u, v := 1.0 / x2, 1.0 / (x2 + h);
    Inverse(x2);
    Inverse(x2 + h);
    InverseExpansion(u, v, x2, h);
    InverseSquare(x1, x2);
    QuotientIsProduct(x1, x2);
    QuotientIsProduct(x1, x2 + h);
    Distribute(x1, u, v, h);
  }

  /** Division's gradients are its derivatives: exact in the dividend, and
      in the divisor up to a remainder quadratic in the step. */
  lemma DivGradientIsDerivative(x1: real, x2: real, h: real)
    requires x2 != 0.0 && x2 + h != 0.0
    ensures DivCompute([Var(x1), Var(x2)]) == Ok(x1 / x2)
    ensures DivGradient(1.0, [Var(x1), Var(x2)]) == Ok([Some(1.0 / x2), Some(-x1 * 1.0 / (x2 * x2))])
    ensures DivCompute([Var(x1 + h), Var(x2)]) == Ok(x1 / x2 + h * (1.0 / x2))
    ensures DivCompute([Var(x1), Var(x2 + h)])
         == Ok(x1 / x2 + h * (-x1 * 1.0 / (x2 * x2)) + h * h * x1 * (1.0 / x2) * (1.0 / x2) * (1.0 / (x2 + h)))
  {
    var args := [Var(x1), Var(x2)];
    var r := DivGradient(1.0, args);
    assert r.value[1].value == -Val(args[0]) * 1.0 / (Val(args[1]) * Val(args[1]));
    assert x2 * x2 == Val(args[1]) * Val(args[1]);
    assert -Val(args[0]) * 1.0 == -x1 * 1.0;
    QuotientShift(x1, x2, h);
    QuotientRemainder(x1, x2, h);
  }

  lemma ScaledQuotient(grad: real, a: real, q: real)
    requires q != 0.0
    ensures a * grad / q == grad * (a * 1.0 / q)
  {
    assert (a * grad / q) * q == a * grad;
    assert (grad * (a * 1.0 / q)) * q == grad * ((a * 1.0 / q) * q);
    CancelFactor(a * grad / q, grad * (a * 1.0 / q), q);
  }

  // Multiplication, division and the base of pow give local gradients that
  // scale with the upstream gradient (addition, subtraction and negation
  // pass it through unchanged), which is what lets contributions be summed
  // along paths: the chain rule. The exponent of pow is the exception.

  lemma MulGradientScales(grad: real, args: seq<Arg>)
    requires |args| == 2
    ensures MulGradient(grad, args).Ok? && MulGradient(1.0, args).Ok?
    ensures forall k :: 0 <= k < 2 && args[k].Var? ==>
      MulGradient(grad, args).value[k].value == grad * MulGradient(1.0, args).value[k].value
  {
    var x1, x2 := Val(args[0]), Val(args[1]);
    assert x2 * grad == grad * (x2 * 1.0) && x1 * grad == grad * (x1 * 1.0);
  }

  lemma DivGradientScales(grad: real, args: seq<Arg>)
    requires DivGradient(1.0, args).Ok?
    ensures DivGradient(grad, args).Ok?
    ensures forall k :: 0 <= k < 2 && args[k].Var? ==>
      DivGradient(grad, args).value[k].value == grad * DivGradient(1.0, args).value[k].value
  {
    var x1, x2 := Val(args[0]), Val(args[1]);
    ScaledQuotient(grad, 1.0, x2);
    ScaledQuotient(grad, -x1, x2 * x2);
  }

  lemma PowBaseGradientScales(grad: real, output: real, args: seq<Arg>, m: Math)
    requires PowGradient(1.0, output, args, m).Ok? && args[0].Var?
    ensures PowGradient(grad, output, args, m).Ok?
    ensures PowGradient(grad, output, args, m).value[0].value
         == grad * PowGradient(1.0, output, args, m).value[0].value
  {
    var x, p := Val(args[0]), Val(args[1]);
    if x != 0.0 {
      ScaledQuotient(grad, p * output, x);
      assert grad * p * output == p * output * grad;
      assert 1.0 * p * output == p * output * 1.0;
    }
  }

  /** As written, the exponent's gradient of pow is the same whatever the
      upstream gradient. */
  lemma PowExponentGradientIgnoresUpstream(g1: real, g2: real, y: real, args: seq<Arg>, m: Math)
    requires PowGradientUnscaled(g1, y, args, m).Ok?
    ensures PowGradientUnscaled(g2, y, args, m).Ok?
    ensures PowGradientUnscaled(g1, y, args, m).value[1] == PowGradientUnscaled(g2, y, args, m).value[1]
  {
  }

  /** `Var(2) ** Var(3)` under the upstream gradient two: as written the
      exponent receives `8 * ln(2)`, the chain rule wants twice that. */
  lemma PowExponentDiscrepancy(m: Math)
    requires m.ln(2.0) != 0.0
    ensures PowGradientUnscaled(2.0, 8.0, [Var(2.0), Var(3.0)], m).value[1] == Some(8.0 * m.ln(2.0))
    ensures PowGradient(2.0, 8.0, [Var(2.0), Var(3.0)], m).value[1] == Some(16.0 * m.ln(2.0))
    ensures PowGradientUnscaled(2.0, 8.0, [Var(2.0), Var(3.0)], m) != PowGradient(2.0, 8.0, [Var(2.0), Var(3.0)], m)
  {
  }

  /** The corrected exponent's gradient scales with the upstream gradient,
      as the base's does. */
  lemma PowExponentGradientScales(grad: real, output: real, args: seq<Arg>, m: Math)
    requires PowGradient(1.0, output, args, m).Ok? && args[1].Var?
    ensures PowGradient(grad, output, args, m).Ok?
    ensures PowGradient(grad, output, args, m).value[1].value
         == grad * PowGradient(1.0, output, args, m).value[1].value
  {
  }

  /** Pow as written never yields gradients, where the intended unpacking
      does for the same operands. */
  lemma PowUnpackDiscrepancy(m: Math)
    ensures PowGradientAsWritten(1.0, 8.0, [Var(2.0), Lit(3.0)]) == Err(Unpack)
    ensures PowGradient(1.0, 8.0, [Var(2.0), Lit(3.0)], m) == Ok([Some(12.0), None])
  {
  }

  /** `reciprocal(x)` gives `1 / x` and the single Var gradient `-g / x²`. */
  lemma ReciprocalGradient(x: real, grad: real, m: Math)
    requires x != 0.0
    ensures Compute(Div, ReciprocalArgs(Var(x)), m).Ok?
    ensures Compute(Div, ReciprocalArgs(Var(x)), m).value * x == 1.0
    ensures Gradient(Div, grad, 0.0, ReciprocalArgs(Var(x)), m) == Ok([None, Some(-grad / (x * x))])
  {
    var args := ReciprocalArgs(Var(x));
    var r := DivGradient(grad, args);
    assert r.value[1].value == -Val(args[0]) * grad / (Val(args[1]) * Val(args[1]));
    assert x * x == Val(args[1]) * Val(args[1]);
    assert -Val(args[0]) * grad == -grad;
    assert r.value == [None, Some(-grad / (x * x))];
  }
}
