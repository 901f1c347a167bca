/** The scenarios of the library's own tests, worked through the model. */
module Scenarios {
  import opened Errors
  import opened Engine
  import opened Ops
  import opened Vars
  import opened Adjoint
  import opened Soundness

  function Leaf(v: real): Node {
    Node(v, None, None, [], None, Fresh())
  }

  function Computed(v: real, op: OpKind, ps: seq<Operand>): Node {
    Node(v, None, Some(op), ps, None, Fresh())
  }

  /** `x1, x2, x3 = Var(1), Var(2), Var(3); y1 = x1 * x2; y2 = x2 + x3;
      y3 = y1 / y2`, as ids 0 to 5. */
  function DiamondStore(): Graph {
    Graph(map[0 := Leaf(1.0), 1 := Leaf(2.0), 2 := Leaf(3.0),
              3 := Computed(2.0, Mul, [Ref(0), Ref(1)]),
              4 := Computed(5.0, Add, [Ref(1), Ref(2)]),
              5 := Computed(0.4, Div, [Ref(3), Ref(4)])], 6)
  }

  function Empty(): Graph {
    Graph(map[], 0)
  }

  function Leaves(): Graph {
    Graph(map[0 := Leaf(1.0), 1 := Leaf(2.0), 2 := Leaf(3.0)], 3)
  }

  function WithY1(): Graph {
    Graph(Leaves().nodes[3 := Computed(2.0, Mul, [Ref(0), Ref(1)])], 4)
  }

  function WithY2(): Graph {
    Graph(WithY1().nodes[4 := Computed(5.0, Add, [Ref(1), Ref(2)])], 5)
  }

  /** The diamond built through `Var(...)` and the operator sugar. */
  function BuildDiamond(m: Math): Result<Graph> {
    var (g1, x1) := NewVar(Empty(), 1.0, None);
    var (g2, x2) := NewVar(g1, 2.0, None);
    var (g3, x3) := NewVar(g2, 3.0, None);
    match Dispatch(g3, Times, x1, Ref(x2), None, m)
    case Err(e) => Err(e)
    case Ok((g4, y1)) =>
      match Dispatch(g4, Plus, x2, Ref(x3), None, m)
      case Err(e) => Err(e)
      case Ok((g5, y2)) =>
        match Dispatch(g5, Over, y1, Ref(y2), None, m)
        case Err(e) => Err(e)
        case Ok((g6, _)) => Ok(g6)
  }

  lemma BuildLeaves()
    ensures var (g1, x1) := NewVar(Empty(), 1.0, None);
      var (g2, x2) := NewVar(g1, 2.0, None);
      var (g3, x3) := NewVar(g2, 3.0, None);
      x1 == 0 && x2 == 1 && x3 == 2 && g3 == Leaves()
  {
  }

  lemma BuildY1(m: Math)
    ensures Valid(Leaves()) && Dispatch(Leaves(), Times, 0, Ref(1), None, m) == Ok((WithY1(), 3))
  {
    assert Resolve(Leaves(), [Ref(0), Ref(1)]) == [Var(1.0), Var(2.0)];
  }

  lemma BuildY2(m: Math)
    ensures Valid(WithY1()) && Dispatch(WithY1(), Plus, 1, Ref(2), None, m) == Ok((WithY2(), 4))
  {
    assert Resolve(WithY1(), [Ref(1), Ref(2)]) == [Var(2.0), Var(3.0)];
  }

  lemma BuildY3(m: Math)
    ensures Valid(WithY2()) && Dispatch(WithY2(), Over, 3, Ref(4), None, m) == Ok((DiamondStore(), 5))
  {
    assert Resolve(WithY2(), [Ref(3), Ref(4)]) == [Var(2.0), Var(5.0)];
  }

  /** Building the test's diamond gives the store above. */
  lemma DiamondBuilt(m: Math)
    ensures BuildDiamond(m) == Ok(DiamondStore())
  {
    BuildLeaves();
    BuildY1(m);
    BuildY2(m);
    BuildY3(m);
  }

  /** A store holding exactly the diamond. */
  predicate IsDiamond(g: Graph) {
    && g.next == 6 && g.nodes.Keys == {0, 1, 2, 3, 4, 5}
    && g.nodes[0] == Leaf(1.0) && g.nodes[1] == Leaf(2.0) && g.nodes[2] == Leaf(3.0)
    && g.nodes[3] == Computed(2.0, Mul, [Ref(0), Ref(1)])
    && g.nodes[4] == Computed(5.0, Add, [Ref(1), Ref(2)])
    && g.nodes[5] == Computed(0.4, Div, [Ref(3), Ref(4)])
  }

  lemma DiamondIs()
    ensures IsDiamond(DiamondStore())
  {
  }

  lemma DiamondValid(g: Graph)
    requires IsDiamond(g)
    ensures Clean(g) && Valid(g)
  {
  }

  lemma DiamondReach(g: Graph)
    requires IsDiamond(g)
    ensures Valid(g)
    ensures Reaches(g, 5, 0) && Reaches(g, 5, 1) && Reaches(g, 5, 2) && Reaches(g, 5, 3) && Reaches(g, 5, 4)
  {
    DiamondValid(g);
    ReachesStep(g, 5, 0, 3);
    ReachesStep(g, 5, 1, 4);
    ReachesStep(g, 3, 0, 0);
    ReachesStep(g, 3, 1, 1);
    ReachesStep(g, 4, 1, 2);
    ReachesStep(g, 5, 0, 0);
    ReachesStep(g, 5, 0, 1);
    ReachesStep(g, 5, 1, 2);
  }

  lemma DiamondY3(g: Graph, m: Math)
    requires IsDiamond(g)
    ensures CtxOk(Ctx(g, 5, 1.0, m))
    ensures var X := Ctx(g, 5, 1.0, m); Adj(X, 5) == 1.0 && Weights(X, 5) == [Some(0.2), Some(-0.08)]
  {
    DiamondValid(g);
    assert Resolve(g, [Ref(3), Ref(4)]) == [Var(2.0), Var(5.0)];
  }

  lemma DiamondY2(g: Graph, m: Math)
    requires IsDiamond(g)
    ensures CtxOk(Ctx(g, 5, 1.0, m))
    ensures var X := Ctx(g, 5, 1.0, m); Adj(X, 4) == -0.08 && Weights(X, 4) == [Some(-0.08), Some(-0.08)]
  {
    var X := Ctx(g, 5, 1.0, m);
    DiamondY3(g, m);
    assert Inflow(X, 4, 6) == Inflow(X, 4, 5) + Contrib(X, 5, 4);
    assert Resolve(g, [Ref(1), Ref(2)]) == [Var(2.0), Var(3.0)];
  }

  lemma DiamondY1(g: Graph, m: Math)
    requires IsDiamond(g)
    ensures CtxOk(Ctx(g, 5, 1.0, m))
    ensures var X := Ctx(g, 5, 1.0, m); Adj(X, 3) == 0.2 && Weights(X, 3) == [Some(0.4), Some(0.2)]
  {
    DiamondAdj1(g, m);
    DiamondValid(g);
    assert Resolve(g, [Ref(0), Ref(1)]) == [Var(1.0), Var(2.0)];
  }

  lemma DiamondAdj1(g: Graph, m: Math)
    requires IsDiamond(g)
    ensures CtxOk(Ctx(g, 5, 1.0, m)) && Adj(Ctx(g, 5, 1.0, m), 3) == 0.2
  {
    var X := Ctx(g, 5, 1.0, m);
    DiamondFrom5(g, m);
    DiamondFrom4(g, m);
    assert Inflow(X, 3, 6) == Inflow(X, 3, 5) + Contrib(X, 5, 3);
    assert Inflow(X, 3, 5) == Inflow(X, 3, 4) + Contrib(X, 4, 3);
  }

  /** What `y3` hands to `y1`. */
  lemma DiamondFrom5(g: Graph, m: Math)
    requires IsDiamond(g)
    ensures CtxOk(Ctx(g, 5, 1.0, m)) && Contrib(Ctx(g, 5, 1.0, m), 5, 3) == 0.2
  {
    var X := Ctx(g, 5, 1.0, m);
    DiamondY3(g, m);
    DiamondValid(g);
    assert Reaches(g, 5, 5);
    WOccPair(Ref(3), Ref(4), Some(0.2), Some(-0.08), 3);
  }

  /** `y2` hands nothing to `y1`. */
  lemma DiamondFrom4(g: Graph, m: Math)
    requires IsDiamond(g)
    ensures CtxOk(Ctx(g, 5, 1.0, m)) && Contrib(Ctx(g, 5, 1.0, m), 4, 3) == 0.0
  {
    var X := Ctx(g, 5, 1.0, m);
    DiamondValid(g);
    WOccMiss([Ref(1), Ref(2)], Weights(X, 4), 3);
  }

  /** The adjoints of the diamond's leaves: the values the test expects. */
  lemma DiamondAdjoints(g: Graph, m: Math)
    requires IsDiamond(g)
    ensures CtxOk(Ctx(g, 5, 1.0, m))
    ensures var X := Ctx(g, 5, 1.0, m); Adj(X, 0) == 0.4 && Adj(X, 1) == 0.12 && Adj(X, 2) == -0.08
  {
    DiamondX3(g, m);
    DiamondX2(g, m);
    DiamondX1(g, m);
  }

  /** A consumer that does not name `n` hands it nothing. */
  lemma {:induction false} WOccMiss(ps: seq<Operand>, ws: Grads, n: nat)
    requires Ref(n) !in ps
    ensures WOcc(ps, ws, n) == 0.0
    decreases |ps|
  {
    if ps != [] && ws != [] {
      assert Ref(n) !in ps[1..];
      WOccMiss(ps[1..], ws[1..], n);
    }
  }

  /** A two-operand consumer hands `n` the gradient of each position that
      names it. */
  lemma WOccPair(a: Operand, b: Operand, wa: Option<real>, wb: Option<real>, n: nat)
    ensures WOcc([a, b], [wa, wb], n)
      == (if a == Ref(n) then wa.GetOr(0.0) else 0.0) + (if b == Ref(n) then wb.GetOr(0.0) else 0.0)
  {
    assert [a, b][1..] == [b] && [wa, wb][1..] == [wb];
    assert [b][1..] == [] && [wb][1..] == [];
    assert WOcc([b], [wb], n) == (if b == Ref(n) then wb.GetOr(0.0) else 0.0) + WOcc([], [], n);
  }

  /** Every node of the diamond is reached from `y3`, so each consumer
      hands its operands their share of its local gradients. */
  lemma DiamondContrib(g: Graph, m: Math, c: nat, n: nat)
    requires IsDiamond(g) && n < c <= 5
    ensures CtxOk(Ctx(g, 5, 1.0, m)) && c in g.nodes
    ensures Contrib(Ctx(g, 5, 1.0, m), c, n) == WOcc(g.nodes[c].parents, Weights(Ctx(g, 5, 1.0, m), c), n)
  {
    DiamondReach(g);
    assert Reaches(g, 5, c) by {
      if c == 5 {
        assert Reaches(g, 5, 5);
      }
    }
    ContribReached(Ctx(g, 5, 1.0, m), c, n);
  }

  lemma DiamondX3(g: Graph, m: Math)
    requires IsDiamond(g)
    ensures CtxOk(Ctx(g, 5, 1.0, m)) && Adj(Ctx(g, 5, 1.0, m), 2) == -0.08
  {
    var X := Ctx(g, 5, 1.0, m);
    DiamondY2(g, m);
    DiamondContrib(g, m, 5, 2);
    DiamondContrib(g, m, 4, 2);
    DiamondContrib(g, m, 3, 2);
    WOccPair(Ref(1), Ref(2), Some(-0.08), Some(-0.08), 2);
    WOccMiss([Ref(3), Ref(4)], Weights(X, 5), 2);
    WOccMiss([Ref(0), Ref(1)], Weights(X, 3), 2);
    DiamondInflow(X, 2, -0.08);
  }

  /** The adjoint of `n` below the root sums what its consumers hand it. */
  lemma DiamondInflow(X: Ctx, n: nat, a: real)
    requires CtxOk(X) && IsDiamond(X.g) && X.root == 5 && n < 5
    requires (if n < 1 then Contrib(X, 1, n) else 0.0) + (if n < 2 then Contrib(X, 2, n) else 0.0)
      + (if n < 3 then Contrib(X, 3, n) else 0.0) + (if n < 4 then Contrib(X, 4, n) else 0.0)
      + Contrib(X, 5, n) == a
    ensures Adj(X, n) == a
  {
    assert Inflow(X, n, 6) == Inflow(X, n, 5) + Contrib(X, 5, n);
    if n < 4 {
      assert Inflow(X, n, 5) == Inflow(X, n, 4) + Contrib(X, 4, n);
      if n < 3 {
        assert Inflow(X, n, 4) == Inflow(X, n, 3) + Contrib(X, 3, n);
        if n < 2 {
          assert Inflow(X, n, 3) == Inflow(X, n, 2) + Contrib(X, 2, n);
          if n < 1 {
            assert Inflow(X, n, 2) == Inflow(X, n, 1) + Contrib(X, 1, n);
          }
        }
      }
    }
  }

  lemma DiamondX2(g: Graph, m: Math)
    requires IsDiamond(g)
    ensures CtxOk(Ctx(g, 5, 1.0, m)) && Adj(Ctx(g, 5, 1.0, m), 1) == 0.12
  {
    var X := Ctx(g, 5, 1.0, m);
    DiamondY2(g, m);
    DiamondY1(g, m);
    DiamondContrib(g, m, 5, 1);
    DiamondContrib(g, m, 4, 1);
    DiamondContrib(g, m, 3, 1);
    DiamondContrib(g, m, 2, 1);
    WOccMiss([Ref(3), Ref(4)], Weights(X, 5), 1);
    WOccPair(Ref(1), Ref(2), Some(-0.08), Some(-0.08), 1);
    WOccPair(Ref(0), Ref(1), Some(0.4), Some(0.2), 1);
    WOccMiss([], Weights(X, 2), 1);
    DiamondInflow(X, 1, 0.12);
  }

  lemma DiamondX1(g: Graph, m: Math)
    requires IsDiamond(g)
    ensures CtxOk(Ctx(g, 5, 1.0, m)) && Adj(Ctx(g, 5, 1.0, m), 0) == 0.4
  {
    var X := Ctx(g, 5, 1.0, m);
    DiamondY1(g, m);
    DiamondContrib(g, m, 5, 0);
    DiamondContrib(g, m, 4, 0);
    DiamondContrib(g, m, 3, 0);
    DiamondContrib(g, m, 2, 0);
    DiamondContrib(g, m, 1, 0);
    WOccMiss([Ref(3), Ref(4)], Weights(X, 5), 0);
    WOccMiss([Ref(1), Ref(2)], Weights(X, 4), 0);
    WOccPair(Ref(0), Ref(1), Some(0.4), Some(0.2), 0);
    WOccMiss([], Weights(X, 2), 0);
    WOccMiss([], Weights(X, 1), 0);
    DiamondInflow(X, 0, 0.4);
  }

  /** No operator formula of the diamond fails. */
  lemma DiamondNoFail(g: Graph, m: Math, c: nat)
    requires IsDiamond(g)
    ensures CtxOk(Ctx(g, 5, 1.0, m))
    ensures !GradFails(Ctx(g, 5, 1.0, m), c)
  {
    DiamondValid(g);
    if c == 5 {
      assert Resolve(g, [Ref(3), Ref(4)]) == [Var(2.0), Var(5.0)];
    }
  }

  /** `test_topo1`: `y3.backward()` succeeds, the leaves receive 0.4, 0.12
      and -0.08, the computed nodes keep no gradient, and no engine is left
      working. */
  lemma DiamondBackward(g: Graph, m: Math)
    requires IsDiamond(g)
    ensures var r := Backward(g, 5, None, m);
      && r.Ok?
      && r.value.nodes.Keys == g.nodes.Keys
      && r.value.nodes[0].grad == Some(0.4)
      && r.value.nodes[1].grad == Some(0.12)
      && r.value.nodes[2].grad == Some(-0.08)
      && r.value.nodes[3].grad.None? && r.value.nodes[4].grad.None? && r.value.nodes[5].grad.None?
      && forall c :: c in r.value.nodes ==> !r.value.nodes[c].engine.working
  {
    var X := Ctx(g, 5, 1.0, m);
    DiamondValid(g);
    assert CtxOf(g, 5, None, m) == X;
    forall c | c in g.nodes && Reaches(g, 5, c)
      ensures !GradFails(X, c)
    {
      DiamondNoFail(g, m, c);
    }
    BackwardSucceeds(g, 5, None, m);
    var h := Backward(g, 5, None, m).value;
    DiamondAdjoints(g, m);
    DiamondReach(g);
    BackwardGradient(g, 5, None, m, 0);
    BackwardGradient(g, 5, None, m, 1);
    BackwardGradient(g, 5, None, m, 2);
    BackwardGradient(g, 5, None, m, 3);
    BackwardGradient(g, 5, None, m, 4);
    BackwardGradient(g, 5, None, m, 5);
  }

  /** `test_topo1` end to end: building the diamond through `Var(...)` and
      the operator sugar succeeds, and `y3.backward()` on the result gives
      the leaves 0.4, 0.12 and -0.08. */
  lemma DiamondTest(m: Math)
    ensures BuildDiamond(m).Ok? && Valid(BuildDiamond(m).value) && 5 in BuildDiamond(m).value.nodes
    ensures var r := Backward(BuildDiamond(m).value, 5, None, m);
      && r.Ok?
      && r.value.nodes[0].grad == Some(0.4)
      && r.value.nodes[1].grad == Some(0.12)
      && r.value.nodes[2].grad == Some(-0.08)
  {
    DiamondBuilt(m);
    DiamondIs();
    DiamondValid(DiamondStore());
    DiamondBackward(DiamondStore(), m);
  }

  /** `y = -x; y.detach(); y.backward()`: the detached node still has its
      operator, so firing it asks the negation formula for a gradient over
      no operands, which is an arity error. */
  lemma DetachedBackward(g: Graph, m: Math)
    requires g == Detach(Graph(map[0 := Leaf(2.0), 1 := Computed(-2.0, Neg, [Ref(0)])], 2), 1)
    ensures Valid(g) && 1 in g.nodes
    ensures Backward(g, 1, None, m) == Err(Arity)
  {
    var g1 := SetEngine(g, 1, GradEngine(0, Some(1.0), true));
    assert StartTasks(g1, [], 1) == g1;
  }

  /** A store holding a leaf `x = 0` (id 0) and `y = x ** 0.5` (id 1). */
  predicate IsPowAtZero(g: Graph, m: Math) {
    && g.next == 2 && g.nodes.Keys == {0, 1}
    && g.nodes[0] == Leaf(0.0)
    && g.nodes[1] == Computed(m.pow(0.0, 0.5), Pow, [Ref(0), Const(0.5)])
  }

  lemma PowAtZeroValid(g: Graph, m: Math)
    requires IsPowAtZero(g, m)
    ensures Clean(g) && Valid(g)
  {
  }

  /** Discovery in that store activates `x` with one count and leaves the
      seeded root alone. */
  lemma PowAtZeroDiscovery(g: Graph, m: Math, g1: Graph)
    requires IsPowAtZero(g, m)
    requires g1 == SetEngine(g, 1, GradEngine(0, Some(1.0), true))
    ensures Valid(g1) && RefsBelow(g1, g1.nodes[1].parents, 1)
    ensures var g2 := StartTasks(g1, g1.nodes[1].parents, 1);
      && g2.nodes.Keys == {0, 1}
      && g2.nodes[1] == g1.nodes[1]
      && g2.nodes[0].val == 0.0
  {
    PowAtZeroValid(g, m);
    SameShapeValid(g, g1);
    var g3 := PowAtZeroVisit(g, m, g1);
    assert StartTasks(g1, [Ref(0), Const(0.5)], 1) == StartTasks(g3, [Const(0.5)], 1);
    assert StartTasks(g3, [Const(0.5)], 1) == StartTasks(g3, [], 1);
  }

  lemma PowAtZeroVisit(g: Graph, m: Math, g1: Graph) returns (g3: Graph)
    requires IsPowAtZero(g, m) && Valid(g)
    requires g1 == SetEngine(g, 1, GradEngine(0, Some(1.0), true)) && Valid(g1)
    ensures g3 == StartTask(g1, 0) && Valid(g3)
    ensures g3.nodes.Keys == {0, 1} && g3.nodes[1] == g1.nodes[1] && g3.nodes[0].val == 0.0
  {
    g3 := SetEngine(g1, 0, GradEngine(1, None, true));
    SameShapeValid(g1, g3);
    assert StartTask(g1, 0) == StartTasks(g3, [], 0);
  }

  /** `y = x ** 0.5` at `x = 0`: the base's gradient at a zero base with an
      exponent below one is refused. */
  lemma PowAtZeroBackward(g: Graph, m: Math)
    requires IsPowAtZero(g, m)
    ensures Valid(g) && 1 in g.nodes
    ensures Backward(g, 1, None, m) == Err(ZeroDivision)
  {
    var g1 := SetEngine(g, 1, GradEngine(0, Some(1.0), true));
    PowAtZeroDiscovery(g, m, g1);
    var g2 := StartTasks(g1, g1.nodes[1].parents, 1);
    assert Resolve(g2, [Ref(0), Const(0.5)]) == [Var(0.0), Lit(0.5)];
    assert Propagate(g2, 1, m) == Err(ZeroDivision);
  }

  /** A store holding a leaf `x` (id 0) and `y = reciprocal(x)` (id 1). */
  predicate IsReciprocal(g: Graph, x: real) {
    && x != 0.0
    && g.next == 2 && g.nodes.Keys == {0, 1}
    && g.nodes[0] == Leaf(x)
    && g.nodes[1] == Computed(1.0 / x, Div, [Const(1.0), Ref(0)])
  }

  /** `y = reciprocal(x)` at `x = 2`: the constant numerator receives
      nothing and `x` receives `-1/4`. */
  lemma ReciprocalBackward(g: Graph, m: Math)
    requires IsReciprocal(g, 2.0)
    ensures Valid(g) && 1 in g.nodes
    ensures var r := Backward(g, 1, None, m);
      r.Ok? && 0 in r.value.nodes && r.value.nodes[0].grad == Some(-0.25)
  {
    var X := Ctx(g, 1, 1.0, m);
    assert Clean(g);
    assert CtxOf(g, 1, None, m) == X;
    assert Resolve(g, [Const(1.0), Ref(0)]) == [Lit(1.0), Var(2.0)];
    assert Weights(X, 1) == [None, Some(-0.25)];
    assert Inflow(X, 0, 2) == Inflow(X, 0, 1) + Contrib(X, 1, 0);
    assert Adj(X, 0) == -0.25;
    forall c | c in g.nodes && Reaches(g, 1, c)
      ensures !GradFails(X, c)
    {
    }
    BackwardSucceeds(g, 1, None, m);
    ReachesStep(g, 1, 1, 0);
    BackwardGradient(g, 1, None, m, 0);
  }

  /** `z = x / y` over two leaves. */
  predicate IsQuotient(g: Graph, x: real, y: real) {
    && y != 0.0
    && g.next == 3 && g.nodes.Keys == {0, 1, 2}
    && g.nodes[0] == Leaf(x)
    && g.nodes[1] == Leaf(y)
    && g.nodes[2] == Computed(x / y, Div, [Ref(0), Ref(1)])
  }

  /** The reference adjoints of the quotient store at `x = 1, y = 2`. */
  lemma QuotientAdjoints(g: Graph, m: Math)
    requires IsQuotient(g, 1.0, 2.0)
    ensures var X := Ctx(g, 2, 1.0, m);
      && Clean(g) && CtxOk(X)
      && Reaches(g, 2, 0) && Reaches(g, 2, 1)
      && Adj(X, 0) == 0.5 && Adj(X, 1) == -0.25
      && forall c | c in g.nodes && Reaches(g, 2, c) :: !GradFails(X, c)
  {
    var X := Ctx(g, 2, 1.0, m);
    assert Clean(g);
    assert Resolve(g, [Ref(0), Ref(1)]) == [Var(1.0), Var(2.0)];
    assert Weights(X, 2) == [Some(0.5), Some(-0.25)];
    ReachesStep(g, 2, 0, 0);
    ReachesStep(g, 2, 1, 1);
    assert Contrib(X, 2, 1) == -0.25 by {
      ContribReached(X, 2, 1);
      WOccPair(Ref(0), Ref(1), Some(0.5), Some(-0.25), 1);
    }
    assert Contrib(X, 2, 0) == 0.5 by {
      ContribReached(X, 2, 0);
      WOccPair(Ref(0), Ref(1), Some(0.5), Some(-0.25), 0);
    }
    assert Contrib(X, 1, 0) == 0.0 by {
      ContribReached(X, 1, 0);
    }
    assert Inflow(X, 1, 3) == Inflow(X, 1, 2) + Contrib(X, 2, 1);
    assert Inflow(X, 0, 3) == Inflow(X, 0, 2) + Contrib(X, 2, 0);
    assert Inflow(X, 0, 2) == Inflow(X, 0, 1) + Contrib(X, 1, 0);
    forall c | c in g.nodes && Reaches(g, 2, c)
      ensures !GradFails(X, c)
    {
    }
  }

  /** `z = x / y` at `x = 1, y = 2`: `x` receives `1/y = 1/2` and `y`
      receives `-x/y^2 = -1/4`. */
  lemma QuotientBackward(g: Graph, m: Math)
    requires IsQuotient(g, 1.0, 2.0)
    ensures Valid(g) && 2 in g.nodes
    ensures var r := Backward(g, 2, None, m);
      && r.Ok? && 0 in r.value.nodes && 1 in r.value.nodes
      && r.value.nodes[0].grad == Some(0.5)
      && r.value.nodes[1].grad == Some(-0.25)
  {
    var X := Ctx(g, 2, 1.0, m);
    QuotientAdjoints(g, m);
    assert CtxOf(g, 2, None, m) == X;
    BackwardSucceeds(g, 2, None, m);
    BackwardGradient(g, 2, None, m, 0);
    BackwardGradient(g, 2, None, m, 1);
  }
}
