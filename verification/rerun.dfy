/** A second `backward` call. Engines are reset after a pass and a leaf's
    gradient is overwritten, never added to, so running the same pass again
    on its own result changes nothing. */
module Rerun {
  import opened Errors
  import opened Engine
  import opened Ops
  import opened Vars
  import opened Adjoint
  import opened Soundness

  /** Dependence reads only operands, which a pass never writes. */
  lemma {:induction false} ReachesShape(g: Graph, h: Graph, a: nat, b: nat)
    requires Valid(g) && SameShape(g, h) && a in g.nodes
    ensures Valid(h) && a in h.nodes
    ensures Reaches(g, a, b) == Reaches(h, a, b)
    decreases a
  {
    SameShapeValid(g, h);
    var ps := g.nodes[a].parents;
    assert SameNode(g.nodes[a], h.nodes[a]);
    assert RefsBelow(g, ps, a);
    forall k | 0 <= k < |ps| && ps[k].Ref?
      ensures Reaches(g, ps[k].id, b) == Reaches(h, ps[k].id, b)
    {
      ReachesShape(g, h, ps[k].id, b);
    }
  }

  /** The adjoint equations read only values, operators and operands. */
  lemma {:induction false} AdjShape(X: Ctx, h: Graph, n: nat)
    requires CtxOk(X) && SameShape(X.g, h)
    ensures CtxOk(X.(g := h)) && Adj(X, n) == Adj(X.(g := h), n)
    decreases Depth(X, n), 2, 0
  {
    SameShapeValid(X.g, h);
    if n < X.root {
      InflowShape(X, h, n, X.root + 1);
    }
  }

  lemma {:induction false} InflowShape(X: Ctx, h: Graph, n: nat, i: nat)
    requires CtxOk(X) && SameShape(X.g, h) && n < X.root && i <= X.root + 1
    ensures CtxOk(X.(g := h)) && Inflow(X, n, i) == Inflow(X.(g := h), n, i)
    decreases Depth(X, n), 1, i
  {
    SameShapeValid(X.g, h);
    if i > n + 1 {
      InflowShape(X, h, n, i - 1);
      ContribShape(X, h, i - 1, n);
    }
  }

  lemma {:induction false} ContribShape(X: Ctx, h: Graph, c: nat, n: nat)
    requires CtxOk(X) && SameShape(X.g, h) && n < c <= X.root
    ensures CtxOk(X.(g := h)) && Contrib(X, c, n) == Contrib(X.(g := h), c, n)
    decreases Depth(X, c), 4, 0
  {
    SameShapeValid(X.g, h);
    ReachesShape(X.g, h, X.root, c);
    if c in X.g.nodes {
      assert SameNode(X.g.nodes[c], h.nodes[c]);
      WeightsShape(X, h, c);
    }
  }

  lemma {:induction false} WeightsShape(X: Ctx, h: Graph, c: nat)
    requires CtxOk(X) && SameShape(X.g, h)
    ensures CtxOk(X.(g := h)) && Weights(X, c) == Weights(X.(g := h), c)
    ensures GradFails(X, c) == GradFails(X.(g := h), c)
    decreases Depth(X, c), 3, 0
  {
    SameShapeValid(X.g, h);
    if c in X.g.nodes {
      assert SameNode(X.g.nodes[c], h.nodes[c]);
      assert RefsBelow(X.g, X.g.nodes[c].parents, c);
      ResolveSameShape(X.g, h, X.g.nodes[c].parents);
      AdjShape(X, h, c);
    }
  }

  /** Every node of a second pass's result equals the first's. */
  lemma RerunNode(g: Graph, h: Graph, h2: Graph, root: nat, seed: Option<real>, m: Math, c: nat)
    requires Clean(g) && root in g.nodes && c in g.nodes
    requires Backward(g, root, seed, m) == Ok(h)
    requires Clean(h) && SameShape(g, h) && root in h.nodes
    requires Backward(h, root, seed, m) == Ok(h2)
    ensures c in h2.nodes && h2.nodes[c] == h.nodes[c]
  {
    BackwardSound(h, root, seed, m);
    BackwardGradient(g, root, seed, m, c);
    BackwardGradient(h, root, seed, m, c);
    ReachesShape(g, h, root, c);
    AdjShape(CtxOf(g, root, seed, m), h, c);
    assert CtxOf(g, root, seed, m).(g := h) == CtxOf(h, root, seed, m);
    assert SameNode(g.nodes[c], h.nodes[c]) && SameNode(h.nodes[c], h2.nodes[c]);
  }

  /** A second pass meets exactly the operator formulas the first did. */
  lemma RerunSucceeds(g: Graph, h: Graph, root: nat, seed: Option<real>, m: Math)
    requires Clean(g) && root in g.nodes && Backward(g, root, seed, m) == Ok(h)
    requires Clean(h) && SameShape(g, h) && root in h.nodes
    ensures Backward(h, root, seed, m).Ok?
  {
    var X := CtxOf(g, root, seed, m);
    BackwardSound(g, root, seed, m);
    forall c | c in h.nodes && Reaches(h, root, c)
      ensures !GradFails(CtxOf(h, root, seed, m), c)
    {
      ReachesShape(g, h, root, c);
      WeightsShape(X, h, c);
      assert X.(g := h) == CtxOf(h, root, seed, m);
    }
    BackwardSucceeds(h, root, seed, m);
  }

  /** Running `backward` again on the store a successful pass left behind
      succeeds and returns that same store. */
  lemma BackwardAgain(g: Graph, root: nat, seed: Option<real>, m: Math)
    requires Clean(g) && root in g.nodes && Backward(g, root, seed, m).Ok?
    ensures var h := Backward(g, root, seed, m).value;
      root in h.nodes && Clean(h) && Backward(h, root, seed, m) == Ok(h)
  {
    BackwardResets(g, root, seed, m);
    var h := Backward(g, root, seed, m).value;
    RerunSucceeds(g, h, root, seed, m);
    var h2 := Backward(h, root, seed, m).value;
    forall c | c in g.nodes
      ensures h2.nodes[c] == h.nodes[c]
    {
      RerunNode(g, h, h2, root, seed, m, c);
    }
    assert h2.nodes == h.nodes;
  }
}
