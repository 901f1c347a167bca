/** Edge tallies: how many deliveries, and how much gradient, the nodes
    currently taking part in a backward pass still owe to a node. The
    engines' counters and accumulators are proved against these sums. */
module Tally {
  import opened Ops
  import opened Vars
  import opened Adjoint

  /** Node `c` takes part in the current pass (its engine is working). */
  predicate Active(g: Graph, c: nat) {
    c in g.nodes && g.nodes[c].engine.working
  }

  /** Operand positions naming `n` among the active nodes with ids below `i`:
      the deliveries to `n` those consumers still owe. */
  function RemC(g: Graph, n: nat, i: nat): nat
    decreases i
  {
    if i == 0 then 0
    else RemC(g, n, i - 1) + (if Active(g, i - 1) then Occ(g.nodes[i - 1].parents, n) else 0)
  }

  /** The gradient those deliveries carry when every consumer fires with
      its adjoint. */
  function RemV(g: Graph, X: Ctx, n: nat, i: nat): real
    requires CtxOk(X)
    decreases i
  {
    if i == 0 then 0.0
    else RemV(g, X, n, i - 1) + (if Active(g, i - 1) then WOcc(g.nodes[i - 1].parents, Weights(X, i - 1), n) else 0.0)
  }

  lemma {:induction false} OccAbsent(ps: seq<Operand>, ws: Grads, n: nat)
    requires forall k :: 0 <= k < |ps| ==> ps[k] != Ref(n)
    ensures Occ(ps, n) == 0 && WOcc(ps, ws, n) == 0.0
    decreases |ps|
  {
    if ps != [] {
      OccAbsent(ps[1..], if ws == [] then [] else ws[1..], n);
    }
  }

  /** No position names `n` exactly when the count is zero, and then
      nothing is handed to `n` either. */
  lemma {:induction false} OccZero(ps: seq<Operand>, ws: Grads, n: nat)
    ensures Occ(ps, n) == 0 <==> forall k :: 0 <= k < |ps| ==> ps[k] != Ref(n)
    ensures Occ(ps, n) == 0 ==> WOcc(ps, ws, n) == 0.0
    decreases |ps|
  {
    if ps != [] {
      OccZero(ps[1..], if ws == [] then [] else ws[1..], n);
      if Occ(ps, n) == 0 {
        forall k | 0 <= k < |ps|
          ensures ps[k] != Ref(n)
        {
          if k > 0 {
            assert ps[k] == ps[1..][k - 1];
          }
        }
      } else if ps[0] != Ref(n) {
        var k :| 0 <= k < |ps[1..]| && ps[1..][k] == Ref(n);
        assert ps[k + 1] == Ref(n);
      }
    }
  }

  /** Operands are older than their consumer, so a consumer never hands
      anything to a node at or above its own id. */
  lemma OccBelow(g: Graph, ps: seq<Operand>, ws: Grads, c: nat, n: nat)
    requires RefsBelow(g, ps, c) && c <= n
    ensures Occ(ps, n) == 0 && WOcc(ps, ws, n) == 0.0
  {
    OccAbsent(ps, ws, n);
  }

  /** Tallies over [j, i) agree in two stores of one shape whose active
      sets agree there above `n`. */
  lemma {:induction false} RemTail(g: Graph, h: Graph, X: Ctx, n: nat, j: nat, i: nat)
    requires CtxOk(X) && Valid(g) && SameShape(g, h) && j <= i
    requires forall c :: j <= c < i && n < c ==> (Active(g, c) <==> Active(h, c))
    ensures RemC(g, n, i) - RemC(g, n, j) == RemC(h, n, i) - RemC(h, n, j)
    ensures RemV(g, X, n, i) - RemV(g, X, n, j) == RemV(h, X, n, i) - RemV(h, X, n, j)
    decreases i
  {
    if j < i {
      RemTail(g, h, X, n, j, i - 1);
      var c: nat := i - 1;
      if c in g.nodes {
        assert SameNode(g.nodes[c], h.nodes[c]);
        if c <= n {
          assert RefsBelow(g, g.nodes[c].parents, c);
          OccBelow(g, g.nodes[c].parents, Weights(X, c), c, n);
        }
      }
    }
  }

  /** Retiring consumers only lowers the count. */
  lemma {:induction false} RemShrink(g: Graph, h: Graph, n: nat, i: nat)
    requires SameShape(g, h)
    requires forall c :: Active(h, c) ==> Active(g, c)
    ensures RemC(h, n, i) <= RemC(g, n, i)
    decreases i
  {
    if i > 0 {
      RemShrink(g, h, n, i - 1);
      if i - 1 in g.nodes {
        assert SameNode(g.nodes[i - 1], h.nodes[i - 1]);
      }
    }
  }

  /** Widening the range never lowers the count, and a range that adds no
      delivery adds no gradient. */
  lemma {:induction false} RemMono(g: Graph, X: Ctx, n: nat, j: nat, i: nat)
    requires CtxOk(X) && j <= i
    ensures RemC(g, n, j) <= RemC(g, n, i)
    ensures RemC(g, n, j) == RemC(g, n, i) ==> RemV(g, X, n, j) == RemV(g, X, n, i)
    decreases i
  {
    if j < i {
      RemMono(g, X, n, j, i - 1);
      if Active(g, i - 1) {
        OccZero(g.nodes[i - 1].parents, Weights(X, i - 1), n);
      }
    }
  }

  /** One more consumer id adds that consumer's positions naming `n` when
      it is active, and nothing otherwise. */
  lemma RemStep(g: Graph, X: Ctx, n: nat, i: nat)
    requires CtxOk(X)
    ensures Active(g, i) ==> RemC(g, n, i + 1) == RemC(g, n, i) + Occ(g.nodes[i].parents, n)
    ensures Active(g, i) ==> RemV(g, X, n, i + 1) == RemV(g, X, n, i) + WOcc(g.nodes[i].parents, Weights(X, i), n)
    ensures !Active(g, i) ==> RemC(g, n, i + 1) == RemC(g, n, i) && RemV(g, X, n, i + 1) == RemV(g, X, n, i)
  {
  }

  /** With no active consumer above `n`, nothing is owed to `n`. */
  lemma {:induction false} RemQuiet(g: Graph, X: Ctx, n: nat, i: nat)
    requires CtxOk(X) && Valid(g)
    requires forall c :: n < c < i ==> !Active(g, c)
    ensures RemC(g, n, i) == 0 && RemV(g, X, n, i) == 0.0
    decreases i
  {
    if i > 0 {
      RemQuiet(g, X, n, i - 1);
      var c: nat := i - 1;
      if Active(g, c) {
        assert RefsBelow(g, g.nodes[c].parents, c);
        OccBelow(g, g.nodes[c].parents, Weights(X, c), c, n);
      }
    }
  }

  /** With no active consumer naming `n`, nothing is owed to `n`. */
  lemma {:induction false} RemNoEdges(g: Graph, n: nat, i: nat)
    requires forall c: nat :: c < i && Active(g, c) ==> Occ(g.nodes[c].parents, n) == 0
    ensures RemC(g, n, i) == 0
    decreases i
  {
    if i > 0 {
      RemNoEdges(g, n, i - 1);
    }
  }

  /** Activating (or, read backwards, retiring) a single node `c` below `i`
      changes the tallies by exactly `c`'s own operand positions. */
  lemma RemFlip(g: Graph, h: Graph, X: Ctx, c: nat, n: nat, i: nat)
    requires CtxOk(X) && Valid(g) && SameShape(g, h) && c < i && c in g.nodes
    requires forall d :: d != c ==> (Active(g, d) <==> Active(h, d))
    requires !Active(g, c) && Active(h, c)
    ensures RemC(h, n, i) == RemC(g, n, i) + Occ(g.nodes[c].parents, n)
    ensures RemV(h, X, n, i) == RemV(g, X, n, i) + WOcc(g.nodes[c].parents, Weights(X, c), n)
  {
    RemTail(g, h, X, n, 0, c);
    RemTail(g, h, X, n, c + 1, i);
    assert SameNode(g.nodes[c], h.nodes[c]);
    assert RemC(h, n, c + 1) == RemC(h, n, c) + Occ(g.nodes[c].parents, n);
    assert RemC(g, n, c + 1) == RemC(g, n, c);
    assert RemV(h, X, n, c + 1) == RemV(h, X, n, c) + WOcc(g.nodes[c].parents, Weights(X, c), n);
    assert RemV(g, X, n, c + 1) == RemV(g, X, n, c);
  }
}
