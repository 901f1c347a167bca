/** What a whole `backward` call computes, from a store no pass is running
    on: every leaf the root depends on receives its adjoint, nothing else
    is written, every engine ends reset, and the call fails exactly when
    some operator formula on the way fails at its adjoint. */
module Soundness {
  import opened Errors
  import opened Engine
  import opened Ops
  import opened Vars
  import opened Adjoint
  import opened Tally
  import opened Discovery
  import opened Firing

  /** A store between passes: well formed, every engine in its initial
      state. */
  ghost predicate Clean(g: Graph) {
    Valid(g) && forall c :: c in g.nodes ==> g.nodes[c].engine == Fresh()
  }

  /** The context a `backward(grad)` call on `root` is measured against. */
  function CtxOf(g: Graph, root: nat, seed: Option<real>, m: Math): (X: Ctx)
    ensures X.g == g && X.root == root && X.m == m
    ensures seed.Some? ==> X.seed == seed.value
    ensures seed.None? ==> X.seed == 1.0
  {
    Ctx(g, root, seed.GetOr(1.0), m)
  }

  /** Tallies over a range with no active consumer do not change. */
  lemma {:induction false} RemIdle(g: Graph, X: Ctx, n: nat, j: nat, i: nat)
    requires CtxOk(X) && j <= i
    requires forall c :: j <= c < i ==> !Active(g, c)
    ensures RemC(g, n, i) == RemC(g, n, j) && RemV(g, X, n, i) == RemV(g, X, n, j)
    decreases i
  {
    if j < i {
      RemIdle(g, X, n, j, i - 1);
    }
  }

  /** With exactly the nodes the root depends on active, the value tally
      below the root is the adjoint's inflow. */
  lemma {:induction false} InflowIsTally(X: Ctx, g: Graph, n: nat, i: nat)
    requires Ready(X, g) && n < X.root && i <= X.root + 1
    requires forall c: nat :: DiscoveredAt(X, g, c)
    ensures RemV(g, X, n, i) == Inflow(X, n, i)
    decreases i
  {
    if i <= n + 1 {
      RemQuiet(g, X, n, i);
    } else {
      InflowIsTally(X, g, n, i - 1);
      var c: nat := i - 1;
      if c in g.nodes {
        assert DiscoveredAt(X, g, c);
        assert SameNode(X.g.nodes[c], g.nodes[c]);
      }
    }
  }

  /** What seeding and discovery leave at node `c`: it is active exactly
      when the root depends on it, it counts exactly the deliveries owed to
      it, and only the root holds a gradient. */
  ghost predicate DiscoveredAt(X: Ctx, g: Graph, c: nat)
    requires CtxOk(X)
  {
    c in g.nodes ==>
      && c in X.g.nodes
      && (Active(g, c) <==> Reaches(X.g, X.root, c))
      && g.nodes[c].grad == X.g.nodes[c].grad
      && g.nodes[c].engine.numDep == RemC(g, c, g.next)
      && (c != X.root ==> g.nodes[c].engine.acc.None?)
      && (Active(g, c) && c != X.root ==> g.nodes[c].engine.numDep >= 1)
  }

  /** The state right after seeding and discovery. */
  ghost predicate Discovered(X: Ctx, g: Graph)
    requires CtxOk(X)
  {
    && Ready(X, g) && IdleFresh(g)
    && g.nodes[X.root].engine.acc == Some(X.seed)
    && forall c: nat :: DiscoveredAt(X, g, c)
  }

  /** The seeded root before discovery. */
  lemma Seeded(X: Ctx, g1: Graph)
    requires CtxOk(X) && Clean(X.g)
    requires g1 == SetEngine(X.g, X.root, GradEngine(0, Some(X.seed), true))
    ensures Valid(g1) && SameShape(X.g, g1) && IdleFresh(g1) && ClosedBelow(g1, X.root)
    ensures forall c :: Active(g1, c) <==> c == X.root
    ensures forall n :: RemC(g1, n, g1.next) == Occ(X.g.nodes[X.root].parents, n)
  {
    SameShapeValid(X.g, g1);
    forall n
      ensures RemC(g1, n, g1.next) == Occ(X.g.nodes[X.root].parents, n)
    {
      RemNoEdges(X.g, n, X.g.next);
      RemFlip(X.g, g1, X, X.root, n, X.g.next);
    }
  }

  /** Seeding and discovery leave every node counting exactly the
      deliveries owed to it, active exactly when the root depends on it. */
  lemma DiscoverySpec(X: Ctx, g1: Graph)
    requires CtxOk(X) && Clean(X.g)
    requires g1 == SetEngine(X.g, X.root, GradEngine(0, Some(X.seed), true))
    ensures Valid(g1) && RefsBelow(g1, g1.nodes[X.root].parents, X.root)
    ensures Discovered(X, StartTasks(g1, g1.nodes[X.root].parents, X.root))
  {
    Seeded(X, g1);
    var ps := g1.nodes[X.root].parents;
    assert RefsBelow(g1, ps, X.root);
    StartTasksSpec(X, g1, ps, X.root);
    var g2 := StartTasks(g1, ps, X.root);
    assert g1.next == g2.next;
    forall c: nat
      ensures DiscoveredAt(X, g2, c)
    {
      DiscoveredNode(X, g1, g2, c);
    }
    assert Ready(X, g2);
  }

  lemma DiscoveredNode(X: Ctx, g1: Graph, g2: Graph, c: nat)
    requires CtxOk(X) && Clean(X.g)
    requires g1 == SetEngine(X.g, X.root, GradEngine(0, Some(X.seed), true))
    requires Valid(g1) && SameShape(X.g, g1) && IdleFresh(g1)
    requires forall c :: Active(g1, c) <==> c == X.root
    requires forall n :: RemC(g1, n, g1.next) == Occ(X.g.nodes[X.root].parents, n)
    requires RefsIn(X.g, g1.nodes[X.root].parents)
    requires TasksPost(X, g1, g2, g1.nodes[X.root].parents, X.root)
    ensures DiscoveredAt(X, g2, c)
  {
    ReachesUnfold(X.g, X.root, c);
    assert g1.nodes[X.root].parents == X.g.nodes[X.root].parents;
    assert g1.next == g2.next;
    if c in g2.nodes {
      assert g1.nodes[c].engine.numDep == 0;
      assert c != X.root ==> g1.nodes[c].engine == Fresh();
      assert RemC(g1, c, g1.next) == Occ(X.g.nodes[X.root].parents, c);
    }
  }

  /** After the root fires, a node below it that is still active would be
      owed a delivery by an active consumer above it; the topmost such node
      owes nothing, so none is left. */
  lemma {:induction false} NoneLeft(X: Ctx, g2: Graph, h: Graph, k: nat)
    requires CtxOk(X) && Valid(h) && k <= X.root + 1
    requires forall c: nat :: Active(h, c) ==> c <= X.root
    requires !Active(h, X.root)
    requires forall c: nat :: c < X.root && Active(h, c) ==> h.nodes[c].engine.numDep >= 1
    requires forall c: nat :: c < X.root && Active(h, c) ==> h.nodes[c].engine.numDep == RemC(h, c, X.root)
    ensures forall c: nat :: k <= c ==> !Active(h, c)
    decreases X.root + 1 - k
  {
    if k <= X.root {
      NoneLeft(X, g2, h, k + 1);
      if k < X.root {
        RemQuiet(h, X, k, X.root);
      }
    }
  }

  /** In the discovered store nothing is owed to the root or by anything
      above it, and the root's ledger holds. */
  lemma RootDue(X: Ctx, g2: Graph)
    requires CtxOk(X) && Discovered(X, g2)
    ensures X.root in g2.nodes && Active(g2, X.root)
    ensures g2.nodes[X.root].engine.numDep == 0
    ensures g2.nodes[X.root].engine.acc == Some(Adj(X, X.root))
    ensures forall c: nat :: Active(g2, c) ==> c <= X.root
    ensures Pending(X, g2, X.root, g2.nodes[X.root].parents, Weights(X, X.root))
  {
    var root := X.root;
    assert DiscoveredAt(X, g2, root);
    assert Reaches(X.g, root, root);
    forall c: nat | Active(g2, c)
      ensures c <= root
    {
      assert DiscoveredAt(X, g2, c);
      ReachesBelow(X.g, root, c);
    }
    RemIdle(g2, X, root, root + 1, g2.next);
    RemQuiet(g2, X, root, root + 1);
    forall n: nat | n < root
      ensures PendOk(X, g2, root, g2.nodes[root].parents, Weights(X, root), n)
    {
      RootPendOk(X, g2, n);
    }
  }

  lemma AdjBelowRoot(X: Ctx, n: nat)
    requires CtxOk(X) && n < X.root
    ensures Adj(X, n) == Inflow(X, n, X.root + 1)
  {
  }

  lemma RootPendOk(X: Ctx, g2: Graph, n: nat)
    requires CtxOk(X) && Discovered(X, g2) && n < X.root
    requires forall c: nat :: Active(g2, c) ==> c <= X.root
    ensures PendOk(X, g2, X.root, g2.nodes[X.root].parents, Weights(X, X.root), n)
  {
    var root := X.root;
    var ps := g2.nodes[root].parents;
    var W := Weights(X, root);
    RemIdle(g2, X, n, root + 1, g2.next);
    assert Active(g2, root) by {
      assert DiscoveredAt(X, g2, root);
      assert Reaches(X.g, root, root);
    }
    assert RemC(g2, n, root + 1) == RemC(g2, n, root) + Occ(ps, n);
    assert RemV(g2, X, n, root + 1) == RemV(g2, X, n, root) + WOcc(ps, W, n);
    if n in g2.nodes {
      assert DiscoveredAt(X, g2, n);
      var e := g2.nodes[n].engine;
      assert e.numDep == RemC(g2, n, root) + Occ(ps, n);
      if Active(g2, n) {
        assert e.numDep >= 1 && AccOrZero(e) == 0.0;
        InflowIsTally(X, g2, n, root + 1);
        AdjBelowRoot(X, n);
      } else {
        assert e == Fresh();
      }
    }
  }

  /** Once the root has fired, no engine is left working. */
  lemma AfterRoot(X: Ctx, g2: Graph, h: Graph)
    requires CtxOk(X) && Discovered(X, g2)
    requires forall c: nat :: Active(g2, c) ==> c <= X.root
    requires Settled(X, g2, h, X.root + 1) && !Active(h, X.root)
    requires Discharged(X, g2, h, X.root, g2.nodes[X.root].parents, Weights(X, X.root))
    ensures forall c :: !Active(h, c)
  {
    var root := X.root;
    var ps := g2.nodes[root].parents;
    assert Active(g2, root) by {
      assert DiscoveredAt(X, g2, root);
      assert Reaches(X.g, root, root);
    }
    forall c: nat | c < root && Active(h, c)
      ensures h.nodes[c].engine.numDep >= 1 && h.nodes[c].engine.numDep == RemC(h, c, root)
    {
      ActiveBelowRoot(X, g2, h, c);
    }
    NoneLeft(X, g2, h, 0);
  }

  lemma ActiveBelowRoot(X: Ctx, g2: Graph, h: Graph, c: nat)
    requires CtxOk(X) && Discovered(X, g2) && c < X.root && Active(h, c)
    requires forall c: nat :: Active(g2, c) ==> c <= X.root
    requires Active(g2, X.root)
    requires Discharged(X, g2, h, X.root, g2.nodes[X.root].parents, Weights(X, X.root))
    ensures h.nodes[c].engine.numDep >= 1 && h.nodes[c].engine.numDep == RemC(h, c, X.root)
  {
    var root := X.root;
    var ps := g2.nodes[root].parents;
    assert DischOk(X, g2, h, root, ps, Weights(X, root), c);
    assert DiscoveredAt(X, g2, c);
    RemIdle(g2, X, c, root + 1, g2.next);
    assert RemC(g2, c, root + 1) == RemC(g2, c, root) + Occ(ps, c);
    assert g2.nodes[c].engine.numDep == RemC(g2, c, g2.next);
  }

  /** The firing half, from the discovered store to the end of the pass. */
  lemma FiringSpec(X: Ctx, g2: Graph)
    requires CtxOk(X) && Discovered(X, g2)
    ensures var r := Propagate(g2, X.root, X.m);
      && (r.Err? ==> r.error.IsArithmetic() && Failed(X, g2, X.root + 1))
      && (r.Ok? ==> Settled(X, g2, r.value, X.root + 1) && forall c :: !Active(r.value, c))
  {
    RootDue(X, g2);
    PropagateSpec(X, g2, X.root);
    var r := Propagate(g2, X.root, X.m);
    if r.Ok? {
      AfterRoot(X, g2, r.value);
    }
  }

  /** `backward(grad)` on a store between passes. */
  lemma BackwardSound(g: Graph, root: nat, seed: Option<real>, m: Math)
    requires Clean(g) && root in g.nodes
    ensures var X := CtxOf(g, root, seed, m);
      var r := Backward(g, root, seed, m);
      && (r.Ok? <==> forall c :: c in g.nodes && Reaches(g, root, c) ==> !GradFails(X, c))
      && (r.Err? ==> r.error.IsArithmetic())
      && (r.Ok? ==> && Clean(r.value) && SameShape(g, r.value)
                    && forall c :: c in g.nodes ==>
                         r.value.nodes[c].grad
                         == if IsLeaf(g.nodes[c]) && Reaches(g, root, c) then Some(Adj(X, c))
                            else g.nodes[c].grad)
  {
    var X := CtxOf(g, root, seed, m);
    var g1 := SetEngine(g, root, GradEngine(0, Some(X.seed), true));
    assert g1 == SetEngine(g, root, Accumulate(Activate(g.nodes[root].engine).value, seed.GetOr(1.0)).value);
    DiscoverySpec(X, g1);
    var g2 := StartTasks(g1, g1.nodes[root].parents, root);
    FiringSpec(X, g2);
    assert Backward(g, root, seed, m) == Propagate(g2, root, m);
    var r := Propagate(g2, root, m);
    if r.Err? {
      var c: nat :| c < root + 1 && Active(g2, c) && GradFails(X, c);
      assert DiscoveredAt(X, g2, c);
    } else {
      var h := r.value;
      forall c | c in g.nodes
        ensures h.nodes[c].engine == Fresh()
        ensures Reaches(g, root, c) ==> !GradFails(X, c)
        ensures h.nodes[c].grad
          == if IsLeaf(g.nodes[c]) && Reaches(g, root, c) then Some(Adj(X, c)) else g.nodes[c].grad
      {
        assert SameNode(g.nodes[c], g2.nodes[c]);
        assert DiscoveredAt(X, g2, c);
        if Active(g2, c) {
          assert Retired(X, h, c);
        }
      }
    }
  }

  /** A pass succeeds when no operator formula the root depends on fails. */
  lemma BackwardSucceeds(g: Graph, root: nat, seed: Option<real>, m: Math)
    requires Clean(g) && root in g.nodes
    requires forall c :: c in g.nodes && Reaches(g, root, c) ==> !GradFails(CtxOf(g, root, seed, m), c)
    ensures Backward(g, root, seed, m).Ok?
    ensures Backward(g, root, seed, m).value.nodes.Keys == g.nodes.Keys
    ensures forall c :: c in g.nodes ==> !Backward(g, root, seed, m).value.nodes[c].engine.working
  {
    BackwardSound(g, root, seed, m);
  }

  /** After a successful pass a node's gradient is its adjoint if it is a
      leaf the root depends on, and what it was otherwise. */
  lemma BackwardGradient(g: Graph, root: nat, seed: Option<real>, m: Math, c: nat)
    requires Clean(g) && root in g.nodes && c in g.nodes && Backward(g, root, seed, m).Ok?
    ensures Backward(g, root, seed, m).value.nodes[c].grad
      == if IsLeaf(g.nodes[c]) && Reaches(g, root, c) then Some(Adj(CtxOf(g, root, seed, m), c))
         else g.nodes[c].grad
  {
    BackwardSound(g, root, seed, m);
  }

  /** A successful pass leaves a store between passes of the same shape. */
  lemma BackwardResets(g: Graph, root: nat, seed: Option<real>, m: Math)
    requires Clean(g) && root in g.nodes && Backward(g, root, seed, m).Ok?
    ensures Clean(Backward(g, root, seed, m).value) && SameShape(g, Backward(g, root, seed, m).value)
  {
    BackwardSound(g, root, seed, m);
  }
}
