/** The discovery half of a backward pass (`_start_task`): it activates
    exactly the nodes the root depends on and leaves each engine counting
    exactly the operand positions that name it among active consumers. */
module Discovery {
  import opened Engine
  import opened Vars
  import opened Adjoint
  import opened Tally

  /** Every Var operand of node `c` is active. */
  ghost predicate OperandsActive(g: Graph, c: nat)
    requires c in g.nodes
  {
    forall k :: 0 <= k < |g.nodes[c].parents| && g.nodes[c].parents[k].Ref? ==> Active(g, g.nodes[c].parents[k].id)
  }

  /** Below `b`, an active node's operands are active: discovery of every
      active node below `b` is complete. */
  ghost predicate ClosedBelow(g: Graph, b: nat) {
    forall c: nat :: c < b && Active(g, c) ==> OperandsActive(g, c)
  }

  /** Every inactive engine is in its initial state. */
  ghost predicate IdleFresh(g: Graph) {
    forall c :: c in g.nodes && !Active(g, c) ==> g.nodes[c].engine == Fresh()
  }

  /** What discovery may do to a store: activate nodes and raise counts,
      touching nothing else. */
  ghost predicate Grown(g: Graph, r: Graph) {
    && SameShape(g, r) && Valid(r) && IdleFresh(r)
    && (forall n :: n in g.nodes ==> r.nodes[n].engine.acc == g.nodes[n].engine.acc && r.nodes[n].grad == g.nodes[n].grad)
    && (forall n :: Active(g, n) ==> Active(r, n) && r.nodes[n].engine.numDep >= g.nodes[n].engine.numDep)
    && (forall n :: Active(r, n) && !Active(g, n) ==> r.nodes[n].engine.numDep >= 1)
    && (forall n :: n in g.nodes && !Active(r, n) ==> r.nodes[n] == g.nodes[n])
  }

  lemma GrownTrans(g: Graph, r1: Graph, r2: Graph)
    requires Grown(g, r1) && Grown(r1, r2)
    ensures Grown(g, r2)
  {
    forall n | Active(r2, n) && !Active(g, n)
      ensures r2.nodes[n].engine.numDep >= 1
    {
      if Active(r1, n) {
        assert r2.nodes[n].engine.numDep >= r1.nodes[n].engine.numDep;
      }
    }
  }

  /** Dependence only goes down the ids. */
  lemma {:induction false} ReachesBelow(g: Graph, a: nat, c: nat)
    requires Valid(g) && a in g.nodes && Reaches(g, a, c)
    ensures c <= a
    decreases a
  {
    if a != c {
      var k :| 0 <= k < |g.nodes[a].parents| && g.nodes[a].parents[k].Ref? && Reaches(g, g.nodes[a].parents[k].id, c);
      assert RefsBelow(g, g.nodes[a].parents, a);
      ReachesBelow(g, g.nodes[a].parents[k].id, c);
    }
  }

  /** Below a closed bound, everything an active node depends on is active. */
  lemma {:induction false} ClosedReach(X: Ctx, g: Graph, b: nat, a: nat, c: nat)
    requires CtxOk(X) && Valid(g) && SameShape(X.g, g) && ClosedBelow(g, b)
    requires a < b && Active(g, a) && Reaches(X.g, a, c)
    ensures Active(g, c)
    decreases a
  {
    if a != c {
      var ps := X.g.nodes[a].parents;
      var k :| 0 <= k < |ps| && ps[k].Ref? && Reaches(X.g, ps[k].id, c);
      assert SameNode(X.g.nodes[a], g.nodes[a]);
      assert OperandsActive(g, a);
      assert RefsBelow(X.g, ps, a);
      ClosedReach(X, g, b, ps[k].id, c);
    }
  }

  lemma ReachesListCons(g: Graph, ps: seq<Operand>, c: nat)
    requires Valid(g) && RefsIn(g, ps) && ps != []
    ensures ReachesList(g, ps, c) <==>
      (ps[0].Ref? && Reaches(g, ps[0].id, c)) || ReachesList(g, ps[1..], c)
  {
    if ReachesList(g, ps, c) && !(ps[0].Ref? && Reaches(g, ps[0].id, c)) {
      var k :| 0 <= k < |ps| && ps[k].Ref? && Reaches(g, ps[k].id, c);
      assert ps[1..][k - 1] == ps[k];
    }
    if ReachesList(g, ps[1..], c) {
      var k :| 0 <= k < |ps[1..]| && ps[1..][k].Ref? && Reaches(g, ps[1..][k].id, c);
      assert ps[k + 1] == ps[1..][k];
    }
  }

  /** The effect of `_start_task` on `id`: activate what `id` depends on
      and add one count to `id` beyond the positions the newly active
      nodes hold. */
  ghost predicate TaskPost(X: Ctx, g: Graph, r: Graph, id: nat, b: nat)
    requires CtxOk(X) && id in X.g.nodes
  {
    && Grown(g, r) && ClosedBelow(r, b)
    && (forall c :: c in g.nodes ==> (Active(r, c) <==> Active(g, c) || Reaches(X.g, id, c)))
    && (forall n :: n in g.nodes ==>
          r.nodes[n].engine.numDep - RemC(r, n, g.next)
          == g.nodes[n].engine.numDep - RemC(g, n, g.next) + (if n == id then 1 else 0))
  }

  /** The effect of the discovery loop over an operand list: activate what
      the list depends on and add one count per position naming a node. */
  ghost predicate TasksPost(X: Ctx, g: Graph, r: Graph, ps: seq<Operand>, b: nat)
    requires CtxOk(X) && RefsIn(X.g, ps)
  {
    && Grown(g, r) && ClosedBelow(r, b)
    && (forall c :: c in g.nodes ==> (Active(r, c) <==> Active(g, c) || ReachesList(X.g, ps, c)))
    && (forall n :: n in g.nodes ==>
          r.nodes[n].engine.numDep - RemC(r, n, g.next)
          == g.nodes[n].engine.numDep - RemC(g, n, g.next) + Occ(ps, n))
  }

  /** The first visit of `id`: its engine is activated with one count. */
  lemma FirstVisit(X: Ctx, g: Graph, id: nat, b: nat) returns (g1: Graph)
    requires CtxOk(X) && Valid(g) && SameShape(X.g, g) && IdleFresh(g)
    requires id in g.nodes && id < b && ClosedBelow(g, b) && !Active(g, id)
    ensures g1 == SetEngine(g, id, AddDependency(Activate(g.nodes[id].engine).value))
    ensures Grown(g, g1) && ClosedBelow(g1, id) && Active(g1, id) && Valid(g1)
    ensures forall d :: d != id ==> (Active(g, d) <==> Active(g1, d))
    ensures g1.nodes[id].engine.numDep == g.nodes[id].engine.numDep + 1
    ensures forall d :: d in g.nodes && d != id ==> g1.nodes[d] == g.nodes[d]
    ensures RefsBelow(g1, g1.nodes[id].parents, id)
    ensures forall n :: n in g.nodes ==> RemC(g1, n, g.next) == RemC(g, n, g.next) + Occ(g.nodes[id].parents, n)
  {
    g1 := SetEngine(g, id, AddDependency(Activate(g.nodes[id].engine).value));
    SetEngineGrown(g, id, AddDependency(Activate(g.nodes[id].engine).value));
    forall c: nat | c < id && Active(g1, c)
      ensures OperandsActive(g1, c)
    {
      assert OperandsActive(g, c);
    }
    forall n | n in g.nodes
      ensures RemC(g1, n, g.next) == RemC(g, n, g.next) + Occ(g.nodes[id].parents, n)
    {
      RemFlip(g, g1, X, id, n, g.next);
    }
  }

  /** After the first visit's loop, the bound `b` is closed again. */
  lemma FirstVisitClosed(X: Ctx, g: Graph, g1: Graph, r: Graph, id: nat, b: nat)
    requires CtxOk(X) && Valid(g) && SameShape(X.g, g) && id in g.nodes && id < b
    requires ClosedBelow(g, b) && Grown(g, g1) && Grown(g1, r)
    requires forall d :: d != id ==> (Active(g, d) <==> Active(g1, d))
    requires RefsIn(X.g, X.g.nodes[id].parents) && ClosedBelow(r, id)
    requires forall c :: c in g.nodes ==> (Active(r, c) <==> Active(g1, c) || ReachesList(X.g, X.g.nodes[id].parents, c))
    ensures ClosedBelow(r, b)
  {
    var ps := X.g.nodes[id].parents;
    assert RefsBelow(X.g, ps, id);
    forall c: nat | c < b && Active(r, c)
      ensures OperandsActive(r, c)
    {
      assert SameNode(g.nodes[c], r.nodes[c]) && SameNode(X.g.nodes[c], g.nodes[c]);
      if c == id {
        forall k | 0 <= k < |ps| && ps[k].Ref?
          ensures Active(r, ps[k].id)
        {
          assert Reaches(X.g, ps[k].id, ps[k].id);
        }
      } else if id < c {
        if !Active(g, c) {
          var k :| 0 <= k < |ps| && ps[k].Ref? && Reaches(X.g, ps[k].id, c);
          ReachesBelow(X.g, ps[k].id, c);
        }
        assert OperandsActive(g, c);
      }
    }
  }

  /** Re-setting the engine of one node, keeping its accumulator, not
      lowering its count, and activating it if it was idle. */
  lemma SetEngineGrown(g: Graph, id: nat, e: GradEngine)
    requires Valid(g) && IdleFresh(g) && id in g.nodes
    requires e.working && e.acc == g.nodes[id].engine.acc
    requires e.numDep >= (if Active(g, id) then g.nodes[id].engine.numDep else 1)
    ensures Grown(g, SetEngine(g, id, e))
    ensures forall d :: d != id ==> (Active(g, d) <==> Active(SetEngine(g, id, e), d))
    ensures Active(SetEngine(g, id, e), id)
    ensures forall d :: d in g.nodes && d != id ==> SetEngine(g, id, e).nodes[d] == g.nodes[d]
    ensures SetEngine(g, id, e).nodes[id].engine == e
  {
    var r := SetEngine(g, id, e);
    SameShapeValid(g, r);
    assert forall d :: d in g.nodes && d != id ==> r.nodes[d] == g.nodes[d];
    assert r.nodes[id].engine == e;
    forall c | c in r.nodes && !Active(r, c)
      ensures r.nodes[c].engine == Fresh()
    {
    }
    forall n | n in g.nodes
      ensures r.nodes[n].engine.acc == g.nodes[n].engine.acc && r.nodes[n].grad == g.nodes[n].grad
    {
    }
    forall n | Active(g, n)
      ensures Active(r, n) && r.nodes[n].engine.numDep >= g.nodes[n].engine.numDep
    {
    }
    forall n | Active(r, n) && !Active(g, n)
      ensures r.nodes[n].engine.numDep >= 1
    {
    }
    forall n | n in g.nodes && !Active(r, n)
      ensures r.nodes[n] == g.nodes[n]
    {
    }
  }

  /** A later visit of `id` only adds one count: everything `id` depends
      on is active already. */
  lemma RepeatVisit(X: Ctx, g: Graph, id: nat, b: nat)
    requires CtxOk(X) && Valid(g) && SameShape(X.g, g) && IdleFresh(g)
    requires id in g.nodes && id < b && ClosedBelow(g, b) && Active(g, id)
    ensures TaskPost(X, g, StartTask(g, id), id, b)
  {
    var e := g.nodes[id].engine;
    assert StartTask(g, id) == SetEngine(g, id, AddDependency(e));
    RepeatVisitBump(X, g, id, b, AddDependency(e));
  }

  lemma RepeatVisitBump(X: Ctx, g: Graph, id: nat, b: nat, e: GradEngine)
    requires CtxOk(X) && Valid(g) && SameShape(X.g, g) && IdleFresh(g)
    requires id in g.nodes && id < b && ClosedBelow(g, b) && Active(g, id)
    requires e == AddDependency(g.nodes[id].engine)
    ensures TaskPost(X, g, SetEngine(g, id, e), id, b)
  {
    var r := SetEngine(g, id, e);
    SetEngineGrown(g, id, e);
    forall n | n in g.nodes
      ensures r.nodes[n].engine.numDep - RemC(r, n, g.next)
        == g.nodes[n].engine.numDep - RemC(g, n, g.next) + (if n == id then 1 else 0)
    {
      RemTail(g, r, X, n, 0, g.next);
    }
    forall c | c in g.nodes
      ensures Active(r, c) <==> Active(g, c) || Reaches(X.g, id, c)
    {
      if Reaches(X.g, id, c) {
        ClosedReach(X, g, b, id, c);
      }
    }
    forall c: nat | c < b && Active(r, c)
      ensures OperandsActive(r, c)
    {
      assert OperandsActive(g, c);
      assert r.nodes[c].parents == g.nodes[c].parents;
    }
    assert ClosedBelow(r, b);
  }

  lemma {:induction false} StartTaskSpec(X: Ctx, g: Graph, id: nat, b: nat)
    requires CtxOk(X) && Valid(g) && SameShape(X.g, g) && IdleFresh(g)
    requires id in g.nodes && id < b && ClosedBelow(g, b)
    ensures TaskPost(X, g, StartTask(g, id), id, b)
    decreases id, 1
  {
    if Active(g, id) {
      RepeatVisit(X, g, id, b);
    } else {
      var r := StartTask(g, id);
      var g1 := FirstVisit(X, g, id, b);
      var ps := g1.nodes[id].parents;
      assert X.g.nodes[id].parents == ps;
      StartTasksSpec(X, g1, ps, id);
      assert r == StartTasks(g1, ps, id);
      FirstVisitPost(X, g, g1, r, id, b);
    }
  }

  /** The first visit followed by the loop over the node's operands. */
  lemma FirstVisitPost(X: Ctx, g: Graph, g1: Graph, r: Graph, id: nat, b: nat)
    requires CtxOk(X) && Valid(g) && SameShape(X.g, g) && IdleFresh(g)
    requires id in g.nodes && id < b && ClosedBelow(g, b) && !Active(g, id)
    requires Grown(g, g1) && ClosedBelow(g1, id) && Active(g1, id) && Valid(g1)
    requires forall d :: d != id ==> (Active(g, d) <==> Active(g1, d))
    requires g1.nodes[id].engine.numDep == g.nodes[id].engine.numDep + 1
    requires forall d :: d in g.nodes && d != id ==> g1.nodes[d] == g.nodes[d]
    requires forall n :: n in g.nodes ==> RemC(g1, n, g.next) == RemC(g, n, g.next) + Occ(g.nodes[id].parents, n)
    requires RefsIn(X.g, X.g.nodes[id].parents)
    requires TasksPost(X, g1, r, X.g.nodes[id].parents, id)
    ensures TaskPost(X, g, r, id, b)
  {
    GrownTrans(g, g1, r);
    FirstVisitClosed(X, g, g1, r, id, b);
    FirstVisitActive(X, g, g1, r, id);
    FirstVisitCounts(X, g, g1, r, id);
  }

  lemma FirstVisitActive(X: Ctx, g: Graph, g1: Graph, r: Graph, id: nat)
    requires CtxOk(X) && Valid(g) && SameShape(X.g, g) && id in g.nodes
    requires Grown(g, g1) && Grown(g1, r) && Active(g1, id)
    requires forall d :: d != id ==> (Active(g, d) <==> Active(g1, d))
    requires RefsIn(X.g, X.g.nodes[id].parents)
    requires forall c :: c in g.nodes ==> (Active(r, c) <==> Active(g1, c) || ReachesList(X.g, X.g.nodes[id].parents, c))
    ensures forall c :: c in g.nodes ==> (Active(r, c) <==> Active(g, c) || Reaches(X.g, id, c))
  {
    forall c | c in g.nodes
      ensures Active(r, c) <==> Active(g, c) || Reaches(X.g, id, c)
    {
      ReachesUnfold(X.g, id, c);
    }
  }

  lemma FirstVisitCounts(X: Ctx, g: Graph, g1: Graph, r: Graph, id: nat)
    requires CtxOk(X) && Valid(g) && SameShape(X.g, g) && id in g.nodes
    requires Grown(g, g1) && Grown(g1, r) && g1.next == g.next
    requires g1.nodes[id].engine.numDep == g.nodes[id].engine.numDep + 1
    requires forall d :: d in g.nodes && d != id ==> g1.nodes[d] == g.nodes[d]
    requires forall n :: n in g.nodes ==> RemC(g1, n, g.next) == RemC(g, n, g.next) + Occ(g.nodes[id].parents, n)
    requires RefsIn(X.g, X.g.nodes[id].parents)
    requires forall n :: n in g1.nodes ==>
      r.nodes[n].engine.numDep - RemC(r, n, g1.next)
      == g1.nodes[n].engine.numDep - RemC(g1, n, g1.next) + Occ(X.g.nodes[id].parents, n)
    ensures forall n :: n in g.nodes ==>
      r.nodes[n].engine.numDep - RemC(r, n, g.next)
      == g.nodes[n].engine.numDep - RemC(g, n, g.next) + (if n == id then 1 else 0)
  {
    assert SameNode(X.g.nodes[id], g.nodes[id]);
    forall n | n in g.nodes
      ensures r.nodes[n].engine.numDep - RemC(r, n, g.next)
        == g.nodes[n].engine.numDep - RemC(g, n, g.next) + (if n == id then 1 else 0)
    {
      assert n in g1.nodes;
      var o := Occ(X.g.nodes[id].parents, n);
      var k1 := RemC(g1, n, g.next);
      var k0 := RemC(g, n, g.next);
      assert k1 == k0 + o;
      assert r.nodes[n].engine.numDep - RemC(r, n, g.next) == g1.nodes[n].engine.numDep - k1 + o;
      assert g1.nodes[n].engine.numDep == g.nodes[n].engine.numDep + (if n == id then 1 else 0);
    }
  }

  lemma {:induction false} StartTasksSpec(X: Ctx, g: Graph, ps: seq<Operand>, b: nat)
    requires CtxOk(X) && Valid(g) && SameShape(X.g, g) && IdleFresh(g)
    requires RefsBelow(g, ps, b) && ClosedBelow(g, b)
    ensures RefsIn(X.g, ps)
    ensures TasksPost(X, g, StartTasks(g, ps, b), ps, b)
    decreases b, 0, |ps|
  {
    var r := StartTasks(g, ps, b);
    if ps == [] {
      assert Grown(g, r);
    } else {
      var g1 := if ps[0].Ref? then StartTask(g, ps[0].id) else g;
      if ps[0].Ref? {
        StartTaskSpec(X, g, ps[0].id, b);
      } else {
        assert Grown(g, g1);
      }
      assert RefsBelow(g1, ps[1..], b) by {
        forall k | 0 <= k < |ps[1..]| && ps[1..][k].Ref?
          ensures ps[1..][k].id < b && ps[1..][k].id in g1.nodes
        {
          assert ps[1..][k] == ps[k + 1];
        }
      }
      StartTasksSpec(X, g1, ps[1..], b);
      assert r == StartTasks(g1, ps[1..], b);
      TasksStep(X, g, g1, r, ps, b);
    }
  }

  lemma GrownRefl(g: Graph)
    requires Valid(g) && IdleFresh(g)
    ensures Grown(g, g)
  {
  }

  /** One step of the discovery loop composed with the rest of it. */
  lemma TasksStep(X: Ctx, g: Graph, g1: Graph, r: Graph, ps: seq<Operand>, b: nat)
    requires CtxOk(X) && Valid(g) && SameShape(X.g, g) && IdleFresh(g) && RefsBelow(g, ps, b) && ps != []
    requires RefsIn(X.g, ps[1..])
    requires ps[0].Ref? ==> TaskPost(X, g, g1, ps[0].id, b)
    requires ps[0].Const? ==> g1 == g
    requires TasksPost(X, g1, r, ps[1..], b)
    ensures TasksPost(X, g, r, ps, b)
  {
    if ps[0].Const? {
      GrownRefl(g);
    }
    GrownTrans(g, g1, r);
    TasksActive(X, g, g1, r, ps, b);
    TasksCounts(X, g, g1, r, ps, b);
  }

  lemma TasksActive(X: Ctx, g: Graph, g1: Graph, r: Graph, ps: seq<Operand>, b: nat)
    requires CtxOk(X) && Valid(g) && SameShape(X.g, g) && RefsBelow(g, ps, b) && ps != []
    requires RefsIn(X.g, ps[1..]) && Grown(g, g1)
    requires ps[0].Ref? ==> forall c :: c in g.nodes ==> (Active(g1, c) <==> Active(g, c) || Reaches(X.g, ps[0].id, c))
    requires ps[0].Const? ==> g1 == g
    requires forall c :: c in g1.nodes ==> (Active(r, c) <==> Active(g1, c) || ReachesList(X.g, ps[1..], c))
    ensures RefsIn(X.g, ps)
    ensures forall c :: c in g.nodes ==> (Active(r, c) <==> Active(g, c) || ReachesList(X.g, ps, c))
  {
    forall c | c in g.nodes
      ensures Active(r, c) <==> Active(g, c) || ReachesList(X.g, ps, c)
    {
      ReachesListCons(X.g, ps, c);
    }
  }

  lemma TasksCounts(X: Ctx, g: Graph, g1: Graph, r: Graph, ps: seq<Operand>, b: nat)
    requires CtxOk(X) && Valid(g) && RefsBelow(g, ps, b) && ps != []
    requires Grown(g, g1) && Grown(g1, r)
    requires ps[0].Ref? ==> forall n :: n in g.nodes ==>
      g1.nodes[n].engine.numDep - RemC(g1, n, g.next)
      == g.nodes[n].engine.numDep - RemC(g, n, g.next) + (if n == ps[0].id then 1 else 0)
    requires ps[0].Const? ==> g1 == g
    requires forall n :: n in g1.nodes ==>
      r.nodes[n].engine.numDep - RemC(r, n, g1.next)
      == g1.nodes[n].engine.numDep - RemC(g1, n, g1.next) + Occ(ps[1..], n)
    ensures forall n :: n in g.nodes ==>
      r.nodes[n].engine.numDep - RemC(r, n, g.next)
      == g.nodes[n].engine.numDep - RemC(g, n, g.next) + Occ(ps, n)
  {
    assert g1.next == g.next;
    forall n | n in g.nodes
      ensures r.nodes[n].engine.numDep - RemC(r, n, g.next)
        == g.nodes[n].engine.numDep - RemC(g, n, g.next) + Occ(ps, n)
    {
      assert Occ(ps, n) == (if ps[0] == Ref(n) then 1 else 0) + Occ(ps[1..], n);
      assert n in g1.nodes;
    }
  }
}
