/** The firing half of a backward pass (`_propagate`, `_do_task`,
    `_end_task`) against the reference adjoint.

    The ledger: while a node `b` hands its local gradients `ws` to its
    remaining operand positions `ps`, every active node `n` below `b` owes
    at least the deliveries still due from active consumers below `b` plus
    those of `ps`; when it owes exactly those, its accumulator plus what
    they carry is its adjoint. A node therefore fires with its adjoint, and
    a delivery never reaches an idle engine or an exhausted count. */
module Firing {
  import opened Errors
  import opened Engine
  import opened Ops
  import opened Vars
  import opened Adjoint
  import opened Tally

  /** A store a backward pass can be running on for context `X`. */
  ghost predicate Ready(X: Ctx, g: Graph) {
    CtxOk(X) && Valid(g) && SameShape(X.g, g)
  }

  /** Operand positions and local gradients line up, and every Var
      position carries a gradient. */
  ghost predicate Aligned(ws: Grads, ps: seq<Operand>) {
    |ws| == |ps| && forall k :: 0 <= k < |ps| && ps[k].Ref? ==> ws[k].Some?
  }

  ghost predicate PendOk(X: Ctx, g: Graph, b: nat, ps: seq<Operand>, ws: Grads, n: nat)
    requires CtxOk(X)
  {
    n in g.nodes ==>
      var e := g.nodes[n].engine;
      if e.working then
        && e.numDep >= 1
        && e.numDep >= RemC(g, n, b) + Occ(ps, n)
        && (e.numDep == RemC(g, n, b) + Occ(ps, n) ==>
              AccOrZero(e) + RemV(g, X, n, b) + WOcc(ps, ws, n) == Adj(X, n))
      else RemC(g, n, b) + Occ(ps, n) == 0
  }

  /** The ledger below `b` while `ps` (carrying `ws`) is still to deliver. */
  ghost predicate Pending(X: Ctx, g: Graph, b: nat, ps: seq<Operand>, ws: Grads)
    requires CtxOk(X)
  {
    forall n: nat :: n < b ==> PendOk(X, g, b, ps, ws, n)
  }

  ghost predicate DischOk(X: Ctx, g: Graph, h: Graph, b: nat, ps: seq<Operand>, ws: Grads, n: nat)
    requires CtxOk(X)
  {
    && n in g.nodes && n in h.nodes
    && h.nodes[n].engine.numDep >= 1
    && h.nodes[n].engine.numDep - RemC(h, n, b) == g.nodes[n].engine.numDep - RemC(g, n, b) - Occ(ps, n)
    && AccOrZero(h.nodes[n].engine) + RemV(h, X, n, b)
       == AccOrZero(g.nodes[n].engine) + RemV(g, X, n, b) + WOcc(ps, ws, n)
  }

  /** From `g` to `h` the positions `ps` were delivered: every node still
      active below `b` owes them less and holds what they carried, and
      whatever it owes beyond the tallies is unchanged. */
  ghost predicate Discharged(X: Ctx, g: Graph, h: Graph, b: nat, ps: seq<Operand>, ws: Grads)
    requires CtxOk(X)
  {
    forall n: nat :: n < b && Active(h, n) ==> DischOk(X, g, h, b, ps, ws, n)
  }

  ghost predicate SpentOk(g: Graph, h: Graph, b: nat, ps: seq<Operand>, n: nat)
    requires n in g.nodes
  {
    g.nodes[n].engine.numDep == RemC(g, n, b) + Occ(ps, n) && RemC(h, n, b) == 0
  }

  /** A node below `b` that fired from `g` to `h` owed nothing beyond the
      tallies, and nothing is owed to it any more. */
  ghost predicate Spent(g: Graph, h: Graph, b: nat, ps: seq<Operand>) {
    forall n: nat :: n < b && Active(g, n) && !Active(h, n) ==> SpentOk(g, h, b, ps, n)
  }

  /** A node that fired: engine reset, operator formula succeeded, and a
      leaf holds its adjoint. */
  ghost predicate Retired(X: Ctx, h: Graph, c: nat)
    requires CtxOk(X)
  {
    && c in h.nodes && h.nodes[c].engine == Fresh() && !GradFails(X, c)
    && (IsLeaf(h.nodes[c]) ==> h.nodes[c].grad == Some(Adj(X, c)))
  }

  /** From `g` to `h` some active nodes below `b` fired and nothing else
      changed. */
  ghost predicate Settled(X: Ctx, g: Graph, h: Graph, b: nat)
    requires CtxOk(X)
  {
    && SameShape(g, h) && Valid(h)
    && (forall c :: Active(h, c) ==> Active(g, c))
    && (forall c :: c in g.nodes && (b <= c || !Active(g, c)) ==> h.nodes[c] == g.nodes[c])
    && (forall c :: Active(g, c) && !Active(h, c) ==> Retired(X, h, c))
  }

  /** Some active node below `b` has an operator formula that fails at its
      adjoint. */
  ghost predicate Failed(X: Ctx, g: Graph, b: nat)
    requires CtxOk(X)
  {
    exists c: nat :: c < b && Active(g, c) && GradFails(X, c)
  }

  // ------------------------------------------------------------ helpers

  lemma OccHead(ps: seq<Operand>, ws: Grads, n: nat)
    requires ps != [] && ws != []
    ensures Occ(ps[..1], n) + Occ(ps[1..], n) == Occ(ps, n)
    ensures WOcc(ps[..1], ws[..1], n) + WOcc(ps[1..], ws[1..], n) == WOcc(ps, ws, n)
    ensures Occ(ps[..1], n) == if ps[0] == Ref(n) then 1 else 0
    ensures WOcc(ps[..1], ws[..1], n) == if ps[0] == Ref(n) then ws[0].GetOr(0.0) else 0.0
  {
    assert ps[..1][1..] == [];
    assert ws[..1][1..] == [];
  }

  lemma AlignedTail(ws: Grads, ps: seq<Operand>)
    requires Aligned(ws, ps) && ps != []
    ensures Aligned(ws[1..], ps[1..])
  {
    forall k | 0 <= k < |ps[1..]| && ps[1..][k].Ref?
      ensures ws[1..][k].Some?
    {
      assert ps[1..][k] == ps[k + 1];
    }
  }

  lemma RefsBelowTail(g: Graph, ps: seq<Operand>, b: nat)
    requires RefsBelow(g, ps, b) && ps != []
    ensures RefsBelow(g, ps[1..], b)
    ensures ps[0].Ref? ==> ps[0].id < b && ps[0].id in g.nodes
  {
    forall k | 0 <= k < |ps[1..]| && ps[1..][k].Ref?
      ensures ps[1..][k].id < b && ps[1..][k].id in g.nodes
    {
      assert ps[1..][k] == ps[k + 1];
    }
  }

  lemma SettledRefl(X: Ctx, g: Graph, b: nat)
    requires Ready(X, g)
    ensures Settled(X, g, g, b)
  {
  }

  lemma SettledTrans(X: Ctx, g: Graph, g1: Graph, h: Graph, b1: nat, b: nat)
    requires CtxOk(X) && b1 <= b && Settled(X, g, g1, b) && Settled(X, g1, h, b1)
    ensures Settled(X, g, h, b)
  {
    forall c | Active(g, c) && !Active(h, c)
      ensures Retired(X, h, c)
    {
      if !Active(g1, c) {
        assert h.nodes[c] == g1.nodes[c];
      }
    }
  }

  /** `g1` is `g` with only node `p`'s engine rewritten, `p` staying active. */
  ghost predicate Bumped(g: Graph, g1: Graph, p: nat) {
    && SameShape(g, g1) && Valid(g1) && Active(g, p) && Active(g1, p)
    && (forall c :: Active(g, c) <==> Active(g1, c))
    && (forall c :: c in g.nodes && c != p ==> g1.nodes[c] == g.nodes[c])
  }

  lemma BumpedSettled(X: Ctx, g: Graph, g1: Graph, p: nat, b: nat)
    requires CtxOk(X) && Bumped(g, g1, p) && p < b
    ensures Settled(X, g, g1, b)
  {
  }

  /** Tallies only see which nodes are active, so a bump leaves them alone. */
  lemma BumpedTallies(X: Ctx, g: Graph, g1: Graph, p: nat, n: nat, i: nat)
    requires CtxOk(X) && Valid(g) && Bumped(g, g1, p)
    ensures RemC(g1, n, i) == RemC(g, n, i) && RemV(g1, X, n, i) == RemV(g, X, n, i)
  {
    SameActiveTallies(X, g, g1, n, i);
  }

  lemma SameActiveTallies(X: Ctx, g: Graph, g1: Graph, n: nat, i: nat)
    requires CtxOk(X) && Valid(g) && SameShape(g, g1)
    requires forall c :: Active(g, c) <==> Active(g1, c)
    ensures RemC(g1, n, i) == RemC(g, n, i) && RemV(g1, X, n, i) == RemV(g, X, n, i)
  {
    RemTail(g, g1, X, n, 0, i);
  }

  /** The node that is now due owes nothing beyond the delivery that made
      it due, so it holds exactly its adjoint. */
  lemma DueHoldsAdjoint(X: Ctx, g: Graph, b: nat, ps: seq<Operand>, ws: Grads, p: nat, w: real)
    requires Ready(X, g) && p < b && p in g.nodes && Active(g, p) && g.nodes[p].engine.numDep == 1
    requires ps != [] && ws != [] && ps[0] == Ref(p) && ws[0] == Some(w)
    requires PendOk(X, g, b, ps, ws, p)
    ensures RemC(g, p, b) == 0 && Occ(ps[1..], p) == 0
    ensures AccOrZero(g.nodes[p].engine) + w == Adj(X, p)
  {
    OccHead(ps, ws, p);
    RemMono(g, X, p, 0, b);
    OccZero(ps[1..], ws[1..], p);
  }

  /** The ledger of the busy node `b` narrows to the ledger of the node `p`
      below it that is about to fire. */
  lemma NarrowNode(X: Ctx, g: Graph, b: nat, ps: seq<Operand>, ws: Grads, p: nat, n: nat)
    requires Ready(X, g) && n < p < b && p in g.nodes && Active(g, p)
    requires ps != [] && ws != [] && ps[0] == Ref(p)
    requires PendOk(X, g, b, ps, ws, n)
    ensures PendOk(X, g, p, g.nodes[p].parents, Weights(X, p), n)
  {
    OccHead(ps, ws, n);
    RemMono(g, X, n, p + 1, b);
    assert RemC(g, n, p + 1) == RemC(g, n, p) + Occ(g.nodes[p].parents, n);
    assert RemV(g, X, n, p + 1) == RemV(g, X, n, p) + WOcc(g.nodes[p].parents, Weights(X, p), n);
    if n in g.nodes && Active(g, n) && g.nodes[n].engine.numDep == RemC(g, n, p + 1) {
      OccZero(ps[1..], ws[1..], n);
    }
  }

  /** The node that fired is done, and nothing is owed to it any more. */
  lemma FireSelf(X: Ctx, g: Graph, g1: Graph, h: Graph, b: nat, ps: seq<Operand>, ws: Grads, p: nat)
    requires Ready(X, g) && p < b && Bumped(g, g1, p) && Settled(X, g1, h, p + 1) && !Active(h, p)
    requires g.nodes[p].engine.numDep == 1 && RemC(g, p, b) == 0
    requires ps != [] && ws != [] && ps[0] == Ref(p) && Occ(ps[1..], p) == 0
    ensures PendOk(X, h, b, ps[1..], ws[1..], p) && SpentOk(g, h, b, ps, p)
  {
    OccHead(ps, ws, p);
    RemShrink(g, h, p, b);
  }

  /** Nodes above the one that fired keep their engines and their tallies. */
  lemma FireAbove(X: Ctx, g: Graph, g1: Graph, h: Graph, b: nat, ps: seq<Operand>, ws: Grads, p: nat, n: nat)
    requires Ready(X, g) && p < n < b && Bumped(g, g1, p) && Settled(X, g1, h, p + 1)
    requires ps != [] && ws != [] && ps[0] == Ref(p)
    requires PendOk(X, g, b, ps, ws, n)
    ensures PendOk(X, h, b, ps[1..], ws[1..], n)
    ensures Active(h, n) ==> DischOk(X, g, h, b, ps[..1], ws[..1], n)
    ensures Active(g, n) ==> Active(h, n)
  {
    OccHead(ps, ws, n);
    RemTail(g, h, X, n, 0, b);
    if n in g.nodes {
      assert h.nodes[n] == g1.nodes[n] == g.nodes[n];
    }
  }

  /** Firing `p` drops its deliveries to a node `n` below it from the
      tallies, and leaves the tallies above `p` alone. */
  lemma FiredTallies(X: Ctx, g1: Graph, h: Graph, b: nat, p: nat, n: nat)
    requires CtxOk(X) && Valid(g1) && SameShape(g1, h) && n < p < b && Active(g1, p) && !Active(h, p)
    requires forall c :: p < c < b ==> (Active(g1, c) <==> Active(h, c))
    ensures RemC(h, n, b) - RemC(h, n, p) == RemC(g1, n, b) - RemC(g1, n, p) - Occ(g1.nodes[p].parents, n)
    ensures RemV(h, X, n, b) - RemV(h, X, n, p)
         == RemV(g1, X, n, b) - RemV(g1, X, n, p) - WOcc(g1.nodes[p].parents, Weights(X, p), n)
  {
    RemTail(g1, h, X, n, p + 1, b);
    RemStep(h, X, n, p);
    RemStep(g1, X, n, p);
  }

  /** Across a bump of `p` and the firing of `p`, a node `n` below `p`
      loses exactly the deliveries `p` owed it, and before the firing
      those sat inside the tallies up to `b`. */
  lemma FireBelowTallies(X: Ctx, g: Graph, g1: Graph, h: Graph, b: nat, p: nat, n: nat)
    requires CtxOk(X) && Valid(g) && Valid(g1) && SameShape(g, g1) && SameShape(g1, h)
    requires n < p < b && Active(g, p) && Active(g1, p) && !Active(h, p)
    requires forall c :: Active(g, c) <==> Active(g1, c)
    requires forall c :: p < c < b ==> (Active(g1, c) <==> Active(h, c))
    ensures RemC(g1, n, p) == RemC(g, n, p) && RemV(g1, X, n, p) == RemV(g, X, n, p)
    ensures RemC(h, n, b) - RemC(h, n, p) == RemC(g, n, b) - RemC(g, n, p) - Occ(g.nodes[p].parents, n)
    ensures RemV(h, X, n, b) - RemV(h, X, n, p)
         == RemV(g, X, n, b) - RemV(g, X, n, p) - WOcc(g.nodes[p].parents, Weights(X, p), n)
    ensures RemC(g, n, p) + Occ(g.nodes[p].parents, n) <= RemC(g, n, b)
    ensures RemC(g, n, p) + Occ(g.nodes[p].parents, n) == RemC(g, n, b)
         ==> RemV(g, X, n, p) + WOcc(g.nodes[p].parents, Weights(X, p), n) == RemV(g, X, n, b)
  {
    SameActiveTallies(X, g, g1, n, b);
    SameActiveTallies(X, g, g1, n, p);
    assert SameNode(g.nodes[p], g1.nodes[p]);
    FiredTallies(X, g1, h, b, p, n);
    StepInside(X, g, b, p, n);
  }

  /** Consumer `p`'s positions naming `n` sit inside the tallies up to any
      `b` above `p`. */
  lemma StepInside(X: Ctx, g: Graph, b: nat, p: nat, n: nat)
    requires CtxOk(X) && p < b && Active(g, p)
    ensures RemC(g, n, p) + Occ(g.nodes[p].parents, n) <= RemC(g, n, b)
    ensures RemC(g, n, p) + Occ(g.nodes[p].parents, n) == RemC(g, n, b)
         ==> RemV(g, X, n, p) + WOcc(g.nodes[p].parents, Weights(X, p), n) == RemV(g, X, n, b)
  {
    RemMono(g, X, n, p + 1, b);
    RemStep(g, X, n, p);
  }

  /** Nodes below the one that fired: what they owe beyond the tallies is
      unchanged, and one that fired meanwhile owed nothing beyond them. */
  lemma FireBelow(X: Ctx, g: Graph, g1: Graph, h: Graph, b: nat, ps: seq<Operand>, ws: Grads, p: nat, n: nat)
    requires Ready(X, g) && n < p < b && Bumped(g, g1, p) && Settled(X, g1, h, p + 1) && !Active(h, p)
    requires ps != [] && ws != [] && ps[0] == Ref(p)
    requires PendOk(X, g, b, ps, ws, n)
    requires Active(h, n) ==> DischOk(X, g1, h, p, g.nodes[p].parents, Weights(X, p), n)
    requires Active(g1, n) && !Active(h, n) ==> SpentOk(g1, h, p, g.nodes[p].parents, n)
    ensures PendOk(X, h, b, ps[1..], ws[1..], n)
    ensures Active(h, n) ==> DischOk(X, g, h, b, ps[..1], ws[..1], n)
    ensures Active(g, n) && !Active(h, n) ==> SpentOk(g, h, b, ps, n)
  {
    OccHead(ps, ws, n);
    assert forall c :: p < c < b ==> (Active(g1, c) <==> Active(h, c)) by {
      forall c | p < c < b
        ensures Active(g1, c) <==> Active(h, c)
      {
        if c in g1.nodes { assert h.nodes[c] == g1.nodes[c]; }
      }
    }
    FireBelowTallies(X, g, g1, h, b, p, n);
    if n in g.nodes {
      assert g1.nodes[n] == g.nodes[n];
      if !Active(g, n) {
        assert h.nodes[n] == g.nodes[n];
        RemShrink(g, h, n, b);
      } else if Active(h, n) {
        if g.nodes[n].engine.numDep == RemC(g, n, b) + Occ(ps, n) {
          assert h.nodes[n].engine.numDep == RemC(h, n, b) + Occ(ps[1..], n);
        }
      }
    }
  }

  lemma FailedMono(X: Ctx, g1: Graph, g: Graph, b1: nat, b: nat)
    requires CtxOk(X) && b1 <= b && Failed(X, g1, b1)
    requires forall c :: Active(g1, c) ==> Active(g, c)
    ensures Failed(X, g, b)
  {
    var c: nat :| c < b1 && Active(g1, c) && GradFails(X, c);
    assert c < b && Active(g, c);
  }

  lemma EndTaskFrame(g: Graph, id: nat)
    requires Valid(g) && id in g.nodes
    ensures Valid(EndTask(g, id)) && !Active(EndTask(g, id), id)
    ensures forall c :: c in g.nodes && c != id ==> EndTask(g, id).nodes[c] == g.nodes[c]
  {
    SameShapeValid(g, EndTask(g, id));
  }

  // -------------------------------------------------- finishing a node

  /** `_propagate` on a leaf: it stores its adjoint and retires. */
  lemma PropagateLeaf(X: Ctx, g: Graph, id: nat)
    requires Ready(X, g) && id in g.nodes && Active(g, id) && IsLeaf(g.nodes[id])
    requires g.nodes[id].engine.acc == Some(Adj(X, id))
    requires Pending(X, g, id, g.nodes[id].parents, Weights(X, id))
    ensures var h := EndTask(SetGrad(g, id, g.nodes[id].engine.acc), id);
      && Settled(X, g, h, id + 1) && !Active(h, id)
      && Discharged(X, g, h, id, g.nodes[id].parents, Weights(X, id))
      && Spent(g, h, id, g.nodes[id].parents)
  {
    var g1 := SetGrad(g, id, g.nodes[id].engine.acc);
    SameShapeValid(g, g1);
    var h := EndTask(g1, id);
    EndTaskFrame(g1, id);
    assert SameNode(X.g.nodes[id], g.nodes[id]);
    assert Retired(X, h, id);
    forall n: nat | n < id && Active(h, n)
      ensures DischOk(X, g, h, id, g.nodes[id].parents, Weights(X, id), n)
    {
      assert PendOk(X, g, id, g.nodes[id].parents, Weights(X, id), n);
      RemTail(g, h, X, n, 0, id);
    }
  }

  /** `_propagate` on a computed node after its deliveries: the reset
      retires it without touching anything below it. */
  lemma PropagateFinish(X: Ctx, g: Graph, g1: Graph, id: nat)
    requires Ready(X, g) && id in g.nodes && Active(g, id) && !IsLeaf(g.nodes[id]) && !GradFails(X, id)
    requires Settled(X, g, g1, id)
    requires Discharged(X, g, g1, id, g.nodes[id].parents, Weights(X, id))
    requires Spent(g, g1, id, g.nodes[id].parents)
    ensures var h := EndTask(g1, id);
      && Settled(X, g, h, id + 1) && !Active(h, id)
      && Discharged(X, g, h, id, g.nodes[id].parents, Weights(X, id))
      && Spent(g, h, id, g.nodes[id].parents)
  {
    var h := EndTask(g1, id);
    EndTaskFrame(g1, id);
    assert g1.nodes[id] == g.nodes[id];
    assert Retired(X, h, id);
    forall c | Active(g, c) && !Active(h, c)
      ensures Retired(X, h, c)
    {
      if c != id {
        assert h.nodes[c] == g1.nodes[c];
      }
    }
    forall n: nat | n < id
      ensures Active(h, n) ==> DischOk(X, g, h, id, g.nodes[id].parents, Weights(X, id), n)
      ensures Active(g, n) && !Active(h, n) ==> SpentOk(g, h, id, g.nodes[id].parents, n)
    {
      RemTail(g1, h, X, n, 0, id);
    }
  }

  // -------------------------------------------------- one delivery

  /** A Const operand position receives nothing. */
  lemma ConstHead(X: Ctx, g: Graph, b: nat, ps: seq<Operand>, ws: Grads)
    requires Ready(X, g) && ps != [] && ws != [] && ps[0].Const?
    requires Pending(X, g, b, ps, ws)
    ensures Settled(X, g, g, b) && Pending(X, g, b, ps[1..], ws[1..])
    ensures Discharged(X, g, g, b, ps[..1], ws[..1]) && Spent(g, g, b, ps)
  {
    forall n: nat | n < b
      ensures PendOk(X, g, b, ps[1..], ws[1..], n)
      ensures Active(g, n) ==> DischOk(X, g, g, b, ps[..1], ws[..1], n)
    {
      assert PendOk(X, g, b, ps, ws, n);
      OccHead(ps, ws, n);
    }
  }

  /** The delivery has not emptied the node's count: it only waits. */
  lemma WaitNode(X: Ctx, g: Graph, g1: Graph, b: nat, ps: seq<Operand>, ws: Grads, p: nat, w: real, n: nat)
    requires Ready(X, g) && p < b && n < b && p in g.nodes && Bumped(g, g1, p)
    requires ps != [] && ws != [] && ps[0] == Ref(p) && ws[0] == Some(w)
    requires g1.nodes[p].engine.numDep == g.nodes[p].engine.numDep - 1 >= 1
    requires AccOrZero(g1.nodes[p].engine) == AccOrZero(g.nodes[p].engine) + w
    requires PendOk(X, g, b, ps, ws, n)
    ensures PendOk(X, g1, b, ps[1..], ws[1..], n)
    ensures Active(g1, n) ==> DischOk(X, g, g1, b, ps[..1], ws[..1], n)
  {
    OccHead(ps, ws, n);
    BumpedTallies(X, g, g1, p, n, b);
  }

  lemma DoTaskWaits(X: Ctx, g: Graph, g1: Graph, b: nat, ps: seq<Operand>, ws: Grads, p: nat, w: real)
    requires Ready(X, g) && p < b && p in g.nodes && Bumped(g, g1, p)
    requires ps != [] && ws != [] && ps[0] == Ref(p) && ws[0] == Some(w)
    requires g1.nodes[p].engine.numDep == g.nodes[p].engine.numDep - 1 >= 1
    requires AccOrZero(g1.nodes[p].engine) == AccOrZero(g.nodes[p].engine) + w
    requires Pending(X, g, b, ps, ws)
    ensures Settled(X, g, g1, b) && Pending(X, g1, b, ps[1..], ws[1..])
    ensures Discharged(X, g, g1, b, ps[..1], ws[..1]) && Spent(g, g1, b, ps)
  {
    BumpedSettled(X, g, g1, p, b);
    forall n: nat | n < b
      ensures PendOk(X, g1, b, ps[1..], ws[1..], n)
      ensures Active(g1, n) ==> DischOk(X, g, g1, b, ps[..1], ws[..1], n)
    {
      WaitNode(X, g, g1, b, ps, ws, p, w, n);
    }
  }

  /** Head and tail of a delivery loop put together. */
  lemma ComposeNode(X: Ctx, g: Graph, g1: Graph, h: Graph, b: nat, ps: seq<Operand>, ws: Grads, n: nat)
    requires CtxOk(X) && ps != [] && ws != [] && n < b
    requires Settled(X, g, g1, b) && Settled(X, g1, h, b)
    requires Active(g1, n) ==> DischOk(X, g, g1, b, ps[..1], ws[..1], n)
    requires Active(g, n) && !Active(g1, n) ==> SpentOk(g, g1, b, ps, n)
    requires Active(h, n) ==> DischOk(X, g1, h, b, ps[1..], ws[1..], n)
    requires Active(g1, n) && !Active(h, n) ==> SpentOk(g1, h, b, ps[1..], n)
    ensures Active(h, n) ==> DischOk(X, g, h, b, ps, ws, n)
    ensures Active(g, n) && !Active(h, n) ==> SpentOk(g, h, b, ps, n)
  {
    OccHead(ps, ws, n);
    if Active(g, n) && !Active(g1, n) {
      RemShrink(g1, h, n, b);
    }
  }

  lemma DeliverCompose(X: Ctx, g: Graph, g1: Graph, h: Graph, b: nat, ps: seq<Operand>, ws: Grads)
    requires CtxOk(X) && ps != [] && ws != []
    requires Settled(X, g, g1, b) && Discharged(X, g, g1, b, ps[..1], ws[..1]) && Spent(g, g1, b, ps)
    requires Settled(X, g1, h, b) && Discharged(X, g1, h, b, ps[1..], ws[1..]) && Spent(g1, h, b, ps[1..])
    ensures Settled(X, g, h, b) && Discharged(X, g, h, b, ps, ws) && Spent(g, h, b, ps)
  {
    SettledTrans(X, g, g1, h, b, b);
    forall n: nat | n < b
      ensures Active(h, n) ==> DischOk(X, g, h, b, ps, ws, n)
      ensures Active(g, n) && !Active(h, n) ==> SpentOk(g, h, b, ps, n)
    {
      ComposeNode(X, g, g1, h, b, ps, ws, n);
    }
  }

  lemma DeliverNone(X: Ctx, g: Graph, b: nat, ps: seq<Operand>, ws: Grads)
    requires Ready(X, g) && Aligned(ws, ps) && (ws == [] || ps == [])
    requires Pending(X, g, b, ps, ws)
    ensures Settled(X, g, g, b) && Discharged(X, g, g, b, ps, ws) && Spent(g, g, b, ps)
  {
    forall n: nat | n < b && Active(g, n)
      ensures DischOk(X, g, g, b, ps, ws, n)
    {
      assert PendOk(X, g, b, ps, ws, n);
    }
  }

  // -------------------------------------------------- the recursion

  /** `_propagate` on a node that is due: it fires with its adjoint, and
      everything it sets off below it keeps the ledger. */
  lemma {:induction false} PropagateSpec(X: Ctx, g: Graph, id: nat)
    requires Ready(X, g) && id in g.nodes && Active(g, id)
    requires g.nodes[id].engine.numDep == 0 && g.nodes[id].engine.acc == Some(Adj(X, id))
    requires Pending(X, g, id, g.nodes[id].parents, Weights(X, id))
    ensures var r := Propagate(g, id, X.m);
      && (r.Err? ==> r.error.IsArithmetic() && Failed(X, g, id + 1))
      && (r.Ok? ==> && Settled(X, g, r.value, id + 1) && !Active(r.value, id)
                    && Discharged(X, g, r.value, id, g.nodes[id].parents, Weights(X, id))
                    && Spent(g, r.value, id, g.nodes[id].parents))
    decreases id, 2, 0
  {
    var n := g.nodes[id];
    if IsLeaf(n) {
      PropagateLeaf(X, g, id);
    } else {
      assert SameNode(X.g.nodes[id], n);
      assert RefsBelow(X.g, n.parents, id);
      ResolveSameShape(X.g, g, n.parents);
      var args := Resolve(g, n.parents);
      var r := Gradient(n.op.value, Adj(X, id), n.val, args, X.m);
      if r.Err? {
        assert GradFails(X, id);
        assert Failed(X, g, id + 1);
      } else {
        assert Weights(X, id) == r.value;
        GradientAlignment(n.op.value, Adj(X, id), n.val, args, X.m);
        assert Aligned(r.value, n.parents) by {
          forall k | 0 <= k < |n.parents| && n.parents[k].Ref?
            ensures r.value[k].Some?
          {
            assert args[k].Var?;
          }
        }
        DeliverSpec(X, g, r.value, n.parents, id);
        var d := Vars.Deliver(g, r.value, n.parents, id, X.m);
        if d.Err? {
          FailedMono(X, g, g, id, id + 1);
        } else {
          PropagateFinish(X, g, d.value, id);
        }
      }
    }
  }

  /** The loop over `zip(grads, parents)`: each present gradient reaches its
      Var operand while the ledger is kept. */
  lemma {:induction false} DeliverSpec(X: Ctx, g: Graph, ws: Grads, ps: seq<Operand>, b: nat)
    requires Ready(X, g) && RefsBelow(g, ps, b) && Aligned(ws, ps) && Pending(X, g, b, ps, ws)
    ensures var r := Vars.Deliver(g, ws, ps, b, X.m);
      && (r.Err? ==> r.error.IsArithmetic() && Failed(X, g, b))
      && (r.Ok? ==> && Settled(X, g, r.value, b) && Discharged(X, g, r.value, b, ps, ws)
                    && Spent(g, r.value, b, ps))
    decreases b, 1, |ps|
  {
    if ws == [] || ps == [] {
      DeliverNone(X, g, b, ps, ws);
    } else {
      RefsBelowTail(g, ps, b);
      AlignedTail(ws, ps);
      var d := if ps[0].Ref? && ws[0].Some? then DoTask(g, ps[0].id, ws[0].value, X.m) else Ok(g);
      assert Vars.Deliver(g, ws, ps, b, X.m)
          == if d.Err? then Err(d.error) else Vars.Deliver(d.value, ws[1..], ps[1..], b, X.m);
      if ps[0].Ref? {
        DoTaskSpec(X, g, b, ps, ws, ps[0].id, ws[0].value);
      } else {
        ConstHead(X, g, b, ps, ws);
      }
      if d.Ok? {
        var g1 := d.value;
        DeliverSpec(X, g1, ws[1..], ps[1..], b);
        var e := Vars.Deliver(g1, ws[1..], ps[1..], b, X.m);
        if e.Ok? {
          DeliverCompose(X, g, g1, e.value, b, ps, ws);
        } else {
          FailedMono(X, g1, g, b, b);
        }
      }
    }
  }

  /** `_do_task` on a delivery that empties the count: the node fires. */
  lemma {:induction false} DoTaskFires(X: Ctx, g: Graph, g1: Graph, b: nat, ps: seq<Operand>, ws: Grads, p: nat, w: real)
    requires Ready(X, g) && p < b && p in g.nodes && Bumped(g, g1, p)
    requires ps != [] && ws != [] && ps[0] == Ref(p) && ws[0] == Some(w)
    requires g.nodes[p].engine.numDep == 1 && g1.nodes[p].engine.numDep == 0
    requires g1.nodes[p].engine.acc == Some(AccOrZero(g.nodes[p].engine) + w)
    requires Pending(X, g, b, ps, ws)
    ensures var r := Propagate(g1, p, X.m);
      && (r.Err? ==> r.error.IsArithmetic() && Failed(X, g, b))
      && (r.Ok? ==> && Settled(X, g, r.value, b) && Pending(X, r.value, b, ps[1..], ws[1..])
                    && Discharged(X, g, r.value, b, ps[..1], ws[..1]) && Spent(g, r.value, b, ps))
    decreases p, 3, 0
  {
    assert PendOk(X, g, b, ps, ws, p);
    DueHoldsAdjoint(X, g, b, ps, ws, p, w);
    var W := Weights(X, p);
    var qs := g.nodes[p].parents;
    assert g1.nodes[p].parents == qs;
    forall n: nat | n < p
      ensures PendOk(X, g1, p, qs, W, n)
    {
      assert PendOk(X, g, b, ps, ws, n);
      NarrowNode(X, g, b, ps, ws, p, n);
      BumpedTallies(X, g, g1, p, n, p);
    }
    PropagateSpec(X, g1, p);
    var r := Propagate(g1, p, X.m);
    if r.Err? {
      FailedMono(X, g1, g, p + 1, b);
    } else {
      var h := r.value;
      forall n: nat | n < b
        ensures PendOk(X, h, b, ps[1..], ws[1..], n)
        ensures Active(h, n) ==> DischOk(X, g, h, b, ps[..1], ws[..1], n)
        ensures Active(g, n) && !Active(h, n) ==> SpentOk(g, h, b, ps, n)
      {
        assert PendOk(X, g, b, ps, ws, n);
        if n < p {
          FireBelow(X, g, g1, h, b, ps, ws, p, n);
        } else if n == p {
          FireSelf(X, g, g1, h, b, ps, ws, p);
        } else {
          FireAbove(X, g, g1, h, b, ps, ws, p, n);
        }
      }
      BumpedSettled(X, g, g1, p, b);
      SettledTrans(X, g, g1, h, p + 1, b);
    }
  }

  /** `_do_task` on an active node with a positive count: the delivery is
      accumulated and counted, and the node fires exactly when the count
      reaches zero. */
  lemma DoTaskStep(g: Graph, p: nat, w: real, m: Math) returns (g1: Graph)
    requires Valid(g) && Active(g, p) && g.nodes[p].engine.numDep >= 1
    ensures Bumped(g, g1, p)
    ensures g1.nodes[p].engine.numDep == g.nodes[p].engine.numDep - 1
    ensures g1.nodes[p].engine.acc == Some(AccOrZero(g.nodes[p].engine) + w)
    ensures DoTask(g, p, w, m) == if g1.nodes[p].engine.numDep == 0 then Propagate(g1, p, m) else Ok(g1)
  {
    var e := g.nodes[p].engine;
    g1 := SetEngine(g, p, GradEngine(e.numDep - 1, Some(AccOrZero(e) + w), true));
    SameShapeValid(g, g1);
  }

  /** The four outcomes of `_do_task`: an idle engine refuses the delivery,
      an exhausted count underflows, the last owed delivery fires the node,
      and any earlier one is only recorded. */
  lemma DoTaskOutcome(g: Graph, p: nat, w: real, m: Math)
    requires Valid(g) && p in g.nodes
    ensures var e := g.nodes[p].engine;
      var g1 := SetEngine(g, p, GradEngine(e.numDep - 1, Some(AccOrZero(e) + w), true));
      && (!e.working ==> DoTask(g, p, w, m) == Err(NotWorking))
      && (e.working && e.numDep <= 0 ==> DoTask(g, p, w, m) == Err(NoDependency))
      && (e.working && e.numDep == 1 ==> DoTask(g, p, w, m) == Propagate(g1, p, m))
      && (e.working && e.numDep > 1 ==> DoTask(g, p, w, m) == Ok(g1))
  {
    var e := g.nodes[p].engine;
    if e.working && e.numDep >= 1 {
      var g1 := DoTaskStep(g, p, w, m);
    }
  }

  /** `_do_task` on a Var operand that is owed the delivery. */
  lemma {:induction false} DoTaskSpec(X: Ctx, g: Graph, b: nat, ps: seq<Operand>, ws: Grads, p: nat, w: real)
    requires Ready(X, g) && RefsBelow(g, ps, b) && Aligned(ws, ps)
    requires ps != [] && ws != [] && ps[0] == Ref(p) && ws[0] == Some(w)
    requires Pending(X, g, b, ps, ws)
    ensures var r := DoTask(g, p, w, X.m);
      && (r.Err? ==> r.error.IsArithmetic() && Failed(X, g, b))
      && (r.Ok? ==> && Settled(X, g, r.value, b) && Pending(X, r.value, b, ps[1..], ws[1..])
                    && Discharged(X, g, r.value, b, ps[..1], ws[..1]) && Spent(g, r.value, b, ps))
    decreases p, 3, 1
  {
    assert p < b && p in g.nodes;
    assert PendOk(X, g, b, ps, ws, p);
    OccHead(ps, ws, p);
    var e := g.nodes[p].engine;
    assert e.working && e.numDep >= 1;
    var g1 := DoTaskStep(g, p, w, X.m);
    if e.numDep == 1 {
      DoTaskFires(X, g, g1, b, ps, ws, p, w);
    } else {
      DoTaskWaits(X, g, g1, b, ps, ws, p, w);
    }
  }
}
