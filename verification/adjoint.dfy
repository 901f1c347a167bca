/** The reference definition a backward pass is measured against: reverse
    accumulation written as equations over the node store, independent of
    the engine's counters and of any visiting order. */
module Adjoint {
  import opened Errors
  import opened Ops
  import opened Vars

  /** What a backward pass is asked: the store it starts from, the root,
      the seed gradient and the transcendental functions. */
  datatype Ctx = Ctx(g: Graph, root: nat, seed: real, m: Math)

  predicate CtxOk(X: Ctx) {
    Valid(X.g) && X.root in X.g.nodes
  }

  /** `a` depends on `b`: `b` is `a` itself or, transitively, a Var
      operand of it. */
  predicate Reaches(g: Graph, a: nat, b: nat)
    requires Valid(g) && a in g.nodes
    decreases a
  {
    || a == b
    || exists k :: 0 <= k < |g.nodes[a].parents| && g.nodes[a].parents[k].Ref? &&
         Reaches(g, g.nodes[a].parents[k].id, b)
  }

  /** Some Var operand of the list depends on `b`. */
  predicate ReachesList(g: Graph, ps: seq<Operand>, b: nat)
    requires Valid(g) && RefsIn(g, ps)
  {
    exists k :: 0 <= k < |ps| && ps[k].Ref? && Reaches(g, ps[k].id, b)
  }

  /** How many operand positions of `ps` hold node `n`. */
  function Occ(ps: seq<Operand>, n: nat): nat
    decreases |ps|
  {
    if ps == [] then 0 else (if ps[0] == Ref(n) then 1 else 0) + Occ(ps[1..], n)
  }

  /** What a consumer with operands `ps` and local gradients `ws` hands to
      `n`, pairing the two lists position by position like `zip`. */
  function WOcc(ps: seq<Operand>, ws: Grads, n: nat): real
    decreases |ps|
  {
    if ps == [] || ws == [] then 0.0
    else (if ps[0] == Ref(n) then ws[0].GetOr(0.0) else 0.0) + WOcc(ps[1..], ws[1..], n)
  }

  /** Distance below the root; the measure of the adjoint equations. */
  function Depth(X: Ctx, n: nat): nat {
    if n <= X.root then X.root - n else 0
  }

  /** The adjoint of `n`: the seed at the root; below the root, the sum
      over every consumer the root depends on of what that consumer's
      operator hands to `n` given the consumer's own adjoint. */
  function Adj(X: Ctx, n: nat): real
    requires CtxOk(X)
    decreases Depth(X, n), 2, 0
  {
    if n == X.root then X.seed
    else if n > X.root then 0.0
    else Inflow(X, n, X.root + 1)
  }

  /** The part of `n`'s adjoint contributed by consumers with ids in (n, i). */
  function Inflow(X: Ctx, n: nat, i: nat): real
    requires CtxOk(X) && n < X.root && i <= X.root + 1
    decreases Depth(X, n), 1, i
  {
    if i <= n + 1 then 0.0 else Inflow(X, n, i - 1) + Contrib(X, i - 1, n)
  }

  /** What consumer `c` hands to `n`: nothing unless the root depends on `c`. */
  function Contrib(X: Ctx, c: nat, n: nat): real
    requires CtxOk(X) && n < c <= X.root
    decreases Depth(X, c), 4, 0
  {
    if c in X.g.nodes && Reaches(X.g, X.root, c) then WOcc(X.g.nodes[c].parents, Weights(X, c), n)
    else 0.0
  }

  /** The local gradients node `c`'s operator produces from `c`'s adjoint;
      empty for a leaf and when the formula fails. */
  function Weights(X: Ctx, c: nat): Grads
    requires CtxOk(X)
    decreases Depth(X, c), 3, 0
  {
    if c in X.g.nodes && X.g.nodes[c].op.Some? then
      var n := X.g.nodes[c];
      var r := Gradient(n.op.value, Adj(X, c), n.val, Resolve(X.g, n.parents), X.m);
      if r.Ok? then r.value else []
    else []
  }

  /** The operator formula of computed node `c` fails at `c`'s adjoint. */
  predicate GradFails(X: Ctx, c: nat)
    requires CtxOk(X)
  {
    && c in X.g.nodes && X.g.nodes[c].op.Some?
    && Gradient(X.g.nodes[c].op.value, Adj(X, c), X.g.nodes[c].val,
                Resolve(X.g, X.g.nodes[c].parents), X.m).Err?
  }

  /** Dependence through one operand position. */
  lemma ReachesStep(g: Graph, a: nat, k: nat, b: nat)
    requires Valid(g) && a in g.nodes && k < |g.nodes[a].parents| && g.nodes[a].parents[k].Ref?
    requires g.nodes[a].parents[k].id in g.nodes && Reaches(g, g.nodes[a].parents[k].id, b)
    ensures Reaches(g, a, b)
  {
  }

  /** `a` depends on `c` exactly when `c` is `a` or one of `a`'s Var
      operands depends on it. */
  lemma ReachesUnfold(g: Graph, a: nat, c: nat)
    requires Valid(g) && a in g.nodes
    ensures RefsIn(g, g.nodes[a].parents)
    ensures Reaches(g, a, c) <==> c == a || ReachesList(g, g.nodes[a].parents, c)
  {
    assert RefsBelow(g, g.nodes[a].parents, a);
  }

  /** A consumer the root depends on hands `n` its share of its local
      gradients. */
  lemma ContribReached(X: Ctx, c: nat, n: nat)
    requires CtxOk(X) && n < c <= X.root && c in X.g.nodes && Reaches(X.g, X.root, c)
    ensures Contrib(X, c, n) == WOcc(X.g.nodes[c].parents, Weights(X, c), n)
  {
  }
}
