/** Differentiable variables (autodiff/var.py) and the operator entry point
    of autodiff/op.py, over an id-indexed node store.

    A Var is a node of the store. A computed node refers to its operands by
    id, and every operand id is smaller than the id of the node that uses it:
    an operator builds its output after its inputs, so the store is a DAG
    ordered by id and every recursion over operands terminates on the id.
    The backward pass is the source's mutual recursion `_start_task`,
    `_propagate` and `_do_task`, written as functions from store to store
    (or to the error that aborts the pass). */
module Vars {
  import opened Errors
  import opened Engine
  import opened Ops

  /** An entry of `_parents`: a plain number or a Var, by id. */
  datatype Operand = Const(c: real) | Ref(id: nat)

  /** A Var: its value, optional name, producing operator (`None` for a
      leaf), operands, resolved gradient and its engine. */
  datatype Node = Node(
    val: real,
    name: Option<string>,
    op: Option<OpKind>,
    parents: seq<Operand>,
    grad: Option<real>,
    engine: GradEngine)

  /** The node store; `next` is the id the next new Var receives. */
  datatype Graph = Graph(nodes: map<nat, Node>, next: nat)

  /** `_is_leaf`: no producing operator. */
  predicate IsLeaf(n: Node) {
    n.op.None?
  }

  /** Every Var operand names a node of the store. */
  predicate RefsIn(g: Graph, ps: seq<Operand>) {
    forall k :: 0 <= k < |ps| && ps[k].Ref? ==> ps[k].id in g.nodes
  }

  /** Every Var operand names a node of the store with an id below `b`. */
  predicate RefsBelow(g: Graph, ps: seq<Operand>, b: nat) {
    forall k :: 0 <= k < |ps| && ps[k].Ref? ==> ps[k].id < b && ps[k].id in g.nodes
  }

  /** The shape every store built by `Var(...)`, an operator and `detach`
      has: ids below `next`, operands older than their consumer, and a leaf
      without operands. */
  predicate Valid(g: Graph) {
    && (forall id :: id in g.nodes ==> id < g.next)
    && (forall id :: id in g.nodes ==> RefsBelow(g, g.nodes[id].parents, id))
    && (forall id :: id in g.nodes && IsLeaf(g.nodes[id]) ==> g.nodes[id].parents == [])
  }

  /** The parts of a node a backward pass never writes. */
  predicate SameNode(a: Node, b: Node) {
    a.val == b.val && a.name == b.name && a.op == b.op && a.parents == b.parents
  }

  predicate SameShape(g: Graph, h: Graph) {
    && g.next == h.next
    && g.nodes.Keys == h.nodes.Keys
    && forall id :: id in g.nodes ==> SameNode(g.nodes[id], h.nodes[id])
  }

  lemma SameShapeValid(g: Graph, h: Graph)
    requires Valid(g) && SameShape(g, h)
    ensures Valid(h)
  {
    forall id | id in h.nodes
      ensures RefsBelow(h, h.nodes[id].parents, id)
    {
      assert RefsBelow(g, g.nodes[id].parents, id);
    }
  }

  /** Operands resolve to the same operator inputs in stores of one shape. */
  lemma ResolveSameShape(g: Graph, h: Graph, ps: seq<Operand>)
    requires SameShape(g, h) && RefsIn(g, ps)
    ensures RefsIn(h, ps) && Resolve(g, ps) == Resolve(h, ps)
  {
    forall k | 0 <= k < |ps| && ps[k].Ref?
      ensures g.nodes[ps[k].id].val == h.nodes[ps[k].id].val
    {
      assert SameNode(g.nodes[ps[k].id], h.nodes[ps[k].id]);
    }
  }

  function SetEngine(g: Graph, id: nat, e: GradEngine): (h: Graph)
    requires id in g.nodes
    ensures SameShape(g, h)
  {
    g.(nodes := g.nodes[id := g.nodes[id].(engine := e)])
  }

  function SetGrad(g: Graph, id: nat, grad: Option<real>): (h: Graph)
    requires id in g.nodes
    ensures SameShape(g, h)
  {
    g.(nodes := g.nodes[id := g.nodes[id].(grad := grad)])
  }

  // ------------------------------------------------------ construction

  /** `Var(val, ref=name)`: a new leaf with no operands, no gradient and a
      fresh engine. */
  function NewVar(g: Graph, val: real, name: Option<string>): (r: (Graph, nat))
    requires Valid(g)
    ensures var (h, id) := r;
      && id !in g.nodes && id in h.nodes
      && h.nodes.Keys == g.nodes.Keys + {id}
      && (forall n :: n in g.nodes ==> h.nodes[n] == g.nodes[n])
      && IsLeaf(h.nodes[id]) && h.nodes[id].parents == []
      && h.nodes[id].val == val && h.nodes[id].name == name
      && h.nodes[id].grad.None? && h.nodes[id].engine == Fresh()
      && Valid(h)
  {
    var id := g.next;
    (Graph(g.nodes[id := Node(val, name, None, [], None, Fresh())], id + 1), id)
  }

  /** An operand as the operator formulas see it (`_val` with the Var test). */
  function ToArg(g: Graph, o: Operand): (a: Arg)
    requires o.Ref? ==> o.id in g.nodes
    ensures a.Var? <==> o.Ref?
    ensures Val(a) == if o.Ref? then g.nodes[o.id].val else o.c
  {
    match o
    case Const(c) => Lit(c)
    case Ref(id) => Var(g.nodes[id].val)
  }

  function Resolve(g: Graph, ps: seq<Operand>): (args: seq<Arg>)
    requires RefsIn(g, ps)
    ensures |args| == |ps|
    ensures forall k :: 0 <= k < |ps| ==> args[k] == ToArg(g, ps[k])
    decreases |ps|
  {
    if ps == [] then [] else [ToArg(g, ps[0])] + Resolve(g, ps[1..])
  }

  /** `_Op.__new__`: computes the output value from the operands, then
      records the operator and the operands verbatim, constants included,
      on a new node. */
  function Apply(g: Graph, op: OpKind, inputs: seq<Operand>, m: Math): (r: Result<(Graph, nat)>)
    requires Valid(g) && RefsIn(g, inputs)
    ensures r.Err? <==> Compute(op, Resolve(g, inputs), m).Err?
    ensures r.Err? ==> r.error == Compute(op, Resolve(g, inputs), m).error
    ensures r.Ok? ==> var (h, id) := r.value;
      && id !in g.nodes && id in h.nodes
      && h.nodes.Keys == g.nodes.Keys + {id}
      && (forall n :: n in g.nodes ==> h.nodes[n] == g.nodes[n])
      && h.nodes[id].op == Some(op) && h.nodes[id].parents == inputs
      && h.nodes[id].val == Compute(op, Resolve(g, inputs), m).value
      && h.nodes[id].name.None? && h.nodes[id].grad.None? && h.nodes[id].engine == Fresh()
      && (forall k :: 0 <= k < |inputs| && inputs[k].Ref? ==> inputs[k].id < id)
      && Valid(h)
  {
    var val :- Compute(op, Resolve(g, inputs), m);
    var id := g.next;
    Ok((Graph(g.nodes[id := Node(val, None, Some(op), inputs, None, Fresh())], id + 1), id))
  }

  /** The arithmetic operators of a Var, `self` being the Var the Python
      special method is called on. */
  datatype Sugar = Plus | RPlus | Minus | RMinus | Times | RTimes | Over | ROver | Negate | Power

  /** Which operator contract a special method calls, and in which operand
      order: `__radd__` and `__rmul__` are `__add__` and `__mul__`, so they
      keep `self` first, while `__rsub__` and `__rtruediv__` put the other
      operand first. */
  function Route(s: Sugar, self: nat, other: Operand): (r: (OpKind, seq<Operand>))
    ensures s == Negate ==> r == (Neg, [Ref(self)])
    ensures s in {Plus, RPlus} ==> r.0 == Add
    ensures s in {Minus, RMinus} ==> r.0 == Sub
    ensures s in {Times, RTimes} ==> r.0 == Mul
    ensures s in {Over, ROver} ==> r.0 == Div
    ensures s == Power ==> r.0 == Pow
    ensures s != Negate ==> |r.1| == 2 && (Ref(self) == r.1[0] || Ref(self) == r.1[1]) && other in r.1
    ensures s in {RMinus, ROver} ==> r.1 == [other, Ref(self)]
    ensures s in {Plus, RPlus, Minus, Times, RTimes, Over, Power} ==> r.1 == [Ref(self), other]
  {
    match s
    case Plus => (Add, [Ref(self), other])
    case RPlus => (Add, [Ref(self), other])
    case Minus => (Sub, [Ref(self), other])
    case RMinus => (Sub, [other, Ref(self)])
    case Times => (Mul, [Ref(self), other])
    case RTimes => (Mul, [Ref(self), other])
    case Over => (Div, [Ref(self), other])
    case ROver => (Div, [other, Ref(self)])
    case Negate => (Neg, [Ref(self)])
    case Power => (Pow, [Ref(self), other])
  }

  /** A special method of a Var: `**` with a modulus is refused, everything
      else is the routed operator. With `x` the value of `self` and `y` the
      value of the other operand, the new node holds the operator's result
      over the operands in the routed order. */
  function Dispatch(g: Graph, s: Sugar, self: nat, other: Operand, modulo: Option<real>, m: Math)
    : (r: Result<(Graph, nat)>)
    requires Valid(g) && self in g.nodes && (other.Ref? ==> other.id in g.nodes)
    ensures s == Power && modulo.Some? ==> r == Err(Unsupported)
    ensures !(s == Power && modulo.Some?) ==> SugarFails(g, s, self, other, r)
    ensures !(s == Power && modulo.Some?) ==> SugarNode(g, s, self, other, r)
    ensures !(s == Power && modulo.Some?) ==> SugarValue(g, s, self, other, m, r)
  {
    if s == Power && modulo.Some? then Err(Unsupported)
    else
      var (op, inputs) := Route(s, self, other);
      ApplyRouted(g, s, self, other, m);
      Apply(g, op, inputs, m)
  }

  /** A routed special method fails exactly at a zero divisor or at a zero
      base under a negative exponent, and then with a zero-division error. */
  predicate SugarFails(g: Graph, s: Sugar, self: nat, other: Operand, r: Result<(Graph, nat)>)
    requires self in g.nodes && (other.Ref? ==> other.id in g.nodes)
  {
    var x, y := g.nodes[self].val, Val(ToArg(g, other));
    && (r.Err? <==> (s == Over && y == 0.0) || (s == ROver && x == 0.0) || (s == Power && x == 0.0 && y < 0.0))
    && (r.Err? ==> r.error == ZeroDivision)
  }

  /** On success a routed special method adds exactly one node, with no
      name, no gradient and a fresh engine, whose operands are `self` and the
      other operand in the routed order. */
  predicate SugarNode(g: Graph, s: Sugar, self: nat, other: Operand, r: Result<(Graph, nat)>)
  {
    r.Ok? ==>
      var (h, id) := r.value;
      && id !in g.nodes && h.nodes.Keys == g.nodes.Keys + {id}
      && (forall n :: n in g.nodes ==> h.nodes[n] == g.nodes[n])
      && h.nodes[id].name.None? && h.nodes[id].grad.None? && h.nodes[id].engine == Fresh()
      && Valid(h)
      && h.nodes[id].parents
           == (if s == Negate then [Ref(self)]
               else if s in {RMinus, ROver} then [other, Ref(self)]
               else [Ref(self), other])
  }

  /** On success the new node holds the special method's operator, and its
      value is that operator's result over its operands. */
  predicate SugarValue(g: Graph, s: Sugar, self: nat, other: Operand, m: Math, r: Result<(Graph, nat)>)
    requires Valid(g)
  {
    r.Ok? ==>
      var (h, id) := r.value;
      id in h.nodes && RefsIn(g, h.nodes[id].parents) &&
      var n := h.nodes[id];
      && n.op == Some(if s in {Plus, RPlus} then Add
                      else if s in {Minus, RMinus} then Sub
                      else if s in {Times, RTimes} then Mul
                      else if s in {Over, ROver} then Div
                      else if s == Negate then Neg
                      else Pow)
      && Compute(n.op.value, Resolve(g, n.parents), m) == Ok(n.val)
  }

  lemma ApplyRouted(g: Graph, s: Sugar, self: nat, other: Operand, m: Math)
    requires Valid(g) && self in g.nodes && (other.Ref? ==> other.id in g.nodes)
    ensures RefsIn(g, Route(s, self, other).1)
    ensures var a := Apply(g, Route(s, self, other).0, Route(s, self, other).1, m);
      SugarFails(g, s, self, other, a) && SugarNode(g, s, self, other, a) && SugarValue(g, s, self, other, m, a)
  {
    RoutedFailure(g, s, self, other, m);
    var (op, inputs) := Route(s, self, other);
    var a := Apply(g, op, inputs, m);
    assert SugarFails(g, s, self, other, a);
    assert SugarNode(g, s, self, other, a);
    RoutedValue(g, s, self, other, m);
  }

  lemma RoutedValue(g: Graph, s: Sugar, self: nat, other: Operand, m: Math)
    requires Valid(g) && self in g.nodes && (other.Ref? ==> other.id in g.nodes)
    requires RefsIn(g, Route(s, self, other).1)
    ensures SugarValue(g, s, self, other, m, Apply(g, Route(s, self, other).0, Route(s, self, other).1, m))
  {
  }

  /** When the routed operator fails, in terms of the two values. */
  lemma RoutedFailure(g: Graph, s: Sugar, self: nat, other: Operand, m: Math)
    requires Valid(g) && self in g.nodes && (other.Ref? ==> other.id in g.nodes)
    ensures var (op, inputs) := Route(s, self, other);
      RefsIn(g, inputs) &&
      var c := Compute(op, Resolve(g, inputs), m);
      var x, y := g.nodes[self].val, Val(ToArg(g, other));
      && (c.Err? <==> (s == Over && y == 0.0) || (s == ROver && x == 0.0) || (s == Power && x == 0.0 && y < 0.0))
      && (c.Err? ==> c.error == ZeroDivision)
  {
    var (op, inputs) := Route(s, self, other);
    var a, b := ToArg(g, Ref(self)), ToArg(g, other);
    if s == Negate {
      assert Resolve(g, inputs) == [a];
    } else if s in {RMinus, ROver} {
      assert Resolve(g, inputs) == [b, a];
    } else {
      assert Resolve(g, inputs) == [a, b];
    }
  }

  // ---------------------------------------------------------- backward

  /** `backward(grad)`: seeds the root with `grad` (one by default) unless
      its engine already works, discovers the subgraph below it, then fires
      the root. */
  function Backward(g: Graph, root: nat, seed: Option<real>, m: Math): (r: Result<Graph>)
    requires Valid(g) && root in g.nodes
    ensures r.Ok? ==> SameShape(g, r.value) && Valid(r.value)
  {
    var e := g.nodes[root].engine;
    var g1 := if e.working then g else SetEngine(g, root, Accumulate(Activate(e).value, seed.GetOr(1.0)).value);
    SameShapeValid(g, g1);
    var g2 := StartTasks(g1, g1.nodes[root].parents, root);
    Propagate(g2, root, m)
  }

  /** `_start_task`, one call per consumer edge: the first visit activates
      the node, counts the edge and visits its Var operands; every later
      visit only counts the edge. */
  function StartTask(g: Graph, id: nat): (r: Graph)
    requires Valid(g) && id in g.nodes
    ensures SameShape(g, r) && Valid(r)
    decreases id, 1, 0
  {
    var e := g.nodes[id].engine;
    if !e.working then
      var g1 := SetEngine(g, id, AddDependency(Activate(e).value));
      SameShapeValid(g, g1);
      StartTasks(g1, g1.nodes[id].parents, id)
    else
      var g1 := SetEngine(g, id, AddDependency(e));
      SameShapeValid(g, g1);
      g1
  }

  /** The loop `for parent in self._parents: if isinstance(parent, Var):
      parent._start_task()`. */
  function StartTasks(g: Graph, ps: seq<Operand>, b: nat): (r: Graph)
    requires Valid(g) && RefsBelow(g, ps, b)
    ensures SameShape(g, r) && Valid(r)
    decreases b, 0, |ps|
  {
    if ps == [] then g
    else
      var g1 := if ps[0].Ref? then StartTask(g, ps[0].id) else g;
      StartTasks(g1, ps[1..], b)
  }

  /** `_end_task`: the engine goes back to its initial state. */
  function EndTask(g: Graph, id: nat): (r: Graph)
    requires id in g.nodes
    ensures SameShape(g, r)
    ensures r.nodes[id].engine == Fresh() && r.nodes[id].grad == g.nodes[id].grad
    ensures forall n :: n in g.nodes && n != id ==> r.nodes[n] == g.nodes[n]
  {
    SetEngine(g, id, Reset(g.nodes[id].engine))
  }

  /** `_propagate`: a leaf stores what it accumulated as its gradient; a
      computed node asks its operator for one local gradient per operand and
      hands each present one to its Var operand. Either way the engine is
      reset afterwards. Only leaves ever have their gradient written. */
  function Propagate(g: Graph, id: nat, m: Math): (r: Result<Graph>)
    requires Valid(g) && id in g.nodes
    ensures r.Ok? ==> SameShape(g, r.value) && Valid(r.value)
    ensures r.Ok? ==> forall n :: n in g.nodes && !IsLeaf(g.nodes[n]) ==> r.value.nodes[n].grad == g.nodes[n].grad
    decreases id, 2, 0
  {
    var n := g.nodes[id];
    var acc := GetGrad(n.engine);
    if IsLeaf(n) then
      Ok(EndTask(SetGrad(g, id, acc), id))
    else if acc.None? then
      Err(MissingGradient)
    else
      var grads :- Gradient(n.op.value, acc.value, n.val, Resolve(g, n.parents), m);
      var g1 :- Deliver(g, grads, n.parents, id, m);
      Ok(EndTask(g1, id))
  }

  /** The loop `for grad, parent in zip(grads, self._parents)`, handing
      each present gradient to its Var operand. */
  function Deliver(g: Graph, grads: Grads, ps: seq<Operand>, b: nat, m: Math): (r: Result<Graph>)
    requires Valid(g) && RefsBelow(g, ps, b)
    ensures r.Ok? ==> SameShape(g, r.value) && Valid(r.value)
    ensures r.Ok? ==> forall n :: n in g.nodes && !IsLeaf(g.nodes[n]) ==> r.value.nodes[n].grad == g.nodes[n].grad
    decreases b, 1, |ps|
  {
    if grads == [] || ps == [] then Ok(g)
    else
      var g1 :- if ps[0].Ref? && grads[0].Some? then DoTask(g, ps[0].id, grads[0].value, m) else Ok(g);
      Deliver(g1, grads[1..], ps[1..], b, m)
  }

  /** `_do_task`: accumulate the delivery, retire one dependency, and fire
      the node as soon as its engine is ready. */
  function DoTask(g: Graph, id: nat, grad: real, m: Math): (r: Result<Graph>)
    requires Valid(g) && id in g.nodes
    ensures r.Ok? ==> SameShape(g, r.value) && Valid(r.value)
    ensures r.Ok? ==> forall n :: n in g.nodes && !IsLeaf(g.nodes[n]) ==> r.value.nodes[n].grad == g.nodes[n].grad
    decreases id, 3, 0
  {
    var e1 :- Accumulate(g.nodes[id].engine, grad);
    var e2 :- DelDependency(e1);
    var g1 := SetEngine(g, id, e2);
    SameShapeValid(g, g1);
    if ReadyBackward(e2) then Propagate(g1, id, m) else Ok(g1)
  }

  /** `detach`: the node loses its operands and its gradient and its engine
      is reset; its value, name and operator stay. */
  function Detach(g: Graph, id: nat): (r: Graph)
    requires Valid(g) && id in g.nodes
    ensures r.nodes.Keys == g.nodes.Keys && r.next == g.next
    ensures forall n :: n in g.nodes && n != id ==> r.nodes[n] == g.nodes[n]
    ensures r.nodes[id].parents == [] && r.nodes[id].grad.None? && r.nodes[id].engine == Fresh()
    ensures r.nodes[id].val == g.nodes[id].val && r.nodes[id].name == g.nodes[id].name
    ensures r.nodes[id].op == g.nodes[id].op
    ensures Valid(r)
  {
    var n := g.nodes[id];
    Graph(g.nodes[id := n.(parents := [], grad := None, engine := Reset(n.engine))], g.next)
  }

  /** Detaching twice is detaching once. */
  lemma DetachIdempotent(g: Graph, id: nat)
    requires Valid(g) && id in g.nodes
    ensures Detach(Detach(g, id), id) == Detach(g, id)
  {
  }

  /** `backward` on a leaf no pass is running on stores the seed (one by
      default) as its gradient and changes nothing else. */
  lemma LeafBackward(g: Graph, id: nat, seed: Option<real>, m: Math)
    requires Valid(g) && id in g.nodes && IsLeaf(g.nodes[id]) && g.nodes[id].engine == Fresh()
    ensures Backward(g, id, seed, m) == Ok(SetGrad(g, id, Some(seed.GetOr(1.0))))
  {
    var g1 := SetEngine(g, id, GradEngine(0, Some(seed.GetOr(1.0)), true));
    assert g1.nodes[id].parents == [];
    assert StartTasks(g1, [], id) == g1;
    assert EndTask(SetGrad(g1, id, Some(seed.GetOr(1.0))), id).nodes
        == SetGrad(g, id, Some(seed.GetOr(1.0))).nodes;
  }

  /** `backward` on a root whose engine already works neither activates
      it again nor adds the seed: the seed is ignored, and discovery
      starts from the store as it is. A leaf root then stores whatever its
      engine already held, nothing at all included. */
  lemma WorkingRootBackward(g: Graph, root: nat, seed1: Option<real>, seed2: Option<real>, m: Math)
    requires Valid(g) && root in g.nodes && g.nodes[root].engine.working
    ensures Backward(g, root, seed1, m) == Backward(g, root, seed2, m)
    ensures Backward(g, root, seed1, m) == Propagate(StartTasks(g, g.nodes[root].parents, root), root, m)
    ensures IsLeaf(g.nodes[root]) ==>
      Backward(g, root, seed1, m) == Ok(EndTask(SetGrad(g, root, g.nodes[root].engine.acc), root))
  {
    if IsLeaf(g.nodes[root]) {
      assert g.nodes[root].parents == [];
      assert StartTasks(g, [], root) == g;
    }
  }
}
