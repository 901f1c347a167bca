/** The per-node join barrier of a backward pass (`GradEngine`): a count of
    consumer deliveries still pending, the gradient accumulated so far, and a
    flag saying whether the node takes part in the current pass. Every
    transition is a pure function returning the next engine or the error the
    source raises. */
module Engine {
  import opened Errors

  datatype GradEngine = GradEngine(numDep: int, acc: Option<real>, working: bool)

  /** The state of a freshly constructed engine. */
  function Fresh(): GradEngine {
    GradEngine(0, None, false)
  }

  /** Clears every field back to the constructor's values. */
  function Reset(e: GradEngine): (r: GradEngine)
    ensures r.numDep == 0 && r.acc.None? && !r.working
  {
    Fresh()
  }

  /** Joins the current pass; reactivating a working engine is refused. */
  function Activate(e: GradEngine): (r: Result<GradEngine>)
    ensures r.Err? <==> e.working
    ensures r.Err? ==> r.error == Reactivated
    ensures r.Ok? ==> r.value.working && r.value.numDep == e.numDep && r.value.acc == e.acc
  {
    if e.working then Err(Reactivated) else Ok(e.(working := true))
  }

  function IsWorking(e: GradEngine): bool {
    e.working
  }

  /** The running sum of deliveries, counting an empty accumulator as zero. */
  function AccOrZero(e: GradEngine): real {
    e.acc.GetOr(0.0)
  }

  /** Adds one delivered gradient; only a working engine accepts it. */
  function Accumulate(e: GradEngine, grad: real): (r: Result<GradEngine>)
    ensures r.Err? <==> !e.working
    ensures r.Err? ==> r.error == NotWorking
    ensures r.Ok? ==> r.value.acc == Some(AccOrZero(e) + grad)
    ensures r.Ok? ==> r.value.numDep == e.numDep && r.value.working
  {
    if !e.working then Err(NotWorking)
    else Ok(e.(acc := Some(AccOrZero(e) + grad)))
  }

  /** Registers one more pending consumer delivery; no working check. */
  function AddDependency(e: GradEngine): (r: GradEngine)
    ensures r.numDep == e.numDep + 1
    ensures r.acc == e.acc && r.working == e.working
  {
    e.(numDep := e.numDep + 1)
  }

  /** Retires one pending delivery; refuses to go below zero. */
  function DelDependency(e: GradEngine): (r: Result<GradEngine>)
    ensures r.Err? <==> e.numDep <= 0
    ensures r.Err? ==> r.error == NoDependency
    ensures r.Ok? ==> r.value.numDep == e.numDep - 1 >= 0
    ensures r.Ok? ==> r.value.acc == e.acc && r.value.working == e.working
  {
    if e.numDep <= 0 then Err(NoDependency)
    else Ok(e.(numDep := e.numDep - 1))
  }

  function ZeroDependency(e: GradEngine): bool {
    e.numDep == 0
  }

  /** The barrier opens: the node takes part in the pass and owes nothing. */
  function ReadyBackward(e: GradEngine): bool {
    e.working && e.numDep == 0
  }

  /** The raw accumulator, `None` when nothing was delivered. */
  function GetGrad(e: GradEngine): Option<real> {
    e.acc
  }

  lemma ResetIsFreshAndIdempotent(e: GradEngine)
    ensures Reset(e) == Fresh()
    ensures Reset(Reset(e)) == Reset(e)
    ensures !IsWorking(Reset(e)) && ZeroDependency(Reset(e)) && GetGrad(Reset(e)).None?
  {
  }

  /** Activation is the only transition that sets the working flag, and it
      keeps the counters: a fresh engine becomes working with nothing pending. */
  lemma ActivateFresh()
    ensures Activate(Fresh()) == Ok(GradEngine(0, None, true))
    ensures ReadyBackward(Activate(Fresh()).value)
    ensures Activate(Activate(Fresh()).value) == Err(Reactivated)
  {
  }

  /** The sum of a sequence of gradients, folded from the left as the source
      accumulates them. */
  function Sum(gs: seq<real>): real
    decreases |gs|
  {
    if gs == [] then 0.0 else Sum(gs[..|gs| - 1]) + gs[|gs| - 1]
  }

  /** One `_do_task` delivery without the firing: accumulate, then retire one
      dependency. */
  function Accept(e: GradEngine, grad: real): Result<GradEngine> {
    var e1 :- Accumulate(e, grad);
    DelDependency(e1)
  }

  /** A series of deliveries to one engine, in order, stopping at the first
      error. */
  function DeliverAll(e: GradEngine, gs: seq<real>): Result<GradEngine>
    decreases |gs|
  {
    if gs == [] then Ok(e)
    else
      var e1 :- DeliverAll(e, gs[..|gs| - 1]);
      Accept(e1, gs[|gs| - 1])
  }

  /** The join barrier: a working engine owing `numDep` deliveries accepts
      exactly that many, sums them onto what it held, and is ready exactly
      after the last one; one delivery more underflows. */
  lemma {:induction false} JoinBarrier(e: GradEngine, gs: seq<real>)
    requires e.working && 0 <= e.numDep
    ensures var r := DeliverAll(e, gs);
      && (r.Ok? <==> |gs| <= e.numDep)
      && (r.Err? ==> r.error == NoDependency)
      && (r.Ok? ==> r.value.working && r.value.numDep == e.numDep - |gs|)
      && (r.Ok? ==> r.value.acc == if gs == [] then e.acc else Some(AccOrZero(e) + Sum(gs)))
      && (r.Ok? ==> (ReadyBackward(r.value) <==> |gs| == e.numDep))
    decreases |gs|
  {
    if gs != [] {
      var init := gs[..|gs| - 1];
      JoinBarrier(e, init);
      var r0 := DeliverAll(e, init);
      if r0.Ok? {
        assert AccOrZero(r0.value) == AccOrZero(e) + Sum(init);
      }
    }
  }

  /** The calls a Var makes on its engine. */
  datatype Call = ActivateCall | AccumulateCall(grad: real) | AddCall | DelCall | ResetCall

  function Step(e: GradEngine, c: Call): Result<GradEngine> {
    match c
    case ActivateCall => Activate(e)
    case AccumulateCall(g) => Accumulate(e, g)
    case AddCall => Ok(AddDependency(e))
    case DelCall => DelDependency(e)
    case ResetCall => Ok(Reset(e))
  }

  /** Runs a series of calls, stopping at the first error. */
  function Run(e: GradEngine, cs: seq<Call>): Result<GradEngine>
    decreases |cs|
  {
    if cs == [] then Ok(e)
    else
      var e1 :- Step(e, cs[0]);
      Run(e1, cs[1..])
  }

  /** The pending count never goes negative, whatever the engine is asked. */
  lemma {:induction false} NumDepNeverNegative(e: GradEngine, cs: seq<Call>)
    requires e.numDep >= 0
    ensures Run(e, cs).Ok? ==> Run(e, cs).value.numDep >= 0
    decreases |cs|
  {
    if cs != [] {
      var s := Step(e, cs[0]);
      if s.Ok? {
        NumDepNeverNegative(s.value, cs[1..]);
      }
    }
  }
}
