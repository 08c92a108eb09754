/** Model of `resolveEffectiveWorkerCap` (`workerAdmission.ts`). The inputs are JavaScript
    numbers, so the arithmetic is carried out with the infinities and NaN. */
module WorkerCap {
  import opened Outcomes

  datatype JsNumber = Finite(r: real) | PosInfinity | NegInfinity | NaN

  const DEFAULT_WORKER_MEMORY_BYTES: real := 4294967296.0

  function FloorOf(x: JsNumber): JsNumber {
    if x.Finite? then Finite(x.r.Floor as real) else x
  }

  /** `Math.max(1, Math.floor(value))`. */
  function ClampWorkerCap(value: JsNumber): JsNumber {
    match FloorOf(value)
    case Finite(r) => if r < 1.0 then Finite(1.0) else Finite(r)
    case PosInfinity => PosInfinity
    case NegInfinity => Finite(1.0)
    case NaN => NaN
  }

  /** `x / y` for a finite positive y. */
  function Quotient(x: JsNumber, y: real): JsNumber
    requires y > 0.0
  {
    if x.Finite? then Finite(x.r / y) else x
  }

  function ResolveCap(overrideCap: Option<JsNumber>, totalMemory: JsNumber, workerMemory: Option<JsNumber>): JsNumber {
    if overrideCap.Some? && overrideCap.value.Finite? then ClampWorkerCap(overrideCap.value)
    else
      var perWorker :=
        if workerMemory.Some? && workerMemory.value.Finite? && workerMemory.value.r > 0.0 then workerMemory.value.r
        else DEFAULT_WORKER_MEMORY_BYTES;
      ClampWorkerCap(FloorOf(Quotient(totalMemory, perWorker)))
  }

  /** The comparison `occupied < effectiveWorkerCap`. */
  predicate Admits(occupied: nat, cap: JsNumber) {
    match cap
    case Finite(r) => occupied as real < r
    case PosInfinity => true
    case _ => false
  }

  /** The clamp promises at least one worker. It keeps that promise exactly when the
      override is a finite number or the host memory is a number at all: NaN passes
      through every step and a cap of NaN admits nobody. The engine's own call drops
      numbers that are not finite before it gets here; other callers of the exported
      function can pass them. */
  lemma {:induction false} CapAdmitsOneWorker(overrideCap: Option<JsNumber>, totalMemory: JsNumber,
                                              workerMemory: Option<JsNumber>)
    ensures Admits(0, ResolveCap(overrideCap, totalMemory, workerMemory))
       <==> (overrideCap.Some? && overrideCap.value.Finite?) || totalMemory != NaN
  {
    var perWorker :=
      if workerMemory.Some? && workerMemory.value.Finite? && workerMemory.value.r > 0.0 then workerMemory.value.r
      else DEFAULT_WORKER_MEMORY_BYTES;
    assert FloorOf(Quotient(NaN, perWorker)) == NaN;
  }

  /** Without a finite override the cap is the host memory over the memory of a worker (4 GiB
      unless a positive number is given), rounded down, but at least one. */
  lemma {:induction false} HostMemoryIsTheCap(occupied: nat, total: real, workerMemory: Option<JsNumber>,
                                              overrideCap: Option<JsNumber>)
    requires overrideCap.Some? ==> !overrideCap.value.Finite?
    ensures var perWorker :=
              if workerMemory.Some? && workerMemory.value.Finite? && workerMemory.value.r > 0.0 then workerMemory.value.r
              else 4.0 * 1024.0 * 1024.0 * 1024.0;
            Admits(occupied, ResolveCap(overrideCap, Finite(total), workerMemory)) <==>
              occupied < 1 || occupied < (total / perWorker).Floor
  {
  }

  /** A finite override n >= 1 admits exactly n workers, rounded down, and a smaller one admits
      one. */
  lemma {:induction false} OverrideIsTheCap(n: real, occupied: nat, totalMemory: JsNumber,
                                            workerMemory: Option<JsNumber>)
    ensures Admits(occupied, ResolveCap(Some(Finite(n)), totalMemory, workerMemory)) <==>
              occupied < 1 || occupied < n.Floor
  {
  }
}
