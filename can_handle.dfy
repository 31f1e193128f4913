/**
 * What an engine reports when asked whether it can run a workload: the
 * `WasiCanHandle` implementations emitted by `#[validate]`, the default check
 * `#[main]` emits for engines without a validator, and `Engine::can_handle`,
 * which delegates to whichever of the two exists.
 *
 * The shapes a validator may return: `bool`, `()`, `Result<T, E>` with `T`
 * one of these, and (tokio feature) a future of one of them.
 */
module CanHandle {
  import opened Base

  /** A validator result that implements `WasiCanHandle`. */
  datatype Capability =
    | Flag(accepted: bool)                        // `bool`
    | Unit                                        // `()`
    | Outcome(result: Result<Capability, Error>)  // `Result<T, E>`

  /** The future implementation is on `WasiCanHandleFuture`, so a future is only ever outermost. */
  datatype ValidatorReturn =
    | Ready(capability: Capability)
    | Future(output: Capability)

  /** The context `bool::then_some(()).context(..)` attaches when the flag is `false`. */
  const CANNOT_HANDLE: string := "can't handle workflow"

  /** A resolved WASI entrypoint, as `RuntimeContext::resolved_wasi_entrypoint` yields it. */
  datatype Entrypoint = Entrypoint(func: string, source: string)

  /** `__containerd_wasm_shim_macro_report_can_handle` on a `WasiCanHandle` value. */
  function Report(c: Capability): Result<(), Error>
  {
    match c
    case Flag(b) => if b then Ok(()) else Err(Error(CANNOT_HANDLE))
    case Unit => Ok(())
    case Outcome(Ok(inner)) => Report(inner)
    case Outcome(Err(e)) => Err(e)
  }

  /** Line 213: the validator's return value is reported, through `block_on` for a future. */
  function ReportValidator(v: ValidatorReturn): Result<(), Error>
  {
    match v
    case Ready(c) => Report(c)
    case Future(out) => Report(out)
  }

  /** The trait default `#[main]` emits: the entrypoint must resolve, and its error propagates. */
  function DefaultCanHandle(entrypoint: Result<Entrypoint, Error>): Result<(), Error>
  {
    match entrypoint
    case Ok(_) => Ok(())
    case Err(e) => Err(e)
  }

  /**
   * `Engine::can_handle`: the inherent `can_handle` that `#[validate]` adds
   * (the validator's report) takes precedence over the trait default.
   */
  function EngineCanHandle(validator: Option<ValidatorReturn>, entrypoint: Result<Entrypoint, Error>): Result<(), Error>
  {
    match validator
    case Some(v) => ReportValidator(v)
    case None => DefaultCanHandle(entrypoint)
  }

  // ---------------------------------------------------------------------------
  // Reference view: some `Ok` layers around a leaf `bool`, `()` or `Err`.

  function WrapOk(c: Capability, n: nat): Capability
  {
    if n == 0 then c else Outcome(Ok(WrapOk(c, n - 1)))
  }

  predicate IsLeaf(c: Capability)
  {
    !(c.Outcome? && c.result.Ok?)
  }

  function Peel(c: Capability): (leaf: Capability)
    ensures IsLeaf(leaf)
  {
    match c
    case Outcome(Ok(inner)) => Peel(inner)
    case _ => c
  }

  /** A leaf accepts the workload when it is `true` or `()`. */
  predicate LeafAccepts(leaf: Capability)
  {
    leaf == Flag(true) || leaf == Unit
  }

  /** Every capability is its leaf wrapped in some number of `Ok` layers. */
  lemma {:induction false} Decompose(c: Capability)
    ensures exists n: nat :: c == WrapOk(Peel(c), n)
  {
    match c
    case Outcome(Ok(inner)) =>
      Decompose(inner);
      var n: nat :| inner == WrapOk(Peel(inner), n);
      assert c == WrapOk(Peel(c), n + 1);
    case _ =>
      assert c == WrapOk(Peel(c), 0);
  }

  /** `Ok(x)` reports as `x` does, at every nesting depth. */
  lemma {:induction false} ReportThroughOk(c: Capability, n: nat)
    ensures Report(WrapOk(c, n)) == Report(c)
  {
    if n > 0 {
      ReportThroughOk(c, n - 1);
    }
  }

  /**
   * The report accepts exactly when the leaf is `true` or `()`; a `false`
   * leaf fails with "can't handle workflow"; an `Err(e)` leaf fails with `e`
   * itself, unchanged.
   */
  lemma {:induction false} ReportByLeaf(c: Capability)
    ensures Report(c).Ok? <==> LeafAccepts(Peel(c))
    ensures Peel(c) == Flag(false) ==> Report(c) == Err(Error(CANNOT_HANDLE))
    ensures Peel(c).Outcome? ==> Report(c) == Err(Peel(c).result.error)
  {
    match c
    case Outcome(Ok(inner)) => ReportByLeaf(inner);
    case _ =>
  }

  /** Every failure is either the `false` context or an error the validator returned. */
  lemma ReportErrorOrigin(c: Capability)
    requires Report(c).Err?
    ensures Report(c).error == Error(CANNOT_HANDLE) || Peel(c) == Outcome(Err(Report(c).error))
  {
    ReportByLeaf(c);
  }

  /** With a validator present the entrypoint is never consulted; without one only it decides. */
  lemma EngineCanHandleDelegates(v: ValidatorReturn, e1: Result<Entrypoint, Error>, e2: Result<Entrypoint, Error>)
    ensures EngineCanHandle(Some(v), e1) == EngineCanHandle(Some(v), e2)
    ensures EngineCanHandle(None, e1).Ok? <==> e1.Ok?
    ensures e1.Err? ==> EngineCanHandle(None, e1) == Err(e1.error)
  {
  }

  /**
   * A future validator reports what its output reports. The future is
   * represented by its output, so only the verdict it leads to is stated here.
   */
  lemma FutureReportsLikeItsOutput(c: Capability)
    ensures ReportValidator(Future(c)).Ok? <==> LeafAccepts(Peel(c))
  {
    ReportByLeaf(c);
  }
}
