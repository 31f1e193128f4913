/**
 * What the code generated by `#[main]` does with the value the user's handler
 * returns: the `WasiTermination` implementations emitted inside `run_wasi`.
 * Each implementation ends the process with `std::process::exit`; here that is
 * an `Exit` value carrying the code and, for the `Err` case, the line logged
 * before exiting.
 *
 * The shapes a handler may return form a closed set:
 *   `()`, `i32`, `Infallible`, `Result<T, E>` with `T` one of these shapes,
 * and, with the tokio feature, a future whose output is one of these shapes.
 * `Infallible` has no values, so it has no constructor here.
 */
module Termination {
  import opened Base

  /** A handler result that implements `WasiTermination`. */
  datatype Completion =
    | Unit                                        // `()`
    | Code(code: i32)                             // `i32`
    | Outcome(result: Result<Completion, Error>)  // `Result<T, E>`, `E: Into<anyhow::Error>`

  /**
   * What the handler hands back. The future implementation belongs to a
   * second trait, `WasiTerminationFuture`, so a future can only be the
   * outermost shape: `Result<impl Future, E>` is not a `WasiTermination`.
   * The future is taken as already driven to its output by `block_on`.
   */
  datatype HandlerReturn =
    | Ready(completion: Completion)
    | Future(output: Completion)

  /** `std::process::exit(code)` and the log line emitted just before it. */
  datatype Exit = Exit(code: i32, logged: Option<string>)

  /** The code every `Err` resolves to. */
  const FAILURE_CODE: i32 := 137

  /** The line `log::info!` writes for an `Err` before exiting. */
  function ErrorLine(e: Error): string
  {
    "error: " + e.message
  }

  /** `__containerd_wasm_shim_macro_exit_shim_process` on a `WasiTermination` value. */
  function Resolve(c: Completion): Exit
  {
    match c
    case Unit => Exit(0, None)
    case Code(n) => Exit(n, None)
    case Outcome(Ok(inner)) => Resolve(inner)
    case Outcome(Err(e)) => Exit(FAILURE_CODE, Some(ErrorLine(e)))
  }

  /** Line 100: the handler's return value is resolved, through `block_on` for a future. */
  function RunHandler(h: HandlerReturn): Exit
  {
    match h
    case Ready(c) => Resolve(c)
    case Future(out) => Resolve(out)
  }

  // ---------------------------------------------------------------------------
  // A reference view: every completion is some number of `Ok` layers around a
  // leaf that is `()`, an `i32` or an `Err`.

  /** `n` layers of `Ok(..)` around `c`. */
  function WrapOk(c: Completion, n: nat): Completion
  {
    if n == 0 then c else Outcome(Ok(WrapOk(c, n - 1)))
  }

  predicate IsLeaf(c: Completion)
  {
    !(c.Outcome? && c.result.Ok?)
  }

  /** The completion with every enclosing `Ok` removed. */
  function Peel(c: Completion): (leaf: Completion)
    ensures IsLeaf(leaf)
  {
    match c
    case Outcome(Ok(inner)) => Peel(inner)
    case _ => c
  }

  /** The exit a leaf stands for, read off the three leaf implementations. */
  function LeafExit(leaf: Completion): Exit
    requires IsLeaf(leaf)
  {
    match leaf
    case Unit => Exit(0, None)
    case Code(n) => Exit(n, None)
    case Outcome(Err(e)) => Exit(FAILURE_CODE, Some(ErrorLine(e)))
  }

  /** Every completion is its leaf wrapped in some number of `Ok` layers. */
  lemma {:induction false} Decompose(c: Completion)
    ensures exists n: nat :: c == WrapOk(Peel(c), n)
  {
    match c
    case Outcome(Ok(inner)) =>
      Decompose(inner);
      var n: nat :| inner == WrapOk(Peel(inner), n);
      assert c == WrapOk(Peel(c), n + 1);
    case _ =>
      assert c == WrapOk(Peel(c), 0);
  }

  /** `Ok(t)` resolves as `t` does, at every nesting depth. */
  lemma {:induction false} ResolveThroughOk(c: Completion, n: nat)
    ensures Resolve(WrapOk(c, n)) == Resolve(c)
  {
    if n > 0 {
      ResolveThroughOk(c, n - 1);
    }
  }

  /** Resolution is decided by the leaf alone. */
  lemma {:induction false} ResolveIsLeafExit(c: Completion)
    ensures Resolve(c) == LeafExit(Peel(c))
  {
    match c
    case Outcome(Ok(inner)) => ResolveIsLeafExit(inner);
    case _ =>
  }

  /** `()` under any number of `Ok` layers exits with 0 and logs nothing. */
  lemma UnitExitsZero(n: nat)
    ensures Resolve(WrapOk(Unit, n)) == Exit(0, None)
  {
    ResolveThroughOk(Unit, n);
  }

  /** An `i32` under any number of `Ok` layers exits with exactly that value. */
  lemma CodeExitsWithIt(code: i32, n: nat)
    ensures Resolve(WrapOk(Code(code), n)) == Exit(code, None)
  {
    ResolveThroughOk(Code(code), n);
  }

  /** An `Err(e)` under any number of `Ok` layers logs `e` and exits with 137. */
  lemma ErrExitsFailure(e: Error, n: nat)
    ensures Resolve(WrapOk(Outcome(Err(e)), n)) == Exit(FAILURE_CODE, Some(ErrorLine(e)))
  {
    ResolveThroughOk(Outcome(Err(e)), n);
  }

  /**
   * The exit code is 0, 137 or a code the handler itself returned, and a line
   * is logged exactly when the handler's result was an error.
   */
  lemma {:induction false} ResolveCases(c: Completion)
    ensures Resolve(c).logged.Some? <==> Peel(c).Outcome?
    ensures Peel(c).Outcome? ==> Resolve(c).code == FAILURE_CODE
    ensures Peel(c) == Unit ==> Resolve(c).code == 0
    ensures Peel(c).Code? ==> Resolve(c).code == Peel(c).code
  {
    ResolveIsLeafExit(c);
  }

  /**
   * A future is driven to its output, which then resolves by the same rules.
   * The future is represented by its output, so only the exit it leads to is
   * stated here.
   */
  lemma FutureResolvesLikeItsOutput(c: Completion)
    ensures RunHandler(Future(c)) == LeafExit(Peel(c))
  {
    ResolveIsLeafExit(c);
  }
}
