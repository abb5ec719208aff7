/** Outcomes of futures, and the finite programs that user code builds out of futures.

    A program is an expression that evaluates to a future.  Its continuations are closures: an
    expression together with the environment of the results it has seen so far.  `Denote` says
    directly, without promises or tasks, what the outermost future of a program resolves to. */
module Programs {

  /** An exception in flight: one of the user's, a std::nested_exception object, which has captured one, or an
      object that is both the exception `top` and a nested exception that has captured `inner`. */
  datatype Exn = Raised(code: int) | Nested(inner: Exn) | WithNested(top: Exn, inner: Exn)

  /** What a future resolves to. */
  datatype Outcome = Value(v: int) | Failed(ex: Exn)

  /** The results a closure has captured, latest first. */
  type Env = seq<Outcome>

  /** When the promise behind an externally resolved future is satisfied: some time after the
      future was taken, before it (the promise lives on), or before it (the promise is dropped). */
  datatype Arrival = Later | Early | EarlyDropped

  datatype Expr =
    | Ready(f: Env -> Outcome)                   // a ready or failed future, or a value returned or thrown
    | Input(i: nat, arrival: Arrival)            // the future of the external promise i
    | If(c: Env -> bool, yes: Expr, no: Expr)
    | Attach(e: Expr, body: Body)                // a continuation attached to the future of e

  /** What a continuation does with the state it is handed. */
  datatype Body =
    | OnValue(k: Expr)                           // then
    | OnResult(k: Expr)                          // then_wrapped
    | OnFailure(k: Expr)                         // handle_exception
    | Cleanup(g: Expr)                           // finally, with a callback returning a future
    | CleanupNow(h: Env -> Outcome)              // finally, with a callback returning nothing
    | Restore(saved: Outcome)                    // the second stage of finally

  /** The constructor of std::nested_exception: it captures the exception being handled. */
  function CaptureCurrent(current: Exn): Exn {
    Nested(current)
  }

  /** std::throw_with_nested(), while an exception is being handled: an object that is a nested exception already is
      thrown as it is; any other is thrown together with what is being handled. */
  function ThrowWithNested(ex: Exn, current: Exn): Exn {
    if ex.Raised? then WithNested(ex, current) else ex
  }

  /** rethrow_with_nested(), while the callback's exception is being handled: the callback's exception, if the
      original result is a value; or else what throw_with_nested() makes of a nested exception that has captured
      it, while the original exception is being handled. */
  function RethrownWithNested(saved: Outcome, current: Exn): Outcome {
    if saved.Value? then Failed(current)
    else Failed(ThrowWithNested(CaptureCurrent(current), saved.ex))
  }

  /** The outcome of `finally`: the original result, unless the callback failed. */
  function Restored(saved: Outcome, cleanup: Outcome): Outcome {
    if cleanup.Value? then saved else RethrownWithNested(saved, cleanup.ex)
  }

  /** The meaning of a program, given the outcomes of the external promises. */
  ghost function Denote(e: Expr, env: Env, ext: nat -> Outcome): Outcome
    decreases e
  {
    match e
    case Ready(f) => f(env)
    case Input(i, _) => ext(i)
    case If(c, yes, no) => if c(env) then Denote(yes, env, ext) else Denote(no, env, ext)
    case Attach(e, body) => DenoteBody(body, env, Denote(e, env, ext), ext)
  }

  /** The meaning of a continuation applied to the outcome of the future it is attached to. */
  ghost function DenoteBody(body: Body, env: Env, input: Outcome, ext: nat -> Outcome): Outcome
    decreases body
  {
    match body
    case OnValue(k) => if input.Value? then Denote(k, [input] + env, ext) else input
    case OnResult(k) => Denote(k, [input] + env, ext)
    case OnFailure(k) => if input.Failed? then Denote(k, [input] + env, ext) else input
    case Cleanup(g) => Restored(input, Denote(g, env, ext))
    case CleanupNow(h) => Restored(input, h(env))
    case Restore(saved) => Restored(saved, input)
  }

  /** The outcome of `finally` according to its documentation. */
  function Documented(saved: Outcome, cleanup: Outcome): Outcome {
    if cleanup.Value? then saved
    else if saved.Value? then cleanup
    else Failed(WithNested(cleanup.ex, saved.ex))
  }

  /** finally() does what its documentation says exactly when not both failed; when both did, it gives a nested
      exception that has captured the callback's one, and says nothing about the original exception. */
  lemma FinallyAgainstItsDocumentation(g: Expr, h: Env -> Outcome, env: Env, input: Outcome, ext: nat -> Outcome)
    ensures var cleanup := Denote(g, env, ext);
            DenoteBody(Cleanup(g), env, input, ext) == Documented(input, cleanup) <==> input.Value? || cleanup.Value?
    ensures DenoteBody(CleanupNow(h), env, input, ext) == Documented(input, h(env)) <==> input.Value? || h(env).Value?
    ensures forall other: Exn :: input.Failed? && Denote(g, env, ext).Failed? ==>
              DenoteBody(Cleanup(g), env, Failed(other), ext) == DenoteBody(Cleanup(g), env, input, ext)
    ensures input.Failed? ==>
              var cleanup := Denote(g, env, ext);
              cleanup.Failed? ==> DenoteBody(Cleanup(g), env, input, ext) == Failed(Nested(cleanup.ex))
    ensures input.Failed? && h(env).Failed? ==>
              DenoteBody(CleanupNow(h), env, input, ext) == Failed(Nested(h(env).ex))
  {
  }

  /** An upper bound on the tasks and external events that evaluating a program gives rise to. */
  function Size(e: Expr): (n: nat)
    ensures n >= 1
  {
    match e
    case Ready(_) => 1
    case Input(_, _) => 2
    case If(_, yes, no) => Size(yes) + Size(no)
    case Attach(e, body) => Size(e) + BodySize(body)
  }

  /** The same bound for a continuation that has yet to run, counting the run itself. */
  function BodySize(body: Body): (n: nat)
    ensures n >= 1
  {
    match body
    case OnValue(k) => 1 + Size(k)
    case OnResult(k) => 1 + Size(k)
    case OnFailure(k) => 1 + Size(k)
    case Cleanup(g) => 2 + Size(g)
    case CleanupNow(_) => 1
    case Restore(_) => 1
  }
}
