/** What programs mean, said by laws that relate them to one another: then(), handle_exception() and finally() are
    then_wrapped() with a test, and results are passed on and captured as they are in code without futures. */
module Laws {
  import opened Programs

  /** The latest result, in a closure. */
  function Latest(env: Env): Outcome {
    if env == [] then Value(0) else env[0]
  }

  /** The callback that gives its argument back. */
  function Same(): Expr {
    Ready(Latest)
  }

  /** fut.failed(), in a callback. */
  function LatestFailed(env: Env): bool {
    Latest(env).Failed?
  }

  // ---------------------------------------------------------------------------------------------
  // Continuations

  /** then_wrapped() calls its callback with any outcome. */
  lemma ThenWrapped(e: Expr, k: Expr, env: Env, ext: nat -> Outcome)
    ensures Denote(Attach(e, OnResult(k)), env, ext) == Denote(k, [Denote(e, env, ext)] + env, ext)
  {
    var o := Denote(e, env, ext);
    assert Denote(Attach(e, OnResult(k)), env, ext) == DenoteBody(OnResult(k), env, o, ext);
  }

  /** The test of a callback for a failure. */
  lemma Tested(yes: Expr, no: Expr, o: Outcome, env: Env, ext: nat -> Outcome)
    ensures Denote(If(LatestFailed, yes, no), [o] + env, ext)
         == if o.Failed? then Denote(yes, [o] + env, ext) else Denote(no, [o] + env, ext)
    ensures Denote(Same(), [o] + env, ext) == o
  {
    assert ([o] + env)[0] == o;
  }

  /** handle_exception() as the code writes it: then_wrapped() with a callback that asks whether its future failed,
      gives a value back, and calls the handler otherwise. */
  lemma HandleExceptionIsThenWrapped(e: Expr, k: Expr, env: Env, ext: nat -> Outcome)
    ensures Denote(Attach(e, OnFailure(k)), env, ext)
         == Denote(Attach(e, OnResult(If(LatestFailed, k, Same()))), env, ext)
  {
    ThenWrapped(e, If(LatestFailed, k, Same()), env, ext);
    Tested(k, Same(), Denote(e, env, ext), env, ext);
  }

  /** then() is the same with the branches the other way round. */
  lemma ThenIsThenWrapped(e: Expr, k: Expr, env: Env, ext: nat -> Outcome)
    ensures Denote(Attach(e, OnValue(k)), env, ext)
         == Denote(Attach(e, OnResult(If(LatestFailed, Same(), k))), env, ext)
  {
    ThenWrapped(e, If(LatestFailed, Same(), k), env, ext);
    Tested(Same(), k, Denote(e, env, ext), env, ext);
  }

  /** A value passes every handler by, and a failure every callback of then(); a value goes to the callback of then(),
      and a failure to the handler, with what the program has seen so far. */
  lemma WhoIsCalled(e: Expr, k: Expr, env: Env, ext: nat -> Outcome)
    ensures var o := Denote(e, env, ext);
            match o
            case Value(_) =>
              && Denote(Attach(e, OnFailure(k)), env, ext) == o
              && Denote(Attach(e, OnValue(k)), env, ext) == Denote(k, [o] + env, ext)
            case Failed(_) =>
              && Denote(Attach(e, OnValue(k)), env, ext) == o
              && Denote(Attach(e, OnFailure(k)), env, ext) == Denote(k, [o] + env, ext)
  {
  }

  /** A callback that gives its argument back can be left out, whatever it is attached with. */
  lemma SameChangesNothing(e: Expr, env: Env, ext: nat -> Outcome)
    ensures Denote(Attach(e, OnResult(Same())), env, ext) == Denote(e, env, ext)
    ensures Denote(Attach(e, OnValue(Same())), env, ext) == Denote(e, env, ext)
    ensures Denote(Attach(e, OnFailure(Same())), env, ext) == Denote(e, env, ext)
  {
  }

  /** A continuation of a ready future sees its result, and all that was captured before, latest first. */
  lemma ResultsAreCaptured(f: Env -> Outcome, g: Env -> Outcome, h: Env -> Outcome, env: Env, ext: nat -> Outcome)
    ensures Denote(Attach(Ready(f), OnResult(Ready(h))), env, ext) == h([f(env)] + env)
    ensures Denote(Attach(Ready(f), OnResult(Attach(Ready(g), OnResult(Ready(h))))), env, ext)
         == h([g([f(env)] + env)] + [f(env)] + env)
  {
    ThenWrapped(Ready(f), Ready(h), env, ext);
    ThenWrapped(Ready(f), Attach(Ready(g), OnResult(Ready(h))), env, ext);
    ThenWrapped(Ready(g), Ready(h), [f(env)] + env, ext);
    assert [g([f(env)] + env)] + ([f(env)] + env) == [g([f(env)] + env)] + [f(env)] + env;
  }

  /** The future of an external promise has the outcome of that promise, whenever the promise is satisfied. */
  lemma ExternalOutcome(i: nat, arrival: Arrival, env: Env, ext: nat -> Outcome)
    ensures Denote(Attach(Input(i, arrival), OnResult(Same())), env, ext) == ext(i)
  {
  }

  /** A test of results chooses between results, and what is attached to a choice is attached to both branches. */
  lemma Choice(c: Env -> bool, f: Env -> Outcome, g: Env -> Outcome, yes: Expr, no: Expr, body: Body, env: Env,
               ext: nat -> Outcome)
    ensures Denote(If(c, Ready(f), Ready(g)), env, ext) == if c(env) then f(env) else g(env)
    ensures Denote(Attach(If(c, yes, no), body), env, ext)
         == Denote(If(c, Attach(yes, body), Attach(no, body)), env, ext)
  {
  }

  lemma RestoredIs(saved: Outcome, cleanup: Outcome)
    ensures cleanup.Value? ==> Restored(saved, cleanup) == saved
    ensures saved.Value? && cleanup.Failed? ==> Restored(saved, cleanup) == cleanup
  {
  }

  /** finally() gives the original result when the callback succeeds, and the callback's failure when only the
      callback fails; in both forms, and in a callback that asks for the result of the first stage itself. */
  lemma FinallyRestores(e: Expr, g: Expr, h: Env -> Outcome, env: Env, ext: nat -> Outcome)
    ensures Denote(g, env, ext).Value? ==> Denote(Attach(e, Cleanup(g)), env, ext) == Denote(e, env, ext)
    ensures Denote(e, env, ext).Value? && Denote(g, env, ext).Failed? ==>
              Denote(Attach(e, Cleanup(g)), env, ext) == Denote(g, env, ext)
    ensures Denote(Attach(e, CleanupNow(h)), env, ext) == Denote(Attach(e, Cleanup(Ready(h))), env, ext)
    ensures Denote(Attach(e, Cleanup(g)), env, ext) == Denote(Attach(g, Restore(Denote(e, env, ext))), env, ext)
  {
    var o := Denote(e, env, ext);
    hide Restored;
    assert Denote(Attach(e, CleanupNow(h)), env, ext) == DenoteBody(CleanupNow(h), env, o, ext);
    assert Denote(Attach(e, Cleanup(g)), env, ext) == Restored(o, Denote(g, env, ext));
    assert Denote(Attach(e, Cleanup(Ready(h))), env, ext) == Restored(o, Denote(Ready(h), env, ext));
    RestoredIs(o, Denote(g, env, ext));
  }

  // ---------------------------------------------------------------------------------------------
  // Whole programs

  /** The program with every then() and handle_exception() written out as then_wrapped(), at any depth. */
  function Wrapped(e: Expr): Expr {
    match e
    case Ready(_) => e
    case Input(_, _) => e
    case If(c, yes, no) => If(c, Wrapped(yes), Wrapped(no))
    case Attach(first, body) => Attach(Wrapped(first), WrappedBody(body))
  }

  function WrappedBody(body: Body): Body {
    match body
    case OnValue(k) => OnResult(If(LatestFailed, Same(), Wrapped(k)))
    case OnResult(k) => OnResult(Wrapped(k))
    case OnFailure(k) => OnResult(If(LatestFailed, Wrapped(k), Same()))
    case Cleanup(g) => Cleanup(Wrapped(g))
    case CleanupNow(h) => CleanupNow(h)
    case Restore(saved) => Restore(saved)
  }

  /** Every program means what it means when it is written with then_wrapped() throughout. */
  lemma {:induction false} WrappedMeansTheSame(e: Expr, env: Env, ext: nat -> Outcome)
    ensures Denote(Wrapped(e), env, ext) == Denote(e, env, ext)
    decreases e
  {
    match e {
      case Ready(_) =>
      case Input(_, _) =>
      case If(c, yes, no) =>
        WrappedMeansTheSame(yes, env, ext);
        WrappedMeansTheSame(no, env, ext);
      case Attach(first, body) =>
        WrappedMeansTheSame(first, env, ext);
        WrappedBodyMeansTheSame(body, env, Denote(first, env, ext), ext);
    }
  }

  lemma {:induction false} WrappedBodyMeansTheSame(body: Body, env: Env, input: Outcome, ext: nat -> Outcome)
    ensures DenoteBody(WrappedBody(body), env, input, ext) == DenoteBody(body, env, input, ext)
    decreases body
  {
    match body {
      case OnValue(k) =>
        WrappedMeansTheSame(k, [input] + env, ext);
        Tested(Same(), Wrapped(k), input, env, ext);
      case OnResult(k) => WrappedMeansTheSame(k, [input] + env, ext);
      case OnFailure(k) =>
        WrappedMeansTheSame(k, [input] + env, ext);
        Tested(Wrapped(k), Same(), input, env, ext);
      case Cleanup(g) => WrappedMeansTheSame(g, env, ext);
      case _ =>
    }
  }
}
