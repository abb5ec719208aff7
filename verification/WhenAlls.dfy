/** when_all(): a vector of futures becomes a future of a vector. */
module WhenAlls {
  import opened Programs

  /** An element of futures_: an input future with or without its result, a future of a continuation that has
      not run, one that holds a result, or one that never will, since its promise is gone. */
  datatype Slot = Pending | Done(o: Outcome) | Wrapped | Broken

  /** A queued continuation of element i, with the result it was handed. */
  datatype Task = Task(i: nat, o: Outcome)

  /** The shared state: the elements, the number of shared_ptrs to it, the elements whose continuation waits for
      the input, the queued continuations, and every vector that was ever sent to the promise. */
  datatype Gather = Gather(futures: seq<Slot>, refs: nat, attached: set<nat>, queue: seq<Task>, sent: seq<seq<Slot>>)

  /** Somebody resolves input i, or destroys its promise unsatisfied; the event loop runs the front task. */
  datatype Event = Resolve(i: nat, o: Outcome) | Break(i: nat) | RunTask

  /** The destructor runs with the last release, and sends the vector. */
  function Released(g: Gather): Gather {
    if g.refs == 0 then g
    else if g.refs == 1 then g.(refs := 0, sent := g.sent + [g.futures])
    else g.(refs := g.refs - 1)
  }

  /** then_wrapped() on element i, with a continuation that holds a shared_ptr; the new future replaces the old. */
  function WrapOne(g: Gather, i: nat): Gather
    requires i < |g.futures|
  {
    var t := g.(refs := g.refs + 1, futures := g.futures[i := Wrapped]);
    if g.futures[i].Done? then t.(queue := g.queue + [Task(i, g.futures[i].o)]) else t.(attached := g.attached + {i})
  }

  /** wait(), for the first n elements. */
  function Waited(g: Gather, n: nat): Gather
    requires n <= |g.futures|
    ensures |Waited(g, n).futures| == |g.futures|
  {
    if n == 0 then g else WrapOne(Waited(g, n - 1), n - 1)
  }

  /** when_all(): create the state, wait, and release the local shared_ptr. */
  function Started(inputs: seq<Slot>): Gather {
    Released(Waited(Gather(inputs, 1, {}, [], []), |inputs|))
  }

  function Step(g: Gather, e: Event): Gather {
    match e
    case Resolve(i, o) =>
      if i in g.attached then g.(attached := g.attached - {i}, queue := g.queue + [Task(i, o)]) else g
    case Break(i) =>
      if i in g.attached && i < |g.futures| then
        Released(g.(attached := g.attached - {i}, futures := g.futures[i := Broken]))
      else g
    case RunTask =>
      if g.queue == [] || g.queue[0].i >= |g.futures| then g
      else
        Released(g.(queue := g.queue[1..], futures := g.futures[g.queue[0].i := Done(g.queue[0].o)]))
  }

  class WhenAllState {
    var futures: seq<Slot>
    var refs: nat
    var attached: set<nat>
    var queue: seq<Task>
    var sent: seq<seq<Slot>>

    ghost function View(): Gather
      reads this
    {
      Gather(futures, refs, attached, queue, sent)
    }

    constructor (inputs: seq<Slot>)
      ensures View() == Gather(inputs, 1, {}, [], [])
    {
      futures, refs, attached, queue, sent := inputs, 1, {}, [], [];
    }

    method Wait()
      modifies this
      ensures View() == Waited(old(View()), |old(futures)|)
    {
      ghost var g := View();
      var i := 0;
      while i < |futures|
        invariant 0 <= i <= |futures| == |g.futures|
        invariant View() == Waited(g, i)
      {
        match futures[i] {
          case Done(o) => queue := queue + [Task(i, o)];
          case _ => attached := attached + {i};
        }
        futures := futures[i := Wrapped];
        refs := refs + 1;
        i := i + 1;
      }
    }

    /** A shared_ptr goes away; the last one runs the destructor. */
    method Release()
      requires refs > 0
      modifies this
      ensures View() == Released(old(View()))
    {
      refs := refs - 1;
      if refs == 0 {
        sent := sent + [futures];
      }
    }

    method Answer(i: nat, o: Outcome)
      requires i in attached
      modifies this
      ensures View() == Step(old(View()), Resolve(i, o))
    {
      attached := attached - {i};
      queue := queue + [Task(i, o)];
    }

    /** The promise behind input i is destroyed with the continuation that waits there, with its shared_ptr and the
        promise of the element. */
    method Abandon(i: nat)
      requires i in attached && i < |futures| && refs > 0
      modifies this
      ensures View() == Step(old(View()), Break(i))
    {
      attached := attached - {i};
      futures := futures[i := Broken];
      Release();
    }

    /** The continuation forwards its argument to its promise, and is destroyed with its shared_ptr. */
    method RunFront()
      requires queue != [] && queue[0].i < |futures| && refs > 0
      modifies this
      ensures View() == Step(old(View()), RunTask)
    {
      var Task(i, o) := queue[0];
      queue := queue[1..];
      futures := futures[i := Done(o)];
      Release();
    }
  }

  method WhenAll(inputs: seq<Slot>) returns (s: WhenAllState)
    ensures fresh(s) && s.View() == Started(inputs)
  {
    s := new WhenAllState(inputs);
    s.Wait();
    WaitedRefs(Gather(inputs, 1, {}, [], []), |inputs|);
    s.Release();
  }

  lemma {:induction false} WaitedRefs(g: Gather, n: nat)
    requires n <= |g.futures|
    ensures Waited(g, n).refs == g.refs + n
  {
    if n > 0 {
      WaitedRefs(g, n - 1);
    }
  }

  // ---------------------------------------------------------------------------------------------
  // Histories

  ghost function Run(inputs: seq<Slot>, h: seq<Event>): Gather {
    if h == [] then Started(inputs) else Step(Run(inputs, h[..|h| - 1]), h[|h| - 1])
  }

  /** Whether input i has a result, in the end, and which: the one it came with, or else the first it was given,
      unless its promise was destroyed first. */
  ghost function Result(inputs: seq<Slot>, h: seq<Event>, i: nat): Slot
    requires i < |inputs|
  {
    if h == [] then inputs[i]
    else
      var r := Result(inputs, h[..|h| - 1], i);
      if Settled(r) then r else After(r, h[|h| - 1], i)
  }

  /** Nothing happens to it any more. */
  predicate Settled(r: Slot) {
    r.Done? || r.Broken?
  }

  /** What an event makes of input i, so far without a result. */
  function After(r: Slot, e: Event, i: nat): Slot {
    match e
    case Resolve(k, o) => if k == i then Done(o) else r
    case Break(k) => if k == i then Broken else r
    case RunTask => r
  }

  /** Inputs are futures as a caller may have them; schedule() asserts that one without a result has its promise. */
  predicate Proper(inputs: seq<Slot>) {
    forall x <- inputs :: !x.Wrapped? && !x.Broken?
  }

  ghost predicate InQueue(g: Gather, i: nat) {
    exists j :: 0 <= j < |g.queue| && g.queue[j].i == i
  }

  /** Every element below n is either still attached to its pending input, or queued with its result, or done
      with its result, and those not done each hold a shared_ptr; the rest are as they were. */
  ghost predicate Ok(g: Gather, results: seq<Slot>, n: nat) {
    && |g.futures| == |results| && n <= |results|
    && (forall i :: 0 <= i < n ==>
          if g.futures[i].Wrapped? then (i in g.attached) != InQueue(g, i)
          else i !in g.attached && !InQueue(g, i) && Settled(g.futures[i]) && g.futures[i] == results[i])
    && (forall i :: n <= i < |results| ==> g.futures[i] == results[i] && !results[i].Wrapped? && !results[i].Broken?)
    && (forall i <- g.attached :: i < n && results[i].Pending?)
    && (forall j :: 0 <= j < |g.queue| ==> g.queue[j].i < n && results[g.queue[j].i] == Done(g.queue[j].o))
    && (forall j, k :: 0 <= j < k < |g.queue| ==> g.queue[j].i != g.queue[k].i)
  }

  lemma InQueueAppend(g: Gather, t: Task, i: nat)
    ensures InQueue(g.(queue := g.queue + [t]), i) <==> InQueue(g, i) || t.i == i
  {
    var q := g.queue + [t];
    if InQueue(g, i) {
      var j :| 0 <= j < |g.queue| && g.queue[j].i == i;
      assert q[j].i == i;
    }
    if t.i == i {
      assert q[|g.queue|].i == i;
    }
  }

  lemma WrapKeepsOk(g: Gather, results: seq<Slot>, n: nat)
    requires Ok(g, results, n) && n < |results| && g.refs == 1 + |g.attached| + |g.queue|
    ensures Ok(WrapOne(g, n), results, n + 1)
    ensures var t := WrapOne(g, n); t.refs == 1 + |t.attached| + |t.queue| && t.sent == g.sent
  {
    var t := WrapOne(g, n);
    assert !InQueue(g, n);
    if g.futures[n].Done? {
      forall i: nat ensures InQueue(t, i) <==> InQueue(g, i) || n == i {
        InQueueAppend(g, Task(n, g.futures[n].o), i);
      }
    } else {
      assert forall i: nat :: InQueue(t, i) <==> InQueue(g, i);
    }
    hide InQueue;
  }

  lemma NewIsOk(inputs: seq<Slot>)
    requires Proper(inputs)
    ensures Ok(Gather(inputs, 1, {}, [], []), inputs, 0)
  {
  }

  lemma {:induction false} WaitedOk(inputs: seq<Slot>, n: nat)
    requires Proper(inputs) && n <= |inputs|
    ensures var t := Waited(Gather(inputs, 1, {}, [], []), n);
            Ok(t, inputs, n) && t.refs == 1 + |t.attached| + |t.queue| && t.sent == []
  {
    hide Ok, WrapOne;
    if n == 0 {
      NewIsOk(inputs);
    } else {
      WaitedOk(inputs, n - 1);
      WrapKeepsOk(Waited(Gather(inputs, 1, {}, [], []), n - 1), inputs, n - 1);
    }
  }

  /** The last release has sent the vector, as it is now, and none has before. */
  ghost predicate SentOk(g: Gather) {
    && g.refs == |g.attached| + |g.queue|
    && g.sent == if g.refs == 0 then [g.futures] else []
  }

  lemma StepKeepsOk(g: Gather, results: seq<Slot>, e: Event, after: seq<Slot>)
    requires Ok(g, results, |results|) && SentOk(g) && |after| == |results|
    requires forall i :: 0 <= i < |results| ==>
               after[i] == if Settled(results[i]) then results[i] else After(results[i], e, i)
    ensures Ok(Step(g, e), after, |results|) && SentOk(Step(g, e))
  {
    var t := Step(g, e);
    match e {
      case Resolve(i, o) =>
        if i in g.attached {
          forall k: nat ensures InQueue(t, k) <==> InQueue(g, k) || i == k {
            InQueueAppend(g.(attached := g.attached - {i}), Task(i, o), k);
          }
          hide InQueue;
        } else {
          if i < |results| {
            ResolvedTwice(g, results, i);
          }
          assert after == results;
        }
      case Break(i) =>
        if i in g.attached {
          BreakKeepsOk(g, results, i, after);
        } else {
          if i < |results| {
            ResolvedTwice(g, results, i);
          }
          assert after == results;
        }
      case RunTask =>
        if g.queue != [] {
          RunKeepsOk(g, results);
          assert after == results;
        } else {
          assert after == results;
        }
    }
  }

  lemma ResolvedTwice(g: Gather, results: seq<Slot>, i: nat)
    requires Ok(g, results, |results|) && i !in g.attached && i < |results|
    ensures Settled(results[i])
  {
  }

  lemma BreakKeepsOk(g: Gather, results: seq<Slot>, i: nat, after: seq<Slot>)
    requires Ok(g, results, |results|) && SentOk(g) && i in g.attached
    requires i < |results| && after == results[i := Broken]
    ensures Ok(Step(g, Break(i)), after, |results|) && SentOk(Step(g, Break(i)))
  {
    assert forall k: nat :: InQueue(Step(g, Break(i)), k) <==> InQueue(g, k);
    hide InQueue;
  }

  lemma RunKeepsOk(g: Gather, results: seq<Slot>)
    requires Ok(g, results, |results|) && SentOk(g) && g.queue != []
    ensures Ok(Step(g, RunTask), results, |results|) && SentOk(Step(g, RunTask))
  {
  }

  ghost function Results(inputs: seq<Slot>, h: seq<Event>): seq<Slot> {
    seq(|inputs|, i requires 0 <= i < |inputs| => Result(inputs, h, i))
  }

  lemma {:induction false} RunStaysOk(inputs: seq<Slot>, h: seq<Event>)
    requires Proper(inputs)
    ensures Ok(Run(inputs, h), Results(inputs, h), |inputs|) && SentOk(Run(inputs, h))
  {
    if h == [] {
      WaitedOk(inputs, |inputs|);
      StartedOk(Waited(Gather(inputs, 1, {}, [], []), |inputs|), inputs);
      assert Results(inputs, h) == inputs;
    } else {
      var g := h[..|h| - 1];
      RunStaysOk(inputs, g);
      hide Ok, SentOk, Step;
      StepKeepsOk(Run(inputs, g), Results(inputs, g), h[|h| - 1], Results(inputs, h));
    }
  }

  lemma StartedOk(g: Gather, results: seq<Slot>)
    requires Ok(g, results, |results|) && g.refs == 1 + |g.attached| + |g.queue| && g.sent == []
    ensures Ok(Released(g), results, |results|) && SentOk(Released(g))
  {
  }

  // ---------------------------------------------------------------------------------------------
  // No result is stored but by a task

  /** The first n elements are wrapped, and nothing else has happened. */
  ghost predicate WrappedUpto(g: Gather, inputs: seq<Slot>, n: nat) {
    && |g.futures| == |inputs| && n <= |inputs| && g.sent == [] && g.refs == n + 1
    && (forall i :: 0 <= i < |inputs| ==> g.futures[i] == if i < n then Wrapped else inputs[i])
    && (forall i :: i in g.attached <==> 0 <= i < n && !inputs[i].Done?)
    && (forall t :: t in g.queue <==> t.i < n && inputs[t.i] == Done(t.o))
    && (forall j, k :: 0 <= j < k < |g.queue| ==> g.queue[j].i < g.queue[k].i)
  }

  lemma OneMoreWrapped(g: Gather, inputs: seq<Slot>, n: nat)
    requires WrappedUpto(g, inputs, n) && n < |inputs|
    ensures WrappedUpto(WrapOne(g, n), inputs, n + 1)
  {
    assert forall j :: 0 <= j < |g.queue| ==> g.queue[j] in g.queue;
  }

  lemma {:induction false} WaitedIs(inputs: seq<Slot>, n: nat)
    requires n <= |inputs|
    ensures WrappedUpto(Waited(Gather(inputs, 1, {}, [], []), n), inputs, n)
  {
    if n > 0 {
      WaitedIs(inputs, n - 1);
      hide WrappedUpto, WrapOne;
      OneMoreWrapped(Waited(Gather(inputs, 1, {}, [], []), n - 1), inputs, n - 1);
    }
  }

  /** What when_all() leaves behind: nothing is stored or sent yet, a result that was there already has a task in the
      queue, in the order of the inputs, and the other inputs are waited for. */
  lemma StartedIs(inputs: seq<Slot>)
    requires inputs != []
    ensures var g := Started(inputs);
            && g.futures == seq(|inputs|, i => Wrapped) && g.sent == [] && g.refs == |inputs|
            && (forall i :: i in g.attached <==> 0 <= i < |inputs| && !inputs[i].Done?)
            && (forall t :: t in g.queue <==> t.i < |inputs| && inputs[t.i] == Done(t.o))
            && (forall j, k :: 0 <= j < k < |g.queue| ==> g.queue[j].i < g.queue[k].i)
  {
    WaitedIs(inputs, |inputs|);
    hide Waited;
  }

  /** A result comes into the vector only as the front task of the queue runs, and only its own; and no input is given
      up but one that is waited for. */
  lemma OnlyTasksStore(g: Gather, e: Event, i: nat)
    requires i < |g.futures|
    ensures var t := Step(g, e);
            && |t.futures| == |g.futures|
            && (t.futures[i] != g.futures[i] ==>
                  || (e == RunTask && g.queue != [] && t.futures[i] == Done(g.queue[0].o) && g.queue[0].i == i)
                  || (e == Break(i) && t.futures[i] == Broken && i in g.attached))
  {
  }

  /** A result that arrives goes to the back of the queue, and a task is taken from its front. */
  lemma TasksInOrder(g: Gather, e: Event)
    ensures var t := Step(g, e);
            || (t.queue == g.queue && t.attached <= g.attached)
            || (e.Resolve? && t.queue == g.queue + [Task(e.i, e.o)] && e.i in g.attached
                && t.attached == g.attached - {e.i})
            || (e.RunTask? && g.queue != [] && t.queue == g.queue[1..] && t.attached == g.attached)
    ensures Step(g, e).sent != g.sent ==> !e.Resolve? && g.refs == 1
  {
  }

  /** when_all() sends one vector, when the last shared_ptr goes and only when nothing happens to any input any more:
      a vector of as many futures, in the same order, each with the result of its input, or without one if the
      promise of the input was destroyed before it gave any; and once there is no such input left and no task, it has
      been sent.  An empty vector is sent at once. */
  lemma WhenAllSendsAllResults(inputs: seq<Slot>, h: seq<Event>)
    requires Proper(inputs)
    ensures var g, results := Run(inputs, h), Results(inputs, h);
            && (g.sent != [] <==> g.refs == 0)
            && (g.sent != [] ==> g.sent == [results] && forall r <- results :: Settled(r))
            && ((forall r <- results :: Settled(r)) && g.queue == [] ==> g.sent == [results])
    ensures inputs == [] ==> Run(inputs, h).sent == [[]]
  {
    RunStaysOk(inputs, h);
    hide Run;
    var g, results := Run(inputs, h), Results(inputs, h);
    if g.refs == 0 {
      assert g.attached == {} && g.queue == [];
      assert forall i: nat :: !InQueue(g, i);
      assert forall i :: 0 <= i < |results| ==> g.futures[i] == results[i];
      assert g.futures == results;
    }
    assert forall i <- g.attached :: results[i] in results && !Settled(results[i]);
  }
}
