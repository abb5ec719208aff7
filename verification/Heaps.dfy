/** Every sequence of legal operations on promises, futures and continuations keeps their pointers consistent. */
module Heaps {
  import opened Programs
  import opened Futures

  /** The operations of promise<>, future<> and the task queue. */
  datatype Op =
    | NewPromise(p: Promise, holder: Holder)
    | GetFuture(p: Promise, f: Future)
    | MovePromise(src: Promise, dst: Promise)
    | AssignPromise(src: Promise, dst: Promise)
    | DropPromise(p: Promise)
    | Set(p: Promise, o: Outcome)
    | NewReady(f: Future, o: Outcome)
    | MoveFuture(x: Future, y: Future)
    | DropFuture(f: Future)
    | Attach(f: Future, t: Continuation, fn: Func)   // future::schedule()
    | Forward(f: Future, pr: Promise)                // future::forward_to()
    | Start                                          // the event loop takes a task
    | Finish(t: Continuation)                        // and destroys it after it ran

  /** What the code demands of a caller.  Nobody but its closure destroys a captured promise, and a promise that is
      assigned to, or from, is not destroyed with the old value. */
  ghost predicate Legal(g: Graph, op: Op) {
    match op
    case NewPromise(p, holder) => p !in g.ps && !holder.CapturedBy?
    case GetFuture(p, f) =>
      p in g.ps && f !in g.fs && g.ps[p].future == null && g.ps[p].task == null && g.ps[p].state == LocalOf(p)
    case MovePromise(src, dst) => src in g.ps && dst !in g.ps
    case AssignPromise(src, dst) => Assignable(g, src, dst)
    case DropPromise(p) => p in g.ps && !g.ps[p].holder.CapturedBy?
    case Set(p, _) => p in g.ps && Unset(g.ps[p])
    case NewReady(f, _) => f !in g.fs
    case MoveFuture(x, y) => x in g.fs && y !in g.fs
    case DropFuture(f) => f in g.fs
    case Attach(f, t, fn) =>
      && f in g.fs && t !in g.ts && fn.pr in g.ps && Free(g.ps[fn.pr]) && fn.pr != g.fs[f].promise
      && FutureOk(g, f) && (StateOf(g, f).Resolved? || (g.fs[f].promise != null && StateOf(g, f) == Unresolved))
    case Forward(f, pr) =>
      && f in g.fs && pr in g.ps && Unset(g.ps[pr]) && pr != g.fs[f].promise
      && FutureOk(g, f) && (StateOf(g, f).Resolved? || (g.fs[f].promise != null && StateOf(g, f) == Unresolved))
    case Start => g.queue != []
    case Finish(t) => t in g.ts && g.ts[t].slot == Running
  }

  /** What an operation does. */
  ghost function Done(g: Graph, op: Op): Graph
    requires HeapOk(g) && Legal(g, op)
  {
    match op
    case NewPromise(p, holder) => NewPromiseSpec(g, p, holder, Value(0), 0)
    case GetFuture(p, f) => GetFutureSpec(g, p, f)
    case MovePromise(src, dst) => TransferSpec(g, src, dst, OnStack)
    case AssignPromise(src, dst) => AssignSpec(g, src, dst)
    case DropPromise(p) => DestroySpec(g, p)
    case Set(p, o) => SetSpec(g, p, o)
    case NewReady(f, o) => NewReadySpec(g, f, o)
    case MoveFuture(x, y) => MoveFutureSpec(g, x, y)
    case DropFuture(f) => DropFutureSpec(g, f)
    case Attach(f, t, fn) => ScheduleSpec(g, f, t, fn)
    case Forward(f, pr) => ForwardSpec(g, f, pr)
    case Start => StartSpec(g)
    case Finish(t) => DiscardSpec(g, t)
  }

  lemma AttachKeepsHeap(g: Graph, f: Future, t: Continuation, fn: Func)
    requires HeapOk(g) && Legal(g, Op.Attach(f, t, fn))
    ensures HeapOk(ScheduleSpec(g, f, t, fn))
  {
    hide HeapOk;
    FutureOkAt(g, f);
    if StateOf(g, f).Resolved? {
      TakeKeepsHeap(g, f);
      EnqueueKeepsHeap(TakeSpec(g, f), t, TRec(StateOf(g, f), fn, Queued, g.fs[f].goal));
    } else {
      UnlinkKeepsHeap(g, f);
      WaitKeepsHeap(UnlinkSpec(g, f), g.fs[f].promise, t, fn);
    }
  }

  lemma ForwardKeepsHeap(g: Graph, f: Future, pr: Promise)
    requires HeapOk(g) && Legal(g, Forward(f, pr))
    ensures PromiseOk(g, pr) && HeapOk(ForwardSpec(g, f, pr))
  {
    hide HeapOk;
    FutureOkAt(g, f);
    PromiseOkAt(g, pr);
    if StateOf(g, f).Resolved? {
      TakeKeepsHeap(g, f);
      SetKeepsHeap(TakeSpec(g, f), pr, StateOf(g, f).o);
    } else {
      UnlinkKeepsHeap(g, f);
      var p := g.fs[f].promise;
      TransferKeepsHeap(UnlinkSpec(g, f), pr, p, g.ps[p].holder);
    }
  }

  lemma OpKeepsHeap(g: Graph, op: Op)
    requires HeapOk(g) && Legal(g, op)
    ensures HeapOk(Done(g, op))
  {
    hide HeapOk;
    match op {
      case NewPromise(p, holder) => NewPromiseKeepsHeap(g, p, holder, Value(0), 0);
      case GetFuture(p, f) => GetFutureKeepsHeap(g, p, f);
      case MovePromise(src, dst) => TransferKeepsHeap(g, src, dst, OnStack);
      case AssignPromise(src, dst) => AssignKeepsHeap(g, src, dst);
      case DropPromise(p) => DestroyKeepsHeap(g, p);
      case Set(p, o) => SetKeepsHeap(g, p, o);
      case NewReady(f, o) => NewReadyKeepsHeap(g, f, o);
      case MoveFuture(x, y) => MoveFutureKeepsHeap(g, x, y);
      case DropFuture(f) => DropFutureKeepsHeap(g, f);
      case Attach(f, t, fn) => AttachKeepsHeap(g, f, t, fn);
      case Forward(f, pr) => ForwardKeepsHeap(g, f, pr);
      case Start => StartKeepsHeap(g);
      case Finish(t) => DiscardKeepsHeap(g, t);
    }
  }

  /** The operations are legal, one after the other. */
  ghost predicate Runs(g: Graph, ops: seq<Op>, h: Graph)
    decreases |ops|
  {
    if ops == [] then h == g
    else HeapOk(g) && Legal(g, ops[0]) && Runs(Done(g, ops[0]), ops[1..], h)
  }

  /** The heap invariant holds after every sequence of legal operations. */
  lemma {:induction false} RunsKeepHeap(g: Graph, ops: seq<Op>, h: Graph)
    requires HeapOk(g) && Runs(g, ops, h)
    ensures HeapOk(h)
    decreases |ops|
  {
    hide HeapOk, Legal, Done;
    if ops != [] {
      OpKeepsHeap(g, ops[0]);
      RunsKeepHeap(Done(g, ops[0]), ops[1..], h);
    }
  }

  // ---------------------------------------------------------------------------------------------
  // The order of tasks

  /** The task, if any, that an operation starts. */
  ghost function Starts(g: Graph, op: Op): seq<Continuation> {
    if op.Start? && g.queue != [] then [g.queue[0]] else []
  }

  lemma DestructionKeepsQueue(g: Graph, op: Op)
    requires HeapOk(g) && Legal(g, op) && (op.AssignPromise? || op.DropPromise? || op.Finish?)
    ensures Done(g, op).queue == g.queue
  {
    if op.Finish? {
      DiscardKeepsHeap(g, op.t);
    } else {
      var p := if op.DropPromise? then op.p else op.dst;
      PromiseOkAt(g, p);
      if g.ps[p].task != null && (op.DropPromise? || op.src != op.dst) {
        DetachKeepsHeap(g, p);
        if op.DropPromise? {
          DetachedThenDropped(g, p);
          DiscardKeepsHeap(DropPromiseSpec(DetachSpec(g, p), p), g.ps[p].task);
        } else {
          DiscardKeepsHeap(DetachSpec(g, p), g.ps[p].task);
        }
      }
      hide HeapOk;
    }
  }

  /** No operation lets a task in front of those that are queued, or takes any but the front one; and at most one task
      becomes ready. */
  lemma OpKeepsOrder(g: Graph, op: Op)
    requires HeapOk(g) && Legal(g, op)
    ensures g.queue <= Starts(g, op) + Done(g, op).queue
    ensures |Done(g, op).queue| <= |g.queue| + 1
  {
    if op.AssignPromise? || op.DropPromise? || op.Finish? {
      DestructionKeepsQueue(g, op);
      hide HeapOk, Done;
    } else {
      if op.Set? {
        PromiseOkAt(g, op.p);
      } else if op.Forward? {
        PromiseOkAt(g, op.pr);
      }
      hide HeapOk;
    }
  }

  /** The tasks started in the course of a run, in order. */
  ghost function Started(g: Graph, ops: seq<Op>): seq<Continuation>
    decreases |ops|
  {
    if ops == [] || !HeapOk(g) || !Legal(g, ops[0]) then []
    else Starts(g, ops[0]) + Started(Done(g, ops[0]), ops[1..])
  }

  /** First ready, first run: over every sequence of legal operations, the tasks that were queued at the beginning are
      started, or still queued, in that order, and before any that have become ready since. */
  lemma {:induction false} FirstReadyFirstRun(g: Graph, ops: seq<Op>, h: Graph)
    requires HeapOk(g) && Runs(g, ops, h)
    ensures g.queue <= Started(g, ops) + h.queue
    decreases |ops|
  {
    hide HeapOk, Legal, Done, Starts;
    if ops != [] {
      var u := Done(g, ops[0]);
      OpKeepsHeap(g, ops[0]);
      OpKeepsOrder(g, ops[0]);
      FirstReadyFirstRun(u, ops[1..], h);
      PrefixOfMore(g.queue, Starts(g, ops[0]), u.queue, Started(u, ops[1..]) + h.queue);
      assert Starts(g, ops[0]) + (Started(u, ops[1..]) + h.queue) == Started(g, ops) + h.queue;
    }
  }

  lemma PrefixOfMore<T>(q: seq<T>, first: seq<T>, r: seq<T>, more: seq<T>)
    requires q <= first + r && r <= more
    ensures q <= first + more
  {
  }

  // ---------------------------------------------------------------------------------------------
  // What the heap invariant says

  /** A promise points to a future exactly when that future points back. */
  lemma PointersAreMutual(g: Graph, p: Promise, f: Future)
    requires HeapOk(g) && p in g.ps && f in g.fs
    ensures g.ps[p].future == f <==> g.fs[f].promise == p
  {
  }

  /** The state a promise refers to is its own, or that of the task that waits there, or none.  A promise that holds a
      value has no waiting task, and its linked future holds none; a task that waits holds none, and neither does its
      promise; and a task that has its input waits at no promise. */
  lemma StatePointersAgree(g: Graph, p: Promise)
    requires HeapOk(g) && p in g.ps
    ensures var r := g.ps[p];
            && (r.state == LocalOf(p) || r.state == NullState || (r.task != null && r.state == InTask(r.task)))
            && (r.local.Resolved? ==> r.state == LocalOf(p) && r.task == null)
            && (r.task != null ==> r.state == InTask(r.task) && r.task in g.ts && !g.ts[r.task].state.Resolved?)
            && (r.task != null ==> r.future == null && !r.local.Resolved?)
            && (forall t <- g.ts :: g.ts[t].slot == AttachedTo(p) <==> r.task == t)
            && (forall t <- g.ts :: g.ts[t].state.Resolved? ==> r.task != t && r.state != InTask(t))
            && (forall f <- g.fs :: g.fs[f].promise == p ==> f == r.future && !g.fs[f].local.Resolved?)
  {
  }

  /** The assert of future_state::set(): the state that promise p refers to is still open. */
  ghost predicate OpenState(g: Graph, p: Promise) {
    p in g.ps
    && match g.ps[p].state
       case NullState => false
       case LocalOf(q) => q in g.ps && g.ps[q].local == Unresolved
       case InTask(t) => t in g.ts && g.ts[t].state == Unresolved
  }

  /** The asserts of abandoned(). */
  ghost predicate CanAbandon(g: Graph, p: Promise) {
    p in g.ps && (g.ps[p].future != null ==> g.ps[p].state == LocalOf(p) && g.ps[p].task == null)
  }

  /** The asserts of set_value(), future_state::set(), schedule(), abandoned() and forward_to() cannot fail on legal
      use, whatever promise is destroyed, in a closure or out of one. */
  lemma AssertsHold(g: Graph, op: Op)
    requires HeapOk(g) && Legal(g, op)
    ensures op.Set? ==> OpenState(g, op.p)
    ensures op.Forward? && StateOf(g, op.f).Resolved? ==> OpenState(TakeSpec(g, op.f), op.pr)
    ensures op.Attach? && !StateOf(g, op.f).Resolved? ==>
              var r := g.ps[g.fs[op.f].promise]; r.task == null && r.state == LocalOf(g.fs[op.f].promise)
    ensures op.Forward? && !StateOf(g, op.f).Resolved? ==>
              var p := g.fs[op.f].promise; CanAbandon(UnlinkSpec(g, op.f), p) && g.ps[p].task == null
    ensures op.AssignPromise? ==> CanAbandon(g, op.dst)
    ensures op.DropPromise? ==> CanAbandon(g, op.p)
    ensures op.Finish? ==> CanAbandon(g, g.ts[op.t].func.pr)
  {
    if op.Set? || op.Forward? {
      var p := if op.Set? then op.p else op.pr;
      PromiseOkAt(g, p);
      assert g.ps[p].task != null ==> TaskOk(g, g.ps[p].task);
    } else if op.Finish? {
      TaskOkAt(g, op.t);
    }
  }
}
