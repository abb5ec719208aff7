/** What forward_to() does when the result is not there yet: the inner promise takes over whoever was waiting at
    the outer one, so that no continuation is needed to copy the result. */
module Splices {
  import opened Programs
  import opened Futures
  import opened Heaps

  /** Who will be given the outcome of a promise: nobody yet, a future linked to it, or a waiting task. */
  datatype Consumer = Nobody | Reader(f: Future) | Waiter(t: Continuation)

  ghost function ConsumerOf(r: PRec): Consumer {
    if r.future != null then Reader(r.future) else if r.task != null then Waiter(r.task) else Nobody
  }

  ghost predicate Pending(g: Graph, p: Promise) {
    p in g.ps && Unset(g.ps[p])
  }

  /** The consumer has been given the outcome: a future holds it, a task has it and is queued, once. */
  ghost predicate Delivered(g: Graph, c: Consumer, o: Outcome) {
    match c
    case Nobody => true
    case Reader(f) => f in g.fs && FutureOk(g, f) && StateOf(g, f) == Resolved(o)
    case Waiter(t) =>
      t in g.ts && g.ts[t].state == Resolved(o) && g.ts[t].slot == Queued && multiset(g.queue)[t] == 1
  }

  lemma OnceInQueue(q: seq<Continuation>, t: Continuation)
    requires t in q && forall i, j :: 0 <= i < j < |q| ==> q[i] != q[j]
    ensures multiset(q)[t] == 1
  {
    var i :| 0 <= i < |q| && q[i] == t;
    assert q == q[..i] + [t] + q[i + 1..];
  }

  /** Resolving a promise delivers to its consumer. */
  lemma ResolvingDelivers(g: Graph, p: Promise, o: Outcome)
    requires HeapOk(g) && Pending(g, p)
    ensures PromiseOk(g, p) && Delivered(SetSpec(g, p, o), ConsumerOf(g.ps[p]), o)
  {
  }

  /** The inner future f, of a pending promise, can be spliced into the pending promise pr. */
  ghost predicate Spliceable(g: Graph, f: Future, pr: Promise) {
    && f in g.fs && g.fs[f].promise != null && g.fs[f].promise != pr
    && Pending(g, g.fs[f].promise) && Pending(g, pr)
  }

  /** h is g after f, of the promise p, was spliced into pr. */
  ghost predicate Spliced(g: Graph, h: Graph, f: Future, p: Promise, pr: Promise) {
    && p in g.ps && pr in g.ps && h.ps.Keys == g.ps.Keys && h.fs.Keys == g.fs.Keys && h.queue == g.queue
    && ConsumerOf(h.ps[p]) == ConsumerOf(g.ps[pr]) && ConsumerOf(h.ps[pr]) == Nobody
    && Unset(h.ps[p]) && !Unset(h.ps[pr])
    && (forall q <- g.ps :: q != p && q != pr ==> h.ps[q] == g.ps[q])
    && (forall e <- g.fs :: e != f ==>
          h.fs[e].promise == if g.fs[e].promise == pr then p else g.fs[e].promise)
  }

  /** Splicing moves the consumer of the outer promise to the inner one, and touches no other promise. */
  lemma SplicingMovesTheConsumer(g: Graph, f: Future, pr: Promise)
    requires HeapOk(g) && Spliceable(g, f, pr)
    ensures FutureOk(g, f) && PromiseOk(g, pr)
    ensures var h := ForwardSpec(g, f, pr); HeapOk(h) && Spliced(g, h, f, g.fs[f].promise, pr)
  {
    hide HeapOk;
    FutureOkAt(g, f);
    PromiseOkAt(g, pr);
    var p := g.fs[f].promise;
    UnlinkKeepsHeap(g, f);
    var u := UnlinkSpec(g, f);
    PromiseOkAt(u, pr);
    TransferKeepsHeap(u, pr, p, g.ps[p].holder);
    SplicedShape(g, f, pr);
  }

  lemma SplicedShape(g: Graph, f: Future, pr: Promise)
    requires HeapOk(g) && Spliceable(g, f, pr)
    ensures FutureOk(g, f) && PromiseOk(g, pr)
    ensures Spliced(g, ForwardSpec(g, f, pr), f, g.fs[f].promise, pr)
  {
  }

  // ---------------------------------------------------------------------------------------------
  // Chains

  /** A splice to be made: a future, and the promise it is to be forwarded to. */
  datatype Link = Link(f: Future, pr: Promise)

  /** The future of each link belongs to the promise of the link before, that of the first to p. */
  ghost predicate Chain(g: Graph, p: Promise, links: seq<Link>)
    decreases |links|
  {
    && Pending(g, p)
    && (links != [] ==>
          && links[0].f in g.fs && g.fs[links[0].f].promise == p
          && Chain(g, links[0].pr, links[1..]))
  }

  ghost function Promises(p: Promise, links: seq<Link>): seq<Promise> {
    [p] + seq(|links|, i requires 0 <= i < |links| => links[i].pr)
  }

  /** No promise occurs twice in the chain. */
  ghost predicate Distinct(p: Promise, links: seq<Link>) {
    forall i, j :: 0 <= i < j < |Promises(p, links)| ==> Promises(p, links)[i] != Promises(p, links)[j]
  }

  /** The outermost promise. */
  ghost function Outermost(p: Promise, links: seq<Link>): Promise {
    if links == [] then p else links[|links| - 1].pr
  }

  ghost function Without(links: seq<Link>, i: nat): seq<Link>
    requires i < |links|
  {
    links[..i] + links[i + 1..]
  }

  lemma {:induction false} ChainAt(g: Graph, p: Promise, links: seq<Link>, i: nat)
    requires Chain(g, p, links) && i < |links|
    ensures links[i].f in g.fs && g.fs[links[i].f].promise == Promises(p, links)[i]
    ensures Pending(g, Promises(p, links)[i]) && Pending(g, links[i].pr)
    decreases |links|
  {
    if i > 0 {
      ChainAt(g, links[0].pr, links[1..], i - 1);
      assert Promises(links[0].pr, links[1..])[i - 1] == Promises(p, links)[i];
    }
  }

  /** A chain, said link by link. */
  lemma {:induction false} ChainFrom(g: Graph, p: Promise, links: seq<Link>)
    requires Pending(g, p)
    requires forall i :: 0 <= i < |links| ==>
               && links[i].f in g.fs && g.fs[links[i].f].promise == Promises(p, links)[i]
               && Pending(g, links[i].pr)
    ensures Chain(g, p, links)
    decreases |links|
  {
    if links != [] {
      var rest := links[1..];
      assert links[0].f in g.fs;
      forall i | 0 <= i < |rest|
        ensures rest[i].f in g.fs && g.fs[rest[i].f].promise == Promises(links[0].pr, rest)[i] && Pending(g, rest[i].pr)
      {
        assert rest[i] == links[i + 1] && Promises(links[0].pr, rest)[i] == Promises(p, links)[i + 1];
      }
      ChainFrom(g, links[0].pr, rest);
    }
  }

  lemma PromisesWithout(p: Promise, links: seq<Link>, i: nat, j: nat)
    requires i < |links| && j < |links|
    ensures Promises(p, Without(links, i))[j] == if j <= i then Promises(p, links)[j] else Promises(p, links)[j + 1]
  {
  }

  lemma DistinctWithout(p: Promise, links: seq<Link>, i: nat)
    requires i < |links| && Distinct(p, links)
    ensures Distinct(p, Without(links, i))
  {
    var all, less := Promises(p, links), Promises(p, Without(links, i));
    forall j, k | 0 <= j < k < |less| ensures less[j] != less[k] {
      PromisesWithout(p, links, i, j);
      PromisesWithout(p, links, i, k);
    }
  }

  lemma LinkSpliceable(g: Graph, p: Promise, links: seq<Link>, i: nat)
    requires Chain(g, p, links) && Distinct(p, links) && i < |links|
    ensures Spliceable(g, links[i].f, links[i].pr)
  {
    ChainAt(g, p, links, i);
    assert Promises(p, links)[i] != Promises(p, links)[i + 1];
  }

  /** The link after the removal of another stays right. */
  lemma OtherLink(g: Graph, h: Graph, p: Promise, links: seq<Link>, i: nat, j: nat)
    requires Chain(g, p, links) && Distinct(p, links) && i < |links| && j < |links| && i != j
    requires Spliced(g, h, links[i].f, Promises(p, links)[i], links[i].pr)
    ensures links[j].f in h.fs && Pending(h, links[j].pr)
    ensures h.fs[links[j].f].promise == if j == i + 1 then Promises(p, links)[i] else Promises(p, links)[j]
  {
    ChainAt(g, p, links, i);
    ChainAt(g, p, links, j);
    var all := Promises(p, links);
    assert all[i + 1] == links[i].pr && all[j + 1] == links[j].pr;
    assert all[i] != all[j] && all[i + 1] != all[j + 1];
    assert links[j].f != links[i].f;
    assert j != i + 1 ==> all[j] != all[i + 1];
  }

  /** One splice, anywhere in the chain, makes a shorter chain with the same consumer at its end. */
  lemma SpliceOne(g: Graph, h: Graph, p: Promise, links: seq<Link>, i: nat)
    requires Chain(g, p, links) && Distinct(p, links) && i < |links|
    requires Spliced(g, h, links[i].f, Promises(p, links)[i], links[i].pr)
    ensures Chain(h, p, Without(links, i))
    ensures Outermost(p, links) in g.ps && Outermost(p, Without(links, i)) in h.ps
    ensures ConsumerOf(h.ps[Outermost(p, Without(links, i))]) == ConsumerOf(g.ps[Outermost(p, links)])
  {
    var rest := Without(links, i);
    forall j | 0 <= j < |rest|
      ensures rest[j].f in h.fs && h.fs[rest[j].f].promise == Promises(p, rest)[j] && Pending(h, rest[j].pr)
    {
      PromisesWithout(p, links, i, j);
      OtherLink(g, h, p, links, i, if j < i then j else j + 1);
    }
    InnermostPending(g, h, p, links, i);
    ChainFrom(h, p, rest);
    OutermostConsumer(g, h, p, links, i);
  }

  lemma InnermostPending(g: Graph, h: Graph, p: Promise, links: seq<Link>, i: nat)
    requires Chain(g, p, links) && Distinct(p, links) && i < |links|
    requires Spliced(g, h, links[i].f, Promises(p, links)[i], links[i].pr)
    ensures Pending(h, p)
  {
    assert Promises(p, links)[0] == p && Promises(p, links)[i + 1] == links[i].pr;
  }

  lemma OutermostConsumer(g: Graph, h: Graph, p: Promise, links: seq<Link>, i: nat)
    requires Chain(g, p, links) && Distinct(p, links) && i < |links|
    requires Spliced(g, h, links[i].f, Promises(p, links)[i], links[i].pr)
    ensures Outermost(p, links) in g.ps && Outermost(p, Without(links, i)) in h.ps
    ensures ConsumerOf(h.ps[Outermost(p, Without(links, i))]) == ConsumerOf(g.ps[Outermost(p, links)])
  {
    var n, all := |links|, Promises(p, links);
    ChainAt(g, p, links, n - 1);
    assert Outermost(p, links) == all[n];
    if i < n - 1 {
      assert Without(links, i)[n - 2] == links[n - 1];
      assert all[n] != all[i] && all[n] != all[i + 1];
    } else {
      assert Without(links, i) == links[..n - 1];
      assert Outermost(p, Without(links, i)) == all[i];
    }
  }

  /** forward_to() from the future of a link to its promise. */
  ghost function Forwarded(g: Graph, l: Link): Graph {
    if Spliceable(g, l.f, l.pr) && FutureOk(g, l.f) && PromiseOk(g, l.pr) then ForwardSpec(g, l.f, l.pr) else g
  }

  /** All splices, each time that of the link whose number, among those left, is next in the order. */
  ghost function SpliceAll(g: Graph, links: seq<Link>, order: seq<nat>): Graph
    decreases |order|
  {
    if order == [] || order[0] >= |links| then g
    else SpliceAll(Forwarded(g, links[order[0]]), Without(links, order[0]), order[1..])
  }

  /** An order in which n splices can be made. */
  ghost predicate Order(order: seq<nat>, n: nat) {
    |order| == n && forall k :: 0 <= k < n ==> order[k] < n - k
  }

  lemma {:induction false} AllSpliced(g: Graph, p: Promise, links: seq<Link>, order: seq<nat>)
    requires HeapOk(g) && Chain(g, p, links) && Distinct(p, links) && Order(order, |links|)
    ensures var h := SpliceAll(g, links, order);
            && HeapOk(h) && Pending(h, p) && Outermost(p, links) in g.ps
            && ConsumerOf(h.ps[p]) == ConsumerOf(g.ps[Outermost(p, links)])
    decreases |links|
  {
    hide HeapOk;
    if links != [] {
      var i := order[0];
      LinkSpliceable(g, p, links, i);
      ChainAt(g, p, links, i);
      SplicingMovesTheConsumer(g, links[i].f, links[i].pr);
      var h := Forwarded(g, links[i]);
      DistinctWithout(p, links, i);
      SpliceOne(g, h, p, links, i);
      hide Chain, Distinct, Spliced, Forwarded, ConsumerOf;
      AllSpliced(h, p, Without(links, i), order[1..]);
    }
  }

  /** Chains of any depth, spliced in any order: resolving the innermost promise gives its outcome to whoever was
      waiting at the outermost one, once, be it a future or a task. */
  lemma ChainsDeliver(g: Graph, p: Promise, links: seq<Link>, order: seq<nat>, o: Outcome)
    requires HeapOk(g) && Chain(g, p, links) && Distinct(p, links) && Order(order, |links|)
    ensures var h := SpliceAll(g, links, order);
            && p in h.ps && PromiseOk(h, p) && Outermost(p, links) in g.ps
            && Delivered(SetSpec(h, p, o), ConsumerOf(g.ps[Outermost(p, links)]), o)
  {
    hide HeapOk, Delivered;
    AllSpliced(g, p, links, order);
    ResolvingDelivers(SpliceAll(g, links, order), p, o);
  }

  // ---------------------------------------------------------------------------------------------
  // Splicing against copying

  /** A continuation that does nothing but pass its input on. */
  function CopyBody(): Body {
    OnResult(Ready((env: Env) => if env == [] then Value(0) else env[0]))
  }

  lemma CopyCopies(o: Outcome, ext: nat -> Outcome)
    ensures DenoteBody(CopyBody(), [], o, ext) == o
  {
  }

  /** h is g with the consumer of pr moved to the new promise y, and y captured by the continuation t that waits at
      the promise p in the place of its future. */
  ghost predicate Copying(g: Graph, h: Graph, p: Promise, pr: Promise, y: Promise, t: Continuation) {
    && pr in g.ps && p in h.ps && y in h.ps && t in h.ts
    && HeapOk(h) && h.queue == g.queue
    && h.ps[p].task == t && h.ts[t].func == Func(y, CopyBody(), [])
    && Unset(h.ps[y]) && ConsumerOf(h.ps[y]) == ConsumerOf(g.ps[pr]) && ConsumerOf(h.ps[y]) != Waiter(t)
    && h.ps[y].task != t
  }

  /** Attaching the copying continuation: pr moves into a closure, and the closure waits at f's promise. */
  ghost function Copied(g: Graph, f: Future, pr: Promise, y: Promise, t: Continuation): Graph
    requires HeapOk(g) && Spliceable(g, f, pr) && y !in g.ps
  {
    var u := TransferSpec(g, pr, y, OnStack);
    TransferKeepsHeap(g, pr, y, OnStack);
    assert u.fs[f].promise == g.fs[f].promise;
    WaitSpec(UnlinkSpec(u, f), g.fs[f].promise, t, Func(y, CopyBody(), []))
  }

  lemma CopyingShape(g: Graph, f: Future, pr: Promise, y: Promise, t: Continuation)
    requires HeapOk(g) && Spliceable(g, f, pr) && y !in g.ps && t !in g.ts
    ensures Copying(g, Copied(g, f, pr, y, t), g.fs[f].promise, pr, y, t)
  {
    FutureOkAt(g, f);
    PromiseOkAt(g, pr);
    TransferKeepsHeap(g, pr, y, OnStack);
    var u, p := TransferSpec(g, pr, y, OnStack), g.fs[f].promise;
    assert u.fs[f].promise == p && u.ps[p] == g.ps[p];
    UnlinkKeepsHeap(u, f);
    WaitKeepsHeap(UnlinkSpec(u, f), p, t, Func(y, CopyBody(), []));
    hide HeapOk;
  }

  /** The front task t runs: it answers the promise it captured with what its code denotes, and is destroyed. */
  ghost function FrontRun(g: Graph, t: Continuation, ext: nat -> Outcome): Graph
    requires HeapOk(g) && g.queue != [] && g.queue[0] == t && g.ts[t].state.Resolved?
    requires Unset(g.ps[g.ts[t].func.pr])
  {
    assert TaskOk(g, t);
    StartKeepsHeap(g);
    var Func(y, body, env) := g.ts[t].func;
    var running := StartSpec(g);
    SetKeepsHeap(running, y, DenoteBody(body, env, g.ts[t].state.o, ext));
    var answered := SetSpec(running, y, DenoteBody(body, env, g.ts[t].state.o, ext));
    assert PromiseOk(answered, y);
    FinishSpec(answered, t)
  }

  /** A task that runs delivers to whoever waits for the promise it captured. */
  lemma FrontRunDelivers(g: Graph, t: Continuation, ext: nat -> Outcome)
    requires HeapOk(g) && g.queue != [] && g.queue[0] == t && g.ts[t].state.Resolved?
    requires Unset(g.ps[g.ts[t].func.pr])
    ensures var Func(y, body, env) := g.ts[t].func;
            && HeapOk(FrontRun(g, t, ext))
            && Delivered(FrontRun(g, t, ext), ConsumerOf(g.ps[y]), DenoteBody(body, env, g.ts[t].state.o, ext))
  {
    assert TaskOk(g, t);
    StartKeepsHeap(g);
    var Func(y, body, env) := g.ts[t].func;
    var running := StartSpec(g);
    var result := DenoteBody(body, env, g.ts[t].state.o, ext);
    PromiseOkAt(running, y);
    AnswerDelivers(running, y, t, result);
  }

  /** The end of a run: the captured promise is answered, and dies with the task. */
  lemma AnswerDelivers(g: Graph, y: Promise, t: Continuation, o: Outcome)
    requires HeapOk(g) && y in g.ps && t in g.ts && g.ts[t].func.pr == y && g.ts[t].slot == Running && Unset(g.ps[y])
    ensures PromiseOk(g, y) && PromiseOk(SetSpec(g, y, o), y)
    ensures HeapOk(FinishSpec(SetSpec(g, y, o), t))
    ensures Delivered(FinishSpec(SetSpec(g, y, o), t), ConsumerOf(g.ps[y]), o)
  {
    hide HeapOk;
    PromiseOkAt(g, y);
    SetKeepsHeap(g, y, o);
    var answered := SetSpec(g, y, o);
    PromiseOkAt(answered, y);
    FinishKeepsHeap(answered, t);
    if g.ps[y].task != null {
      QueuedOnce(FinishSpec(answered, t), g.ps[y].task);
    } else if g.ps[y].future != null {
      FutureOkAt(FinishSpec(answered, t), g.ps[y].future);
    }
  }

  lemma QueuedOnce(g: Graph, t: Continuation)
    requires HeapOk(g) && t in g.queue
    ensures multiset(g.queue)[t] == 1
  {
    OnceInQueue(g.queue, t);
  }

  /** Splicing is equivalent to attaching a continuation that copies.  After the splice, resolving the inner promise
      gives its outcome to the consumer of the outer one; with the copying continuation, it queues that continuation
      with the outcome, once, while the consumer waits for the promise y in its closure ... */
  lemma SplicingIsCopying(g: Graph, f: Future, pr: Promise, y: Promise, t: Continuation, o: Outcome)
    requires HeapOk(g) && Spliceable(g, f, pr) && y !in g.ps && t !in g.ts
    ensures FutureOk(g, f) && PromiseOk(g, pr)
    ensures var p, h := g.fs[f].promise, ForwardSpec(g, f, pr);
            p in h.ps && PromiseOk(h, p) && Delivered(SetSpec(h, p, o), ConsumerOf(g.ps[pr]), o)
    ensures var p, h := g.fs[f].promise, Copied(g, f, pr, y, t);
            && p in h.ps && PromiseOk(h, p)
            && var k := SetSpec(h, p, o);
            && HeapOk(k) && Delivered(k, Waiter(t), o) && k.ts[t].func == Func(y, CopyBody(), [])
            && y in k.ps && Unset(k.ps[y]) && ConsumerOf(k.ps[y]) == ConsumerOf(g.ps[pr])
  {
    hide HeapOk, Delivered;
    SplicingMovesTheConsumer(g, f, pr);
    ResolvingDelivers(ForwardSpec(g, f, pr), g.fs[f].promise, o);
    CopyingShape(g, f, pr, y, t);
    CopyResolved(g, Copied(g, f, pr, y, t), g.fs[f].promise, pr, y, t, o);
  }

  lemma CopyResolved(g: Graph, h: Graph, p: Promise, pr: Promise, y: Promise, t: Continuation, o: Outcome)
    requires Copying(g, h, p, pr, y, t)
    ensures PromiseOk(h, p)
    ensures var k := SetSpec(h, p, o);
            && HeapOk(k) && Delivered(k, Waiter(t), o) && k.ts[t].func == Func(y, CopyBody(), [])
            && y in k.ps && Unset(k.ps[y]) && ConsumerOf(k.ps[y]) == ConsumerOf(g.ps[pr])
  {
    PromiseOkAt(h, p);
    ResolvingDelivers(h, p, o);
    SetTaskKeepsHeap(h, p, o);
    hide HeapOk;
    assert y != p;
  }

  /** ... and when it comes to the front of the queue and runs, that consumer is given the same outcome. */
  lemma CopyDelivers(g: Graph, y: Promise, t: Continuation, o: Outcome, ext: nat -> Outcome)
    requires HeapOk(g) && g.queue != [] && g.queue[0] == t && g.ts[t].state == Resolved(o)
    requires g.ts[t].func == Func(y, CopyBody(), []) && y in g.ps && Unset(g.ps[y])
    ensures Delivered(FrontRun(g, t, ext), ConsumerOf(g.ps[y]), o)
  {
    CopyCopies(o, ext);
    FrontRunDelivers(g, t, ext);
    hide HeapOk, Delivered;
  }

  // ---------------------------------------------------------------------------------------------
  // Until the copying continuation comes to the front

  /** The task t is queued with the outcome o, to run fn, whose promise has consumer c. */
  ghost predicate Underway(g: Graph, t: Continuation, fn: Func, o: Outcome, c: Consumer) {
    && HeapOk(g) && t in g.queue && t in g.ts && g.ts[t].state == Resolved(o) && g.ts[t].func == fn
    && fn.pr in g.ps && Unset(g.ps[fn.pr]) && ConsumerOf(g.ps[fn.pr]) == c
  }

  /** The operation is not on promise y or on its future, and does not take t. */
  ghost predicate LeavesAlone(g: Graph, op: Op, t: Continuation, y: Promise)
    requires y in g.ps
  {
    match op
    case GetFuture(p, _) => p != y
    case MovePromise(src, _) => src != y
    case AssignPromise(src, dst) => src != y && dst != y
    case Set(p, _) => p != y
    case MoveFuture(x, _) => x != g.ps[y].future
    case DropFuture(f) => f != g.ps[y].future
    case Attach(f, _, _) => f != g.ps[y].future
    case Forward(f, pr) => f != g.ps[y].future && pr != y
    case Start => g.queue != [] && g.queue[0] != t
    case _ => true
  }

  /** What is destroyed leaves the other tasks as they were. */
  lemma {:induction false} DiscardLeavesTasks(g: Graph, t: Continuation)
    requires HeapOk(g) && t in g.ts && g.ts[t].slot == Running
    ensures var h := DiscardSpec(g, t); t !in h.ts && forall u <- h.ts :: u in g.ts && h.ts[u] == g.ts[u]
    decreases |g.ts|
  {
    TaskOkAt(g, t);
    var p := g.ts[t].func.pr;
    if g.ps[p].task != null {
      DetachedThenFinished(g, t);
      hide HeapOk;
      DiscardLeavesTasks(FinishSpec(DetachSpec(g, p), t), g.ps[p].task);
    }
  }

  /** A smaller graph with the same queue still has the queued task and its promise. */
  lemma SmallerStaysUnderway(g: Graph, h: Graph, t: Continuation, fn: Func, o: Outcome, c: Consumer)
    requires Underway(g, t, fn, o, c) && HeapOk(h) && h.queue == g.queue
    requires forall u <- h.ts :: u in g.ts && (u == t ==> h.ts[u] == g.ts[u])
    requires forall q <- h.ps :: q in g.ps && (q == fn.pr ==> h.ps[q] == g.ps[q])
    ensures Underway(h, t, fn, o, c)
  {
    assert t in h.ts;
    assert TaskOk(h, t);
  }

  /** Detaching the waiting task of another promise changes nothing for t. */
  lemma DetachStaysUnderway(g: Graph, p: Promise, t: Continuation, fn: Func, o: Outcome, c: Consumer)
    requires Underway(g, t, fn, o, c) && p in g.ps && g.ps[p].task != null && p != fn.pr
    ensures PromiseOk(g, p) && Underway(DetachSpec(g, p), t, fn, o, c)
  {
    DetachKeepsHeap(g, p);
  }

  lemma DiscardStaysUnderway(g: Graph, u: Continuation, t: Continuation, fn: Func, o: Outcome, c: Consumer)
    requires Underway(g, t, fn, o, c) && u in g.ts && g.ts[u].slot == Running
    ensures Underway(DiscardSpec(g, u), t, fn, o, c)
  {
    DiscardKeepsHeap(g, u);
    DiscardLeavesTasks(g, u);
    hide HeapOk;
    SmallerStaysUnderway(g, DiscardSpec(g, u), t, fn, o, c);
  }

  lemma DestroyStaysUnderway(g: Graph, p: Promise, t: Continuation, fn: Func, o: Outcome, c: Consumer)
    requires Underway(g, t, fn, o, c) && p in g.ps && !g.ps[p].holder.CapturedBy?
    ensures Underway(DestroySpec(g, p), t, fn, o, c)
  {
    assert TaskOk(g, t);
    PromiseOkAt(g, p);
    hide HeapOk;
    if g.ps[p].task == null {
      DropPromiseKeepsHeap(g, p);
    } else {
      DetachStaysUnderway(g, p, t, fn, o, c);
      DetachedThenDropped(g, p);
      DiscardStaysUnderway(DropPromiseSpec(DetachSpec(g, p), p), g.ps[p].task, t, fn, o, c);
    }
  }

  lemma TransferStaysUnderway(g: Graph, src: Promise, dst: Promise, holder: Holder, t: Continuation, fn: Func,
                              o: Outcome, c: Consumer)
    requires Underway(g, t, fn, o, c) && src in g.ps && PromiseOk(g, src) && src != fn.pr && dst != fn.pr
    requires HeapOk(TransferSpec(g, src, dst, holder))
    ensures Underway(TransferSpec(g, src, dst, holder), t, fn, o, c)
  {
    assert TaskOk(g, t);
    hide HeapOk;
  }

  lemma ClearedStaysUnderway(g: Graph, p: Promise, t: Continuation, fn: Func, o: Outcome, c: Consumer)
    requires Underway(g, t, fn, o, c) && p in g.ps && p != fn.pr
    ensures Underway(ClearedSpec(g, p), t, fn, o, c)
  {
    PromiseOkAt(g, p);
    ClearedKeepsHeap(g, p);
    hide HeapOk;
    if g.ps[p].task != null {
      DetachStaysUnderway(g, p, t, fn, o, c);
      DiscardStaysUnderway(DetachSpec(g, p), g.ps[p].task, t, fn, o, c);
    }
  }

  lemma AssignStaysUnderway(g: Graph, src: Promise, dst: Promise, t: Continuation, fn: Func, o: Outcome, c: Consumer)
    requires Underway(g, t, fn, o, c) && Assignable(g, src, dst) && src != fn.pr && dst != fn.pr
    ensures Underway(AssignSpec(g, src, dst), t, fn, o, c)
  {
    hide HeapOk, ClearedSpec, TransferSpec, Underway;
    if src != dst {
      ClearedStaysUnderway(g, dst, t, fn, o, c);
      ClearedKeepsHeap(g, dst);
      AssignKeepsHeap(g, src, dst);
      var h := ClearedSpec(g, dst);
      PromiseOkAt(h, src);
      TransferStaysUnderway(h, src, dst, h.ps[dst].holder, t, fn, o, c);
    }
  }

  lemma QueuedTaskHolds(g: Graph, t: Continuation)
    requires HeapOk(g) && t in g.queue
    ensures t in g.ts && g.ts[t].slot == Queued && g.ts[t].func.pr in g.ps
    ensures g.ps[g.ts[t].func.pr].holder == CapturedBy(t)
  {
    assert TaskOk(g, t);
  }

  lemma AttachStaysUnderway(g: Graph, op: Op, t: Continuation, fn: Func, o: Outcome, c: Consumer)
    requires Underway(g, t, fn, o, c) && Legal(g, op) && LeavesAlone(g, op, t, fn.pr) && op.Attach?
    ensures Underway(Done(g, op), t, fn, o, c)
  {
    QueuedTaskHolds(g, t);
    OpKeepsHeap(g, op);
    FutureOkAt(g, op.f);
    hide HeapOk;
  }

  lemma ForwardStaysUnderway(g: Graph, op: Op, t: Continuation, fn: Func, o: Outcome, c: Consumer)
    requires Underway(g, t, fn, o, c) && Legal(g, op) && LeavesAlone(g, op, t, fn.pr) && op.Forward?
    ensures Underway(Done(g, op), t, fn, o, c)
  {
    QueuedTaskHolds(g, t);
    OpKeepsHeap(g, op);
    FutureOkAt(g, op.f);
    PromiseOkAt(g, op.pr);
    hide HeapOk, TransferSpec;
    if StateOf(g, op.f).Resolved? {
      SatisfyStaysUnderway(g, op.f, op.pr, t, fn, o, c);
    } else {
      var u, p := UnlinkSpec(g, op.f), g.fs[op.f].promise;
      UnlinkKeepsHeap(g, op.f);
      assert Underway(u, t, fn, o, c);
      PromiseOkAt(u, op.pr);
      TransferStaysUnderway(u, op.pr, p, g.ps[p].holder, t, fn, o, c);
    }
  }

  lemma SatisfyStaysUnderway(g: Graph, f: Future, pr: Promise, t: Continuation, fn: Func, o: Outcome, c: Consumer)
    requires Underway(g, t, fn, o, c) && Legal(g, Forward(f, pr)) && LeavesAlone(g, Forward(f, pr), t, fn.pr)
    requires FutureOk(g, f) && StateOf(g, f).Resolved? && PromiseOk(g, pr)
    requires HeapOk(ForwardSpec(g, f, pr))
    ensures Underway(ForwardSpec(g, f, pr), t, fn, o, c)
  {
    QueuedTaskHolds(g, t);
    hide HeapOk;
  }

  lemma OtherStaysUnderway(g: Graph, op: Op, t: Continuation, fn: Func, o: Outcome, c: Consumer)
    requires Underway(g, t, fn, o, c) && Legal(g, op) && LeavesAlone(g, op, t, fn.pr)
    requires !op.Attach? && !op.Forward? && !op.AssignPromise? && !op.DropPromise? && !op.Finish?
    ensures Underway(Done(g, op), t, fn, o, c)
  {
    assert TaskOk(g, t);
    OpKeepsHeap(g, op);
    if op.Set? {
      PromiseOkAt(g, op.p);
    } else if op.MovePromise? {
      PromiseOkAt(g, op.src);
    } else if op.MoveFuture? {
      FutureOkAt(g, op.x);
    } else if op.DropFuture? {
      FutureOkAt(g, op.f);
    }
    hide HeapOk;
  }

  lemma OpStaysUnderway(g: Graph, op: Op, t: Continuation, fn: Func, o: Outcome, c: Consumer)
    requires Underway(g, t, fn, o, c) && Legal(g, op) && LeavesAlone(g, op, t, fn.pr)
    ensures Underway(Done(g, op), t, fn, o, c)
  {
    hide HeapOk;
    match op {
      case Attach(_, _, _) => AttachStaysUnderway(g, op, t, fn, o, c);
      case Forward(_, _) => ForwardStaysUnderway(g, op, t, fn, o, c);
      case AssignPromise(src, dst) => AssignStaysUnderway(g, src, dst, t, fn, o, c);
      case DropPromise(p) => DestroyStaysUnderway(g, p, t, fn, o, c);
      case Finish(u) => DiscardStaysUnderway(g, u, t, fn, o, c);
      case _ => OtherStaysUnderway(g, op, t, fn, o, c);
    }
  }

  /** None of the operations is on promise y or on its future, or takes t. */
  ghost predicate LeftAlone(g: Graph, ops: seq<Op>, t: Continuation, y: Promise)
    decreases |ops|
  {
    ops == [] || (HeapOk(g) && Legal(g, ops[0]) && y in g.ps && LeavesAlone(g, ops[0], t, y)
                  && LeftAlone(Done(g, ops[0]), ops[1..], t, y))
  }

  lemma {:induction false} RunsStayUnderway(g: Graph, ops: seq<Op>, h: Graph, t: Continuation, fn: Func, o: Outcome,
                                            c: Consumer)
    requires Underway(g, t, fn, o, c) && Runs(g, ops, h) && LeftAlone(g, ops, t, fn.pr)
    ensures Underway(h, t, fn, o, c)
    decreases |ops|
  {
    hide Underway, Legal, Done, HeapOk, LeavesAlone;
    if ops != [] {
      OpStaysUnderway(g, ops[0], t, fn, o, c);
      RunsStayUnderway(Done(g, ops[0]), ops[1..], h, t, fn, o, c);
    }
  }

  /** Splicing and copying end alike.  The inner promise p of f resolves to o.  After a splice, the consumer of the
      outer promise pr has o at once.  With a copying continuation t, whatever legal operations follow that leave
      that consumer alone, it has o once t has come to the front of the queue and run. */
  lemma CopyingEndsLikeSplicing(g: Graph, f: Future, pr: Promise, y: Promise, t: Continuation, o: Outcome,
                                ops: seq<Op>, h: Graph, ext: nat -> Outcome)
    requires HeapOk(g) && Spliceable(g, f, pr) && y !in g.ps && t !in g.ts
    requires var p, c := g.fs[f].promise, Copied(g, f, pr, y, t);
             p in c.ps && PromiseOk(c, p) && Runs(SetSpec(c, p, o), ops, h) && LeftAlone(SetSpec(c, p, o), ops, t, y)
    requires h.queue != [] && h.queue[0] == t
    ensures FutureOk(g, f) && PromiseOk(g, pr)
    ensures var p, s := g.fs[f].promise, ForwardSpec(g, f, pr);
            p in s.ps && PromiseOk(s, p) && Delivered(SetSpec(s, p, o), ConsumerOf(g.ps[pr]), o)
    ensures HeapOk(h) && t in h.ts && h.ts[t].state.Resolved? && h.ts[t].func.pr in h.ps && Unset(h.ps[h.ts[t].func.pr])
            && Delivered(FrontRun(h, t, ext), ConsumerOf(g.ps[pr]), o)
  {
    SplicingIsCopying(g, f, pr, y, t, o);
    var k := SetSpec(Copied(g, f, pr, y, t), g.fs[f].promise, o);
    var c := ConsumerOf(g.ps[pr]);
    assert Underway(k, t, Func(y, CopyBody(), []), o, c);
    hide HeapOk, Delivered;
    RunsStayUnderway(k, ops, h, t, Func(y, CopyBody(), []), o, c);
    CopyDelivers(h, y, t, o, ext);
  }
}
