/** Promises, futures, continuations and the task queue of one CPU. */
module Futures {
  import opened Programs
  import opened Sums

  /** The contents of a future_state. */
  datatype State = Invalid | Unresolved | Resolved(o: Outcome)

  /** A pointer to a future_state: none, the one inside a promise, or the one inside a task. */
  datatype StateRef = NullState | LocalOf(p: Promise) | InTask(t: Continuation)

  /** The callable held by a continuation: the promise it captured, its code, and its closure. */
  datatype Func = Func(pr: Promise, body: Body, env: Env)

  // ---------------------------------------------------------------------------------------------
  // The object graph as a value

  /** Who owns a promise object. */
  datatype Holder = OnStack | External(i: nat) | CapturedBy(t: Continuation)

  /** Where a continuation is; one that is neither waiting nor queued is running, or being destroyed. */
  datatype Slot = AttachedTo(p: Promise) | Queued | Running

  /** A promise: its four fields, its owner, and the outcome and rank of the logical value it feeds. */
  datatype PRec = PRec(future: Future?, local: State, state: StateRef, task: Continuation?,
                       holder: Holder, goal: Outcome, rank: nat)

  /** A future: its two fields, the outcome and rank of its logical value, and whether it was used up. */
  datatype FRec = FRec(promise: Promise?, local: State, goal: Outcome, rank: nat, spent: bool)

  /** A continuation: its two fields, where it is, and the outcome it will be handed. */
  datatype TRec = TRec(state: State, func: Func, slot: Slot, input: Outcome)

  datatype Graph = Graph(ps: map<Promise, PRec>, fs: map<Future, FRec>, ts: map<Continuation, TRec>,
                         queue: seq<Continuation>)

  ghost function Objects(g: Graph): set<object> {
    var promises: set<object> := g.ps.Keys;
    promises + g.fs.Keys + g.ts.Keys
  }

  /** The promise has not been satisfied yet. */
  ghost predicate Unset(r: PRec) {
    r.state.InTask? || (r.state.LocalOf? && r.local == Unresolved)
  }

  // The heap invariant, one object at a time.

  ghost predicate PromiseOk(g: Graph, p: Promise)
    requires p in g.ps
  {
    var r := g.ps[p];
    && (r.future != null ==>
          r.future in g.fs && g.fs[r.future].promise == p && r.task == null && r.state == LocalOf(p))
    && (r.task != null ==>
          r.state == InTask(r.task) && r.task in g.ts && g.ts[r.task].slot == AttachedTo(p))
    && (r.state == NullState || r.state == LocalOf(p) || (r.task != null && r.state == InTask(r.task)))
    && (r.state != LocalOf(p) ==> !r.local.Resolved?)
    && (r.holder.CapturedBy? ==> r.holder.t in g.ts && g.ts[r.holder.t].func.pr == p)
  }

  ghost predicate FutureOk(g: Graph, f: Future)
    requires f in g.fs
  {
    var r := g.fs[f];
    r.promise != null ==> r.promise in g.ps && g.ps[r.promise].future == f && r.local == Unresolved
  }

  ghost predicate TaskOk(g: Graph, t: Continuation)
    requires t in g.ts
  {
    var r := g.ts[t];
    && r.func.pr in g.ps
    && g.ps[r.func.pr].holder == CapturedBy(t)
    && match r.slot {
         case AttachedTo(p) => p in g.ps && g.ps[p].task == t && r.state == Unresolved
         case Queued => t in g.queue && r.state.Resolved?
         case Running => t !in g.queue
       }
  }

  ghost predicate QueueOk(g: Graph) {
    && (forall i :: 0 <= i < |g.queue| ==> g.queue[i] in g.ts && g.ts[g.queue[i]].slot == Queued)
    && (forall i, j :: 0 <= i < j < |g.queue| ==> g.queue[i] != g.queue[j])
  }

  ghost predicate HeapOk(g: Graph) {
    && (forall p <- g.ps :: PromiseOk(g, p))
    && (forall f <- g.fs :: FutureOk(g, f))
    && (forall t <- g.ts :: TaskOk(g, t))
    && QueueOk(g)
  }

  // The meaning invariant: every logical value is on its way to the outcome the program denotes.

  ghost predicate PromiseMeant(g: Graph, p: Promise, ext: nat -> Outcome)
    requires p in g.ps
  {
    var r := g.ps[p];
    && (r.state.LocalOf? && r.local.Resolved? ==> r.local.o == r.goal)
    && (r.holder.External? && Unset(r) ==> r.goal == ext(r.holder.i))
    && (r.task in g.ts ==> g.ts[r.task].input == r.goal)
  }

  ghost predicate FutureMeant(g: Graph, f: Future)
    requires f in g.fs
  {
    var r := g.fs[f];
    if r.promise in g.ps then
      && r.goal == g.ps[r.promise].goal
      && r.rank == g.ps[r.promise].rank
      && (!r.spent ==> g.ps[r.promise].local != Invalid)
    else
      && (r.local.Resolved? ==> r.local.o == r.goal)
      && (!r.spent ==> r.local.Resolved?)
  }

  ghost predicate TaskMeant(g: Graph, t: Continuation, ext: nat -> Outcome)
    requires t in g.ts
  {
    var r := g.ts[t];
    && (r.state.Resolved? ==> r.state.o == r.input)
    && (r.slot != Running && r.func.pr in g.ps ==>
          var pr := g.ps[r.func.pr];
          && Unset(pr)
          && pr.goal == DenoteBody(r.func.body, r.func.env, r.input, ext)
          && BodySize(r.func.body) <= pr.rank
          && (r.slot.AttachedTo? && r.slot.p in g.ps ==> g.ps[r.slot.p].rank < pr.rank))
  }

  ghost predicate Meant(g: Graph, ext: nat -> Outcome) {
    && (forall p <- g.ps :: PromiseMeant(g, p, ext))
    && (forall f <- g.fs :: FutureMeant(g, f))
    && (forall t <- g.ts :: TaskMeant(g, t, ext))
  }

  ghost predicate Ok(g: Graph, ext: nat -> Outcome) {
    HeapOk(g) && Meant(g, ext)
  }

  // ---------------------------------------------------------------------------------------------
  // What each operation does to the graph

  /** promise(): an empty promise. */
  ghost function NewPromiseSpec(g: Graph, p: Promise, holder: Holder, goal: Outcome, rank: nat): Graph {
    g.(ps := g.ps[p := PRec(null, Unresolved, LocalOf(p), null, holder, goal, rank)])
  }

  /** get_future(): link a new future to the promise. */
  ghost function GetFutureSpec(g: Graph, p: Promise, f: Future): Graph
    requires p in g.ps
  {
    var r := g.ps[p];
    g.(ps := g.ps[p := r.(future := f)],
       fs := g.fs[f := FRec(p, Unresolved, r.goal, r.rank, false)])
  }

  /** The state of promise x after it was moved to y: a local state moves along, a task's stays put. */
  ghost function MovedRec(r: PRec, x: Promise, y: Promise): PRec {
    if r.state == LocalOf(x) then r.(state := LocalOf(y)) else r.(local := Unresolved)
  }

  /** What is left of a moved-from promise. */
  ghost function EmptiedRec(r: PRec, x: Promise): PRec {
    PRec(null, if r.state == LocalOf(x) then Invalid else r.local, NullState, null, r.holder, r.goal, r.rank)
  }

  /** The back pointers after the logical value of x went to y. */
  ghost function Repoint(g: Graph, r: PRec, y: Promise): Graph
    requires r.future != null ==> r.future in g.fs
    requires r.task != null ==> r.task in g.ts
  {
    g.(fs := if r.future != null then g.fs[r.future := g.fs[r.future].(promise := y)] else g.fs,
       ts := if r.task != null then g.ts[r.task := g.ts[r.task].(slot := AttachedTo(y))] else g.ts)
  }

  /** The logical value of src moves to dst: the move constructor when dst is new, and the move
      assignment when it is a promise nobody reads any more. */
  ghost function TransferSpec(g: Graph, src: Promise, dst: Promise, holder: Holder): Graph
    requires src in g.ps && PromiseOk(g, src)
  {
    var r := g.ps[src];
    Repoint(g, r, dst).(ps := g.ps[dst := MovedRec(r, src, dst).(holder := holder)][src := EmptiedRec(r, src)])
  }

  /** ~promise(): the value, if any, moves to the future. */
  ghost function DropPromiseSpec(g: Graph, p: Promise): Graph
    requires p in g.ps && PromiseOk(g, p)
  {
    var r := g.ps[p];
    g.(ps := g.ps - {p},
       fs := if r.future != null
             then g.fs[r.future := g.fs[r.future].(promise := null, local := r.local)] else g.fs)
  }

  /** set_value() and set_exception(): resolve the logical value; a waiting task is scheduled. */
  ghost function SetSpec(g: Graph, p: Promise, o: Outcome): Graph
    requires p in g.ps && PromiseOk(g, p)
  {
    var r := g.ps[p];
    if r.task != null then
      g.(ps := g.ps[p := r.(state := NullState, task := null)],
         ts := g.ts[r.task := g.ts[r.task].(state := Resolved(o), slot := Queued)],
         queue := g.queue + [r.task])
    else
      g.(ps := g.ps[p := r.(local := Resolved(o))])
  }

  /** make_ready_future() and make_exception_future(). */
  ghost function NewReadySpec(g: Graph, f: Future, o: Outcome): Graph {
    g.(fs := g.fs[f := FRec(null, Resolved(o), o, 0, false)])
  }

  /** future(future&&): y takes over from x. */
  ghost function MoveFutureSpec(g: Graph, x: Future, y: Future): Graph
    requires x in g.fs && FutureOk(g, x)
  {
    var r := g.fs[x];
    if r.promise != null then
      g.(ps := g.ps[r.promise := g.ps[r.promise].(future := y)],
         fs := g.fs[y := r][x := r.(promise := null, spent := true)])
    else
      g.(fs := g.fs[y := r][x := r.(local := Invalid, spent := true)])
  }

  /** ~future(). */
  ghost function DropFutureSpec(g: Graph, f: Future): Graph
    requires f in g.fs && FutureOk(g, f)
  {
    var r := g.fs[f];
    g.(fs := g.fs - {f},
       ps := if r.promise != null then g.ps[r.promise := g.ps[r.promise].(future := null)] else g.ps)
  }

  /** The state a future refers to. */
  ghost function StateOf(g: Graph, f: Future): State
    requires f in g.fs && FutureOk(g, f)
  {
    if g.fs[f].promise != null then g.ps[g.fs[f].promise].local else g.fs[f].local
  }

  /** Moving the resolved state out of a future; the future stays linked. */
  ghost function TakeSpec(g: Graph, f: Future): Graph
    requires f in g.fs && FutureOk(g, f)
  {
    var r := g.fs[f];
    if r.promise != null then
      g.(ps := g.ps[r.promise := g.ps[r.promise].(local := Invalid)], fs := g.fs[f := r.(spent := true)])
    else
      g.(fs := g.fs[f := r.(local := Invalid, spent := true)])
  }

  /** A new continuation, with the promise it captured, goes on the task queue. */
  ghost function EnqueueSpec(g: Graph, t: Continuation, r: TRec): Graph
    requires r.func.pr in g.ps
  {
    g.(ps := g.ps[r.func.pr := g.ps[r.func.pr].(holder := CapturedBy(t))], ts := g.ts[t := r],
       queue := g.queue + [t])
  }

  /** promise::schedule(): a new continuation, with the promise it captured, waits at promise p. */
  ghost function WaitSpec(g: Graph, p: Promise, t: Continuation, fn: Func): Graph
    requires p in g.ps && fn.pr in g.ps
  {
    var r := g.ps[p];
    g.(ps := g.ps[p := r.(state := InTask(t), task := t)][fn.pr := g.ps[fn.pr].(holder := CapturedBy(t))],
       ts := g.ts[t := TRec(Unresolved, fn, AttachedTo(p), r.goal)])
  }

  /** The promise behind f and f forget each other. */
  ghost function UnlinkSpec(g: Graph, f: Future): Graph
    requires f in g.fs && FutureOk(g, f) && g.fs[f].promise != null
  {
    var r := g.fs[f];
    g.(ps := g.ps[r.promise := g.ps[r.promise].(future := null)],
       fs := g.fs[f := r.(promise := null, spent := true)])
  }

  /** future::schedule(): queue the function if the future is resolved, else leave it with the promise. */
  ghost function ScheduleSpec(g: Graph, f: Future, t: Continuation, fn: Func): Graph
    requires f in g.fs && FutureOk(g, f) && fn.pr in g.ps
    requires StateOf(g, f).Resolved? || g.fs[f].promise != null
  {
    if StateOf(g, f).Resolved? then
      EnqueueSpec(TakeSpec(g, f), t, TRec(StateOf(g, f), fn, Queued, g.fs[f].goal))
    else
      WaitSpec(UnlinkSpec(g, f), g.fs[f].promise, t, fn)
  }

  /** future::forward_to(): satisfy pr now, or let the promise behind f become pr. */
  ghost function ForwardSpec(g: Graph, f: Future, pr: Promise): Graph
    requires f in g.fs && FutureOk(g, f) && pr in g.ps && PromiseOk(g, pr)
    requires StateOf(g, f).Resolved? || g.fs[f].promise != null
    requires g.fs[f].promise != pr
  {
    if StateOf(g, f).Resolved? then
      SetSpec(TakeSpec(g, f), pr, StateOf(g, f).o)
    else
      TransferSpec(UnlinkSpec(g, f), pr, g.fs[f].promise, g.ps[g.fs[f].promise].holder)
  }

  /** A promise object that no continuation and no outside party owns. */
  ghost predicate Free(r: PRec) {
    r.holder == OnStack
  }

  /** The promise may be satisfied with o: it is pending, and o is what its logical value should be. */
  ghost predicate Settable(g: Graph, p: Promise, o: Outcome)
    requires p in g.ps
  {
    var r := g.ps[p];
    && Unset(r) && o == r.goal
    && (r.holder.CapturedBy? ==> r.holder.t in g.ts && g.ts[r.holder.t].slot == Running)
  }

  /** A continuation that will satisfy the pending promise it captured with what the program denotes. */
  ghost predicate Fits(g: Graph, fn: Func, input: Outcome, ext: nat -> Outcome)
    requires fn.pr in g.ps
  {
    var pr := g.ps[fn.pr];
    && Unset(pr)
    && pr.goal == DenoteBody(fn.body, fn.env, input, ext)
    && BodySize(fn.body) <= pr.rank
  }

  /** dst is a new place for src, or a pending promise whose logical value src will carry from now on. */
  ghost predicate Transferable(g: Graph, src: Promise, dst: Promise, holder: Holder, ext: nat -> Outcome)
    requires src in g.ps
  {
    var r := g.ps[src];
    if dst in g.ps then
      && Unset(r) && Unset(g.ps[dst]) && r.goal == g.ps[dst].goal && g.ps[dst].rank < r.rank
      && (r.holder.CapturedBy? ==> r.holder.t in g.ts && g.ts[r.holder.t].slot == Running)
    else
      && holder == OnStack && r.holder == OnStack
  }

  /** The event loop takes the front task. */
  ghost function StartSpec(g: Graph): Graph
    requires |g.queue| > 0 && g.queue[0] in g.ts
  {
    var t := g.queue[0];
    g.(queue := g.queue[1..], ts := g.ts[t := g.ts[t].(slot := Running)])
  }

  /** The task that ran is destroyed, and the promise it captured with it. */
  ghost function FinishSpec(g: Graph, t: Continuation): Graph
    requires t in g.ts && g.ts[t].func.pr in g.ps && PromiseOk(g, g.ts[t].func.pr)
  {
    DropPromiseSpec(g, g.ts[t].func.pr).(ts := g.ts - {t})
  }

  // ---------------------------------------------------------------------------------------------
  // Every operation keeps the invariants

  lemma NewPromiseKeepsHeap(g: Graph, p: Promise, holder: Holder, goal: Outcome, rank: nat)
    requires HeapOk(g)
    requires p !in g.ps
    requires !holder.CapturedBy?
    ensures HeapOk(NewPromiseSpec(g, p, holder, goal, rank))
  {
  }

  lemma NewPromiseKeepsMeaning(g: Graph, p: Promise, holder: Holder, goal: Outcome, rank: nat, ext: nat -> Outcome)
    requires Ok(g, ext)
    requires p !in g.ps
    requires !holder.CapturedBy?
    requires holder.External? ==> goal == ext(holder.i)
    ensures Meant(NewPromiseSpec(g, p, holder, goal, rank), ext)
  {
  }

  lemma GetFutureKeepsHeap(g: Graph, p: Promise, f: Future)
    requires HeapOk(g)
    requires p in g.ps && f !in g.fs
    requires g.ps[p].future == null && g.ps[p].task == null && g.ps[p].state == LocalOf(p)
    ensures HeapOk(GetFutureSpec(g, p, f))
  {
  }

  lemma GetFutureKeepsMeaning(g: Graph, p: Promise, f: Future, ext: nat -> Outcome)
    requires Ok(g, ext)
    requires p in g.ps && f !in g.fs
    requires g.ps[p].future == null && g.ps[p].task == null && g.ps[p].state == LocalOf(p)
    requires g.ps[p].local != Invalid
    ensures Meant(GetFutureSpec(g, p, f), ext)
  {
  }

  lemma TransferPromisesOk(g: Graph, src: Promise, dst: Promise, holder: Holder)
    requires HeapOk(g)
    requires src in g.ps && src != dst
    requires dst in g.ps ==> g.ps[dst].future == null && g.ps[dst].task == null && g.ps[dst].holder == holder
    requires dst !in g.ps ==> !holder.CapturedBy?
    ensures var h := TransferSpec(g, src, dst, holder); forall q <- h.ps :: PromiseOk(h, q)
  {
  }

  lemma TransferOthersOk(g: Graph, src: Promise, dst: Promise, holder: Holder)
    requires HeapOk(g)
    requires src in g.ps && src != dst
    requires dst in g.ps ==> g.ps[dst].future == null && g.ps[dst].task == null && g.ps[dst].holder == holder
    requires dst !in g.ps ==> !holder.CapturedBy?
    ensures var h := TransferSpec(g, src, dst, holder);
            (forall f <- h.fs :: FutureOk(h, f)) && (forall u <- h.ts :: TaskOk(h, u)) && QueueOk(h)
  {
  }

  lemma TransferKeepsHeap(g: Graph, src: Promise, dst: Promise, holder: Holder)
    requires HeapOk(g)
    requires src in g.ps && src != dst
    requires dst in g.ps ==> g.ps[dst].future == null && g.ps[dst].task == null && g.ps[dst].holder == holder
    requires dst !in g.ps ==> !holder.CapturedBy?
    ensures HeapOk(TransferSpec(g, src, dst, holder))
  {
    TransferPromisesOk(g, src, dst, holder);
    TransferOthersOk(g, src, dst, holder);
  }

  lemma TransferKeepsPromises(g: Graph, src: Promise, dst: Promise, holder: Holder, ext: nat -> Outcome)
    requires Ok(g, ext)
    requires src in g.ps && src != dst
    requires dst in g.ps ==> g.ps[dst].future == null && g.ps[dst].task == null && g.ps[dst].holder == holder
    requires dst !in g.ps ==> !holder.CapturedBy?
    requires Transferable(g, src, dst, holder, ext)
    ensures var h := TransferSpec(g, src, dst, holder); forall p <- h.ps :: PromiseMeant(h, p, ext)
  {
  }

  lemma TransferKeepsFutures(g: Graph, src: Promise, dst: Promise, holder: Holder, ext: nat -> Outcome)
    requires Ok(g, ext)
    requires src in g.ps && src != dst
    requires dst in g.ps ==> g.ps[dst].future == null && g.ps[dst].task == null && g.ps[dst].holder == holder
    requires dst !in g.ps ==> !holder.CapturedBy?
    requires Transferable(g, src, dst, holder, ext)
    ensures var h := TransferSpec(g, src, dst, holder); forall f <- h.fs :: FutureMeant(h, f)
  {
  }

  lemma TransferKeepsTasks(g: Graph, src: Promise, dst: Promise, holder: Holder, ext: nat -> Outcome)
    requires Ok(g, ext)
    requires src in g.ps && src != dst
    requires dst in g.ps ==> g.ps[dst].future == null && g.ps[dst].task == null && g.ps[dst].holder == holder
    requires dst !in g.ps ==> !holder.CapturedBy?
    requires Transferable(g, src, dst, holder, ext)
    ensures var h := TransferSpec(g, src, dst, holder); forall t <- h.ts :: TaskMeant(h, t, ext)
  {
  }

  lemma TransferKeepsMeaning(g: Graph, src: Promise, dst: Promise, holder: Holder, ext: nat -> Outcome)
    requires Ok(g, ext)
    requires src in g.ps && src != dst
    requires dst in g.ps ==> g.ps[dst].future == null && g.ps[dst].task == null && g.ps[dst].holder == holder
    requires dst !in g.ps ==> !holder.CapturedBy?
    requires Transferable(g, src, dst, holder, ext)
    ensures Meant(TransferSpec(g, src, dst, holder), ext)
    ensures Carried(g, TransferSpec(g, src, dst, holder), src, dst)
  {
    TransferKeepsPromises(g, src, dst, holder, ext);
    TransferKeepsFutures(g, src, dst, holder, ext);
    TransferKeepsTasks(g, src, dst, holder, ext);
    TransferCarries(g, src, dst, holder);
  }

  /** In h, the promise dst is what src was in g: for the same outcome, satisfied with the same value or not at all,
      for the same consumer; and every future refers to the same state as before. */
  ghost predicate Carried(g: Graph, h: Graph, src: Promise, dst: Promise) {
    && src in g.ps && dst in h.ps
    && (var r, s := g.ps[src], h.ps[dst];
        && s.goal == r.goal && s.rank == r.rank && s.future == r.future && s.task == r.task
        && (Unset(s) <==> Unset(r))
        && (if r.state == LocalOf(src) then s.state == LocalOf(dst) && s.local == r.local else s.state == r.state))
    && (forall f <- g.fs ::
          && f in h.fs && FutureOk(g, f) && FutureOk(h, f)
          && StateOf(h, f) == StateOf(g, f) && h.fs[f].goal == g.fs[f].goal)
  }

  lemma TransferCarries(g: Graph, src: Promise, dst: Promise, holder: Holder)
    requires HeapOk(g) && src in g.ps && src != dst
    requires dst in g.ps ==> g.ps[dst].future == null && g.ps[dst].task == null
    ensures PromiseOk(g, src) && Carried(g, TransferSpec(g, src, dst, holder), src, dst)
  {
  }

  lemma DropPromiseKeepsHeap(g: Graph, p: Promise)
    requires HeapOk(g)
    requires p in g.ps && !g.ps[p].holder.CapturedBy? && g.ps[p].task == null
    ensures HeapOk(DropPromiseSpec(g, p))
  {
  }

  lemma DropPromiseKeepsMeaning(g: Graph, p: Promise, ext: nat -> Outcome)
    requires Ok(g, ext)
    requires p in g.ps && !g.ps[p].holder.CapturedBy? && g.ps[p].task == null
    requires Unset(g.ps[p]) ==> g.ps[p].future == null
    ensures Meant(DropPromiseSpec(g, p), ext)
  {
  }

  lemma SetLocalKeepsHeap(g: Graph, p: Promise, o: Outcome)
    requires HeapOk(g)
    requires p in g.ps && g.ps[p].task == null && Unset(g.ps[p])
    ensures HeapOk(SetSpec(g, p, o))
  {
  }

  lemma SetLocalKeepsMeaning(g: Graph, p: Promise, o: Outcome, ext: nat -> Outcome)
    requires Ok(g, ext)
    requires p in g.ps && g.ps[p].task == null
    requires Settable(g, p, o)
    ensures Meant(SetSpec(g, p, o), ext)
  {
  }

  lemma SetTaskKeepsHeap(g: Graph, p: Promise, o: Outcome)
    requires HeapOk(g)
    requires p in g.ps && g.ps[p].task != null
    ensures HeapOk(SetSpec(g, p, o))
  {
  }

  lemma SetKeepsHeap(g: Graph, p: Promise, o: Outcome)
    requires HeapOk(g) && p in g.ps && Unset(g.ps[p])
    ensures PromiseOk(g, p) && HeapOk(SetSpec(g, p, o))
  {
    PromiseOkAt(g, p);
    if g.ps[p].task != null {
      SetTaskKeepsHeap(g, p, o);
    } else {
      SetLocalKeepsHeap(g, p, o);
    }
  }

  lemma SetTaskKeepsMeaning(g: Graph, p: Promise, o: Outcome, ext: nat -> Outcome)
    requires Ok(g, ext)
    requires p in g.ps && g.ps[p].task != null
    requires Settable(g, p, o)
    ensures Meant(SetSpec(g, p, o), ext)
  {
  }

  lemma NewReadyKeepsHeap(g: Graph, f: Future, o: Outcome)
    requires HeapOk(g)
    requires f !in g.fs
    ensures HeapOk(NewReadySpec(g, f, o))
  {
  }

  lemma NewReadyKeepsMeaning(g: Graph, f: Future, o: Outcome, ext: nat -> Outcome)
    requires Ok(g, ext)
    requires f !in g.fs
    ensures Meant(NewReadySpec(g, f, o), ext)
  {
  }

  lemma MoveFutureKeepsHeap(g: Graph, x: Future, y: Future)
    requires HeapOk(g)
    requires x in g.fs && y !in g.fs
    ensures HeapOk(MoveFutureSpec(g, x, y))
  {
  }

  lemma MoveFutureKeepsMeaning(g: Graph, x: Future, y: Future, ext: nat -> Outcome)
    requires Ok(g, ext)
    requires x in g.fs && y !in g.fs
    ensures Meant(MoveFutureSpec(g, x, y), ext)
  {
  }

  lemma DropFutureKeepsHeap(g: Graph, f: Future)
    requires HeapOk(g)
    requires f in g.fs
    ensures HeapOk(DropFutureSpec(g, f))
  {
  }

  lemma DropFutureKeepsMeaning(g: Graph, f: Future, ext: nat -> Outcome)
    requires Ok(g, ext)
    requires f in g.fs
    ensures Meant(DropFutureSpec(g, f), ext)
  {
  }

  lemma TakeKeepsHeap(g: Graph, f: Future)
    requires HeapOk(g)
    requires f in g.fs
    ensures HeapOk(TakeSpec(g, f))
  {
  }

  lemma TakeKeepsMeaning(g: Graph, f: Future, ext: nat -> Outcome)
    requires Ok(g, ext)
    requires f in g.fs
    requires StateOf(g, f).Resolved?
    ensures Meant(TakeSpec(g, f), ext)
  {
  }

  lemma UnlinkKeepsHeap(g: Graph, f: Future)
    requires HeapOk(g)
    requires f in g.fs && g.fs[f].promise != null
    ensures HeapOk(UnlinkSpec(g, f))
  {
  }

  lemma UnlinkKeepsMeaning(g: Graph, f: Future, ext: nat -> Outcome)
    requires Ok(g, ext)
    requires f in g.fs && g.fs[f].promise != null
    ensures Meant(UnlinkSpec(g, f), ext)
  {
  }

  lemma EnqueueKeepsHeap(g: Graph, t: Continuation, r: TRec)
    requires HeapOk(g)
    requires t !in g.ts && r.func.pr in g.ps && Free(g.ps[r.func.pr])
    requires r.slot == Queued && r.state.Resolved?
    ensures HeapOk(EnqueueSpec(g, t, r))
  {
    EnqueuedTasksOk(g, t, r);
    var h := EnqueueSpec(g, t, r);
    assert forall p <- h.ps :: PromiseOk(h, p);
    assert forall f <- h.fs :: FutureOk(h, f);
    hide PromiseOk, FutureOk, TaskOk, QueueOk, EnqueueSpec;
  }

  lemma EnqueuedTasksOk(g: Graph, t: Continuation, r: TRec)
    requires HeapOk(g)
    requires t !in g.ts && r.func.pr in g.ps && Free(g.ps[r.func.pr])
    requires r.slot == Queued && r.state.Resolved?
    ensures var h := EnqueueSpec(g, t, r); (forall u <- h.ts :: TaskOk(h, u)) && QueueOk(h)
  {
  }

  lemma EnqueueKeepsMeaning(g: Graph, t: Continuation, r: TRec, ext: nat -> Outcome)
    requires Ok(g, ext)
    requires t !in g.ts && r.func.pr in g.ps && Free(g.ps[r.func.pr])
    requires r.slot == Queued && r.state.Resolved?
    requires r.state == Resolved(r.input)
    requires Fits(g, r.func, r.input, ext)
    ensures Meant(EnqueueSpec(g, t, r), ext)
  {
  }

  lemma WaitPromisesOk(g: Graph, p: Promise, t: Continuation, fn: Func)
    requires HeapOk(g)
    requires p in g.ps && t !in g.ts && fn.pr in g.ps && Free(g.ps[fn.pr]) && fn.pr != p
    requires g.ps[p].future == null && g.ps[p].task == null && !g.ps[p].local.Resolved?
    ensures var h := WaitSpec(g, p, t, fn); forall q <- h.ps :: PromiseOk(h, q)
  {
  }

  lemma WaitOthersOk(g: Graph, p: Promise, t: Continuation, fn: Func)
    requires HeapOk(g)
    requires p in g.ps && t !in g.ts && fn.pr in g.ps && Free(g.ps[fn.pr]) && fn.pr != p
    requires g.ps[p].future == null && g.ps[p].task == null && !g.ps[p].local.Resolved?
    ensures var h := WaitSpec(g, p, t, fn);
            (forall f <- h.fs :: FutureOk(h, f)) && (forall u <- h.ts :: TaskOk(h, u)) && QueueOk(h)
  {
  }

  lemma WaitKeepsHeap(g: Graph, p: Promise, t: Continuation, fn: Func)
    requires HeapOk(g)
    requires p in g.ps && t !in g.ts && fn.pr in g.ps && Free(g.ps[fn.pr]) && fn.pr != p
    requires g.ps[p].future == null && g.ps[p].task == null && !g.ps[p].local.Resolved?
    ensures HeapOk(WaitSpec(g, p, t, fn))
  {
    WaitPromisesOk(g, p, t, fn);
    WaitOthersOk(g, p, t, fn);
    hide PromiseOk, FutureOk, TaskOk, QueueOk, WaitSpec;
  }

  lemma WaitKeepsPromises(g: Graph, p: Promise, t: Continuation, fn: Func, ext: nat -> Outcome)
    requires Ok(g, ext)
    requires p in g.ps && t !in g.ts && fn.pr in g.ps && Free(g.ps[fn.pr]) && fn.pr != p
    requires g.ps[p].future == null && g.ps[p].task == null
    requires Unset(g.ps[p])
    requires Fits(g, fn, g.ps[p].goal, ext) && g.ps[p].rank < g.ps[fn.pr].rank
    ensures var h := WaitSpec(g, p, t, fn); forall q <- h.ps :: PromiseMeant(h, q, ext)
  {
  }

  lemma WaitKeepsFutures(g: Graph, p: Promise, t: Continuation, fn: Func, ext: nat -> Outcome)
    requires Ok(g, ext)
    requires p in g.ps && t !in g.ts && fn.pr in g.ps && Free(g.ps[fn.pr]) && fn.pr != p
    requires g.ps[p].future == null && g.ps[p].task == null
    requires Unset(g.ps[p])
    requires Fits(g, fn, g.ps[p].goal, ext) && g.ps[p].rank < g.ps[fn.pr].rank
    ensures var h := WaitSpec(g, p, t, fn); forall f <- h.fs :: FutureMeant(h, f)
  {
  }

  lemma WaitKeepsTasks(g: Graph, p: Promise, t: Continuation, fn: Func, ext: nat -> Outcome)
    requires Ok(g, ext)
    requires p in g.ps && t !in g.ts && fn.pr in g.ps && Free(g.ps[fn.pr]) && fn.pr != p
    requires g.ps[p].future == null && g.ps[p].task == null
    requires Unset(g.ps[p])
    requires Fits(g, fn, g.ps[p].goal, ext) && g.ps[p].rank < g.ps[fn.pr].rank
    ensures var h := WaitSpec(g, p, t, fn); forall u <- h.ts :: TaskMeant(h, u, ext)
  {
  }

  lemma WaitKeepsMeaning(g: Graph, p: Promise, t: Continuation, fn: Func, ext: nat -> Outcome)
    requires Ok(g, ext)
    requires p in g.ps && t !in g.ts && fn.pr in g.ps && Free(g.ps[fn.pr]) && fn.pr != p
    requires g.ps[p].future == null && g.ps[p].task == null
    requires Unset(g.ps[p])
    requires Fits(g, fn, g.ps[p].goal, ext) && g.ps[p].rank < g.ps[fn.pr].rank
    ensures Meant(WaitSpec(g, p, t, fn), ext)
  {
    WaitKeepsPromises(g, p, t, fn, ext);
    WaitKeepsFutures(g, p, t, fn, ext);
    WaitKeepsTasks(g, p, t, fn, ext);
  }

  lemma StartKeepsHeap(g: Graph)
    requires HeapOk(g)
    requires |g.queue| > 0
    ensures HeapOk(StartSpec(g))
  {
  }

  lemma StartKeepsMeaning(g: Graph, ext: nat -> Outcome)
    requires Ok(g, ext)
    requires |g.queue| > 0
    ensures Meant(StartSpec(g), ext)
  {
  }

  lemma FinishKeepsHeap(g: Graph, t: Continuation)
    requires HeapOk(g)
    requires t in g.ts && g.ts[t].slot == Running && g.ps[g.ts[t].func.pr].task == null
    ensures HeapOk(FinishSpec(g, t))
  {
    var h := FinishSpec(g, t);
    FinishedTasksOk(g, t);
    assert forall p <- h.ps :: PromiseOk(h, p);
    assert forall f <- h.fs :: FutureOk(h, f);
    hide PromiseOk, FutureOk, TaskOk, QueueOk, FinishSpec;
  }

  lemma FinishedTasksOk(g: Graph, t: Continuation)
    requires HeapOk(g)
    requires t in g.ts && g.ts[t].slot == Running && g.ps[g.ts[t].func.pr].task == null
    ensures var h := FinishSpec(g, t); (forall u <- h.ts :: TaskOk(h, u)) && QueueOk(h)
  {
  }

  lemma FinishKeepsMeaning(g: Graph, t: Continuation, ext: nat -> Outcome)
    requires Ok(g, ext)
    requires t in g.ts && g.ts[t].slot == Running && g.ps[g.ts[t].func.pr].task == null
    requires !Unset(g.ps[g.ts[t].func.pr])
    ensures Meant(FinishSpec(g, t), ext)
  {
  }

  // ---------------------------------------------------------------------------------------------
  // Destroying a promise somebody waits for

  /** The waiting task of p leaves it, to be destroyed. */
  ghost function DetachSpec(g: Graph, p: Promise): Graph
    requires p in g.ps && PromiseOk(g, p) && g.ps[p].task != null
  {
    var r := g.ps[p];
    g.(ps := g.ps[p := r.(state := NullState, task := null)],
       ts := g.ts[r.task := g.ts[r.task].(slot := Running)])
  }

  lemma DetachKeepsHeap(g: Graph, p: Promise)
    requires HeapOk(g) && p in g.ps && g.ps[p].task != null
    ensures HeapOk(DetachSpec(g, p))
  {
    DetachedTasksOk(g, p);
    var h := DetachSpec(g, p);
    assert forall q <- h.ps :: PromiseOk(h, q);
    assert forall f <- h.fs :: FutureOk(h, f);
    hide PromiseOk, FutureOk, TaskOk, QueueOk, DetachSpec;
  }

  lemma DetachedTasksOk(g: Graph, p: Promise)
    requires HeapOk(g) && p in g.ps && g.ps[p].task != null
    ensures var h := DetachSpec(g, p); (forall t <- h.ts :: TaskOk(h, t)) && QueueOk(h)
  {
  }

  lemma DetachedObjects(g: Graph, p: Promise)
    requires p in g.ps && PromiseOk(g, p) && g.ps[p].task != null
    ensures var h := DetachSpec(g, p);
            && Objects(h) == Objects(g) && p in Objects(g)
            && (PromiseOk(h, p) ==> Objects(DropPromiseSpec(h, p)) <= Objects(g))
  {
    assert DetachSpec(g, p).ts.Keys == g.ts.Keys;
  }

  lemma FinishedObjects(g: Graph, t: Continuation)
    requires t in g.ts && g.ts[t].func.pr in g.ps && PromiseOk(g, g.ts[t].func.pr)
    ensures Objects(FinishSpec(g, t)) <= Objects(g)
  {
  }

  lemma TaskOkAt(g: Graph, t: Continuation)
    requires HeapOk(g) && t in g.ts
    ensures TaskOk(g, t) && PromiseOk(g, g.ts[t].func.pr)
  {
  }

  /** A task is destroyed, with the promise it captured, and with whatever waits there, and so on. */
  ghost function DiscardSpec(g: Graph, t: Continuation): Graph
    requires HeapOk(g) && t in g.ts && g.ts[t].slot == Running
    decreases |g.ts|
  {
    TaskOkAt(g, t);
    var p := g.ts[t].func.pr;
    var u := g.ps[p].task;
    if u == null then FinishSpec(g, t)
    else
      DetachedThenFinished(g, t);
      DiscardSpec(FinishSpec(DetachSpec(g, p), t), u)
  }

  /** One link of the chain that is destroyed. */
  lemma DetachedThenFinished(g: Graph, t: Continuation)
    requires HeapOk(g) && t in g.ts && g.ts[t].slot == Running
    requires g.ts[t].func.pr in g.ps && g.ps[g.ts[t].func.pr].task != null
    ensures var p := g.ts[t].func.pr; var u := g.ps[p].task;
            && PromiseOk(g, p) && PromiseOk(DetachSpec(g, p), p)
            && var h := FinishSpec(DetachSpec(g, p), t);
            && HeapOk(h) && u in h.ts && h.ts[u].slot == Running && |h.ts| < |g.ts| && h.queue == g.queue
            && (forall q <- h.ps :: q in g.ps && h.ps[q] == g.ps[q])
  {
    TaskOkAt(g, t);
    var p := g.ts[t].func.pr;
    DetachKeepsHeap(g, p);
    PromiseOkAt(DetachSpec(g, p), p);
    FinishKeepsHeap(DetachSpec(g, p), t);
    hide HeapOk;
    assert FinishSpec(DetachSpec(g, p), t).ts.Keys == g.ts.Keys - {t};
  }

  /** What is destroyed leaves the other promises, and the queue, as they were, and the heap invariant in force. */
  lemma {:induction false} DiscardKeepsHeap(g: Graph, t: Continuation)
    requires HeapOk(g) && t in g.ts && g.ts[t].slot == Running
    ensures var h := DiscardSpec(g, t);
            HeapOk(h) && h.queue == g.queue && forall q <- h.ps :: q in g.ps && h.ps[q] == g.ps[q]
    decreases |g.ts|
  {
    TaskOkAt(g, t);
    var p := g.ts[t].func.pr;
    if g.ps[p].task == null {
      FinishKeepsHeap(g, t);
    } else {
      DetachedThenFinished(g, t);
      hide HeapOk;
      DiscardKeepsHeap(FinishSpec(DetachSpec(g, p), t), g.ps[p].task);
    }
  }

  /** ~promise(), whoever waits for it: the state goes to the future, and a waiting task is destroyed. */
  ghost function DestroySpec(g: Graph, p: Promise): Graph
    requires HeapOk(g) && p in g.ps && !g.ps[p].holder.CapturedBy?
  {
    if g.ps[p].task == null then
      PromiseOkAt(g, p);
      DropPromiseSpec(g, p)
    else
      DetachedThenDropped(g, p);
      DiscardSpec(DropPromiseSpec(DetachSpec(g, p), p), g.ps[p].task)
  }

  lemma DetachedThenDropped(g: Graph, p: Promise)
    requires HeapOk(g) && p in g.ps && !g.ps[p].holder.CapturedBy? && g.ps[p].task != null
    ensures PromiseOk(g, p) && PromiseOk(DetachSpec(g, p), p)
    ensures var h := DropPromiseSpec(DetachSpec(g, p), p);
            HeapOk(h) && g.ps[p].task in h.ts && h.ts[g.ps[p].task].slot == Running && h.queue == g.queue
  {
    PromiseOkAt(g, p);
    DetachKeepsHeap(g, p);
    PromiseOkAt(DetachSpec(g, p), p);
    DropPromiseKeepsHeap(DetachSpec(g, p), p);
  }

  lemma DestroyKeepsHeap(g: Graph, p: Promise)
    requires HeapOk(g) && p in g.ps && !g.ps[p].holder.CapturedBy?
    ensures HeapOk(DestroySpec(g, p))
  {
    hide HeapOk;
    if g.ps[p].task == null {
      DropPromiseKeepsHeap(g, p);
    } else {
      DetachedThenDropped(g, p);
      DiscardKeepsHeap(DropPromiseSpec(DetachSpec(g, p), p), g.ps[p].task);
    }
  }

  /** The storage of p, whose value was left to its future, or whose waiting task was destroyed. */
  ghost function ClearedSpec(g: Graph, p: Promise): Graph
    requires HeapOk(g) && p in g.ps
  {
    PromiseOkAt(g, p);
    var r := g.ps[p];
    if r.task != null then
      DetachKeepsHeap(g, p);
      DiscardSpec(DetachSpec(g, p), r.task)
    else if r.future != null then
      g.(ps := g.ps[p := r.(future := null, local := Invalid)],
         fs := g.fs[r.future := g.fs[r.future].(promise := null, local := r.local)])
    else g
  }

  lemma ClearedKeepsHeap(g: Graph, p: Promise)
    requires HeapOk(g) && p in g.ps
    ensures var h := ClearedSpec(g, p);
            && HeapOk(h) && (p in h.ps ==> h.ps[p].future == null && h.ps[p].task == null)
            && (forall q <- h.ps :: q in g.ps && (q != p ==> h.ps[q] == g.ps[q]) && h.ps[q].holder == g.ps[q].holder)
  {
    PromiseOkAt(g, p);
    if g.ps[p].task != null {
      hide HeapOk;
      DetachKeepsHeap(g, p);
      DiscardKeepsHeap(DetachSpec(g, p), g.ps[p].task);
    }
  }

  /** Both promises outlive what destroying the old value of dst destroys. */
  ghost predicate Assignable(g: Graph, src: Promise, dst: Promise) {
    && HeapOk(g) && src in g.ps && dst in g.ps
    && (src != dst ==> src in ClearedSpec(g, dst).ps && dst in ClearedSpec(g, dst).ps)
  }

  /** operator=(promise&&): the old value of dst is destroyed, and that of src moves in; assigning a promise to
      itself does nothing. */
  ghost function AssignSpec(g: Graph, src: Promise, dst: Promise): Graph
    requires Assignable(g, src, dst)
  {
    if src == dst then g
    else
      var h := ClearedSpec(g, dst);
      ClearedKeepsHeap(g, dst);
      PromiseOkAt(h, src);
      TransferSpec(h, src, dst, h.ps[dst].holder)
  }

  lemma AssignKeepsHeap(g: Graph, src: Promise, dst: Promise)
    requires Assignable(g, src, dst)
    ensures HeapOk(AssignSpec(g, src, dst))
  {
    hide HeapOk;
    if src != dst {
      ClearedKeepsHeap(g, dst);
      var h := ClearedSpec(g, dst);
      TransferKeepsHeap(h, src, dst, h.ps[dst].holder);
    }
  }

  // ---------------------------------------------------------------------------------------------
  // How much is left to run

  ghost function TaskWork(r: TRec): nat {
    BodySize(r.func.body)
  }

  ghost function PromiseWork(r: PRec): nat {
    if r.holder.External? then if Unset(r) then 2 else 1 else 0
  }

  /** A bound on the tasks still to run plus the external events still to come. */
  ghost function Work(g: Graph): nat {
    SumOver(g.ts, TaskWork) + SumOver(g.ps, PromiseWork)
  }

  lemma NewPromiseWork(g: Graph, p: Promise, holder: Holder, goal: Outcome, rank: nat)
    requires p !in g.ps
    ensures Work(NewPromiseSpec(g, p, holder, goal, rank)) == Work(g) + if holder.External? then 2 else 0
  {
    SumUpdate<Promise, PRec>(g.ps, PromiseWork, p, PRec(null, Unresolved, LocalOf(p), null, holder, goal, rank));
  }

  lemma GetFutureWork(g: Graph, p: Promise, f: Future)
    requires p in g.ps
    ensures Work(GetFutureSpec(g, p, f)) == Work(g)
  {
    SumUpdate<Promise, PRec>(g.ps, PromiseWork, p, g.ps[p].(future := f));
  }

  lemma RepointWork(g: Graph, r: PRec, y: Promise)
    requires r.future != null ==> r.future in g.fs
    requires r.task != null ==> r.task in g.ts
    ensures Work(Repoint(g, r, y)) == Work(g)
  {
    if r.task != null {
      SumUpdate<Continuation, TRec>(g.ts, TaskWork, r.task, g.ts[r.task].(slot := AttachedTo(y)));
    }
  }

  lemma TransferWork(g: Graph, src: Promise, dst: Promise, holder: Holder)
    requires src in g.ps && PromiseOk(g, src) && src != dst && !g.ps[src].holder.External?
    requires if dst in g.ps then Unset(g.ps[src]) && Unset(g.ps[dst]) && holder == g.ps[dst].holder
             else !holder.External?
    ensures Work(TransferSpec(g, src, dst, holder)) == Work(g)
  {
    var r := g.ps[src];
    RepointWork(g, r, dst);
    var moved := MovedRec(r, src, dst).(holder := holder);
    SumUpdate<Promise, PRec>(g.ps, PromiseWork, dst, moved);
    SumUpdate<Promise, PRec>(g.ps[dst := moved], PromiseWork, src, EmptiedRec(r, src));
  }

  lemma DropPromiseWork(g: Graph, p: Promise)
    requires p in g.ps && PromiseOk(g, p)
    ensures Work(DropPromiseSpec(g, p)) == Work(g) - PromiseWork(g.ps[p])
  {
    SumRemove<Promise, PRec>(g.ps, PromiseWork, p);
  }

  lemma SetWork(g: Graph, p: Promise, o: Outcome)
    requires p in g.ps && PromiseOk(g, p) && Unset(g.ps[p])
    ensures Work(SetSpec(g, p, o)) == Work(g) - if g.ps[p].holder.External? then 1 else 0
  {
    var r := g.ps[p];
    if r.task != null {
      SumUpdate<Promise, PRec>(g.ps, PromiseWork, p, r.(state := NullState, task := null));
      SumUpdate<Continuation, TRec>(g.ts, TaskWork, r.task, g.ts[r.task].(state := Resolved(o), slot := Queued));
    } else {
      SumUpdate<Promise, PRec>(g.ps, PromiseWork, p, r.(local := Resolved(o)));
    }
  }

  lemma DropFutureWork(g: Graph, f: Future)
    requires f in g.fs && FutureOk(g, f)
    ensures Work(DropFutureSpec(g, f)) == Work(g)
  {
    var p := g.fs[f].promise;
    if p != null {
      SumUpdate<Promise, PRec>(g.ps, PromiseWork, p, g.ps[p].(future := null));
    }
  }

  lemma TakeWork(g: Graph, f: Future)
    requires f in g.fs && FutureOk(g, f) && StateOf(g, f).Resolved?
    ensures Work(TakeSpec(g, f)) == Work(g)
  {
    var p := g.fs[f].promise;
    if p != null {
      SumUpdate<Promise, PRec>(g.ps, PromiseWork, p, g.ps[p].(local := Invalid));
    }
  }

  lemma UnlinkWork(g: Graph, f: Future)
    requires f in g.fs && FutureOk(g, f) && g.fs[f].promise != null
    ensures Work(UnlinkSpec(g, f)) == Work(g)
  {
    var p := g.fs[f].promise;
    SumUpdate<Promise, PRec>(g.ps, PromiseWork, p, g.ps[p].(future := null));
  }

  lemma EnqueueWork(g: Graph, t: Continuation, r: TRec)
    requires t !in g.ts && r.func.pr in g.ps && Free(g.ps[r.func.pr])
    ensures Work(EnqueueSpec(g, t, r)) == Work(g) + BodySize(r.func.body)
  {
    SumUpdate<Promise, PRec>(g.ps, PromiseWork, r.func.pr, g.ps[r.func.pr].(holder := CapturedBy(t)));
    SumUpdate<Continuation, TRec>(g.ts, TaskWork, t, r);
  }

  lemma WaitWork(g: Graph, p: Promise, t: Continuation, fn: Func)
    requires p in g.ps && t !in g.ts && fn.pr in g.ps && Free(g.ps[fn.pr]) && fn.pr != p && Unset(g.ps[p])
    ensures Work(WaitSpec(g, p, t, fn)) == Work(g) + BodySize(fn.body)
  {
    var r := g.ps[p].(state := InTask(t), task := t);
    SumUpdate<Promise, PRec>(g.ps, PromiseWork, p, r);
    SumUpdate<Promise, PRec>(g.ps[p := r], PromiseWork, fn.pr, g.ps[fn.pr].(holder := CapturedBy(t)));
    SumUpdate<Continuation, TRec>(g.ts, TaskWork, t, TRec(Unresolved, fn, AttachedTo(p), g.ps[p].goal));
  }

  lemma StartWork(g: Graph)
    requires |g.queue| > 0 && g.queue[0] in g.ts
    ensures Work(StartSpec(g)) == Work(g)
  {
    var t := g.queue[0];
    SumUpdate<Continuation, TRec>(g.ts, TaskWork, t, g.ts[t].(slot := Running));
  }

  lemma FinishWork(g: Graph, t: Continuation)
    requires t in g.ts && g.ts[t].func.pr in g.ps && PromiseOk(g, g.ts[t].func.pr)
    requires !g.ps[g.ts[t].func.pr].holder.External?
    ensures Work(FinishSpec(g, t)) == Work(g) - BodySize(g.ts[t].func.body)
  {
    DropPromiseWork(g, g.ts[t].func.pr);
    SumRemove<Continuation, TRec>(g.ts, TaskWork, t);
  }

  // ---------------------------------------------------------------------------------------------
  // Attaching a continuation

  /** g is g0 with new objects and new tasks at the back of the queue.  The new promises are in `outside`,
      or else captured; only the old objects in `but` and `besides` may have changed. */
  ghost predicate Grown(g0: Graph, g: Graph, but: set<Promise>, besides: set<Future>, outside: map<Promise, nat>) {
    GrownPromises(g0, g, but, outside) && GrownFutures(g0, g, besides) && GrownTasks(g0, g)
  }

  ghost predicate GrownPromises(g0: Graph, g: Graph, but: set<Promise>, outside: map<Promise, nat>) {
    && (forall p <- g0.ps :: p in g.ps && g.ps[p].holder == g0.ps[p].holder)
    && (forall p <- g0.ps :: p !in but ==> g.ps[p] == g0.ps[p])
    && (forall p <- g.ps :: p in g0.ps || if p in outside then g.ps[p].holder == External(outside[p])
                                     else g.ps[p].holder.CapturedBy?)
    && (forall p <- outside.Keys :: p in g.ps && p !in g0.ps)
  }

  ghost predicate GrownFutures(g0: Graph, g: Graph, besides: set<Future>) {
    && (forall f <- g0.fs :: f in g.fs)
    && (forall f <- g0.fs :: f !in besides ==> g.fs[f] == g0.fs[f])
  }

  ghost predicate GrownTasks(g0: Graph, g: Graph) {
    && (forall t <- g0.ts :: t in g.ts && g.ts[t] == g0.ts[t])
    && (forall t <- g.ts :: t in g0.ts || g.ts[t].slot != Running)
    && g0.queue <= g.queue
  }

  /** f is an unspent future of a logical value with this goal and at most this rank. */
  ghost predicate Promises(g: Graph, f: Future, goal: Outcome, rank: nat) {
    f in g.fs && !g.fs[f].spent && g.fs[f].goal == goal && g.fs[f].rank <= rank
  }

  /** What future::schedule() needs. */
  ghost predicate Schedulable(g: Graph, f: Future, t: Continuation, fn: Func, ext: nat -> Outcome) {
    && f in g.fs && !g.fs[f].spent && t !in g.ts
    && fn.pr in g.ps && Free(g.ps[fn.pr]) && fn.pr != g.fs[f].promise
    && Fits(g, fn, g.fs[f].goal, ext) && g.fs[f].rank < g.ps[fn.pr].rank
  }

  /** An external promise as it is before its future is taken. */
  ghost function InputRec(p: Promise, i: nat, goal: Outcome, early: bool): PRec {
    PRec(null, if early then Resolved(goal) else Unresolved, LocalOf(p), null, External(i), goal, 1)
  }

  /** The heap invariant, at one future and the promise behind it. */
  lemma FutureOkAt(g: Graph, f: Future)
    requires HeapOk(g) && f in g.fs
    ensures FutureOk(g, f) && (g.fs[f].promise != null ==> PromiseOk(g, g.fs[f].promise))
  {
  }

  lemma FutureMeantAt(g: Graph, f: Future, ext: nat -> Outcome)
    requires Meant(g, ext) && f in g.fs
    ensures FutureMeant(g, f)
  {
  }

  lemma ObjectsAt(g: Graph, p: Promise)
    requires p in g.ps && PromiseOk(g, p)
    ensures p in Objects(g)
    ensures g.ps[p].future != null ==> g.ps[p].future in Objects(g)
    ensures g.ps[p].task != null ==> g.ps[p].task in Objects(g)
  {
  }

  lemma PromiseOkAt(g: Graph, p: Promise)
    requires HeapOk(g) && p in g.ps
    ensures PromiseOk(g, p)
    ensures g.ps[p].task != null ==> TaskOk(g, g.ps[p].task)
  {
  }

  lemma UnspentState(g: Graph, f: Future, ext: nat -> Outcome)
    requires Ok(g, ext) && f in g.fs && !g.fs[f].spent
    ensures StateOf(g, f) == Resolved(g.fs[f].goal) || (StateOf(g, f) == Unresolved && g.fs[f].promise != null)
    ensures g.fs[f].promise != null && StateOf(g, f) == Unresolved ==> Unset(g.ps[g.fs[f].promise])
  {
  }

  lemma ScheduleKeeps(g: Graph, f: Future, t: Continuation, fn: Func, ext: nat -> Outcome)
    requires Ok(g, ext) && Schedulable(g, f, t, fn, ext)
    ensures StateOf(g, f).Resolved? || g.fs[f].promise != null
    ensures Ok(ScheduleSpec(g, f, t, fn), ext)
    ensures Work(ScheduleSpec(g, f, t, fn)) == Work(g) + BodySize(fn.body)
  {
    UnspentState(g, f, ext);
    if StateOf(g, f).Resolved? {
      TakeKeepsHeap(g, f);
      TakeKeepsMeaning(g, f, ext);
      TakeWork(g, f);
      var h := TakeSpec(g, f);
      var r := TRec(StateOf(g, f), fn, Queued, g.fs[f].goal);
      EnqueueKeepsHeap(h, t, r);
      EnqueueKeepsMeaning(h, t, r, ext);
      EnqueueWork(h, t, r);
    } else {
      UnlinkKeepsHeap(g, f);
      UnlinkKeepsMeaning(g, f, ext);
      UnlinkWork(g, f);
      var h := UnlinkSpec(g, f);
      WaitKeepsHeap(h, g.fs[f].promise, t, fn);
      WaitKeepsMeaning(h, g.fs[f].promise, t, fn, ext);
      WaitWork(h, g.fs[f].promise, t, fn);
    }
  }

  /** The new promise, its future, and the promise object that the continuation captures. */
  ghost function PairSpec(g: Graph, pr: Promise, fut: Future, y: Promise, goal: Outcome, rank: nat): Graph
    requires HeapOk(g) && pr !in g.ps && fut !in g.fs
  {
    var g2 := GetFutureSpec(NewPromiseSpec(g, pr, OnStack, goal, rank), pr, fut);
    TransferSpec(g2, pr, y, OnStack)
  }

  /** h is g with a pending pair of promise y and future fut, and the moved-from promise pr. */
  ghost predicate Paired(g: Graph, h: Graph, pr: Promise, fut: Future, y: Promise, goal: Outcome, rank: nat) {
    && pr !in g.ps && y !in g.ps && y != pr && fut !in g.fs
    && h.ps == g.ps[y := PRec(fut, Unresolved, LocalOf(y), null, OnStack, goal, rank)]
                   [pr := PRec(null, Invalid, NullState, null, OnStack, goal, rank)]
    && h.fs == g.fs[fut := FRec(y, Unresolved, goal, rank, false)]
    && h.ts == g.ts && h.queue == g.queue
  }

  lemma PairShape(g: Graph, pr: Promise, fut: Future, y: Promise, goal: Outcome, rank: nat)
    requires HeapOk(g) && pr !in g.ps && y !in g.ps && y != pr && fut !in g.fs
    ensures Paired(g, PairSpec(g, pr, fut, y, goal, rank), pr, fut, y, goal, rank)
  {
  }

  lemma PairKeeps(g: Graph, pr: Promise, fut: Future, y: Promise, goal: Outcome, rank: nat, ext: nat -> Outcome)
    requires Ok(g, ext) && pr !in g.ps && y !in g.ps && y != pr && fut !in g.fs
    ensures var h := PairSpec(g, pr, fut, y, goal, rank);
            Ok(h, ext) && Work(h) == Work(g)
  {
    var g1 := NewPromiseSpec(g, pr, OnStack, goal, rank);
    NewPromiseKeepsHeap(g, pr, OnStack, goal, rank);
    NewPromiseKeepsMeaning(g, pr, OnStack, goal, rank, ext);
    NewPromiseWork(g, pr, OnStack, goal, rank);
    var g2 := GetFutureSpec(g1, pr, fut);
    GetFutureKeepsHeap(g1, pr, fut);
    GetFutureKeepsMeaning(g1, pr, fut, ext);
    GetFutureWork(g1, pr, fut);
    TransferKeepsHeap(g2, pr, y, OnStack);
    TransferKeepsMeaning(g2, pr, y, OnStack, ext);
    TransferWork(g2, pr, y, OnStack);
  }

  /** Only f, the promise behind it and the captured promise changed, and t is new. */
  ghost predicate Scheduled(g: Graph, h: Graph, f: Future, t: Continuation, fn: Func)
    requires f in g.fs && fn.pr in g.ps
  {
    && h.ps.Keys == g.ps.Keys && h.fs.Keys == g.fs.Keys && h.ts.Keys == g.ts.Keys + {t}
    && (forall p <- g.ps :: p != g.fs[f].promise && p != fn.pr ==> h.ps[p] == g.ps[p])
    && (forall p <- g.ps :: p != fn.pr ==> h.ps[p].holder == g.ps[p].holder)
    && h.ps[fn.pr] == g.ps[fn.pr].(holder := CapturedBy(t))
    && (forall e <- g.fs :: e != f ==> h.fs[e] == g.fs[e])
    && (forall u <- g.ts :: h.ts[u] == g.ts[u]) && h.ts[t].slot != Running
    && g.queue <= h.queue
  }

  lemma ScheduleGrows(g: Graph, f: Future, t: Continuation, fn: Func)
    requires f in g.fs && FutureOk(g, f) && t !in g.ts && fn.pr in g.ps && fn.pr != g.fs[f].promise
    requires StateOf(g, f).Resolved? || g.fs[f].promise != null
    ensures Scheduled(g, ScheduleSpec(g, f, t, fn), f, t, fn)
  {
  }

  /** The promises a future refers to. */
  ghost function Behind(g: Graph, f: Future): set<Promise>
    requires f in g.fs
  {
    if g.fs[f].promise != null then {g.fs[f].promise} else {}
  }

  lemma AttachGrows(g: Graph, h: Graph, i: Graph, f: Future, pr: Promise, fut: Future, t: Continuation, fn: Func,
                    goal: Outcome, rank: nat)
    requires f in g.fs && g.fs[f].promise != pr && g.fs[f].promise != fn.pr && t !in g.ts
    requires Paired(g, h, pr, fut, fn.pr, goal, rank) && Scheduled(h, i, f, t, fn)
    requires PromiseOk(i, pr)
    ensures Grown(g, DropPromiseSpec(i, pr), Behind(g, f), {f}, map[])
    ensures var k := DropPromiseSpec(i, pr); Promises(k, fut, goal, rank) && k.fs[fut].promise == fn.pr
  {
  }

  lemma AttachObjects(g: Graph, h: Graph, i: Graph, f: Future, pr: Promise, fut: Future, t: Continuation, fn: Func,
                      goal: Outcome, rank: nat)
    requires f in g.fs && Paired(g, h, pr, fut, fn.pr, goal, rank) && Scheduled(h, i, f, t, fn)
    requires PromiseOk(i, pr)
    ensures Objects(DropPromiseSpec(i, pr)) == Objects(g) + {fn.pr, fut, t}
  {
  }

  /** What then() and then_wrapped() do as a whole keeps the invariant and adds the work of the body. */
  lemma AttachKeeps(g: Graph, h: Graph, f: Future, pr: Promise, fut: Future, t: Continuation, fn: Func,
                    goal: Outcome, rank: nat, ext: nat -> Outcome)
    requires Ok(g, ext) && f in g.fs && !g.fs[f].spent
    requires Paired(g, h, pr, fut, fn.pr, goal, rank) && t !in g.ts && Ok(h, ext)
    requires goal == DenoteBody(fn.body, fn.env, g.fs[f].goal, ext)
    requires g.fs[f].rank < rank && BodySize(fn.body) <= rank
    requires StateOf(h, f).Resolved? || h.fs[f].promise != null
    ensures var i := ScheduleSpec(h, f, t, fn);
            && pr in i.ps && PromiseOk(i, pr)
            && Ok(DropPromiseSpec(i, pr), ext)
            && Work(DropPromiseSpec(i, pr)) == Work(h) + BodySize(fn.body)
            && Grown(g, DropPromiseSpec(i, pr), Behind(g, f), {f}, map[])
            && Promises(DropPromiseSpec(i, pr), fut, goal, rank)
            && DropPromiseSpec(i, pr).fs[fut].promise == fn.pr
            && Objects(DropPromiseSpec(i, pr)) == Objects(g) + {fn.pr, fut, t}
  {
    hide HeapOk, Meant, Grown, Scheduled, Objects, Promises;
    FutureOkAt(g, f);
    FutureOkAt(h, f);
    assert Schedulable(h, f, t, fn, ext);
    ScheduleKeeps(h, f, t, fn, ext);
    ScheduleGrows(h, f, t, fn);
    var i := ScheduleSpec(h, f, t, fn);
    assert pr in i.ps;
    PromiseOkAt(i, pr);
    AttachGrows(g, h, i, f, pr, fut, t, fn, goal, rank);
    AttachObjects(g, h, i, f, pr, fut, t, fn, goal, rank);
    DropPromiseKeepsHeap(i, pr);
    DropPromiseKeepsMeaning(i, pr, ext);
    DropPromiseWork(i, pr);
  }

  // ---------------------------------------------------------------------------------------------
  // Running a task

  /** Between tasks: nothing on the stack, nothing running. */
  ghost predicate Settled(g: Graph) {
    && (forall p <- g.ps :: !g.ps[p].holder.OnStack?)
    && (forall t <- g.ts :: g.ts[t].slot != Running)
  }

  /** While t runs: nothing on the stack, nothing else running. */
  ghost predicate SettledBut(g: Graph, t: Continuation) {
    && (forall p <- g.ps :: !g.ps[p].holder.OnStack?)
    && (forall u <- g.ts :: u != t ==> g.ts[u].slot != Running)
  }

  /** The futures of g0 are still there, waiting for or holding the same outcomes. */
  ghost predicate Stable(g0: Graph, g: Graph, but: set<Future>) {
    forall f <- g0.fs :: f !in but ==>
      f in g.fs && g.fs[f].goal == g0.fs[f].goal && g.fs[f].spent == g0.fs[f].spent
  }

  /** What a map gained. */
  ghost function Added(was: map<Promise, nat>, now: map<Promise, nat>): map<Promise, nat> {
    now - was.Keys
  }

  lemma AddedNothing(m: map<Promise, nat>)
    ensures Added(m, m) == map[] && m == m + Added(m, m)
  {
  }

  lemma AddedOne(m: map<Promise, nat>, p: Promise, i: nat)
    requires p !in m
    ensures Added(m, m[p := i]) == map[p := i] && m[p := i] == m + Added(m, m[p := i])
  {
  }

  /** The promises owned by parties outside the CPU, with the party's number. */
  ghost function Outside(g: Graph): map<Promise, nat> {
    map p | p in g.ps && g.ps[p].holder.External? :: g.ps[p].holder.i
  }

  /** Eval(e) followed by attaching a continuation to its future and dropping that future. */
  lemma GrownThrough(g0: Graph, g1: Graph, g2: Graph, f: Future, outside: map<Promise, nat>)
    requires HeapOk(g0) && f in g1.fs && f !in g0.fs && g1.fs[f].promise !in g0.ps
    requires Grown(g0, g1, {}, {}, outside) && Grown(g1, g2, Behind(g1, f), {f}, map[])
    requires FutureOk(g2, f)
    ensures Grown(g0, DropFutureSpec(g2, f), {}, {}, outside)
  {
    hide HeapOk, GrownPromises;
    StillBehind(g0, g1, g2, f, outside);
    GrownThroughPromises(g0, g1, g2, f, outside);
  }

  /** The promise behind f, if any, is not an old one. */
  lemma StillBehind(g0: Graph, g1: Graph, g2: Graph, f: Future, outside: map<Promise, nat>)
    requires HeapOk(g0) && f in g1.fs && f !in g0.fs && g1.fs[f].promise !in g0.ps
    requires GrownPromises(g0, g1, {}, outside) && GrownPromises(g1, g2, Behind(g1, f), map[])
    requires f in g2.fs && FutureOk(g2, f)
    ensures g2.fs[f].promise !in g0.ps
  {
  }

  lemma GrownThroughPromises(g0: Graph, g1: Graph, g2: Graph, f: Future, outside: map<Promise, nat>)
    requires f in g1.fs && f !in g0.fs && g1.fs[f].promise !in g0.ps
    requires GrownPromises(g0, g1, {}, outside) && GrownPromises(g1, g2, Behind(g1, f), map[])
    requires f in g2.fs && FutureOk(g2, f) && g2.fs[f].promise !in g0.ps
    ensures GrownPromises(g0, DropFutureSpec(g2, f), {}, outside)
  {
  }

  /** An external promise and its future. */
  lemma InputGrows(g: Graph, p: Promise, f: Future, i: nat, goal: Outcome, early: bool)
    requires p !in g.ps && f !in g.fs
    ensures var h := GetFutureSpec(g.(ps := g.ps[p := InputRec(p, i, goal, early)]), p, f);
            && PromiseOk(h, p) && Objects(h) <= Objects(g) + {p, f}
            && Grown(g, h, {}, {}, map[p := i]) && Promises(h, f, goal, 1) && h.fs[f].promise == p
  {
  }

  /** The same, with the promise dropped again. */
  lemma DroppedInputGrows(g: Graph, p: Promise, f: Future, i: nat, goal: Outcome)
    requires p !in g.ps && f !in g.fs
    ensures var h := GetFutureSpec(g.(ps := g.ps[p := InputRec(p, i, goal, true)]), p, f);
            && PromiseOk(h, p)
            && var k := DropPromiseSpec(h, p);
            && Grown(g, k, {}, {}, map[]) && Promises(k, f, goal, 1) && k.fs[f].promise == null
            && Objects(k) <= Objects(g) + {p, f}
  {
  }

  lemma DropFutureLeaves(g: Graph, f: Future, e: Future)
    requires f in g.fs && e in g.fs && FutureOk(g, f) && f != e
    ensures DropFutureSpec(g, f).fs[e] == g.fs[e]
    ensures Objects(DropFutureSpec(g, f)) <= Objects(g)
  {
  }

  /** A pending promise captured by the running task t. */
  ghost predicate Answerable(g: Graph, pr: Promise, t: Continuation) {
    && pr in g.ps && Unset(g.ps[pr]) && g.ps[pr].holder == CapturedBy(t)
    && t in g.ts && g.ts[t].slot == Running
  }

  /** The captured promise was answered; all but the futures in `but` are as they were. */
  ghost predicate Answered(g: Graph, h: Graph, pr: Promise, t: Continuation, but: set<Future>)
    requires pr in g.ps && t in g.ts
  {
    && h.ps.Keys == g.ps.Keys && (forall p <- g.ps :: h.ps[p].holder == g.ps[p].holder)
    && !Unset(h.ps[pr]) && h.ps[pr].task == null
    && h.fs.Keys == g.fs.Keys && Stable(g, h, but)
    && h.ts.Keys == g.ts.Keys && h.ts[t].func == g.ts[t].func
    && (forall u <- g.ts :: h.ts[u].slot == Running <==> g.ts[u].slot == Running)
  }

  /** h is g but for f and for the fields, other than the owner, of the promises. */
  ghost predicate SameButFuture(g: Graph, h: Graph, f: Future) {
    && h.ps.Keys == g.ps.Keys && (forall p <- g.ps :: h.ps[p].holder == g.ps[p].holder)
    && h.fs.Keys == g.fs.Keys && (forall e <- g.fs :: e != f ==> h.fs[e] == g.fs[e])
    && h.ts == g.ts
  }

  lemma AnsweredKeys(g: Graph, h: Graph, pr: Promise, t: Continuation, but: set<Future>)
    requires pr in g.ps && t in g.ts && Answered(g, h, pr, t, but)
    ensures h.fs.Keys == g.fs.Keys && Objects(h) == Objects(g)
  {
  }

  lemma AnsweredThrough(g: Graph, h: Graph, k: Graph, f: Future, pr: Promise, t: Continuation)
    requires pr in g.ps && t in g.ts && SameButFuture(g, h, f) && Answered(h, k, pr, t, {})
    ensures Answered(g, k, pr, t, {f})
  {
  }

  /** The running task t, with code fn, has answered its promise. */
  ghost predicate Closing(g: Graph, t: Continuation, fn: Func) {
    && t in g.ts && g.ts[t].slot == Running && g.ts[t].func == fn && fn.pr in g.ps
    && var r := g.ps[fn.pr]; r.holder == CapturedBy(t) && !Unset(r) && r.task == null
  }

  lemma ClosingAt(g: Graph, t: Continuation, fn: Func)
    requires HeapOk(g) && Closing(g, t, fn)
    ensures t in g.ts && g.ts[t].func == fn && fn.pr in g.ps && fn.pr in Objects(g)
    ensures g.ps[fn.pr].future != null ==> g.ps[fn.pr].future in Objects(g)
  {
  }

  lemma ForwardReady(g: Graph, f: Future, pr: Promise, t: Continuation, ext: nat -> Outcome)
    requires Ok(g, ext) && f in g.fs && g.fs[f].promise != pr && Answerable(g, pr, t)
    requires StateOf(g, f).Resolved? && StateOf(g, f).o == g.ps[pr].goal
    ensures PromiseOk(g, pr)
    ensures var h := ForwardSpec(g, f, pr); Ok(h, ext) && Work(h) == Work(g) && Answered(g, h, pr, t, {f})
  {
    hide HeapOk, Meant, Answered;
    PromiseOkAt(g, pr);
    FutureOkAt(g, f);
    var h := TakeSpec(g, f);
    assert SameButFuture(g, h, f);
    PromiseOkAt(h, pr) by { TakeKeepsHeap(g, f); }
    TakeKeepsHeap(g, f);
    TakeKeepsMeaning(g, f, ext);
    TakeWork(g, f);
    SetLeaves(h, pr, g.ps[pr].goal, t);
    SetKeeps(h, pr, g.ps[pr].goal, ext);
    SetWork(h, pr, g.ps[pr].goal);
    AnsweredThrough(g, h, SetSpec(h, pr, g.ps[pr].goal), f, pr, t);
  }

  lemma ForwardPending(g: Graph, f: Future, pr: Promise, t: Continuation, ext: nat -> Outcome)
    requires Ok(g, ext) && f in g.fs && g.fs[f].promise != pr && Answerable(g, pr, t)
    requires g.fs[f].promise != null && !StateOf(g, f).Resolved? && Unset(g.ps[g.fs[f].promise])
    requires g.fs[f].goal == g.ps[pr].goal && g.fs[f].rank < g.ps[pr].rank
    ensures PromiseOk(g, pr)
    ensures var h := ForwardSpec(g, f, pr); Ok(h, ext) && Work(h) == Work(g) && Answered(g, h, pr, t, {f})
  {
    hide HeapOk, Meant, Answered;
    PromiseOkAt(g, pr);
    FutureOkAt(g, f);
    FutureMeantAt(g, f, ext);
    var p := g.fs[f].promise;
    var h := UnlinkSpec(g, f);
    UnlinkKeepsHeap(g, f);
    UnlinkKeepsMeaning(g, f, ext);
    UnlinkWork(g, f);
    var holder := g.ps[p].holder;
    PromiseOkAt(h, pr);
    TransferKeepsHeap(h, pr, p, holder);
    TransferKeepsMeaning(h, pr, p, holder, ext);
    TransferWork(h, pr, p, holder);
    TransferLeaves(h, pr, p, holder, t);
    assert SameButFuture(g, h, f);
    AnsweredThrough(g, h, TransferSpec(h, pr, p, holder), f, pr, t);
  }

  /** forward_to() keeps the invariant, satisfies or empties pr, and leaves the other futures alone. */
  lemma ForwardKeeps(g: Graph, f: Future, pr: Promise, t: Continuation, ext: nat -> Outcome)
    requires Ok(g, ext) && f in g.fs && !g.fs[f].spent && g.fs[f].promise != pr && Answerable(g, pr, t)
    requires g.fs[f].goal == g.ps[pr].goal && g.fs[f].rank < g.ps[pr].rank
    ensures PromiseOk(g, pr) && (StateOf(g, f).Resolved? || g.fs[f].promise != null)
    ensures var h := ForwardSpec(g, f, pr); Ok(h, ext) && Work(h) == Work(g) && Answered(g, h, pr, t, {f})
  {
    hide HeapOk, Meant, Answered;
    UnspentState(g, f, ext);
    FutureOkAt(g, f);
    if StateOf(g, f).Resolved? {
      ForwardReady(g, f, pr, t, ext);
    } else {
      ForwardPending(g, f, pr, t, ext);
    }
  }

  lemma SetKeeps(g: Graph, p: Promise, o: Outcome, ext: nat -> Outcome)
    requires Ok(g, ext) && p in g.ps && Settable(g, p, o)
    ensures Ok(SetSpec(g, p, o), ext)
  {
    if g.ps[p].task == null {
      SetLocalKeepsHeap(g, p, o);
      SetLocalKeepsMeaning(g, p, o, ext);
    } else {
      SetTaskKeepsHeap(g, p, o);
      SetTaskKeepsMeaning(g, p, o, ext);
    }
  }

  lemma SetLeaves(g: Graph, p: Promise, o: Outcome, t: Continuation)
    requires HeapOk(g) && p in g.ps && Unset(g.ps[p]) && t in g.ts && g.ts[t].slot == Running
    ensures var h := SetSpec(g, p, o);
            Answered(g, h, p, t, {}) && h.fs == g.fs
  {
  }

  lemma TransferLeaves(g: Graph, src: Promise, dst: Promise, holder: Holder, t: Continuation)
    requires HeapOk(g) && src in g.ps && dst in g.ps && src != dst && g.ps[dst].holder == holder
    requires t in g.ts && g.ts[t].slot == Running
    ensures var h := TransferSpec(g, src, dst, holder);
            Answered(g, h, src, t, {})
  {
    assert PromiseOk(g, src);
  }

  /** The task at the front of the queue, about to run. */
  lemma StartFacts(g: Graph, ext: nat -> Outcome)
    requires Ok(g, ext) && Settled(g) && |g.queue| > 0
    ensures var t := g.queue[0]; var h := StartSpec(g);
            && t in g.ts && h.ts[t].func == g.ts[t].func && h.ts[t].state == Resolved(g.ts[t].input)
            && SettledBut(h, t) && Outside(h) == Outside(g) && Stable(g, h, {}) && Answerable(h, g.ts[t].func.pr, t)
            && h.ps[g.ts[t].func.pr].goal == DenoteBody(g.ts[t].func.body, g.ts[t].func.env, g.ts[t].input, ext)
            && BodySize(g.ts[t].func.body) <= h.ps[g.ts[t].func.pr].rank
  {
  }

  lemma StartKeeps(g: Graph, ext: nat -> Outcome)
    requires Ok(g, ext) && |g.queue| > 0
    ensures g.queue[0] in g.ts
    ensures Ok(StartSpec(g), ext) && Work(StartSpec(g)) == Work(g) && Objects(StartSpec(g)) == Objects(g)
  {
    StartKeepsHeap(g);
    StartKeepsMeaning(g, ext);
    StartWork(g);
    assert StartSpec(g).ts.Keys == g.ts.Keys;
  }

  lemma GrownSettled(g: Graph, h: Graph, pr: Promise, t: Continuation, outside: map<Promise, nat>)
    requires Grown(g, h, {}, {}, outside) && SettledBut(g, t) && Answerable(g, pr, t)
    ensures SettledBut(h, t) && Outside(h) == Outside(g) + outside && Stable(g, h, {})
    ensures Answerable(h, pr, t) && h.ps[pr] == g.ps[pr] && h.ts[t] == g.ts[t]
  {
  }

  lemma GrownBetween(g: Graph, h: Graph, outside: map<Promise, nat>)
    requires Grown(g, h, {}, {}, outside) && Settled(g)
    ensures Settled(h) && Outside(h) == Outside(g) + outside
  {
  }

  lemma StableAt(g: Graph, h: Graph, f: Future)
    requires Stable(g, h, {}) && f in g.fs
    ensures f in h.fs && h.fs[f].goal == g.fs[f].goal && h.fs[f].spent == g.fs[f].spent
  {
  }

  lemma AnsweredSettled(g: Graph, h: Graph, pr: Promise, t: Continuation, but: set<Future>)
    requires Answerable(g, pr, t) && Answered(g, h, pr, t, but) && SettledBut(g, t) && g.ts[t].func.pr == pr
    ensures SettledBut(h, t) && Outside(h) == Outside(g) && Stable(g, h, but)
    ensures Closing(h, t, g.ts[t].func)
  {
  }

  /** Dropping the future of the callback's result, which nobody else knows. */
  lemma DropFutureSettled(g0: Graph, g: Graph, h: Graph, f: Future, t: Continuation, fn: Func)
    requires f !in g0.fs && Stable(g0, g, {}) && Stable(g, h, {f}) && SettledBut(h, t)
    requires f in h.fs && FutureOk(h, f) && Closing(h, t, fn)
    ensures var k := DropFutureSpec(h, f);
            && SettledBut(k, t) && Outside(k) == Outside(h) && Stable(g0, k, {}) && Closing(k, t, fn)
  {
  }

  /** The whole end of a continuation's run. */
  lemma ForwardedAndDropped(g0: Graph, g: Graph, h: Graph, f: Future, pr: Promise, t: Continuation, ext: nat -> Outcome)
    requires f in g.fs && f !in g0.fs && Stable(g0, g, {}) && Answerable(g, pr, t) && g.ts[t].func.pr == pr
    requires SettledBut(g, t) && Answered(g, h, pr, t, {f}) && Ok(h, ext)
    ensures f in h.fs && FutureOk(h, f)
    ensures var k := DropFutureSpec(h, f);
            && Ok(k, ext) && Work(k) == Work(h) && Objects(k) <= Objects(g)
            && SettledBut(k, t) && Outside(k) == Outside(g) && Stable(g0, k, {}) && Closing(k, t, g.ts[t].func)
  {
    hide HeapOk, Meant, SettledBut, Stable, Answered, Closing;
    AnsweredKeys(g, h, pr, t, {f});
    FutureOkAt(h, f);
    AnsweredSettled(g, h, pr, t, {f});
    DropFutureSettled(g0, g, h, f, t, g.ts[t].func);
    DropFutureKeepsHeap(h, f);
    DropFutureKeepsMeaning(h, f, ext);
    DropFutureWork(h, f);
  }

  /** then() on a failed future: the exception goes straight to the captured promise. */
  lemma SetAnswers(g: Graph, pr: Promise, o: Outcome, t: Continuation, ext: nat -> Outcome)
    requires Ok(g, ext) && Answerable(g, pr, t) && g.ts[t].func.pr == pr && SettledBut(g, t) && o == g.ps[pr].goal
    ensures PromiseOk(g, pr)
    ensures var k := SetSpec(g, pr, o);
            && Ok(k, ext) && Work(k) == Work(g) && Objects(k) == Objects(g)
            && SettledBut(k, t) && Outside(k) == Outside(g) && Stable(g, k, {}) && Closing(k, t, g.ts[t].func)
  {
    hide HeapOk, Meant, SettledBut, Stable, Answered, Closing;
    PromiseOkAt(g, pr);
    SetLeaves(g, pr, o, t);
    SetKeeps(g, pr, o, ext);
    SetWork(g, pr, o);
    AnsweredSettled(g, SetSpec(g, pr, o), pr, t, {});
    AnsweredKeys(g, SetSpec(g, pr, o), pr, t, {});
  }

  lemma FinishSettled(g0: Graph, g: Graph, t: Continuation)
    requires |g0.queue| > 0 && g0.queue[0] in g0.ts && Stable(StartSpec(g0), g, {})
    requires t in g.ts && Closing(g, t, g.ts[t].func) && PromiseOk(g, g.ts[t].func.pr) && SettledBut(g, t)
    ensures var h := FinishSpec(g, t);
            && Settled(h) && Outside(h) == Outside(g) && Stable(g0, h, {}) && Objects(h) <= Objects(g)
  {
  }

  lemma FinishKeeps(g: Graph, t: Continuation, ext: nat -> Outcome)
    requires Ok(g, ext) && t in g.ts && Closing(g, t, g.ts[t].func)
    ensures PromiseOk(g, g.ts[t].func.pr)
    ensures Ok(FinishSpec(g, t), ext) && Work(FinishSpec(g, t)) == Work(g) - BodySize(g.ts[t].func.body)
  {
    hide HeapOk, Meant;
    PromiseOkAt(g, g.ts[t].func.pr);
    FinishKeepsHeap(g, t);
    FinishKeepsMeaning(g, t, ext);
    FinishWork(g, t);
  }

  lemma SetSettled(g: Graph, p: Promise, o: Outcome)
    requires p in g.ps && PromiseOk(g, p) && Settled(g)
    ensures var h := SetSpec(g, p, o);
            Objects(h) <= Objects(g) && Settled(h) && Outside(h) == Outside(g) && Stable(g, h, {})
  {
    var h := SetSpec(g, p, o);
    assert h.ps.Keys == g.ps.Keys && h.ts.Keys == g.ts.Keys;
  }

  lemma OutsideAt(g: Graph, p: Promise, ext: nat -> Outcome)
    requires Ok(g, ext) && p in Outside(g)
    ensures p in g.ps && PromiseOk(g, p) && g.ps[p].holder == External(Outside(g)[p])
    ensures Unset(g.ps[p]) ==> g.ps[p].goal == ext(Outside(g)[p])
    ensures g.ps[p].task != null ==> TaskOk(g, g.ps[p].task)
  {
  }

  /** An outside party satisfies its promise. */
  lemma SatisfyKeeps(g: Graph, p: Promise, ext: nat -> Outcome)
    requires Ok(g, ext) && Settled(g) && p in Outside(g) && p in g.ps && Unset(g.ps[p])
    ensures PromiseOk(g, p)
    ensures var h := SetSpec(g, p, ext(Outside(g)[p]));
            && Ok(h, ext) && Work(h) < Work(g) && Objects(h) <= Objects(g)
            && Settled(h) && Outside(h) == Outside(g) && Stable(g, h, {})
  {
    hide HeapOk, Meant, Settled, Outside, Stable, Objects;
    OutsideAt(g, p, ext);
    SetKeeps(g, p, g.ps[p].goal, ext);
    SetWork(g, p, g.ps[p].goal);
    SetSettled(g, p, g.ps[p].goal);
  }

  /** An outside party destroys its promise, satisfied earlier. */
  lemma ReleaseKeeps(g: Graph, p: Promise, ext: nat -> Outcome)
    requires Ok(g, ext) && Settled(g) && p in Outside(g) && p in g.ps && !Unset(g.ps[p])
    ensures PromiseOk(g, p)
    ensures var h := DropPromiseSpec(g, p);
            && Ok(h, ext) && Work(h) < Work(g) && Objects(h) <= Objects(g)
            && Settled(h) && Outside(h) == Outside(g) - {p} && Stable(g, h, {})
  {
    hide HeapOk, Meant;
    PromiseOkAt(g, p);
    DropPromiseKeepsHeap(g, p);
    DropPromiseKeepsMeaning(g, p, ext);
    DropPromiseWork(g, p);
  }

  /** With an empty queue and no external promise outstanding, every promise is satisfied: a pending
      one would be captured by a task waiting at a pending promise of lower rank. */
  lemma {:induction false} Quiescent(g: Graph, p: Promise, ext: nat -> Outcome)
    requires Ok(g, ext) && Settled(g) && g.queue == []
    requires forall q <- g.ps :: g.ps[q].holder.External? ==> !Unset(g.ps[q])
    requires p in g.ps
    ensures !Unset(g.ps[p])
    decreases g.ps[p].rank
  {
    if Unset(g.ps[p]) {
      assert PromiseOk(g, p);
      var t := g.ps[p].holder.t;
      assert TaskOk(g, t) && TaskMeant(g, t, ext);
      var q := g.ts[t].slot.p;
      assert PromiseOk(g, q);
      Quiescent(g, q, ext);
    }
  }

  /** So every future that was not used up holds the outcome the program denotes. */
  lemma QuiescentFutures(g: Graph, f: Future, ext: nat -> Outcome)
    requires Ok(g, ext) && Settled(g) && g.queue == []
    requires forall q <- Outside(g).Keys :: q in g.ps ==> !Unset(g.ps[q])
    requires f in g.fs && !g.fs[f].spent
    ensures FutureOk(g, f) && StateOf(g, f) == Resolved(g.fs[f].goal)
  {
    UnspentState(g, f, ext);
    FutureOkAt(g, f);
    assert forall q <- g.ps :: g.ps[q].holder.External? ==> q in Outside(g).Keys;
    if g.fs[f].promise != null {
      Quiescent(g, g.fs[f].promise, ext);
    }
  }

  // ---------------------------------------------------------------------------------------------
  // The objects themselves

  class Promise {
    var future: Future?
    var local: State
    var state: StateRef
    var task: Continuation?

    ghost predicate Shows(r: PRec)
      reads this
    {
      future == r.future && local == r.local && state == r.state && task == r.task
    }

    /** promise() */
    constructor (cpu: Cpu, ghost holder: Holder, ghost goal: Outcome, ghost rank: nat)
      requires cpu.Linked()
      modifies cpu`g
      ensures cpu.Linked() && fresh(this) && this !in old(cpu.g.ps)
      ensures future == null && task == null && state == LocalOf(this)
      ensures cpu.g == NewPromiseSpec(old(cpu.g), this, holder, goal, rank)
    {
      future := null;
      local := Unresolved;
      task := null;
      new;
      state := LocalOf(this);
      cpu.g := NewPromiseSpec(cpu.g, this, holder, goal, rank);
    }

    /** Not satisfied yet. */
    predicate Pending()
      reads this
    {
      state.InTask? || (state.LocalOf? && local == Unresolved)
    }

    /** get_future() */
    method GetFuture(cpu: Cpu) returns (f: Future)
      requires cpu.Linked() && this in cpu.g.ps
      requires future == null && state == LocalOf(this) && task == null
      modifies this`future, cpu`g
      ensures cpu.Linked() && fresh(f) && f !in old(cpu.g.fs)
      ensures future == f && cpu.g == GetFutureSpec(old(cpu.g), this, f)
    {
      assert future == null && state != NullState && task == null;
      f := new Future.Linked(this);
      cpu.g := GetFutureSpec(cpu.g, this, f);
    }

    /** set_value() and set_exception() */
    method Set(cpu: Cpu, o: Outcome)
      requires cpu.Linked() && this in cpu.g.ps && PromiseOk(cpu.g, this) && Unset(cpu.g.ps[this])
      requires task != null ==> TaskOk(cpu.g, task)
      modifies this, task, cpu`g, cpu`queue
      ensures cpu.Linked()
      ensures cpu.g == SetSpec(old(cpu.g), this, o)
      ensures future == old(future) && task == null && (old(task) == null ==> state == old(state))
    {
      assert state != NullState;
      match state {
        case LocalOf(_) => SetLocal(cpu, o);
        case InTask(_) => SetWaiting(cpu, o);
      }
    }

    /** ... when the state is the promise's own: nobody waits. */
    method SetLocal(cpu: Cpu, o: Outcome)
      requires cpu.Linked() && this in cpu.g.ps && PromiseOk(cpu.g, this) && Unset(cpu.g.ps[this]) && task == null
      modifies this, cpu`g, cpu`queue
      ensures cpu.Linked()
      ensures cpu.g == SetSpec(old(cpu.g), this, o)
      ensures future == old(future) && task == null && state == old(state)
    {
      assert local == Unresolved;
      local := Resolved(o);
      MakeReady(cpu);
      cpu.g := SetSpec(cpu.g, this, o);
    }

    /** ... when the state is inside the waiting task. */
    method SetWaiting(cpu: Cpu, o: Outcome)
      requires cpu.Linked() && this in cpu.g.ps && PromiseOk(cpu.g, this) && task != null && TaskOk(cpu.g, task)
      modifies this, task, cpu`g, cpu`queue
      ensures cpu.Linked()
      ensures cpu.g == SetSpec(old(cpu.g), this, o)
      ensures future == old(future) && task == null
    {
      assert task.state == Unresolved;
      task.state := Resolved(o);
      MakeReady(cpu);
      cpu.g := SetSpec(cpu.g, this, o);
    }

    /** promise(promise&&) */
    constructor Move(cpu: Cpu, x: Promise)
      requires cpu.Linked() && x in cpu.g.ps && PromiseOk(cpu.g, x)
      modifies x, x.future, cpu`g
      ensures cpu.Linked() && fresh(this) && this !in old(cpu.g.ps)
      ensures cpu.g == TransferSpec(old(cpu.g), x, this, OnStack)
    {
      new;
      TakeOver(cpu, x, OnStack);
    }

    /** operator=(promise&&) */
    method Assign(cpu: Cpu, x: Promise)
      requires cpu.Linked() && Assignable(cpu.g, x, this)
      modifies this, future, x, x.future, cpu`g, if task != null then Objects(cpu.g) else {}
      ensures cpu.Linked()
      ensures cpu.g == AssignSpec(old(cpu.g), x, this)
    {
      if this != x {
        ghost var g := cpu.g;
        PromiseOkAt(g, this);
        ClearedKeepsHeap(g, this);
        Clear(cpu);
        PromiseOkAt(cpu.g, x);
        TakeOver(cpu, x, cpu.g.ps[this].holder);
      }
    }

    /** The destructor, when the storage is used again. */
    method Clear(cpu: Cpu)
      requires cpu.Linked() && HeapOk(cpu.g) && this in cpu.g.ps
      modifies this, future, cpu`g, if task != null then Objects(cpu.g) else {}
      ensures cpu.Linked()
      ensures cpu.g == ClearedSpec(old(cpu.g), this)
    {
      hide HeapOk, Objects;
      PromiseOkAt(cpu.g, this);
      Abandoned();
      if task != null {
        DetachKeepsHeap(cpu.g, this);
        DetachedObjects(cpu.g, this);
        var t := Detach(cpu);
        cpu.Discard(t);
      } else if future != null {
        future := null;
        cpu.g := ClearedSpec(cpu.g, this);
      }
    }

    /** The waiting task is about to be destroyed. */
    method Detach(cpu: Cpu) returns (t: Continuation)
      requires cpu.Linked() && HeapOk(cpu.g) && this in cpu.g.ps && task != null
      modifies this`state, this`task, cpu`g
      ensures cpu.Linked() && t == old(task)
      ensures PromiseOk(old(cpu.g), this) && cpu.g == DetachSpec(old(cpu.g), this)
    {
      hide HeapOk;
      PromiseOkAt(cpu.g, this);
      t := task;
      state, task := NullState, null;
      cpu.g := DetachSpec(cpu.g, this);
    }

    /** Constructing this promise from x, in storage that holds no logical value. */
    method TakeOver(cpu: Cpu, x: Promise, ghost holder: Holder)
      requires cpu.Linked() && x in cpu.g.ps && PromiseOk(cpu.g, x) && this != x
      modifies this, x, x.future, cpu`g
      ensures cpu.Linked()
      ensures cpu.g == TransferSpec(old(cpu.g), x, this, holder)
    {
      MoveFields(x);
      cpu.g := TransferSpec(cpu.g, x, this, holder);
    }

    /** The member initialisers and the body of promise(promise&&), migrated() included. */
    method MoveFields(x: Promise)
      requires this != x
      modifies this, x, x.future
      ensures future == old(x.future) && task == old(x.task)
      ensures old(x.state) == LocalOf(x) ==> state == LocalOf(this) && local == old(x.local) && x.local == Invalid
      ensures old(x.state) != LocalOf(x) ==> state == old(x.state) && local == Unresolved && x.local == old(x.local)
      ensures x.future == null && x.task == null && x.state == NullState
      ensures future != null ==> future.promise == this && future.local == old(x.future.local)
    {
      future, state, task := x.future, x.state, x.task;
      local := Unresolved;
      x.task := null;
      if state == LocalOf(x) {
        state := LocalOf(this);
        local := x.local;
        x.local := Invalid;
      }
      x.future := null;
      x.state := NullState;
      if future != null {
        future.promise := this;
      }
    }

    /** abandoned(): leave the state, if any, with the future. */
    method Abandoned()
      requires future != null ==> state == LocalOf(this) && task == null
      modifies this`local, future
      ensures future != null ==> future.local == old(local) && future.promise == null && local == Invalid
      ensures future == null ==> local == old(local)
    {
      if future != null {
        assert state != NullState;
        assert local.Resolved? || task == null;
        future.local := local;
        local := Invalid;
        future.promise := null;
      }
    }

    /** ~promise(), when nobody waits for it */
    method Drop(cpu: Cpu)
      requires cpu.Linked() && this in cpu.g.ps && PromiseOk(cpu.g, this)
      modifies this`local, future, cpu`g
      ensures cpu.Linked()
      ensures cpu.g == DropPromiseSpec(old(cpu.g), this)
    {
      Abandoned();
      cpu.g := DropPromiseSpec(cpu.g, this);
    }

    /** ~promise(), whoever waits for it. */
    method Destroy(cpu: Cpu)
      requires cpu.Linked() && HeapOk(cpu.g) && this in cpu.g.ps && !cpu.g.ps[this].holder.CapturedBy?
      modifies this, future, cpu`g, if task != null then Objects(cpu.g) else {}
      ensures cpu.Linked()
      ensures cpu.g == DestroySpec(old(cpu.g), this)
    {
      hide HeapOk, Objects;
      PromiseOkAt(cpu.g, this);
      if task != null {
        DetachedThenDropped(cpu.g, this);
        DetachedObjects(cpu.g, this);
        var t := Detach(cpu);
        Drop(cpu);
        cpu.Discard(t);
      } else {
        Drop(cpu);
      }
    }

    /** promise::schedule(): the state and the task move into a new continuation. */
    method Wait(cpu: Cpu, fn: Func) returns (t: Continuation)
      requires cpu.Linked() && this in cpu.g.ps && fn.pr in cpu.g.ps && fn.pr != this
      modifies this`state, this`task, cpu`g
      ensures cpu.Linked() && fresh(t) && t !in old(cpu.g.ts)
      ensures cpu.g == WaitSpec(old(cpu.g), this, t, fn)
    {
      t := new Continuation(Unresolved, fn);
      state := InTask(t);
      task := t;
      cpu.g := WaitSpec(cpu.g, this, t, fn);
    }

    /** make_ready(): hand a waiting task to the CPU. */
    method MakeReady(cpu: Cpu)
      modifies this`state, this`task, cpu`queue
      ensures task == null
      ensures old(task) == null ==> state == old(state) && cpu.queue == old(cpu.queue)
      ensures old(task) != null ==> state == NullState && cpu.queue == old(cpu.queue) + [old(task)]
    {
      if task != null {
        state := NullState;
        cpu.Schedule(task);
        task := null;
      }
    }
  }

  class Future {
    var promise: Promise?
    var local: State

    ghost predicate Shows(r: FRec)
      reads this
    {
      promise == r.promise && local == r.local
    }

    /** future(promise*) */
    constructor Linked(pr: Promise)
      modifies pr`future
      ensures promise == pr && local == Unresolved && pr.future == this
    {
      promise := pr;
      local := Unresolved;
      new;
      pr.future := this;
    }

    /** make_ready_future(), make_exception_future(), future(future_state&&) */
    constructor Ready(cpu: Cpu, o: Outcome)
      requires cpu.Linked()
      modifies cpu`g
      ensures cpu.Linked() && fresh(this) && this !in old(cpu.g.fs)
      ensures cpu.g == NewReadySpec(old(cpu.g), this, o)
    {
      promise := null;
      local := Resolved(o);
      new;
      cpu.g := NewReadySpec(cpu.g, this, o);
    }

    /** future(future&&) */
    constructor Move(cpu: Cpu, x: Future)
      requires cpu.Linked() && x in cpu.g.fs && FutureOk(cpu.g, x)
      modifies x, x.promise, cpu`g
      ensures cpu.Linked() && fresh(this) && this !in old(cpu.g.fs)
      ensures cpu.g == MoveFutureSpec(old(cpu.g), x, this)
    {
      promise := x.promise;
      local := Unresolved;
      new;
      TakeOver(x);
      ghost var h := MoveFutureSpec(cpu.g, x, this);
      assert forall t <- h.ts.Keys :: t.Shows(h.ts[t]);
      assert forall f <- h.fs.Keys :: f.Shows(h.fs[f]);
      cpu.g := h;
    }

    /** The body of future(future&&). */
    method TakeOver(x: Future)
      requires promise == x.promise && this != x
      modifies this`local, x, promise
      ensures x.promise == null
      ensures promise == null ==> local == old(x.local) && x.local == Invalid
      ensures promise != null ==>
                && local == old(local) && x.local == old(x.local)
                && promise.future == this && promise.local == old(promise.local)
                && promise.state == old(promise.state) && promise.task == old(promise.task)
    {
      if promise == null {
        local := x.local;
        x.local := Invalid;
      }
      x.promise := null;
      if promise != null {
        promise.future := this;
      }
    }

    /** ~future() */
    method Drop(cpu: Cpu)
      requires cpu.Linked() && this in cpu.g.fs && FutureOk(cpu.g, this)
      modifies promise, cpu`g
      ensures cpu.Linked()
      ensures cpu.g == DropFutureSpec(old(cpu.g), this)
    {
      if promise != null {
        promise.future := null;
      }
      cpu.g := DropFutureSpec(cpu.g, this);
    }

    /** *state() */
    function Peek(): State
      requires promise != null ==> promise.state == LocalOf(promise)
      reads this, promise
    {
      if promise != null then promise.local else local
    }

    /** std::move(*state()) */
    method Take(cpu: Cpu) returns (st: State)
      requires cpu.Linked() && this in cpu.g.fs && FutureOk(cpu.g, this)
      requires promise != null ==> PromiseOk(cpu.g, promise)
      modifies this`local, promise, cpu`g
      ensures cpu.Linked()
      ensures st == StateOf(old(cpu.g), this) && cpu.g == TakeSpec(old(cpu.g), this)
    {
      st := Peek();
      if promise != null {
        promise.local := Invalid;
      } else {
        local := Invalid;
      }
      cpu.g := TakeSpec(cpu.g, this);
    }

    /** Forgetting the promise, on both sides. */
    method Unlink(cpu: Cpu) returns (p: Promise)
      requires cpu.Linked() && this in cpu.g.fs && FutureOk(cpu.g, this) && promise != null
      modifies this`promise, promise`future, cpu`g
      ensures cpu.Linked()
      ensures p == old(promise) && promise == null && p.future == null && cpu.g == UnlinkSpec(old(cpu.g), this)
    {
      p := promise;
      promise.future := null;
      promise := null;
      cpu.g := UnlinkSpec(cpu.g, this);
    }

    /** future::schedule() */
    method Schedule(cpu: Cpu, fn: Func) returns (t: Continuation)
      requires cpu.Linked() && this in cpu.g.fs && FutureOk(cpu.g, this)
      requires promise != null ==> PromiseOk(cpu.g, promise)
      requires fn.pr in cpu.g.ps && fn.pr != promise
      requires Peek().Resolved? || promise != null
      modifies this, promise, cpu`g, cpu`queue
      ensures cpu.Linked() && fresh(t) && t !in old(cpu.g.ts)
      ensures cpu.g == ScheduleSpec(old(cpu.g), this, t, fn)
      ensures promise == null || promise == old(promise)
    {
      ghost var g0 := cpu.g;
      if Peek().Resolved? {
        var st := Take(cpu);
        t := new Continuation(st, fn);
        cpu.Enqueue(t, TRec(st, fn, Queued, g0.fs[this].goal));
      } else {
        assert promise != null;
        var p := Unlink(cpu);
        t := p.Wait(cpu, fn);
      }
    }

    /** then() and then_wrapped(): the result will be what the continuation makes of this future. */
    method Attach(cpu: Cpu, body: Body, env: Env, ghost rank: nat)
      returns (fut: Future, ghost y: Promise, ghost t: Continuation)
      requires cpu.Valid() && this in cpu.g.fs && !cpu.g.fs[this].spent
      requires cpu.g.fs[this].rank < rank && BodySize(body) <= rank
      modifies this, promise, cpu`g, cpu`queue
      ensures cpu.Valid() && fresh(fut)
      ensures fresh(y) && fresh(t) && Objects(cpu.g) == old(Objects(cpu.g)) + {y, fut, t}
      ensures Promises(cpu.g, fut, DenoteBody(body, env, old(cpu.g).fs[this].goal, cpu.ext), rank)
      ensures cpu.g.fs[fut].promise != null && fresh(cpu.g.fs[fut].promise)
      ensures Grown(old(cpu.g), cpu.g, Behind(old(cpu.g), this), {this}, map[])
      ensures Work(cpu.g) == Work(old(cpu.g)) + BodySize(body)
      ensures this in cpu.g.fs && (promise == null || promise == old(promise))
    {
      hide HeapOk, Meant, Grown, Objects, Promises;
      ghost var g := cpu.g;
      ghost var goal := DenoteBody(body, env, g.fs[this].goal, cpu.ext);
      var pr, captured;
      pr, fut, captured := cpu.NewPair(goal, rank);
      ghost var h := cpu.g;
      var fn := Func(captured, body, env);
      FutureOkAt(g, this);
      FutureOkAt(h, this);
      UnspentState(h, this, cpu.ext);
      var task := Schedule(cpu, fn);
      AttachKeeps(g, h, this, pr, fut, task, fn, goal, rank, cpu.ext);
      pr.Drop(cpu);
      y, t := captured, task;
    }

    /** forward_to() */
    method ForwardTo(cpu: Cpu, pr: Promise)
      requires cpu.Linked() && HeapOk(cpu.g) && this in cpu.g.fs && FutureOk(cpu.g, this)
      requires promise != null ==> PromiseOk(cpu.g, promise)
      requires pr in cpu.g.ps && PromiseOk(cpu.g, pr) && pr != promise && pr.future != this
      requires Unset(cpu.g.ps[pr]) && (pr.task != null ==> TaskOk(cpu.g, pr.task))
      requires Peek().Resolved? || promise != null
      modifies this, promise, pr, pr.task, pr.future, cpu`g, cpu`queue
      ensures cpu.Linked()
      ensures cpu.g == ForwardSpec(old(cpu.g), this, pr)
      ensures promise == null || promise == old(promise)
    {
      hide HeapOk;
      if Peek().Resolved? {
        var st := Take(cpu);
        pr.Set(cpu, st.o);
      } else {
        UnlinkKeepsHeap(cpu.g, this);
        var p := Unlink(cpu);
        assert p.task == null;
        p.Assign(cpu, pr);
      }
    }
  }

  class Continuation {
    var state: State
    var func: Func

    ghost predicate Shows(r: TRec)
      reads this
    {
      state == r.state && func == r.func
    }

    constructor (state: State, func: Func)
      ensures this.state == state && this.func == func
    {
      this.state := state;
      this.func := func;
    }
  }

  class Cpu {
    var queue: seq<Continuation>
    var inflight: map<Promise, nat>
    const ext: nat -> Outcome
    ghost var g: Graph

    /** The fields of every object are what the graph says. */
    ghost predicate Linked()
      reads `queue, `g, g.ps.Keys, g.fs.Keys, g.ts.Keys
    {
      && queue == g.queue
      && (forall p <- g.ps.Keys :: p.Shows(g.ps[p]))
      && (forall f <- g.fs.Keys :: f.Shows(g.fs[f]))
      && (forall t <- g.ts.Keys :: t.Shows(g.ts[t]))
    }

    ghost predicate Valid()
      reads `queue, `g, g.ps.Keys, g.fs.Keys, g.ts.Keys
    {
      Linked() && Ok(g, ext)
    }

    /** Every object that joined the graph is new. */
    twostate predicate NewOnly()
      reads `g
    {
      forall o <- Objects(g) :: o in old(Objects(g)) || fresh(o)
    }

    constructor (ext: nat -> Outcome)
      ensures Valid() && g == Graph(map[], map[], map[], []) && this.ext == ext && inflight == map[]
    {
      queue, inflight := [], map[];
      g := Graph(map[], map[], map[], []);
      this.ext := ext;
    }

    /** A promise, its future, and the promise moved into a closure. */
    method NewPair(ghost goal: Outcome, ghost rank: nat) returns (pr: Promise, fut: Future, captured: Promise)
      requires Valid()
      modifies this`g
      ensures Valid() && fresh(pr) && fresh(fut) && fresh(captured)
      ensures Paired(old(g), g, pr, fut, captured, goal, rank) && Work(g) == Work(old(g))
    {
      ghost var g0 := g;
      pr := new Promise(this, OnStack, goal, rank);
      fut := pr.GetFuture(this);
      assert PromiseOk(g, pr);
      captured := new Promise.Move(this, pr);
      PairShape(g0, pr, fut, captured, goal, rank);
      PairKeeps(g0, pr, fut, captured, goal, rank, ext);
    }

    /** A value, an exception, or a ready future returned by a callback. */
    method EvalReady(o: Outcome) returns (f: Future)
      requires Valid()
      modifies this`g
      ensures Valid() && NewOnly() && fresh(f) && Promises(g, f, o, 0) && g.fs[f].promise == null
      ensures Grown(old(g), g, {}, {}, Added(old(inflight), inflight)) && Work(g) == Work(old(g))
    {
      ghost var g0 := g;
      AddedNothing(inflight);
      f := new Future.Ready(this, o);
      NewReadyKeepsHeap(g0, f, o);
      NewReadyKeepsMeaning(g0, f, o, ext);
    }

    /** An external promise, possibly satisfied before anybody asks for its future. */
    method NewInput(i: nat, early: bool) returns (p: Promise)
      requires Valid()
      modifies this`g, this`queue
      ensures Valid() && fresh(p) && p !in old(g).ps
      ensures p.future == null && p.state == LocalOf(p) && p.task == null
      ensures g == old(g).(ps := old(g).ps[p := InputRec(p, i, ext(i), early)])
      ensures Work(g) == Work(old(g)) + if early then 1 else 2
    {
      hide HeapOk, Meant, Linked, Work;
      ghost var g0 := g;
      p := new Promise(this, External(i), ext(i), 1);
      NewPromiseKeepsHeap(g0, p, External(i), ext(i), 1);
      NewPromiseKeepsMeaning(g0, p, External(i), ext(i), 1, ext);
      NewPromiseWork(g0, p, External(i), ext(i), 1);
      if early {
        SetKeeps(g, p, ext(i), ext);
        SetWork(g, p, ext(i));
        p.Set(this, ext(i));
      }
    }

    /** An external promise and its future. */
    method NewInputPair(i: nat, early: bool) returns (p: Promise, f: Future)
      requires Valid()
      modifies this`g, this`queue
      ensures Valid() && fresh(p) && fresh(f) && p !in old(g).ps && f !in old(g).fs && p.future == f
      ensures g == GetFutureSpec(old(g).(ps := old(g).ps[p := InputRec(p, i, ext(i), early)]), p, f)
      ensures Work(g) == Work(old(g)) + if early then 1 else 2
    {
      hide HeapOk, Meant;
      p := NewInput(i, early);
      ghost var g1 := g;
      f := p.GetFuture(this);
      GetFutureKeepsHeap(g1, p, f);
      GetFutureKeepsMeaning(g1, p, f, ext);
      GetFutureWork(g1, p, f);
    }

    /** The future of an external promise, which may already have been satisfied, and even dropped. */
    method EvalInput(i: nat, arrival: Arrival) returns (f: Future)
      requires Valid()
      modifies this
      ensures Valid() && NewOnly() && fresh(f) && Promises(g, f, ext(i), 1)
      ensures g.fs[f].promise != null ==> fresh(g.fs[f].promise)
      ensures inflight == old(inflight) + Added(old(inflight), inflight)
      ensures Grown(old(g), g, {}, {}, Added(old(inflight), inflight))
      ensures Work(g) <= Work(old(g)) + 2
    {
      hide HeapOk, Meant, Grown, Linked, Objects, Promises, Added;
      ghost var g0 := g;
      AddedNothing(inflight);
      var p;
      p, f := NewInputPair(i, arrival != Later);
      InputGrows(g0, p, f, i, ext(i), arrival != Later);
      if arrival == EarlyDropped {
        DroppedInputGrows(g0, p, f, i, ext(i));
        DropPromiseKeepsHeap(g, p);
        DropPromiseKeepsMeaning(g, p, ext);
        DropPromiseWork(g, p);
        p.Drop(this);
      } else {
        AddedOne(inflight, p, i);
        inflight := inflight[p := i];
      }
    }

    /** Attaching a continuation to a temporary future, which is then destroyed. */
    method AttachAndDrop(ghost g0: Graph, ghost outside: map<Promise, nat>, first: Future, body: Body, env: Env,
                         ghost rank: nat)
      returns (f: Future)
      requires Valid() && HeapOk(g0) && first in g.fs && !g.fs[first].spent
      requires first !in g0.fs && first.promise !in g0.ps && Grown(g0, g, {}, {}, outside)
      requires g.fs[first].rank < rank && BodySize(body) <= rank
      modifies this`g, this`queue, first, first.promise
      ensures Valid() && NewOnly() && fresh(f)
      ensures Promises(g, f, DenoteBody(body, env, old(g).fs[first].goal, ext), rank)
      ensures g.fs[f].promise != null && fresh(g.fs[f].promise)
      ensures Grown(g0, g, {}, {}, outside)
      ensures Work(g) == Work(old(g)) + BodySize(body)
    {
      hide HeapOk, Meant, Grown, Objects, Behind;
      ghost var g1 := g;
      ghost var y, t;
      f, y, t := first.Attach(this, body, env, rank);
      ghost var g2 := g;
      FutureOkAt(g2, first);
      GrownThrough(g0, g1, g2, first, outside);
      DropFutureKeepsHeap(g2, first);
      DropFutureKeepsMeaning(g2, first, ext);
      DropFutureWork(g2, first);
      DropFutureLeaves(g2, first, f);
      first.Drop(this);
    }

    /** Evaluating a program: the future returned is on its way to what the program denotes. */
    method Eval(e: Expr, env: Env) returns (f: Future)
      requires Valid()
      modifies this
      ensures Valid() && NewOnly() && fresh(f) && Promises(g, f, Denote(e, env, ext), Size(e))
      ensures g.fs[f].promise != null ==> fresh(g.fs[f].promise)
      ensures inflight == old(inflight) + Added(old(inflight), inflight)
      ensures Grown(old(g), g, {}, {}, Added(old(inflight), inflight))
      ensures Work(g) <= Work(old(g)) + Size(e)
      decreases e, 0
    {
      hide HeapOk, Meant, Grown, Added, Objects, Linked;
      AddedNothing(inflight);
      match e {
        case Ready(h) =>
          f := EvalReady(h(env));
        case Input(i, arrival) =>
          f := EvalInput(i, arrival);
        case If(c, yes, no) =>
          if c(env) {
            f := Eval(yes, env);
          } else {
            f := Eval(no, env);
          }
        case Attach(inner, body) =>
          f := EvalThen(inner, body, env, Size(e));
      }
    }

    /** Evaluating a program and attaching a continuation to its future. */
    method EvalThen(e: Expr, body: Body, env: Env, ghost rank: nat) returns (f: Future)
      requires Valid() && Size(e) < rank && BodySize(body) <= rank
      modifies this
      ensures Valid() && NewOnly() && fresh(f) && Promises(g, f, DenoteBody(body, env, Denote(e, env, ext), ext), rank)
      ensures g.fs[f].promise != null ==> fresh(g.fs[f].promise)
      ensures inflight == old(inflight) + Added(old(inflight), inflight)
      ensures Grown(old(g), g, {}, {}, Added(old(inflight), inflight))
      ensures Work(g) <= Work(old(g)) + Size(e) + BodySize(body)
      decreases e, 1
    {
      hide HeapOk, Meant, Grown, Added, Objects;
      ghost var g0, flying := g, inflight;
      var first := Eval(e, env);
      f := AttachAndDrop(g0, Added(flying, inflight), first, body, env, rank);
    }

    /** futurize::apply() on the callback of a continuation: the future of its result. */
    method Apply(body: Body, env: Env, input: Outcome) returns (f: Future)
      requires Valid()
      modifies this
      ensures Valid() && NewOnly() && fresh(f) && Promises(g, f, DenoteBody(body, env, input, ext), BodySize(body) - 1)
      ensures g.fs[f].promise != null ==> fresh(g.fs[f].promise)
      ensures inflight == old(inflight) + Added(old(inflight), inflight)
      ensures Grown(old(g), g, {}, {}, Added(old(inflight), inflight))
      ensures Work(g) < Work(old(g)) + BodySize(body)
    {
      hide HeapOk, Meant, Grown, Added, Objects, Linked;
      AddedNothing(inflight);
      match body {
        case OnValue(k) =>
          if input.Value? {
            f := Eval(k, [input] + env);
          } else {
            f := EvalReady(input);
          }
        case OnResult(k) =>
          f := Eval(k, [input] + env);
        case OnFailure(k) =>
          if input.Failed? {
            f := Eval(k, [input] + env);
          } else {
            f := EvalReady(input);
          }
        case Cleanup(c) =>
          f := EvalThen(c, Restore(input), env, Size(c) + 1);
        case CleanupNow(h) =>
          f := EvalReady(Restored(input, h(env)));
        case Restore(saved) =>
          f := EvalReady(Restored(saved, input));
      }
    }

    /** forward_to(), from a future of the right outcome to the promise captured by the running task. */
    method Forward(f: Future, pr: Promise, t: Continuation)
      requires Valid() && f in g.fs && !g.fs[f].spent && Answerable(g, pr, t) && g.fs[f].promise != pr
      requires g.fs[f].goal == g.ps[pr].goal && g.fs[f].rank < g.ps[pr].rank
      modifies this`g, this`queue, f, f.promise, pr, pr.task, pr.future
      ensures Valid() && Objects(g) == old(Objects(g)) && Answered(old(g), g, pr, t, {f}) && Work(g) == Work(old(g))
      ensures f in g.fs && (f.promise == null || f.promise == old(f.promise))
    {
      hide HeapOk, Meant, Answered;
      FutureOkAt(g, f);
      PromiseOkAt(g, pr);
      UnspentState(g, f, ext);
      ForwardKeeps(g, f, pr, t, ext);
      AnsweredKeys(g, ForwardSpec(g, f, pr), pr, t, {f});
      f.ForwardTo(this, pr);
    }

    /** The end of a continuation's run: the future of the callback answers the captured promise. */
    method ForwardAndDrop(ghost g0: Graph, f: Future, pr: Promise, t: Continuation)
      requires Valid() && f in g.fs && !g.fs[f].spent && f !in g0.fs && Stable(g0, g, {})
      requires SettledBut(g, t) && inflight == Outside(g) && Answerable(g, pr, t) && g.fs[f].promise != pr
      requires g.fs[f].goal == g.ps[pr].goal && g.fs[f].rank < g.ps[pr].rank && g.ts[t].func.pr == pr
      modifies this`g, this`queue, f, f.promise, pr, pr.task, pr.future
      ensures Valid() && Objects(g) <= old(Objects(g)) && SettledBut(g, t)
      ensures inflight == Outside(g) && Stable(g0, g, {})
      ensures Closing(g, t, old(g).ts[t].func)
      ensures Work(g) == Work(old(g))
    {
      hide HeapOk, Meant, Answered, Linked, SettledBut, Stable, Closing, Objects;
      ghost var g1 := g;
      Forward(f, pr, t);
      ForwardedAndDropped(g0, g1, g, f, pr, t, ext);
      f.Drop(this);
    }

    /** The lambdas of then() and then_wrapped(): apply the callback and forward its future. */
    method ApplyAndForward(pr: Promise, t: Continuation, body: Body, env: Env, input: Outcome)
      requires Valid() && SettledBut(g, t) && inflight == Outside(g)
      requires Answerable(g, pr, t) && g.ts[t].func.pr == pr
      requires g.ps[pr].goal == DenoteBody(body, env, input, ext) && BodySize(body) <= g.ps[pr].rank
      modifies this, pr, pr.task, pr.future
      ensures Valid() && NewOnly() && SettledBut(g, t) && inflight == Outside(g)
      ensures Stable(old(g), g, {}) && Closing(g, t, old(g).ts[t].func)
      ensures Work(g) < Work(old(g)) + BodySize(body)
    {
      hide HeapOk, Meant, Grown, SettledBut, Stable, Closing, Objects, Added, Outside, DenoteBody, BodySize;
      ghost var g0 := g;
      var f := Apply(body, env, input);
      GrownSettled(g0, g, pr, t, Added(old(inflight), inflight));
      ForwardAndDrop(g0, f, pr, t);
    }

    /** continuation::run() up to the point where the promise it captured has been answered. */
    method Answer(t: Continuation, ghost input: Outcome)
      requires Valid() && t in g.ts && t.state == Resolved(input) && SettledBut(g, t) && inflight == Outside(g)
      requires Answerable(g, t.func.pr, t)
      requires g.ps[t.func.pr].goal == DenoteBody(t.func.body, t.func.env, input, ext)
      requires BodySize(t.func.body) <= g.ps[t.func.pr].rank
      modifies this, Objects(g)
      ensures Valid() && NewOnly() && SettledBut(g, t) && inflight == Outside(g)
      ensures Stable(old(g), g, {}) && Closing(g, t, old(t.func))
      ensures Work(g) < Work(old(g)) + BodySize(old(t.func.body))
    {
      hide HeapOk, Meant, SettledBut, Stable, Closing, Objects, Outside, BodySize;
      var Func(pr, body, env) := t.func;
      PromiseOkAt(g, pr);
      ObjectsAt(g, pr);
      if body.OnValue? && t.state.o.Failed? {
        SetAnswers(g, pr, t.state.o, t, ext);
        pr.Set(this, t.state.o);
      } else {
        ApplyAndForward(pr, t, body, env, t.state.o);
      }
    }

    /** Taking the front task off the queue. */
    method StartFront() returns (t: Continuation)
      requires Valid() && g.queue != []
      modifies this`queue, this`g
      ensures Valid() && t == old(g.queue)[0] && queue == old(queue)[1..]
      ensures g == StartSpec(old(g)) && Work(g) == Work(old(g)) && Objects(g) == Objects(old(g))
      ensures t.func == g.ts[t].func && t.state == g.ts[t].state
    {
      hide HeapOk, Meant, Objects;
      StartKeeps(g, ext);
      t := queue[0];
      queue := queue[1..];
      g := StartSpec(g);
    }

    /** Destroying the task that ran, with the promise it captured. */
    method FinishTask(t: Continuation, ghost fn: Func)
      requires Valid() && Closing(g, t, fn)
      modifies this`g, Objects(g)
      ensures Valid()
      ensures t in old(g).ts && old(g).ts[t].func == fn && fn.pr in old(g).ps
      ensures PromiseOk(old(g), fn.pr) && g == FinishSpec(old(g), t)
      ensures Work(g) == Work(old(g)) - BodySize(fn.body) && inflight == old(inflight)
    {
      hide HeapOk, Meant, Objects, Work;
      ClosingAt(g, t, fn);
      FinishKeeps(g, t, ext);
      assert t.func == fn;
      hide Linked, Closing;
      t.func.pr.Drop(this);
      Retire(t);
    }

    /** One turn of the event loop: the front task runs and is destroyed. */
    method RunFront()
      requires Valid() && Settled(g) && inflight == Outside(g) && g.queue != []
      modifies this, Objects(g)
      ensures Valid() && NewOnly() && Settled(g) && inflight == Outside(g)
      ensures Stable(old(g), g, {}) && Work(g) < Work(old(g))
    {
      hide HeapOk, Meant, Linked, Settled, SettledBut, Stable, Closing, Objects, Outside, Answerable;
      ghost var g0 := g;
      StartFacts(g0, ext);
      var t := StartFront();
      label started:
      Answer(t, g0.ts[t].input);
      ghost var g1 := g;
      forall o <- Objects(g1) ensures o in Objects(g0) || fresh(o) {
        assert old(allocated(o)) ==> old@started(allocated(o));
      }
      FinishTask(t, g0.ts[t].func);
      FinishSettled(g0, g1, t);
    }

    /** An outside party satisfies a promise it holds, or destroys it if it had satisfied it before. */
    method OutsideEvent(p: Promise)
      requires Valid() && Settled(g) && inflight == Outside(g) && p in inflight
      modifies this, Objects(g)
      ensures Valid() && NewOnly() && Settled(g) && inflight == Outside(g)
      ensures Stable(old(g), g, {}) && Work(g) < Work(old(g))
    {
      hide HeapOk, Meant, Settled, Stable, Objects, Outside;
      OutsideAt(g, p, ext);
      ObjectsAt(g, p);
      if p.Pending() {
        SatisfyKeeps(g, p, ext);
        p.Set(this, ext(inflight[p]));
      } else {
        ReleaseKeeps(g, p, ext);
        p.Drop(this);
        inflight := inflight - {p};
      }
    }

    /** The event loop, until there is nothing left to do: whatever order the tasks and the outside events
        come in, it terminates, and every future then holds the outcome it was waiting for. */
    method RunAll(f: Future)
      requires Valid() && Settled(g) && inflight == Outside(g) && f in g.fs && !g.fs[f].spent
      modifies this, Objects(g)
      ensures Valid() && Settled(g) && queue == [] && inflight == map[]
      ensures f in g.fs && FutureOk(g, f) && StateOf(g, f) == Resolved(old(g).fs[f].goal)
    {
      hide HeapOk, Meant, Settled, Objects, Outside, Stable;
      ghost var goal := g.fs[f].goal;
      while queue != [] || inflight != map[]
        invariant Valid() && NewOnly() && Settled(g) && inflight == Outside(g)
        invariant f in g.fs && g.fs[f].goal == goal && !g.fs[f].spent
        decreases Work(g)
      {
        ghost var g0 := g;
        if {
        case queue != [] =>
          RunFront();
        case inflight != map[] =>
          var p :| p in inflight;
          OutsideEvent(p);
        }
        StableAt(g0, g, f);
      }
      QuiescentFutures(g, f, ext);
    }

    /** Running a program to the end gives what the program denotes. */
    method Run(e: Expr, env: Env) returns (o: Outcome)
      requires Valid() && Settled(g) && inflight == Outside(g)
      modifies this, Objects(g)
      ensures Valid() && Settled(g) && queue == [] && inflight == map[]
      ensures o == Denote(e, env, ext)
    {
      hide HeapOk, Meant, Settled, Objects, Grown, Outside, Added;
      ghost var g0, flying := g, inflight;
      var f := Eval(e, env);
      GrownBetween(g0, g, Added(flying, inflight));
      RunAll(f);
      FutureOkAt(g, f);
      o := f.Peek().o;
    }

    /** A new task, with the promise it captured, at the back of the queue. */
    method Enqueue(t: Continuation, ghost r: TRec)
      requires Linked() && t !in g.ts && t.Shows(r) && r.func.pr in g.ps
      modifies this`queue, this`g
      ensures Linked() && g == EnqueueSpec(old(g), t, r)
    {
      Schedule(t);
      g := EnqueueSpec(g, t, r);
    }

    /** The task is destroyed, with the promise it captured, and with whatever waits there. */
    method Discard(t: Continuation)
      requires Linked() && HeapOk(g) && t in g.ts && g.ts[t].slot == Running
      modifies this`g, Objects(g)
      ensures Linked() && g == DiscardSpec(old(g), t)
      decreases |g.ts|
    {
      hide HeapOk, Objects;
      TaskOkAt(g, t);
      var pr := t.func.pr;
      ObjectsAt(g, pr);
      var u := pr.task;
      if u != null {
        DetachedThenFinished(g, t);
        DetachedObjects(g, pr);
        var _ := pr.Detach(this);
      }
      ghost var g1 := g;
      FinishedObjects(g1, t);
      pr.Drop(this);
      Retire(t);
      if u != null {
        Discard(u);
      }
    }

    /** The task object is gone. */
    ghost method Retire(t: Continuation)
      requires Linked()
      modifies this`g
      ensures Linked() && g == old(g).(ts := old(g).ts - {t})
    {
      g := g.(ts := g.ts - {t});
    }

    /** schedule() */
    method Schedule(t: Continuation)
      modifies this`queue
      ensures queue == old(queue) + [t]
    {
      queue := queue + [t];
    }
  }
}
