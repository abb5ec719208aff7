/** The logical value of a future and promise pair is never duplicated, and never lost by being moved. */
module Values {
  import opened Programs
  import opened Sums
  import opened Futures
  import opened Heaps

  /** Whether a state holds the outcome. */
  ghost function One(s: State, o: Outcome): nat {
    if s == Resolved(o) then 1 else 0
  }

  ghost function PHolds(o: Outcome): PRec -> nat {
    (r: PRec) => One(r.local, o)
  }

  ghost function FHolds(o: Outcome): FRec -> nat {
    (r: FRec) => One(r.local, o)
  }

  ghost function THolds(o: Outcome): TRec -> nat {
    (r: TRec) => One(r.state, o)
  }

  /** How many promises, futures and tasks hold the outcome. */
  ghost function InPs(ps: map<Promise, PRec>, o: Outcome): nat {
    SumOver<Promise, PRec>(ps, PHolds(o))
  }

  ghost function InFs(fs: map<Future, FRec>, o: Outcome): nat {
    SumOver<Future, FRec>(fs, FHolds(o))
  }

  ghost function InTs(ts: map<Continuation, TRec>, o: Outcome): nat {
    SumOver<Continuation, TRec>(ts, THolds(o))
  }

  /** The number of places that hold the outcome. */
  ghost function Places(g: Graph, o: Outcome): nat {
    InPs(g.ps, o) + InFs(g.fs, o) + InTs(g.ts, o)
  }

  lemma PsUpdate(ps: map<Promise, PRec>, p: Promise, r: PRec, o: Outcome)
    ensures InPs(ps[p := r], o) + (if p in ps then One(ps[p].local, o) else 0) == InPs(ps, o) + One(r.local, o)
  {
    SumUpdate<Promise, PRec>(ps, PHolds(o), p, r);
    if p in ps {
      SumRemove<Promise, PRec>(ps, PHolds(o), p);
    }
  }

  lemma PsRemove(ps: map<Promise, PRec>, p: Promise, o: Outcome)
    requires p in ps
    ensures InPs(ps - {p}, o) + One(ps[p].local, o) == InPs(ps, o)
  {
    SumRemove<Promise, PRec>(ps, PHolds(o), p);
  }

  lemma FsUpdate(fs: map<Future, FRec>, f: Future, r: FRec, o: Outcome)
    ensures InFs(fs[f := r], o) + (if f in fs then One(fs[f].local, o) else 0) == InFs(fs, o) + One(r.local, o)
  {
    SumUpdate<Future, FRec>(fs, FHolds(o), f, r);
    if f in fs {
      SumRemove<Future, FRec>(fs, FHolds(o), f);
    }
  }

  lemma FsRemove(fs: map<Future, FRec>, f: Future, o: Outcome)
    requires f in fs
    ensures InFs(fs - {f}, o) + One(fs[f].local, o) == InFs(fs, o)
  {
    SumRemove<Future, FRec>(fs, FHolds(o), f);
  }

  lemma TsUpdate(ts: map<Continuation, TRec>, t: Continuation, r: TRec, o: Outcome)
    ensures InTs(ts[t := r], o) + (if t in ts then One(ts[t].state, o) else 0) == InTs(ts, o) + One(r.state, o)
  {
    SumUpdate<Continuation, TRec>(ts, THolds(o), t, r);
    if t in ts {
      SumRemove<Continuation, TRec>(ts, THolds(o), t);
    }
  }

  lemma TsRemove(ts: map<Continuation, TRec>, t: Continuation, o: Outcome)
    requires t in ts
    ensures InTs(ts - {t}, o) + One(ts[t].state, o) == InTs(ts, o)
  {
    SumRemove<Continuation, TRec>(ts, THolds(o), t);
  }

  // ---------------------------------------------------------------------------------------------
  // The building blocks of the operations

  /** Moving a promise moves its value; a promise that is written over loses its own. */
  lemma TransferPlaces(g: Graph, src: Promise, dst: Promise, holder: Holder, o: Outcome)
    requires src in g.ps && PromiseOk(g, src) && src != dst
    ensures Places(TransferSpec(g, src, dst, holder), o)
              + (if dst in g.ps then One(g.ps[dst].local, o) else 0) == Places(g, o)
  {
    hide InPs, InFs, InTs;
    var r := g.ps[src];
    var moved := MovedRec(r, src, dst).(holder := holder);
    PsUpdate(g.ps, dst, moved, o);
    PsUpdate(g.ps[dst := moved], src, EmptiedRec(r, src), o);
    if r.future != null {
      FsUpdate(g.fs, r.future, g.fs[r.future].(promise := dst), o);
    }
    if r.task != null {
      TsUpdate(g.ts, r.task, g.ts[r.task].(slot := AttachedTo(dst)), o);
    }
  }

  /** A promise that is destroyed leaves its value with its future, if there is one. */
  lemma DropPlaces(g: Graph, p: Promise, o: Outcome)
    requires HeapOk(g) && p in g.ps
    ensures PromiseOk(g, p)
    ensures Places(DropPromiseSpec(g, p), o)
              + (if g.ps[p].future == null then One(g.ps[p].local, o) else 0) == Places(g, o)
  {
    hide HeapOk, InPs, InFs, InTs;
    PromiseOkAt(g, p);
    var r := g.ps[p];
    PsRemove(g.ps, p, o);
    if r.future != null {
      FutureOkAt(g, r.future);
      FsUpdate(g.fs, r.future, g.fs[r.future].(promise := null, local := r.local), o);
    }
  }

  lemma SetPlaces(g: Graph, p: Promise, o: Outcome, v: Outcome)
    requires HeapOk(g) && p in g.ps && Unset(g.ps[p])
    ensures PromiseOk(g, p)
    ensures Places(SetSpec(g, p, v), o) == Places(g, o) + if v == o then 1 else 0
  {
    hide HeapOk, InPs, InFs, InTs;
    PromiseOkAt(g, p);
    var r := g.ps[p];
    if r.task != null {
      TaskOkAt(g, r.task);
      PsUpdate(g.ps, p, r.(state := NullState, task := null), o);
      TsUpdate(g.ts, r.task, g.ts[r.task].(state := Resolved(v), slot := Queued), o);
    } else {
      PsUpdate(g.ps, p, r.(local := Resolved(v)), o);
    }
  }

  lemma MoveFuturePlaces(g: Graph, x: Future, y: Future, o: Outcome)
    requires x in g.fs && y !in g.fs && FutureOk(g, x)
    ensures Places(MoveFutureSpec(g, x, y), o) == Places(g, o)
  {
    hide InPs, InFs, InTs;
    var r := g.fs[x];
    FsUpdate(g.fs, y, r, o);
    if r.promise != null {
      PsUpdate(g.ps, r.promise, g.ps[r.promise].(future := y), o);
      FsUpdate(g.fs[y := r], x, r.(promise := null, spent := true), o);
    } else {
      FsUpdate(g.fs[y := r], x, r.(local := Invalid, spent := true), o);
    }
  }

  /** A future that is destroyed takes its value with it, unless its promise holds it. */
  lemma DropFuturePlaces(g: Graph, f: Future, o: Outcome)
    requires f in g.fs && FutureOk(g, f)
    ensures Places(DropFutureSpec(g, f), o)
              + (if g.fs[f].promise == null then One(g.fs[f].local, o) else 0) == Places(g, o)
  {
    hide InPs, InFs, InTs;
    var r := g.fs[f];
    FsRemove(g.fs, f, o);
    if r.promise != null {
      PsUpdate(g.ps, r.promise, g.ps[r.promise].(future := null), o);
    }
  }

  /** What is taken out of a future is no longer where it was. */
  lemma TakePlaces(g: Graph, f: Future, o: Outcome)
    requires f in g.fs && FutureOk(g, f)
    ensures Places(TakeSpec(g, f), o) + One(StateOf(g, f), o) == Places(g, o)
  {
    hide InPs, InFs, InTs;
    var r := g.fs[f];
    if r.promise != null {
      PsUpdate(g.ps, r.promise, g.ps[r.promise].(local := Invalid), o);
      FsUpdate(g.fs, f, r.(spent := true), o);
    } else {
      FsUpdate(g.fs, f, r.(local := Invalid, spent := true), o);
    }
  }

  lemma EnqueuePlaces(g: Graph, t: Continuation, r: TRec, o: Outcome)
    requires t !in g.ts && r.func.pr in g.ps
    ensures Places(EnqueueSpec(g, t, r), o) == Places(g, o) + One(r.state, o)
  {
    hide InPs, InFs, InTs;
    PsUpdate(g.ps, r.func.pr, g.ps[r.func.pr].(holder := CapturedBy(t)), o);
    TsUpdate(g.ts, t, r, o);
  }

  lemma UnlinkPlaces(g: Graph, f: Future, o: Outcome)
    requires f in g.fs && FutureOk(g, f) && g.fs[f].promise != null
    ensures Places(UnlinkSpec(g, f), o) == Places(g, o)
  {
    hide InPs, InFs, InTs;
    var r := g.fs[f];
    PsUpdate(g.ps, r.promise, g.ps[r.promise].(future := null), o);
    FsUpdate(g.fs, f, r.(promise := null, spent := true), o);
  }

  lemma WaitPlaces(g: Graph, p: Promise, t: Continuation, fn: Func, o: Outcome)
    requires p in g.ps && fn.pr in g.ps && p != fn.pr && t !in g.ts
    ensures Places(WaitSpec(g, p, t, fn), o) == Places(g, o)
  {
    hide InPs, InFs, InTs;
    var r := g.ps[p].(state := InTask(t), task := t);
    PsUpdate(g.ps, p, r, o);
    PsUpdate(g.ps[p := r], fn.pr, g.ps[fn.pr].(holder := CapturedBy(t)), o);
    TsUpdate(g.ts, t, TRec(Unresolved, fn, AttachedTo(p), g.ps[p].goal), o);
  }

  lemma AttachPlaces(g: Graph, f: Future, t: Continuation, fn: Func, o: Outcome)
    requires HeapOk(g) && Legal(g, Op.Attach(f, t, fn))
    ensures Places(ScheduleSpec(g, f, t, fn), o) == Places(g, o)
  {
    hide HeapOk, Places, TakeSpec, EnqueueSpec, UnlinkSpec, WaitSpec;
    FutureOkAt(g, f);
    SameKeys(g, f);
    if StateOf(g, f).Resolved? {
      TakePlaces(g, f, o);
      EnqueuePlaces(TakeSpec(g, f), t, TRec(StateOf(g, f), fn, Queued, g.fs[f].goal), o);
    } else {
      UnlinkPlaces(g, f, o);
      WaitPlaces(UnlinkSpec(g, f), g.fs[f].promise, t, fn, o);
    }
  }

  lemma SameKeys(g: Graph, f: Future)
    requires f in g.fs && FutureOk(g, f)
    ensures TakeSpec(g, f).ps.Keys == g.ps.Keys && TakeSpec(g, f).ts == g.ts
    ensures g.fs[f].promise != null ==> UnlinkSpec(g, f).ps.Keys == g.ps.Keys && UnlinkSpec(g, f).ts == g.ts
  {
  }

  lemma ForwardPlaces(g: Graph, f: Future, pr: Promise, o: Outcome)
    requires HeapOk(g) && Legal(g, Forward(f, pr))
    ensures PromiseOk(g, pr) && Places(ForwardSpec(g, f, pr), o) == Places(g, o)
  {
    FutureOkAt(g, f);
    PromiseOkAt(g, pr);
    if StateOf(g, f).Resolved? {
      TakeKeepsHeap(g, f);
      TakeLeavesUnset(g, f, pr);
      hide HeapOk, Places, TakeSpec, SetSpec;
      TakePlaces(g, f, o);
      SetPlaces(TakeSpec(g, f), pr, o, StateOf(g, f).o);
    } else {
      var u, p := UnlinkSpec(g, f), g.fs[f].promise;
      UnlinkKeepsHeap(g, f);
      PromiseOkAt(u, pr);
      assert u.ps[p].local == Unresolved;
      hide HeapOk, Places, UnlinkSpec, TransferSpec;
      UnlinkPlaces(g, f, o);
      TransferPlaces(u, pr, p, g.ps[p].holder, o);
    }
  }

  lemma TakeLeavesUnset(g: Graph, f: Future, pr: Promise)
    requires f in g.fs && FutureOk(g, f) && pr in g.ps && Unset(g.ps[pr]) && g.fs[f].promise != pr
    ensures pr in TakeSpec(g, f).ps && Unset(TakeSpec(g, f).ps[pr])
  {
  }

  // ---------------------------------------------------------------------------------------------
  // Destruction

  /** Nobody waits at the promise, and its value, if any, is for its future. */
  ghost predicate Handed(r: PRec) {
    r.task == null && (r.future != null || !r.local.Resolved?)
  }

  /** A task that is destroyed takes its input with it; the promise it captured goes as promises do. */
  lemma FinishPlaces(g: Graph, t: Continuation, o: Outcome)
    requires HeapOk(g) && t in g.ts
    ensures TaskOk(g, t) && PromiseOk(g, g.ts[t].func.pr)
    ensures var r := g.ps[g.ts[t].func.pr];
            Places(FinishSpec(g, t), o) + One(g.ts[t].state, o)
              + (if r.future == null then One(r.local, o) else 0) == Places(g, o)
  {
    hide HeapOk, InPs, InFs, InTs;
    TaskOkAt(g, t);
    DropPlaces(g, g.ts[t].func.pr, o);
    TsRemove(g.ts, t, o);
  }

  lemma DetachPlaces(g: Graph, p: Promise, o: Outcome)
    requires p in g.ps && PromiseOk(g, p) && g.ps[p].task != null
    ensures Places(DetachSpec(g, p), o) == Places(g, o)
  {
    hide InPs, InFs, InTs;
    var r := g.ps[p];
    PsUpdate(g.ps, p, r.(state := NullState, task := null), o);
    TsUpdate(g.ts, r.task, g.ts[r.task].(slot := Running), o);
  }

  lemma {:induction false} DiscardPlaces(g: Graph, t: Continuation, o: Outcome)
    requires HeapOk(g) && t in g.ts && g.ts[t].slot == Running
    ensures Places(DiscardSpec(g, t), o) + One(g.ts[t].state, o) <= Places(g, o)
    ensures Handed(g.ps[g.ts[t].func.pr]) ==> Places(DiscardSpec(g, t), o) + One(g.ts[t].state, o) == Places(g, o)
    decreases |g.ts|
  {
    hide HeapOk, Places, FinishSpec, DetachSpec;
    TaskOkAt(g, t);
    var p := g.ts[t].func.pr;
    if g.ps[p].task == null {
      FinishPlaces(g, t, o);
    } else {
      DetachKeepsHeap(g, p);
      DetachedThenFinished(g, t);
      DetachPlaces(g, p, o);
      StillThere(g, p, t);
      FinishPlaces(DetachSpec(g, p), t, o);
      DiscardPlaces(FinishSpec(DetachSpec(g, p), t), g.ps[p].task, o);
    }
  }

  lemma StillThere(g: Graph, p: Promise, t: Continuation)
    requires p in g.ps && PromiseOk(g, p) && g.ps[p].task != null && t in g.ts
    ensures t in DetachSpec(g, p).ts && DetachSpec(g, p).ts[t].func == g.ts[t].func
    ensures DetachSpec(g, p).ts[t].state == g.ts[t].state
  {
  }

  lemma DestroyPlaces(g: Graph, p: Promise, o: Outcome)
    requires HeapOk(g) && p in g.ps && !g.ps[p].holder.CapturedBy?
    ensures Places(DestroySpec(g, p), o) <= Places(g, o)
    ensures Handed(g.ps[p]) ==> Places(DestroySpec(g, p), o) == Places(g, o)
  {
    hide HeapOk, Places, DropPromiseSpec;
    PromiseOkAt(g, p);
    if g.ps[p].task == null {
      DropPlaces(g, p, o);
    } else {
      DetachKeepsHeap(g, p);
      DetachedThenDropped(g, p);
      DetachPlaces(g, p, o);
      DropPlaces(DetachSpec(g, p), p, o);
      DiscardPlaces(DropPromiseSpec(DetachSpec(g, p), p), g.ps[p].task, o);
    }
  }

  lemma ClearedPlaces(g: Graph, p: Promise, o: Outcome)
    requires HeapOk(g) && p in g.ps
    ensures Places(ClearedSpec(g, p), o) <= Places(g, o)
    ensures g.ps[p].task == null ==> Places(ClearedSpec(g, p), o) == Places(g, o)
  {
    hide HeapOk, InPs, InFs, InTs;
    PromiseOkAt(g, p);
    var r := g.ps[p];
    if r.task != null {
      DetachKeepsHeap(g, p);
      DetachPlaces(g, p, o);
      DiscardPlaces(DetachSpec(g, p), r.task, o);
    } else if r.future != null {
      FutureOkAt(g, r.future);
      PsUpdate(g.ps, p, r.(future := null, local := Invalid), o);
      FsUpdate(g.fs, r.future, g.fs[r.future].(promise := null, local := r.local), o);
    }
  }

  lemma AssignPlaces(g: Graph, src: Promise, dst: Promise, o: Outcome)
    requires Assignable(g, src, dst)
    ensures Places(AssignSpec(g, src, dst), o) <= Places(g, o)
    ensures Keeps(g, AssignPromise(src, dst)) ==> Places(AssignSpec(g, src, dst), o) == Places(g, o)
  {
    if src != dst {
      PromiseOkAt(g, dst);
      var h := ClearedSpec(g, dst);
      assert Keeps(g, AssignPromise(src, dst)) ==> g.ps[dst].task == null && !h.ps[dst].local.Resolved?;
      hide HeapOk, Places, ClearedSpec, TransferSpec;
      ClearedPlaces(g, dst, o);
      ClearedKeepsHeap(g, dst);
      PromiseOkAt(h, src);
      TransferPlaces(h, src, dst, h.ps[dst].holder, o);
    }
  }

  // ---------------------------------------------------------------------------------------------
  // All operations

  /** The operation puts the outcome in: it satisfies a promise, or makes a ready future. */
  ghost function Put(op: Op, o: Outcome): nat {
    if (op.Set? || op.NewReady?) && op.o == o then 1 else 0
  }

  /** The task that is destroyed after it ran has used its input up. */
  ghost function Used(g: Graph, op: Op, o: Outcome): nat {
    if op.Finish? && op.t in g.ts then One(g.ts[op.t].state, o) else 0
  }

  /** The operation destroys nothing that is the last to hold a value: a promise without a future, or a future
      without a promise, that has one, or a chain of waiting tasks. */
  ghost predicate Keeps(g: Graph, op: Op) {
    match op
    case DropPromise(p) => p in g.ps && Handed(g.ps[p])
    case AssignPromise(src, dst) => src == dst || (dst in g.ps && Handed(g.ps[dst]))
    case DropFuture(f) => f in g.fs && (g.fs[f].promise != null || !g.fs[f].local.Resolved?)
    case Finish(t) => t in g.ts && g.ts[t].func.pr in g.ps && Handed(g.ps[g.ts[t].func.pr])
    case _ => true
  }

  lemma NewPlaces(g: Graph, op: Op, o: Outcome)
    requires HeapOk(g) && Legal(g, op) && (op.NewPromise? || op.GetFuture? || op.NewReady? || op.Start?)
    ensures Places(Done(g, op), o) == Places(g, o) + Put(op, o)
  {
    hide HeapOk, InPs, InFs, InTs;
    if op.NewPromise? {
      PsUpdate(g.ps, op.p, PRec(null, Unresolved, LocalOf(op.p), null, op.holder, Value(0), 0), o);
    } else if op.GetFuture? {
      var r := g.ps[op.p];
      PsUpdate(g.ps, op.p, r.(future := op.f), o);
      FsUpdate(g.fs, op.f, FRec(op.p, Unresolved, r.goal, r.rank, false), o);
    } else if op.NewReady? {
      FsUpdate(g.fs, op.f, FRec(null, Resolved(op.o), op.o, 0, false), o);
    } else {
      FrontIsThere(g);
      TsUpdate(g.ts, g.queue[0], g.ts[g.queue[0]].(slot := Running), o);
    }
  }

  lemma FrontIsThere(g: Graph)
    requires HeapOk(g) && g.queue != []
    ensures g.queue[0] in g.ts
  {
  }

  /** No operation makes a second copy of a value; and none that destroys no holder loses one. */
  lemma OpPlaces(g: Graph, op: Op, o: Outcome)
    requires HeapOk(g) && Legal(g, op)
    ensures Places(Done(g, op), o) + Used(g, op, o) <= Places(g, o) + Put(op, o)
    ensures Keeps(g, op) ==> Places(Done(g, op), o) + Used(g, op, o) == Places(g, o) + Put(op, o)
  {
    hide HeapOk, Places;
    match op {
      case NewPromise(p, holder) => NewPlaces(g, op, o);
      case GetFuture(p, f) => NewPlaces(g, op, o);
      case MovePromise(src, dst) => PromiseOkAt(g, src); TransferPlaces(g, src, dst, OnStack, o);
      case AssignPromise(src, dst) => AssignPlaces(g, src, dst, o);
      case DropPromise(p) => DestroyPlaces(g, p, o);
      case Set(p, v) => SetPlaces(g, p, o, v);
      case NewReady(f, v) => NewPlaces(g, op, o);
      case MoveFuture(x, y) => FutureOkAt(g, x); MoveFuturePlaces(g, x, y, o);
      case DropFuture(f) => FutureOkAt(g, f); DropFuturePlaces(g, f, o);
      case Attach(f, t, fn) => AttachPlaces(g, f, t, fn, o);
      case Forward(f, pr) => ForwardPlaces(g, f, pr, o);
      case Start => NewPlaces(g, op, o);
      case Finish(t) => DiscardPlaces(g, t, o);
    }
  }

  // ---------------------------------------------------------------------------------------------
  // Whole runs

  /** How often a sequence of operations puts the outcome in. */
  ghost function Puts(ops: seq<Op>, o: Outcome): nat {
    if ops == [] then 0 else Put(ops[0], o) + Puts(ops[1..], o)
  }

  /** How often the outcome was the input of a task that ran and was destroyed. */
  ghost function Uses(g: Graph, ops: seq<Op>, o: Outcome): nat
    decreases |ops|
  {
    if ops == [] || !HeapOk(g) || !Legal(g, ops[0]) then 0
    else Used(g, ops[0], o) + Uses(Done(g, ops[0]), ops[1..], o)
  }

  ghost predicate AllKeep(g: Graph, ops: seq<Op>)
    decreases |ops|
  {
    ops == [] || (HeapOk(g) && Legal(g, ops[0]) && Keeps(g, ops[0]) && AllKeep(Done(g, ops[0]), ops[1..]))
  }

  /** Conservation: over any legal operations, an outcome is in at most as many places, or was used up, as it was
      put in; and in exactly as many as long as no holder was destroyed with it. */
  lemma {:induction false} ValuesAreConserved(g: Graph, ops: seq<Op>, h: Graph, o: Outcome)
    requires HeapOk(g) && Runs(g, ops, h)
    ensures Places(h, o) + Uses(g, ops, o) <= Places(g, o) + Puts(ops, o)
    ensures AllKeep(g, ops) ==> Places(h, o) + Uses(g, ops, o) == Places(g, o) + Puts(ops, o)
    decreases |ops|
  {
    hide HeapOk, Legal, Done, Places, Keeps, Used, Put;
    if ops != [] {
      OpKeepsHeap(g, ops[0]);
      OpPlaces(g, ops[0], o);
      ValuesAreConserved(Done(g, ops[0]), ops[1..], h, o);
    }
  }

  /** One of the three locations of a value. */
  datatype Place = OfPromise(p: Promise) | OfFuture(f: Future) | OfTask(t: Continuation)

  ghost predicate HeldAt(g: Graph, o: Outcome, x: Place) {
    match x
    case OfPromise(p) => p in g.ps && g.ps[p].local == Resolved(o)
    case OfFuture(f) => f in g.fs && g.fs[f].local == Resolved(o)
    case OfTask(t) => t in g.ts && g.ts[t].state == Resolved(o)
  }

  lemma HeldCounts(g: Graph, o: Outcome, x: Place)
    requires HeldAt(g, o, x)
    ensures match x
            case OfPromise(_) => InPs(g.ps, o) >= 1
            case OfFuture(_) => InFs(g.fs, o) >= 1
            case OfTask(_) => InTs(g.ts, o) >= 1
  {
    hide InPs, InFs, InTs;
    match x {
      case OfPromise(p) => PsRemove(g.ps, p, o);
      case OfFuture(f) => FsRemove(g.fs, f, o);
      case OfTask(t) => TsRemove(g.ts, t, o);
    }
  }

  /** Two places that hold an outcome count as two. */
  lemma TwoPlaces(g: Graph, o: Outcome, x: Place, y: Place)
    requires HeldAt(g, o, x) && HeldAt(g, o, y) && x != y
    ensures Places(g, o) >= 2
  {
    hide InPs, InFs, InTs;
    HeldCounts(g, o, x);
    match x {
      case OfPromise(p) =>
        PsRemove(g.ps, p, o);
        HeldCounts(g.(ps := g.ps - {p}), o, y);
      case OfFuture(f) =>
        FsRemove(g.fs, f, o);
        HeldCounts(g.(fs := g.fs - {f}), o, y);
      case OfTask(t) =>
        TsRemove(g.ts, t, o);
        HeldCounts(g.(ts := g.ts - {t}), o, y);
    }
  }

  /** The logical value is in exactly one place.  Whatever legal operations follow one another, from nothing, an
      outcome that was put in once is in one promise, one future or one task at a time, never in two; and it is in
      one of them until a task has used it up or its last holder is destroyed. */
  lemma ValueIsInOnePlace(ops: seq<Op>, h: Graph, o: Outcome)
    requires Runs(Nothing(), ops, h) && Puts(ops, o) == 1
    ensures forall x, y :: HeldAt(h, o, x) && HeldAt(h, o, y) ==> x == y
    ensures AllKeep(Nothing(), ops) && Uses(Nothing(), ops, o) == 0 ==> exists x :: HeldAt(h, o, x)
  {
    assert Places(Nothing(), o) == 0;
    ValuesAreConserved(Nothing(), ops, h, o);
    hide Places, HeldAt, Runs, AllKeep, Uses;
    forall x, y | HeldAt(h, o, x) && HeldAt(h, o, y)
      ensures x == y
    {
      if x != y {
        TwoPlaces(h, o, x, y);
      }
    }
    if Places(h, o) > 0 {
      SomePlace(h, o);
    }
  }

  ghost function Nothing(): Graph {
    Graph(map[], map[], map[], [])
  }

  lemma SomePlace(g: Graph, o: Outcome)
    requires Places(g, o) > 0
    ensures exists x :: HeldAt(g, o, x)
  {
    if InPs(g.ps, o) > 0 {
      var p := SumWitness<Promise, PRec>(g.ps, PHolds(o));
      assert HeldAt(g, o, OfPromise(p));
    } else if InFs(g.fs, o) > 0 {
      var f := SumWitness<Future, FRec>(g.fs, FHolds(o));
      assert HeldAt(g, o, OfFuture(f));
    } else {
      var t := SumWitness<Continuation, TRec>(g.ts, THolds(o));
      assert HeldAt(g, o, OfTask(t));
    }
  }
}
