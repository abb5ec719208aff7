/** Every item is always in exactly one place, and is processed and completed once. */
module Lifecycles {
  import opened CrossCpu
  import Spsc = SpscQueues

  ghost function Copies<T>(q: seq<T>, x: T): nat {
    multiset(q)[x]
  }

  lemma CopiesTail<T>(q: seq<T>, x: T)
    requires q != []
    ensures Copies(q, x) == Copies(q[1..], x) + if q[0] == x then 1 else 0
  {
    assert q == [q[0]] + q[1..];
  }

  lemma CopiesAppend<T>(q: seq<T>, y: T, x: T)
    ensures Copies(q + [y], x) == Copies(q, x) + if y == x then 1 else 0
  {
  }

  lemma CopiesSplit<T>(q: seq<T>, n: nat, x: T)
    requires n <= |q|
    ensures Copies(q, x) == Copies(q[..n], x) + Copies(q[n..], x)
  {
    assert q == q[..n] + q[n..];
  }

  lemma CopiesIn<T>(q: seq<T>, x: T)
    ensures x in q <==> Copies(q, x) > 0
  {
  }

  // ---------------------------------------------------------------------------------------------
  // The invariant

  /** The items popped from tx_ that poll_tx() has yet to process. */
  function Fetching(cpu: Cpu): seq<Item> {
    match cpu.pc
    case Processing(_, batch) => batch
    case User(FromPoll(_, rest)) => rest
    case _ => []
  }

  /** The items popped from rx_ that poll_rx() has yet to complete. */
  function Collecting(cpu: Cpu): seq<Item> {
    if cpu.pc.Completing? then cpu.pc.batch else []
  }

  function CpuAt(cpus: seq<Cpu>, c: nat): Cpu {
    if c < |cpus| then cpus[c] else Cpu(Start, Quiet, false, false, false, [])
  }

  /** The item is in a place once if its stage is the one the place belongs to, and else not at all. */
  ghost predicate Held(book: Ledger, x: Item, st: Stage, copies: nat) {
    copies == if At(book, x, st) then 1 else 0
  }

  /** The stages of items in the buffer and in the ring of a channel, and of those popped from it. */
  function InBuffer(k: Channel): Stage {
    if k.Request? then Unsent else Answered
  }

  function InRing(k: Channel): Stage {
    if k.Request? then Sent else Returned
  }

  function InBatch(k: Channel): Stage {
    if k.Request? then Fetched else Collected
  }

  ghost predicate HeldIn(net: Network, book: Ledger, k: Channel, x: Item) {
    Held(book, x, InBuffer(k), Copies(Buffer(net, k), x)) && Held(book, x, InRing(k), Copies(Ring(net, k), x))
  }

  ghost predicate HeldInQueues(net: Network, book: Ledger, x: Item) {
    HeldIn(net, book, Request(x.from, x.to), x) && HeldIn(net, book, Response(x.from, x.to), x)
  }

  ghost predicate HeldAtTarget(cpu: Cpu, book: Ledger, x: Item) {
    && Held(book, x, Fetched, Copies(Fetching(cpu), x))
    && Held(book, x, Storing, Copies(cpu.tasks, Store(x)))
    && Held(book, x, Responding, Copies(cpu.tasks, Respond(x)))
  }

  ghost predicate HeldAtSource(cpu: Cpu, book: Ledger, x: Item) {
    Held(book, x, Collected, Copies(Collecting(cpu), x))
  }

  ghost predicate HeldOnCpus(cpus: seq<Cpu>, book: Ledger, x: Item) {
    HeldAtTarget(CpuAt(cpus, x.to), book, x) && HeldAtSource(CpuAt(cpus, x.from), book, x)
  }

  /** The item's stage is at least st. */
  ghost predicate Reached(book: Ledger, x: Item, st: Stage) {
    x in book.stage && Rank(book.stage[x]) >= Rank(st)
  }

  /** The outcome of the item's handler is known from the stage Storing on, and in ret_ from the next on. */
  ghost predicate RecordOk(n: nat, book: Ledger, x: Item) {
    && (x in book.stage ==> Proper(n, Request(x.from, x.to)))
    && (x in book.handled <==> Reached(book, x, Storing))
    && (x in book.ret <==> Reached(book, x, Responding))
    && (x in book.ret && x in book.handled ==> book.ret[x] == book.handled[x])
  }

  /** The item was processed once, on its target, when it got there, and finished once, on its source, with
      the outcome of its handler, at the end. */
  ghost predicate LogOk(book: Ledger, x: Item) {
    && (forall e <- book.log ::
          e.x == x ==> e == Processed(x, x.to) || (x in book.ret && e == Finished(x, x.from, book.ret[x])))
    && Copies(book.log, Processed(x, x.to)) == (if Reached(book, x, Running) then 1 else 0)
    && (x in book.ret ==>
          Copies(book.log, Finished(x, x.from, book.ret[x])) == if At(book, x, Completed) then 1 else 0)
  }

  ghost predicate ItemOk(s: System, x: Item) {
    && HeldInQueues(s.net, s.book, x)
    && HeldOnCpus(s.cpus, s.book, x)
    && RecordOk(|s.cpus|, s.book, x)
    && LogOk(s.book, x)
  }

  ghost predicate CpusOk(s: System) {
    forall c: nat | c < |s.cpus| :: CpuOk(s, c)
  }

  ghost predicate ChannelsOk(net: Network) {
    forall k: Channel :: ChannelOk(net, k)
  }

  ghost predicate ItemsOk(s: System) {
    forall x: Item :: ItemOk(s, x)
  }

  ghost predicate Inv(s: System) {
    CpusOk(s) && ChannelsOk(s.net) && ItemsOk(s)
  }

  // ---------------------------------------------------------------------------------------------
  // Steps of the queues

  lemma PushKeepsHeld(net: Network, book: Ledger, k: Channel, y: Item, at: Channel, x: Item)
    requires HeldIn(net, book, at, x) && Routed(y, k)
    requires forall st :: At(book, y, st) ==> !(st.Unsent? || st.Sent? || st.Answered? || st.Returned?)
    requires x == y ==> Routed(y, at)
    ensures HeldIn(net.(buffer := net.buffer[k := Buffer(net, k) + [y]]), Noted(book, y, InBuffer(k)), at, x)
  {
  }

  lemma MoveKeepsHeld(net: Network, book: Ledger, k: Channel, at: Channel, x: Item)
    requires HeldIn(net, book, at, x) && ChannelOk(net, k) && Buffer(net, k) != []
    requires Routed(x, at) && (Routed(x, k) ==> HeldIn(net, book, k, x))
    ensures var y := Buffer(net, k)[0];
            HeldIn(Network(net.buffer[k := Buffer(net, k)[1..]], net.ring[k := Ring(net, k) + [y]]),
                   Noted(book, y, InRing(k)), at, x)
  {
    var y := Buffer(net, k)[0];
    assert y in Buffer(net, k);
    CopiesTail(Buffer(net, k), x);
    CopiesAppend(Ring(net, k), y, x);
    hide Copies, ChannelOk;
  }

  lemma PopKeepsHeld(net: Network, book: Ledger, k: Channel, n: nat, at: Channel, x: Item)
    requires HeldIn(net, book, at, x) && ChannelOk(net, k) && n <= |Ring(net, k)|
    requires Routed(x, at) && (Routed(x, k) ==> HeldIn(net, book, k, x))
    ensures var stage := MovedTo(book.stage, Ring(net, k)[..n], InBatch(k));
            HeldIn(net.(ring := net.ring[k := Ring(net, k)[n..]]), book.(stage := stage), at, x)
  {
    var batch := Ring(net, k)[..n];
    CopiesSplit(Ring(net, k), n, x);
    CopiesIn(batch, x);
    CopiesIn(Ring(net, k), x);
    hide Copies, ChannelOk;
  }

  // ---------------------------------------------------------------------------------------------
  // Steps of the CPUs

  lemma SameAtTarget(cpu: Cpu, next: Cpu, book: Ledger, after: Ledger, x: Item)
    requires HeldAtTarget(cpu, book, x) && Fetching(next) == Fetching(cpu) && next.tasks == cpu.tasks
    requires At(after, x, Fetched) == At(book, x, Fetched) && At(after, x, Storing) == At(book, x, Storing)
    requires At(after, x, Responding) == At(book, x, Responding)
    ensures HeldAtTarget(next, after, x)
  {
  }

  lemma SameAtSource(cpu: Cpu, next: Cpu, book: Ledger, after: Ledger, x: Item)
    requires HeldAtSource(cpu, book, x) && Collecting(next) == Collecting(cpu)
    requires At(after, x, Collected) == At(book, x, Collected)
    ensures HeldAtSource(next, after, x)
  {
  }

  lemma PopAtTarget(cpu: Cpu, next: Cpu, net: Network, book: Ledger, k: Channel, n: nat, x: Item)
    requires HeldAtTarget(cpu, book, x) && (Routed(x, k) ==> HeldIn(net, book, k, x))
    requires ChannelOk(net, k) && n <= |Ring(net, k)|
    requires Fetching(cpu) == [] && next.tasks == cpu.tasks
    requires Fetching(next) == if k.Request? then Ring(net, k)[..n] else []
    ensures HeldAtTarget(next, book.(stage := MovedTo(book.stage, Ring(net, k)[..n], InBatch(k))), x)
  {
    CopiesSplit(Ring(net, k), n, x);
    CopiesIn(Ring(net, k)[..n], x);
    CopiesIn(Ring(net, k), x);
    hide Copies, ChannelOk, Fetching;
  }

  lemma PopAtSource(cpu: Cpu, next: Cpu, net: Network, book: Ledger, k: Channel, n: nat, x: Item)
    requires HeldAtSource(cpu, book, x) && (Routed(x, k) ==> HeldIn(net, book, k, x))
    requires ChannelOk(net, k) && n <= |Ring(net, k)|
    requires Collecting(cpu) == []
    requires Collecting(next) == if k.Request? then [] else Ring(net, k)[..n]
    ensures HeldAtSource(next, book.(stage := MovedTo(book.stage, Ring(net, k)[..n], InBatch(k))), x)
  {
    CopiesSplit(Ring(net, k), n, x);
    CopiesIn(Ring(net, k)[..n], x);
    CopiesIn(Ring(net, k), x);
    hide Copies, ChannelOk, Collecting;
  }

  lemma ProcessAtTarget(cpu: Cpu, next: Cpu, book: Ledger, x: Item)
    requires HeldAtTarget(cpu, book, x) && Fetching(cpu) != [] && next.tasks == cpu.tasks
    requires Fetching(next) == Fetching(cpu)[1..]
    ensures HeldAtTarget(next, Noted(book, Fetching(cpu)[0], Running), x)
  {
    CopiesTail(Fetching(cpu), x);
    hide Copies, Fetching;
  }

  lemma CompleteAtSource(cpu: Cpu, next: Cpu, book: Ledger, x: Item)
    requires HeldAtSource(cpu, book, x) && Collecting(cpu) != []
    requires Collecting(next) == Collecting(cpu)[1..]
    ensures HeldAtSource(next, Noted(book, Collecting(cpu)[0], Completed), x)
  {
    CopiesTail(Collecting(cpu), x);
    hide Copies, Collecting;
  }

  /** A task is appended, and the item it is for, if any, goes from one stage to the next. */
  lemma ScheduleAtTarget(cpu: Cpu, next: Cpu, book: Ledger, y: Item, x: Item)
    requires HeldAtTarget(cpu, book, x) && Fetching(next) == Fetching(cpu)
    requires next.tasks == cpu.tasks + [Store(y)] && At(book, y, Running)
    ensures HeldAtTarget(next, Noted(book, y, Storing), x)
  {
  }

  lemma StoreAtTarget(cpu: Cpu, next: Cpu, book: Ledger, y: Item, x: Item)
    requires HeldAtTarget(cpu, book, x) && Fetching(next) == Fetching(cpu)
    requires cpu.tasks != [] && cpu.tasks[0] == Store(y) && next.tasks == cpu.tasks[1..] + [Respond(y)]
    ensures HeldAtTarget(next, Noted(book, y, Responding), x)
  {
    CopiesTail(cpu.tasks, Store(x));
    CopiesTail(cpu.tasks, Respond(x));
    CopiesAppend(cpu.tasks[1..], Respond(y), Store(x));
    CopiesAppend(cpu.tasks[1..], Respond(y), Respond(x));
    hide Copies, Fetching;
  }

  lemma RespondAtTarget(cpu: Cpu, next: Cpu, book: Ledger, y: Item, x: Item)
    requires HeldAtTarget(cpu, book, x) && Fetching(next) == Fetching(cpu)
    requires cpu.tasks != [] && cpu.tasks[0] == Respond(y) && next.tasks == cpu.tasks[1..]
    ensures HeldAtTarget(next, Noted(book, y, Answered), x)
  {
    CopiesTail(cpu.tasks, Store(x));
    CopiesTail(cpu.tasks, Respond(x));
    hide Copies, Fetching;
  }

  lemma OtherAtTarget(cpu: Cpu, next: Cpu, book: Ledger, x: Item)
    requires HeldAtTarget(cpu, book, x) && Fetching(next) == Fetching(cpu)
    requires || (cpu.tasks != [] && cpu.tasks[0] == Other && next.tasks == cpu.tasks[1..])
             || next.tasks == cpu.tasks + [Other]
    ensures HeldAtTarget(next, book, x)
  {
    if next.tasks == cpu.tasks + [Other] {
      CopiesAppend(cpu.tasks, Other, Store(x));
      CopiesAppend(cpu.tasks, Other, Respond(x));
    } else {
      CopiesTail(cpu.tasks, Store(x));
      CopiesTail(cpu.tasks, Respond(x));
    }
    hide Copies, Fetching;
  }

  // ---------------------------------------------------------------------------------------------
  // Steps of the system

  /** The new stage of y leaves what was promised of x in force, as far as x's own record goes. */
  lemma NotedRecord(n: nat, book: Ledger, y: Item, st: Stage, x: Item)
    requires RecordOk(n, book, x) && LogOk(book, x)
    requires x == y ==> Proper(n, Request(x.from, x.to)) && st != Completed && !At(book, y, Completed)
    requires x == y ==> forall at: Stage | at == Storing || at == Responding || at == Running ::
                          Reached(book, y, at) == (Rank(st) >= Rank(at))
    ensures RecordOk(n, Noted(book, y, st), x) && LogOk(Noted(book, y, st), x)
  {
  }

  /** Noting that y, so far at one stage, is at the next, changes nothing for any other stage or item. */
  lemma NotedElsewhere(book: Ledger, y: Item, was: Stage, st: Stage, x: Item)
    requires x == y ==> At(book, y, was)
    ensures forall at :: x != y || (at != was && at != st) ==> At(Noted(book, y, st), x, at) == At(book, x, at)
  {
  }

  /** A CPU that carries the same items as before. */
  predicate Carries(cpu: Cpu, next: Cpu) {
    Fetching(next) == Fetching(cpu) && Collecting(next) == Collecting(cpu) && next.tasks == cpu.tasks
  }

  /** Stages of items on a CPU. */
  predicate OnCpu(st: Stage) {
    st.Fetched? || st.Storing? || st.Responding? || st.Collected?
  }

  lemma SameOnCpus(cpus: seq<Cpu>, c: nat, next: Cpu, book: Ledger, after: Ledger, x: Item)
    requires c < |cpus| && HeldOnCpus(cpus, book, x) && Carries(cpus[c], next)
    requires forall st :: OnCpu(st) ==> At(after, x, st) == At(book, x, st)
    ensures HeldOnCpus(cpus[c := next], after, x)
  {
  }

  /** The record of an item stays right when the front item of a buffer goes to the ring. */
  lemma MoveKeepsRecord(n: nat, net: Network, book: Ledger, k: Channel, x: Item)
    requires ChannelOk(net, k) && HeldInQueues(net, book, x) && RecordOk(n, book, x) && LogOk(book, x)
    requires Buffer(net, k) != []
    ensures var after := Noted(book, Buffer(net, k)[0], InRing(k));
            && RecordOk(n, after, x) && LogOk(after, x)
            && forall st :: st != InBuffer(k) && st != InRing(k) ==> At(after, x, st) == At(book, x, st)
  {
    var y := Buffer(net, k)[0];
    assert y in Buffer(net, k);
    CopiesIn(Buffer(net, k), y);
    assert x == y ==> HeldIn(net, book, k, x) && At(book, y, InBuffer(k));
    hide HeldInQueues, ChannelOk, HeldIn, Copies;
    NotedElsewhere(book, y, InBuffer(k), InRing(k), x);
    NotedRecord(n, book, y, InRing(k), x);
  }

  lemma MoveKeepsItem(s: System, c: nat, k: Channel, next: Cpu, x: Item)
    requires c < |s.cpus| && ChannelOk(s.net, k) && ItemOk(s, x) && Buffer(s.net, k) != [] && Carries(s.cpus[c], next)
    ensures var y := Buffer(s.net, k)[0];
            ItemOk(System(s.cpus[c := next],
                          Network(s.net.buffer[k := Buffer(s.net, k)[1..]], s.net.ring[k := Ring(s.net, k) + [y]]),
                          Noted(s.book, y, InRing(k))), x)
  {
    hide HeldOnCpus, RecordOk, LogOk, Carries, Noted, ChannelOk, HeldIn, At, Buffer, Ring;
    MoveKeepsRecord(|s.cpus|, s.net, s.book, k, x);
    MoveKeepsHeld(s.net, s.book, k, Request(x.from, x.to), x);
    MoveKeepsHeld(s.net, s.book, k, Response(x.from, x.to), x);
    SameOnCpus(s.cpus, c, next, s.book, Noted(s.book, Buffer(s.net, k)[0], InRing(k)), x);
  }

  lemma FlushKeepsItem(s: System, c: nat, k: Channel, moved: bool, x: Item)
    requires c < |s.cpus| && ChannelOk(s.net, k) && ItemOk(s, x)
    ensures ItemOk(FlushStep(s, c, k, moved), x)
  {
    hide HeldInQueues, HeldOnCpus, RecordOk, LogOk, ChannelOk;
    if |Ring(s.net, k)| < Spsc.RING_CAPACITY && Buffer(s.net, k) != [] {
      MoveKeepsItem(s, c, k, s.cpus[c].(sub := Flushing(k, true)), x);
    } else {
      SameOnCpus(s.cpus, c, AfterFlush(s.cpus[c], k, moved), s.book, s.book, x);
    }
  }

  /** A step of one CPU that moves nothing, and may end with a signal to another. */
  lemma PutKeepsItem(s: System, c: nat, next: Cpu, x: Item)
    requires c < |s.cpus| && ItemOk(s, x) && Carries(s.cpus[c], next)
    ensures ItemOk(Put(s, c, next), x)
  {
  }

  lemma AlertKeepsItem(s: System, c: nat, k: Channel, x: Item)
    requires c < |s.cpus| && ItemOk(s, x)
    ensures ItemOk(AlertStep(s, c, k), x)
  {
    hide ItemOk;
    var next := s.cpus[c].(sub := Quiet);
    PutKeepsItem(s, c, next, x);
    var t := Put(s, c, next);
    var d := Consumer(k);
    if d < |t.cpus| {
      PutKeepsItem(t, d, t.cpus[d].(kernel := true), x);
    }
  }

  /** An item enters a buffer: a new one, or one that has left its target's task queue. */
  lemma PushKeepsItem(s: System, c: nat, k: Channel, y: Item, pc: Pc, x: Item)
    requires c < |s.cpus| && HeldInQueues(s.net, s.book, x) && Proper(|s.cpus|, k) && Routed(y, k)
    requires if k.Request? then y !in s.book.stage else At(s.book, y, Responding)
    requires RecordOk(|s.cpus|, s.book, x) && LogOk(s.book, x)
    requires HeldOnCpus(PushStep(s, c, k, y, InBuffer(k), pc).cpus, Noted(s.book, y, InBuffer(k)), x)
    ensures ItemOk(PushStep(s, c, k, y, InBuffer(k), pc), x)
  {
    NotedRecord(|s.cpus|, s.book, y, InBuffer(k), x);
    hide HeldIn, HeldOnCpus, RecordOk, LogOk;
    PushKeepsHeld(s.net, s.book, k, y, Request(x.from, x.to), x);
    PushKeepsHeld(s.net, s.book, k, y, Response(x.from, x.to), x);
  }

  lemma SubmitKeepsItem(s: System, c: nat, y: Item, x: Item)
    requires c < |s.cpus| && ItemOk(s, x) && y !in s.book.stage && Proper(|s.cpus|, Request(y.from, y.to))
    ensures ItemOk(PushStep(s, c, Request(y.from, y.to), y, Unsent, s.cpus[c].pc), x)
  {
    hide HeldInQueues, RecordOk, LogOk, HeldOnCpus;
    var t := PushStep(s, c, Request(y.from, y.to), y, Unsent, s.cpus[c].pc);
    SameOnCpus(s.cpus, c, t.cpus[c], s.book, Noted(s.book, y, Unsent), x);
    PushKeepsItem(s, c, Request(y.from, y.to), y, s.cpus[c].pc, x);
  }

  lemma PopKeepsRecord(n: nat, net: Network, book: Ledger, k: Channel, m: nat, x: Item)
    requires ChannelOk(net, k) && HeldInQueues(net, book, x) && RecordOk(n, book, x) && LogOk(book, x)
    requires m <= |Ring(net, k)|
    ensures var after := book.(stage := MovedTo(book.stage, Ring(net, k)[..m], InBatch(k)));
            RecordOk(n, after, x) && LogOk(after, x)
  {
    CopiesIn(Ring(net, k), x);
    assert x in Ring(net, k) ==> HeldIn(net, book, k, x) && At(book, x, InRing(k));
    hide HeldInQueues, ChannelOk, HeldIn, Copies;
  }

  /** Popping changes the stage of nothing but what was in the ring of k. */
  lemma PoppedElsewhere(net: Network, book: Ledger, k: Channel, n: nat, x: Item)
    requires ChannelOk(net, k) && HeldInQueues(net, book, x) && n <= |Ring(net, k)|
    ensures var after := book.(stage := MovedTo(book.stage, Ring(net, k)[..n], InBatch(k)));
            forall st :: !Routed(x, k) || (st != InRing(k) && st != InBatch(k)) ==> At(after, x, st) == At(book, x, st)
  {
  }

  lemma PopKeepsOnCpus(s: System, c: nat, k: Channel, n: nat, next: Cpu, x: Item)
    requires c < |s.cpus| && ChannelOk(s.net, k) && Consumer(k) == c && n <= |Ring(s.net, k)|
    requires HeldInQueues(s.net, s.book, x) && HeldOnCpus(s.cpus, s.book, x)
    requires Fetching(s.cpus[c]) == [] == Collecting(s.cpus[c]) && next.tasks == s.cpus[c].tasks
    requires Fetching(next) == if k.Request? then Ring(s.net, k)[..n] else []
    requires Collecting(next) == if k.Request? then [] else Ring(s.net, k)[..n]
    ensures HeldOnCpus(s.cpus[c := next], s.book.(stage := MovedTo(s.book.stage, Ring(s.net, k)[..n], InBatch(k))), x)
  {
    var after := s.book.(stage := MovedTo(s.book.stage, Ring(s.net, k)[..n], InBatch(k)));
    PoppedElsewhere(s.net, s.book, k, n, x);
    hide Fetching, Collecting, Copies, HeldAtTarget, HeldAtSource, At, HeldIn, MovedTo, ChannelOk;
    if x.to == c {
      PopAtTarget(s.cpus[c], next, s.net, s.book, k, n, x);
    } else {
      SameAtTarget(CpuAt(s.cpus, x.to), CpuAt(s.cpus[c := next], x.to), s.book, after, x);
    }
    if x.from == c {
      PopAtSource(s.cpus[c], next, s.net, s.book, k, n, x);
    } else {
      SameAtSource(CpuAt(s.cpus, x.from), CpuAt(s.cpus[c := next], x.from), s.book, after, x);
    }
  }

  lemma PopKeepsItem(s: System, c: nat, k: Channel, x: Item)
    requires c < |s.cpus| && ChannelOk(s.net, k) && ItemOk(s, x) && Consumer(k) == c && s.cpus[c].pc.Queues?
    ensures ItemOk(PopStep(s, c, k), x)
  {
    hide HeldIn, HeldOnCpus, RecordOk, LogOk, ChannelOk, MovedTo;
    var n := Spsc.Min(Spsc.BATCH, |Ring(s.net, k)|);
    PopKeepsOnCpus(s, c, k, n, PopStep(s, c, k).cpus[c], x);
    PopKeepsRecord(|s.cpus|, s.net, s.book, k, n, x);
    PopKeepsHeld(s.net, s.book, k, n, Request(x.from, x.to), x);
    PopKeepsHeld(s.net, s.book, k, n, Response(x.from, x.to), x);
  }

  /** Noting that an item on a CPU goes to another stage on a CPU, or to one without a place. */
  lemma NotedKeepsQueues(net: Network, book: Ledger, y: Item, was: Stage, st: Stage, x: Item)
    requires HeldInQueues(net, book, x) && (x == y ==> At(book, y, was))
    requires forall at | at == was || at == st :: !(at.Unsent? || at.Sent? || at.Answered? || at.Returned?)
    ensures HeldInQueues(net, Noted(book, y, st), x)
  {
  }

  /** A step of CPU c that changes what x's source keeps of x only if that is c, and likewise its target. */
  lemma StepOnCpus(cpus: seq<Cpu>, c: nat, next: Cpu, book: Ledger, after: Ledger, x: Item)
    requires c < |cpus| && HeldOnCpus(cpus, book, x)
    requires x.to == c ==> HeldAtTarget(next, after, x)
    requires x.from == c ==> HeldAtSource(next, after, x)
    requires x.to != c ==> forall st: Stage | st == Fetched || st == Storing || st == Responding ::
                             At(after, x, st) == At(book, x, st)
    requires x.from != c ==> At(after, x, Collected) == At(book, x, Collected)
    ensures HeldOnCpus(cpus[c := next], after, x)
  {
  }

  lemma ProcessOnCpus(cpus: seq<Cpu>, c: nat, next: Cpu, book: Ledger, x: Item)
    requires c < |cpus| && HeldOnCpus(cpus, book, x) && Fetching(cpus[c]) != [] && Fetching(cpus[c])[0].to == c
    requires Fetching(next) == Fetching(cpus[c])[1..] && Collecting(next) == Collecting(cpus[c])
    requires next.tasks == cpus[c].tasks
    ensures HeldOnCpus(cpus[c := next], Noted(book, Fetching(cpus[c])[0], Running), x)
    ensures x == Fetching(cpus[c])[0] ==> At(book, x, Fetched)
  {
    var y := Fetching(cpus[c])[0];
    CopiesTail(Fetching(cpus[c]), y);
    hide Fetching, Collecting, Copies;
    NotedElsewhere(book, y, Fetched, Running, x);
    if x.to == c {
      ProcessAtTarget(cpus[c], next, book, x);
    }
    if x.from == c {
      SameAtSource(cpus[c], next, book, Noted(book, y, Running), x);
    }
    hide HeldAtTarget, HeldAtSource, Noted;
    StepOnCpus(cpus, c, next, book, Noted(book, y, Running), x);
  }

  lemma ProcessedRecord(n: nat, book: Ledger, y: Item, x: Item)
    requires RecordOk(n, book, x) && LogOk(book, x) && (x == y ==> At(book, y, Fetched))
    ensures var after := Noted(book, y, Running).(log := book.log + [Processed(y, y.to)]);
            RecordOk(n, after, x) && LogOk(after, x)
  {
  }

  /** Only the stages matter for where an item is. */
  lemma LogAside(s: System, t: System, x: Item)
    requires t.net == s.net && t.cpus == s.cpus && t.book.stage == s.book.stage
    requires HeldInQueues(s.net, s.book, x) && HeldOnCpus(s.cpus, s.book, x)
    ensures HeldInQueues(t.net, t.book, x) && HeldOnCpus(t.cpus, t.book, x)
  {
  }

  lemma NotedStage(book: Ledger, y: Item, st: Stage)
    ensures Noted(book, y, st) == Ledger(book.stage[y := st], book.handled, book.ret, book.log)
  {
  }

  lemma ProcessKeepsItem(s: System, c: nat, j: nat, batch: seq<Item>, x: Item)
    requires c < |s.cpus| && ItemOk(s, x) && s.cpus[c].pc == Processing(j, batch) && CpuOk(s, c)
    ensures ItemOk(ProcessStep(s, c, j, batch), x)
  {
    hide HeldInQueues, HeldOnCpus, RecordOk, LogOk, Noted;
    var t := ProcessStep(s, c, j, batch);
    if batch == [] {
      PutKeepsItem(s, c, t.cpus[c], x);
    } else {
      assert batch[0] in batch && batch[0].to == c;
      ProcessOnCpus(s.cpus, c, t.cpus[c], s.book, x);
      NotedKeepsQueues(s.net, s.book, batch[0], Fetched, Running, x);
      ProcessedRecord(|s.cpus|, s.book, batch[0], x);
      NotedStage(s.book, batch[0], Running);
      LogAside(Put(s, c, t.cpus[c]).(book := Noted(s.book, batch[0], Running)), t, x);
    }
  }

  lemma CompleteOnCpus(cpus: seq<Cpu>, c: nat, next: Cpu, book: Ledger, x: Item)
    requires c < |cpus| && HeldOnCpus(cpus, book, x) && Collecting(cpus[c]) != [] && Collecting(cpus[c])[0].from == c
    requires Collecting(next) == Collecting(cpus[c])[1..] && Fetching(next) == Fetching(cpus[c])
    requires next.tasks == cpus[c].tasks
    ensures HeldOnCpus(cpus[c := next], Noted(book, Collecting(cpus[c])[0], Completed), x)
    ensures x == Collecting(cpus[c])[0] ==> At(book, x, Collected)
  {
    var y := Collecting(cpus[c])[0];
    CopiesTail(Collecting(cpus[c]), y);
    hide Fetching, Collecting, Copies;
    NotedElsewhere(book, y, Collected, Completed, x);
    if x.from == c {
      CompleteAtSource(cpus[c], next, book, x);
    }
    if x.to == c {
      SameAtTarget(cpus[c], next, book, Noted(book, y, Completed), x);
    }
    hide HeldAtTarget, HeldAtSource, Noted;
    StepOnCpus(cpus, c, next, book, Noted(book, y, Completed), x);
  }

  lemma FinishedRecord(n: nat, book: Ledger, y: Item, x: Item)
    requires RecordOk(n, book, x) && LogOk(book, x) && (x == y ==> At(book, y, Collected)) && y in book.ret
    ensures var after := Noted(book, y, Completed).(log := book.log + [Finished(y, y.from, book.ret[y])]);
            RecordOk(n, after, x) && LogOk(after, x)
  {
  }

  lemma CompleteKeepsItem(s: System, c: nat, j: nat, batch: seq<Item>, x: Item)
    requires c < |s.cpus| && ItemOk(s, x) && s.cpus[c].pc == Completing(j, batch) && CpuOk(s, c)
    requires batch != [] ==> batch[0] in s.book.ret
    ensures ItemOk(CompleteStep(s, c, j, batch), x)
  {
    hide HeldInQueues, HeldOnCpus, RecordOk, LogOk, Noted;
    var t := CompleteStep(s, c, j, batch);
    if batch == [] {
      PutKeepsItem(s, c, t.cpus[c], x);
    } else {
      assert batch[0] in batch && batch[0].from == c;
      CompleteOnCpus(s.cpus, c, t.cpus[c], s.book, x);
      NotedKeepsQueues(s.net, s.book, batch[0], Collected, Completed, x);
      FinishedRecord(|s.cpus|, s.book, batch[0], x);
      NotedStage(s.book, batch[0], Completed);
      LogAside(Put(s, c, t.cpus[c]).(book := Noted(s.book, batch[0], Completed)), t, x);
    }
  }

  /** complete() never meets an empty ret_. */
  lemma CollectedHaveResults(s: System, c: nat)
    requires c < |s.cpus| && PcOk(|s.cpus|, c, s.cpus[c]) && s.cpus[c].pc.Completing? && s.cpus[c].pc.batch != []
    requires ItemOk(s, s.cpus[c].pc.batch[0])
    ensures s.cpus[c].pc.batch[0] in s.book.ret
  {
    var x := s.cpus[c].pc.batch[0];
    assert x in s.cpus[c].pc.batch;
    CopiesIn(Collecting(s.cpus[c]), x);
    hide Copies, HeldInQueues, LogOk;
    assert At(s.book, x, Collected);
  }

  lemma ResolveOnCpus(cpus: seq<Cpu>, c: nat, next: Cpu, book: Ledger, y: Item, x: Item)
    requires c < |cpus| && HeldOnCpus(cpus, book, x) && At(book, y, Running) && y.to == c
    requires Collecting(next) == Collecting(cpus[c]) && Fetching(next) == Fetching(cpus[c])
    requires next.tasks == cpus[c].tasks + [Store(y)]
    ensures HeldOnCpus(cpus[c := next], Noted(book, y, Storing), x)
  {
    hide Fetching, Collecting, Copies;
    NotedElsewhere(book, y, Running, Storing, x);
    if x.to == c {
      ScheduleAtTarget(cpus[c], next, book, y, x);
    }
    if x.from == c {
      SameAtSource(cpus[c], next, book, Noted(book, y, Storing), x);
    }
    hide HeldAtTarget, HeldAtSource, Noted;
    StepOnCpus(cpus, c, next, book, Noted(book, y, Storing), x);
  }

  lemma ResolvedRecord(n: nat, book: Ledger, y: Item, v: int, x: Item)
    requires RecordOk(n, book, x) && LogOk(book, x) && At(book, y, Running)
    ensures var after := Noted(book, y, Storing).(handled := book.handled[y := v]);
            RecordOk(n, after, x) && LogOk(after, x)
  {
  }

  lemma ResolveKeepsItem(s: System, c: nat, y: Item, v: int, x: Item)
    requires c < |s.cpus| && ItemOk(s, x) && At(s.book, y, Running) && y.to == c
    ensures ItemOk(Put(s, c, s.cpus[c].(tasks := s.cpus[c].tasks + [Store(y)]))
                   .(book := Noted(s.book, y, Storing).(handled := s.book.handled[y := v])), x)
  {
    hide HeldInQueues, HeldOnCpus, RecordOk, LogOk, Noted;
    var next := s.cpus[c].(tasks := s.cpus[c].tasks + [Store(y)]);
    var book := Noted(s.book, y, Storing).(handled := s.book.handled[y := v]);
    ResolveOnCpus(s.cpus, c, next, s.book, y, x);
    NotedKeepsQueues(s.net, s.book, y, Running, Storing, x);
    ResolvedRecord(|s.cpus|, s.book, y, v, x);
    LogAside(Put(s, c, next).(book := Noted(s.book, y, Storing)), Put(s, c, next).(book := book), x);
  }

  lemma StoreOnCpus(cpus: seq<Cpu>, c: nat, next: Cpu, book: Ledger, y: Item, x: Item)
    requires c < |cpus| && HeldOnCpus(cpus, book, x) && y.to == c
    requires Collecting(next) == Collecting(cpus[c]) && Fetching(next) == Fetching(cpus[c])
    requires cpus[c].tasks != [] && cpus[c].tasks[0] == Store(y) && next.tasks == cpus[c].tasks[1..] + [Respond(y)]
    ensures HeldOnCpus(cpus[c := next], Noted(book, y, Responding), x)
    ensures x == y ==> At(book, x, Storing)
  {
    CopiesTail(cpus[c].tasks, Store(y));
    hide Fetching, Collecting, Copies;
    NotedElsewhere(book, y, Storing, Responding, x);
    if x.to == c {
      StoreAtTarget(cpus[c], next, book, y, x);
    }
    if x.from == c {
      SameAtSource(cpus[c], next, book, Noted(book, y, Responding), x);
    }
    hide HeldAtTarget, HeldAtSource, Noted;
    StepOnCpus(cpus, c, next, book, Noted(book, y, Responding), x);
  }

  lemma StoredRecord(n: nat, book: Ledger, y: Item, x: Item)
    requires RecordOk(n, book, x) && LogOk(book, x) && RecordOk(n, book, y) && At(book, y, Storing)
    ensures var after := Noted(book, y, Responding)
                         .(ret := if y in book.handled then book.ret[y := book.handled[y]] else book.ret);
            RecordOk(n, after, x) && LogOk(after, x)
  {
  }

  lemma RespondOnCpus(cpus: seq<Cpu>, c: nat, next: Cpu, book: Ledger, y: Item, x: Item)
    requires c < |cpus| && HeldOnCpus(cpus, book, x) && y.to == c
    requires Collecting(next) == Collecting(cpus[c]) && Fetching(next) == Fetching(cpus[c])
    requires cpus[c].tasks != [] && cpus[c].tasks[0] == Respond(y) && next.tasks == cpus[c].tasks[1..]
    ensures HeldOnCpus(cpus[c := next], Noted(book, y, Answered), x)
    ensures x == y ==> At(book, x, Responding)
  {
    CopiesTail(cpus[c].tasks, Respond(y));
    hide Fetching, Collecting, Copies;
    NotedElsewhere(book, y, Responding, Answered, x);
    if x.to == c {
      RespondAtTarget(cpus[c], next, book, y, x);
    }
    if x.from == c {
      SameAtSource(cpus[c], next, book, Noted(book, y, Answered), x);
    }
    hide HeldAtTarget, HeldAtSource, Noted;
    StepOnCpus(cpus, c, next, book, Noted(book, y, Answered), x);
  }

  lemma OtherOnCpus(cpus: seq<Cpu>, c: nat, next: Cpu, book: Ledger, x: Item)
    requires c < |cpus| && HeldOnCpus(cpus, book, x)
    requires Collecting(next) == Collecting(cpus[c]) && Fetching(next) == Fetching(cpus[c])
    requires || (cpus[c].tasks != [] && cpus[c].tasks[0] == Other && next.tasks == cpus[c].tasks[1..])
             || next.tasks == cpus[c].tasks + [Other]
    ensures HeldOnCpus(cpus[c := next], book, x)
  {
    hide Fetching, Collecting, Copies;
    if x.to == c {
      OtherAtTarget(cpus[c], next, book, x);
    }
    if x.from == c {
      SameAtSource(cpus[c], next, book, book, x);
    }
    hide HeldAtTarget, HeldAtSource;
    StepOnCpus(cpus, c, next, book, book, x);
  }

  /** The front task is the continuation that stores the result of y. */
  lemma StoreKeepsItem(s: System, c: nat, i: nat, y: Item, x: Item)
    requires c < |s.cpus| && i < 8 && s.cpus[c].pc == Batch(i) && s.cpus[c].tasks != []
    requires s.cpus[c].tasks[0] == Store(y) && y.to == c && ItemOk(s, x) && ItemOk(s, y)
    ensures ItemOk(BatchStep(s, c, i), x)
  {
    hide HeldInQueues, HeldOnCpus, RecordOk, LogOk, Noted;
    var t := BatchStep(s, c, i);
    StoreOnCpus(s.cpus, c, t.cpus[c], s.book, y, x);
    StoreOnCpus(s.cpus, c, t.cpus[c], s.book, y, y);
    NotedKeepsQueues(s.net, s.book, y, Storing, Responding, x);
    StoredRecord(|s.cpus|, s.book, y, x);
    NotedStage(s.book, y, Responding);
    LogAside(Put(s, c, t.cpus[c]).(book := Noted(s.book, y, Responding)), t, x);
  }

  /** The front task is the continuation that sends y back. */
  lemma RespondKeepsItem(s: System, c: nat, i: nat, y: Item, x: Item)
    requires c < |s.cpus| && i < 8 && s.cpus[c].pc == Batch(i) && s.cpus[c].tasks != []
    requires s.cpus[c].tasks[0] == Respond(y) && TaskOk(|s.cpus|, c, Respond(y)) && ItemOk(s, x) && ItemOk(s, y)
    ensures ItemOk(BatchStep(s, c, i), x)
  {
    hide HeldInQueues, HeldOnCpus, RecordOk, LogOk, Noted;
    var t := BatchStep(s, c, i);
    assert t.cpus == s.cpus[c := t.cpus[c]];
    RespondOnCpus(s.cpus, c, t.cpus[c], s.book, y, x);
    RespondOnCpus(s.cpus, c, t.cpus[c], s.book, y, y);
    PushKeepsItem(Put(s, c, s.cpus[c].(tasks := s.cpus[c].tasks[1..])), c, Response(y.from, y.to), y, Batch(i + 1), x);
  }

  lemma BatchKeepsItem(s: System, c: nat, i: nat, x: Item)
    requires c < |s.cpus| && CpuOk(s, c) && s.cpus[c].pc == Batch(i) && ItemOk(s, x)
    requires ItemsOk(s)
    ensures ItemOk(BatchStep(s, c, i), x)
  {
    hide HeldInQueues, HeldOnCpus, RecordOk, LogOk, Noted, ItemOk;
    var cpu := s.cpus[c];
    if i >= 8 || cpu.tasks == [] {
      PutKeepsItem(s, c, BatchStep(s, c, i).cpus[c], x);
    } else {
      assert cpu.tasks[0] in cpu.tasks;
      match cpu.tasks[0] {
        case Other => OtherKeepsItem(s, c, BatchStep(s, c, i).cpus[c], x);
        case Store(y) => StoreKeepsItem(s, c, i, y, x);
        case Respond(y) => RespondKeepsItem(s, c, i, y, x);
      }
    }
  }

  lemma OtherKeepsItem(s: System, c: nat, next: Cpu, x: Item)
    requires c < |s.cpus| && ItemOk(s, x)
    requires Collecting(next) == Collecting(s.cpus[c]) && Fetching(next) == Fetching(s.cpus[c])
    requires || (s.cpus[c].tasks != [] && s.cpus[c].tasks[0] == Other && next.tasks == s.cpus[c].tasks[1..])
             || next.tasks == s.cpus[c].tasks + [Other]
    ensures ItemOk(Put(s, c, next), x)
  {
    hide HeldInQueues, HeldOnCpus, RecordOk, LogOk, Collecting, Fetching;
    OtherOnCpus(s.cpus, c, next, s.book, x);
  }

  lemma QueuesKeepItem(s: System, c: nat, j: nat, turn: Turn, x: Item)
    requires c < |s.cpus| && s.cpus[c].pc == Queues(j, turn) && ItemOk(s, x)
    requires ChannelsOk(s.net)
    ensures ItemOk(QueuesStep(s, c, j, turn), x)
  {
    hide ItemOk, ChannelOk, PopStep;
    if j < |s.cpus| && j != c && turn.PollRx? {
      PopKeepsItem(s, c, Response(c, j), x);
    } else if j < |s.cpus| && j != c && turn.PollTx? {
      PopKeepsItem(s, c, Request(j, c), x);
    } else {
      PutKeepsItem(s, c, QueuesStep(s, c, j, turn).cpus[c], x);
    }
  }

  lemma AloneCarries(cpu: Cpu)
    ensures Carries(cpu, Alone(cpu))
  {
  }

  /** A batch that is being completed begins with an item that has its result. */
  lemma ResultIsThere(s: System, c: nat)
    requires c < |s.cpus| && Inv(s)
    ensures s.cpus[c].pc.Completing? && s.cpus[c].pc.batch != [] ==> s.cpus[c].pc.batch[0] in s.book.ret
  {
    if s.cpus[c].pc.Completing? && s.cpus[c].pc.batch != [] {
      assert CpuOk(s, c);
      hide ItemOk, ChannelOk;
      CollectedHaveResults(s, c);
    }
  }

  lemma GoKeepsItem(s: System, c: nat, x: Item)
    requires c < |s.cpus| && Inv(s)
    ensures ItemOk(GoStep(s, c), x)
  {
    ResultIsThere(s, c);
    assert CpuOk(s, c) && ItemOk(s, x);
    hide CpusOk, ChannelsOk, ItemsOk, ItemOk, CpuOk, QueuesStep, CompleteStep, ProcessStep, BatchStep, Alone, Carries;
    var pc := s.cpus[c].pc;
    if pc.Queues? {
      QueuesKeepItem(s, c, pc.j, pc.turn, x);
    } else if pc.Completing? {
      CompleteKeepsItem(s, c, pc.j, pc.batch, x);
    } else if pc.Processing? {
      ProcessKeepsItem(s, c, pc.j, pc.batch, x);
    } else if pc.Batch? {
      BatchKeepsItem(s, c, pc.i, x);
    } else {
      AloneCarries(s.cpus[c]);
      PutKeepsItem(s, c, Alone(s.cpus[c]), x);
    }
  }

  lemma ChoiceKeepsItem(s: System, c: nat, choice: Choice, x: Item)
    requires c < |s.cpus| && ItemOk(s, x) && s.cpus[c].sub == Quiet && !choice.Go?
    ensures ItemOk(AdvanceStep(s, c, choice), x)
  {
    hide ItemOk, PushStep;
    var cpu := s.cpus[c];
    match choice {
      case Submit(to, id) =>
        if cpu.pc.User? && to < |s.cpus| && to != c && Item(c, to, id) !in s.book.stage {
          SubmitKeepsItem(s, c, Item(c, to, id), x);
        }
      case Spawn => OtherKeepsItem(s, c, cpu.(tasks := cpu.tasks + [Other]), x);
      case Resolve(y, v) =>
        if Effectful(cpu.pc) && y.to == c && At(s.book, y, Running) {
          ResolveKeepsItem(s, c, y, v, x);
        }
      case Found => PutKeepsItem(s, c, cpu.(active := true), x);
    }
  }

  lemma AdvanceKeepsItem(s: System, c: nat, choice: Choice, x: Item)
    requires c < |s.cpus| && Inv(s)
    ensures ItemOk(AdvanceStep(s, c, choice), x)
  {
    assert CpuOk(s, c) && ItemOk(s, x);
    match s.cpus[c].sub {
      case Flushing(k, moved) =>
        assert ChannelOk(s.net, k);
        hide Inv, ItemOk, ChannelOk, FlushStep;
        FlushKeepsItem(s, c, k, moved, x);
      case Alerting(k) =>
        hide Inv, ItemOk, AlertStep;
        AlertKeepsItem(s, c, k, x);
      case Quiet =>
        hide Inv, ItemOk;
        if choice.Go? {
          hide GoStep;
          GoKeepsItem(s, c, x);
        } else {
          hide AdvanceStep;
          ChoiceKeepsItem(s, c, choice, x);
        }
    }
  }

  lemma StepKeepsItem(s: System, a: Action, x: Item)
    requires Inv(s)
    ensures ItemOk(Step(s, a), x)
  {
    hide ItemOk, ChannelOk, CpuOk, AdvanceStep;
    if a.c < |s.cpus| {
      match a {
        case Advance(c, choice) => AdvanceKeepsItem(s, c, choice, x);
        case _ => PutKeepsItem(s, a.c, Step(s, a).cpus[a.c], x);
      }
    }
  }

  // ---------------------------------------------------------------------------------------------
  // The CPUs and the channels

  lemma AloneStaysFine(n: nat, c: nat, cpu: Cpu)
    requires Fine(n, c, cpu) && cpu.sub == Quiet
    ensures Fine(n, c, Alone(cpu))
  {
  }

  lemma AfterFlushStaysFine(n: nat, c: nat, cpu: Cpu, k: Channel, moved: bool)
    requires Fine(n, c, cpu) && cpu.sub == Flushing(k, moved)
    ensures Fine(n, c, AfterFlush(cpu, k, moved))
  {
  }

  lemma PoppedIsFine(n: nat, c: nat, cpu: Cpu, k: Channel, batch: seq<Item>)
    requires Fine(n, c, cpu) && cpu.sub == Quiet && Proper(n, k) && Consumer(k) == c
    requires forall x <- batch :: Routed(x, k)
    ensures Fine(n, c, cpu.(pc := Popped(k, batch), active := cpu.active || |batch| > 0))
  {
  }

  lemma QueuesKeepFine(s: System, c: nat, j: nat, turn: Turn)
    requires c < |s.cpus| && CpuOk(s, c) && s.cpus[c].sub == Quiet && s.cpus[c].pc == Queues(j, turn)
    requires ChannelsOk(s.net)
    ensures Fine(|s.cpus|, c, QueuesStep(s, c, j, turn).cpus[c])
  {
    var n := |s.cpus|;
    if j < n && j != c && (turn.PollRx? || turn.PollTx?) {
      var k := if turn.PollRx? then Response(c, j) else Request(j, c);
      assert ChannelOk(s.net, k);
      PoppedIsFine(n, c, s.cpus[c], k, Ring(s.net, k)[..Spsc.Min(Spsc.BATCH, |Ring(s.net, k)|)]);
    }
  }

  lemma TakenStaysFine(n: nat, c: nat, cpu: Cpu, added: seq<Task>)
    requires Fine(n, c, cpu) && cpu.pc.Batch? && cpu.tasks != []
    requires added != [] ==> forall t <- added :: TaskOk(n, c, t)
    ensures Fine(n, c, cpu.(tasks := cpu.tasks[1..] + added)) && TaskOk(n, c, cpu.tasks[0])
  {
  }

  lemma BatchKeepsFine(s: System, c: nat, i: nat)
    requires c < |s.cpus| && CpuOk(s, c) && s.cpus[c].sub == Quiet && s.cpus[c].pc == Batch(i)
    ensures Fine(|s.cpus|, c, BatchStep(s, c, i).cpus[c])
  {
    var cpu := s.cpus[c];
    if i < 8 && cpu.tasks != [] {
      TakenStaysFine(|s.cpus|, c, cpu, []);
      assert cpu.tasks[1..] + [] == cpu.tasks[1..];
      if cpu.tasks[0].Store? {
        TakenStaysFine(|s.cpus|, c, cpu, [Respond(cpu.tasks[0].x)]);
      }
      hide TaskOk;
    }
  }

  lemma CompleteKeepsFine(s: System, c: nat, j: nat, batch: seq<Item>)
    requires c < |s.cpus| && CpuOk(s, c) && s.cpus[c].sub == Quiet && s.cpus[c].pc == Completing(j, batch)
    requires batch != [] ==> batch[0] in s.book.ret
    ensures Fine(|s.cpus|, c, CompleteStep(s, c, j, batch).cpus[c])
  {
  }

  lemma ProcessKeepsFine(s: System, c: nat, j: nat, batch: seq<Item>)
    requires c < |s.cpus| && CpuOk(s, c) && s.cpus[c].sub == Quiet && s.cpus[c].pc == Processing(j, batch)
    ensures Fine(|s.cpus|, c, ProcessStep(s, c, j, batch).cpus[c])
  {
  }

  lemma GoKeepsFine(s: System, c: nat)
    requires c < |s.cpus| && Inv(s) && s.cpus[c].sub == Quiet
    ensures Fine(|s.cpus|, c, GoStep(s, c).cpus[c])
  {
    ResultIsThere(s, c);
    assert CpuOk(s, c);
    hide CpusOk, ItemsOk, ChannelsOk, Fine, QueuesStep, BatchStep, CompleteStep, ProcessStep, Alone;
    var pc := s.cpus[c].pc;
    if pc.Queues? {
      QueuesKeepFine(s, c, pc.j, pc.turn);
    } else if pc.Completing? {
      CompleteKeepsFine(s, c, pc.j, pc.batch);
    } else if pc.Processing? {
      ProcessKeepsFine(s, c, pc.j, pc.batch);
    } else if pc.Batch? {
      BatchKeepsFine(s, c, pc.i);
    } else {
      AloneStaysFine(|s.cpus|, c, s.cpus[c]);
    }
  }

  lemma ChoiceKeepsFine(s: System, c: nat, choice: Choice)
    requires c < |s.cpus| && CpuOk(s, c) && s.cpus[c].sub == Quiet && !choice.Go?
    requires choice.Resolve? ==> RecordOk(|s.cpus|, s.book, choice.x)
    ensures Fine(|s.cpus|, c, AdvanceStep(s, c, choice).cpus[c])
  {
  }

  lemma AlertKeepsFine(s: System, c: nat, k: Channel)
    requires c < |s.cpus| && CpuOk(s, c) && s.cpus[c].sub == Alerting(k)
    ensures Fine(|s.cpus|, c, AlertStep(s, c, k).cpus[c])
  {
  }

  lemma AdvanceKeepsFine(s: System, c: nat, choice: Choice)
    requires c < |s.cpus| && Inv(s)
    ensures Fine(|s.cpus|, c, AdvanceStep(s, c, choice).cpus[c])
  {
    assert CpuOk(s, c) && (choice.Resolve? ==> ItemOk(s, choice.x));
    var cpu := s.cpus[c];
    hide GoStep, AlertStep, RecordOk, ChannelOk, AfterFlush, Fine;
    match cpu.sub {
      case Flushing(k, moved) =>
        FlushKeepsFine(s, c, k, moved);
      case Alerting(k) => AlertKeepsFine(s, c, k);
      case Quiet =>
        if choice.Go? {
          GoKeepsFine(s, c);
        } else {
          ChoiceKeepsFine(s, c, choice);
        }
    }
  }

  lemma FlushKeepsFine(s: System, c: nat, k: Channel, moved: bool)
    requires c < |s.cpus| && CpuOk(s, c) && s.cpus[c].sub == Flushing(k, moved)
    ensures Fine(|s.cpus|, c, FlushStep(s, c, k, moved).cpus[c])
  {
    hide AfterFlush;
    AfterFlushStaysFine(|s.cpus|, c, s.cpus[c], k, moved);
  }

  lemma GoLeavesOthers(s: System, c: nat, d: nat)
    requires c < |s.cpus| && d < |s.cpus| && d != c
    ensures |GoStep(s, c).cpus| == |s.cpus| && GoStep(s, c).cpus[d] == s.cpus[d]
  {
    hide Alone, MovedTo, Popped, Ring, Buffer;
  }

  lemma FlushLeavesOthers(s: System, c: nat, k: Channel, moved: bool, d: nat)
    requires c < |s.cpus| && d < |s.cpus| && d != c
    ensures |FlushStep(s, c, k, moved).cpus| == |s.cpus| && FlushStep(s, c, k, moved).cpus[d] == s.cpus[d]
  {
  }

  lemma PushLeavesOthers(s: System, c: nat, k: Channel, x: Item, pc: Pc, d: nat)
    requires c < |s.cpus| && d < |s.cpus| && d != c
    ensures var t := PushStep(s, c, k, x, Unsent, pc); |t.cpus| == |s.cpus| && t.cpus[d] == s.cpus[d]
  {
  }

  /** A step changes no other CPU, except that it may signal it. */
  lemma OthersAreLeftAlone(s: System, a: Action, d: nat)
    requires d < |s.cpus| && d != a.c
    ensures var t := Step(s, a); |t.cpus| == |s.cpus| && t.cpus[d] == s.cpus[d].(kernel := t.cpus[d].kernel)
  {
    hide GoStep, FlushStep, PushStep;
    if a.c < |s.cpus| && a.Advance? {
      var c := a.c;
      match s.cpus[c].sub {
        case Flushing(k, moved) => FlushLeavesOthers(s, c, k, moved, d);
        case Alerting(k) =>
        case Quiet =>
          match a.choice {
            case Go => GoLeavesOthers(s, c, d);
            case Submit(to, id) => PushLeavesOthers(s, c, Request(c, to), Item(c, to, id), s.cpus[c].pc, d);
            case _ =>
          }
      }
    }
  }

  lemma StepKeepsCpu(s: System, a: Action, d: nat)
    requires Inv(s) && d < |s.cpus|
    ensures |Step(s, a).cpus| == |s.cpus| && CpuOk(Step(s, a), d)
  {
    assert CpuOk(s, d);
    hide AdvanceStep, ItemOk, ChannelOk;
    if a.c != d {
      OthersAreLeftAlone(s, a, d);
    } else if a.Advance? {
      AdvanceKeepsFine(s, d, a.choice);
    }
  }

  lemma PushKeepsChannel(net: Network, k: Channel, y: Item, at: Channel)
    requires ChannelOk(net, at) && Routed(y, k)
    ensures ChannelOk(net.(buffer := net.buffer[k := Buffer(net, k) + [y]]), at)
  {
  }

  lemma FlushKeepsChannel(s: System, c: nat, k: Channel, moved: bool, at: Channel)
    requires c < |s.cpus| && ChannelOk(s.net, at)
    ensures ChannelOk(FlushStep(s, c, k, moved).net, at)
  {
  }

  lemma GoKeepsChannel(s: System, c: nat, at: Channel)
    requires c < |s.cpus| && ChannelOk(s.net, at)
    ensures ChannelOk(GoStep(s, c).net, at)
  {
  }

  lemma StepKeepsChannel(s: System, a: Action, at: Channel)
    requires ChannelOk(s.net, at)
    ensures ChannelOk(Step(s, a).net, at)
  {
    hide ChannelOk, GoStep, FlushStep;
    if a.c < |s.cpus| && a.Advance? {
      var c := a.c;
      match s.cpus[c].sub {
        case Flushing(k, moved) => FlushKeepsChannel(s, c, k, moved, at);
        case Alerting(k) =>
        case Quiet =>
          match a.choice {
            case Go => GoKeepsChannel(s, c, at);
            case Submit(to, id) => PushKeepsChannel(s.net, Request(c, to), Item(c, to, id), at);
            case _ =>
          }
      }
    }
  }

  lemma StepKeepsInv(s: System, a: Action)
    requires Inv(s)
    ensures Inv(Step(s, a)) && |Step(s, a).cpus| == |s.cpus|
  {
    hide Step, ItemOk, ChannelOk, CpuOk;
    if |s.cpus| == 0 {
      NoCpusNoSteps(s, a);
    } else {
      StepKeepsCpu(s, a, 0);
    }
    forall c: nat | c < |Step(s, a).cpus| ensures CpuOk(Step(s, a), c) {
      StepKeepsCpu(s, a, c);
    }
    forall k ensures ChannelOk(Step(s, a).net, k) {
      StepKeepsChannel(s, a, k);
    }
    forall x ensures ItemOk(Step(s, a), x) {
      StepKeepsItem(s, a, x);
    }
  }

  lemma NoCpusNoSteps(s: System, a: Action)
    requires |s.cpus| == 0
    ensures Step(s, a) == s
  {
  }

  /** The invariant holds in every reachable state. */
  lemma {:induction false} RunKeepsInv(n: nat, h: seq<Action>)
    ensures Inv(Run(n, h)) && |Run(n, h).cpus| == n
  {
    if h != [] {
      hide Inv, Step;
      RunKeepsInv(n, h[..|h| - 1]);
      StepKeepsInv(Run(n, h[..|h| - 1]), h[|h| - 1]);
    }
  }

  // ---------------------------------------------------------------------------------------------
  // The life of an item

  /** The places an item can be in: the buffers and rings of its two channels, the batch its target has popped
      or its source has popped, the task queue of its target, and nowhere while its handler runs or when it
      is done. */
  ghost function Occurrences(s: System, x: Item, st: Stage): nat {
    match st
    case Unsent => Copies(Buffer(s.net, Request(x.from, x.to)), x)
    case Sent => Copies(Ring(s.net, Request(x.from, x.to)), x)
    case Fetched => Copies(Fetching(CpuAt(s.cpus, x.to)), x)
    case Running => if At(s.book, x, Running) then 1 else 0
    case Storing => Copies(CpuAt(s.cpus, x.to).tasks, Store(x))
    case Responding => Copies(CpuAt(s.cpus, x.to).tasks, Respond(x))
    case Answered => Copies(Buffer(s.net, Response(x.from, x.to)), x)
    case Returned => Copies(Ring(s.net, Response(x.from, x.to)), x)
    case Collected => Copies(Collecting(CpuAt(s.cpus, x.from)), x)
    case Completed => if At(s.book, x, Completed) then 1 else 0
  }

  /** A submitted item is always in exactly one place, once, and that is the place of its stage. */
  lemma ExactlyOnePlace(n: nat, h: seq<Action>, x: Item, st: Stage)
    requires x in Run(n, h).book.stage
    ensures Occurrences(Run(n, h), x, st) == if Run(n, h).book.stage[x] == st then 1 else 0
  {
    hide Run;
    RunKeepsInv(n, h);
    assert ItemOk(Run(n, h), x);
    hide Copies, RecordOk, LogOk;
  }

  /** Nothing is processed before it is submitted, or on another CPU than its target, or twice; nothing is
      completed before it is processed, or on another CPU than its source, or twice, or with another outcome
      than the one its handler's future resolved to; and a completed item has been processed and completed. */
  ghost predicate LogSays(book: Ledger, x: Item) {
    && (forall e <- book.log | e.x == x ::
          e == Processed(x, x.to) || (x in book.handled && e == Finished(x, x.from, book.handled[x])))
    && multiset(book.log)[Processed(x, x.to)] == (if Reached(book, x, Running) then 1 else 0)
    && (x in book.handled ==>
          multiset(book.log)[Finished(x, x.from, book.handled[x])] == if At(book, x, Completed) then 1 else 0)
    && (At(book, x, Completed) ==> x in book.handled && Processed(x, x.to) in book.log)
  }

  lemma RecordSays(n: nat, book: Ledger, x: Item)
    requires RecordOk(n, book, x) && LogOk(book, x)
    ensures LogSays(book, x)
  {
    CopiesIn(book.log, Processed(x, x.to));
    if x in book.handled && x !in book.ret {
      CopiesIn(book.log, Finished(x, x.from, book.handled[x]));
    }
  }

  /** In every run the log says so of every item. */
  lemma ProcessedAndCompletedOnce(n: nat, h: seq<Action>, x: Item)
    ensures LogSays(Run(n, h).book, x)
  {
    hide Run;
    RunKeepsInv(n, h);
    assert ItemOk(Run(n, h), x);
    hide RecordOk, LogOk, LogSays;
    RecordSays(n, Run(n, h).book, x);
  }

  /** complete() never meets an empty ret_: the branch that aborts is never taken. */
  lemma NeverAborts(n: nat, h: seq<Action>, c: nat)
    requires c < |Run(n, h).cpus|
    ensures Run(n, h).cpus[c].pc != Aborted
  {
    hide Run;
    RunKeepsInv(n, h);
    assert CpuOk(Run(n, h), c);
    hide ItemOk, ChannelOk;
  }

  // ---------------------------------------------------------------------------------------------
  // Stages are passed in order

  /** The item stays at its stage, or goes to the next; it begins with the first. */
  ghost predicate Progresses(book: Ledger, after: Ledger, x: Item) {
    if x in book.stage then
      x in after.stage && Rank(book.stage[x]) <= Rank(after.stage[x]) <= Rank(book.stage[x]) + 1
    else
      x in after.stage ==> after.stage[x] == Unsent
  }

  lemma InPlace(s: System, x: Item)
    requires ItemOk(s, x)
    ensures forall k | Routed(x, k) :: (x in Buffer(s.net, k) ==> At(s.book, x, InBuffer(k)))
                                    && (x in Ring(s.net, k) ==> At(s.book, x, InRing(k)))
    ensures x in Fetching(CpuAt(s.cpus, x.to)) ==> At(s.book, x, Fetched)
    ensures Store(x) in CpuAt(s.cpus, x.to).tasks ==> At(s.book, x, Storing)
    ensures Respond(x) in CpuAt(s.cpus, x.to).tasks ==> At(s.book, x, Responding)
    ensures x in Collecting(CpuAt(s.cpus, x.from)) ==> At(s.book, x, Collected)
  {
  }

  /** Noting the next stage of y. */
  lemma NotedProgresses(book: Ledger, y: Item, was: Stage, after: Ledger, x: Item)
    requires x == y ==> At(book, y, was)
    requires exists st :: Rank(st) == Rank(was) + 1 && after.stage == Noted(book, y, st).stage
    ensures Progresses(book, after, x)
  {
  }

  /** The front task of the target of an item is about an item at its stage. */
  lemma FrontTask(s: System, c: nat, x: Item)
    requires c < |s.cpus| && CpuOk(s, c) && ItemOk(s, x) && s.cpus[c].tasks != []
    ensures s.cpus[c].tasks[0] == Store(x) ==> At(s.book, x, Storing)
    ensures s.cpus[c].tasks[0] == Respond(x) ==> At(s.book, x, Responding)
  {
    InPlace(s, x);
    hide ItemOk, Fetching, Collecting;
    assert s.cpus[c].tasks[0] in s.cpus[c].tasks && TaskOk(|s.cpus|, c, s.cpus[c].tasks[0]);
  }

  lemma BatchProgresses(s: System, c: nat, i: nat, x: Item)
    requires c < |s.cpus| && CpuOk(s, c) && s.cpus[c].pc == Batch(i) && ItemOk(s, x)
    ensures Progresses(s.book, BatchStep(s, c, i).book, x)
  {
    var cpu, t := s.cpus[c], BatchStep(s, c, i);
    if i < 8 && cpu.tasks != [] && cpu.tasks[0] != Other {
      FrontTask(s, c, x);
      var was := if cpu.tasks[0].Store? then Storing else Responding;
      var st := if cpu.tasks[0].Store? then Responding else Answered;
      hide ItemOk, CpuOk, Progresses;
      assert t.book.stage == Noted(s.book, cpu.tasks[0].x, st).stage;
      NotedProgresses(s.book, cpu.tasks[0].x, was, t.book, x);
    }
  }

  lemma PopProgresses(s: System, c: nat, k: Channel, x: Item)
    requires c < |s.cpus| && ChannelOk(s.net, k) && ItemOk(s, x)
    ensures Progresses(s.book, PopStep(s, c, k).book, x)
  {
    InPlace(s, x);
    hide ItemOk, Fetching, Collecting, CpuAt;
    assert x in Ring(s.net, k) ==> Routed(x, k);
  }

  lemma CompleteProgresses(s: System, c: nat, j: nat, batch: seq<Item>, x: Item)
    requires c < |s.cpus| && CpuOk(s, c) && s.cpus[c].pc == Completing(j, batch) && ItemOk(s, x)
    ensures Progresses(s.book, CompleteStep(s, c, j, batch).book, x)
  {
    InPlace(s, x);
    var t := CompleteStep(s, c, j, batch);
    if batch != [] && batch[0] in s.book.ret {
      assert batch[0] in batch && batch[0].from == c;
      assert x == batch[0] ==> At(s.book, x, Collected);
      hide ItemOk, Collecting, CpuOk, Progresses;
      assert t.book.stage == Noted(s.book, batch[0], Completed).stage;
      NotedProgresses(s.book, batch[0], Collected, t.book, x);
    }
  }

  lemma FrontFetched(s: System, c: nat, j: nat, batch: seq<Item>, x: Item)
    requires c < |s.cpus| && CpuOk(s, c) && s.cpus[c].pc == Processing(j, batch) && ItemOk(s, x) && batch != []
    ensures x == batch[0] ==> At(s.book, x, Fetched)
  {
    InPlace(s, x);
    hide ItemOk;
    assert batch[0] in batch && batch[0].to == c;
  }

  lemma ProcessProgresses(s: System, c: nat, j: nat, batch: seq<Item>, x: Item)
    requires c < |s.cpus| && CpuOk(s, c) && s.cpus[c].pc == Processing(j, batch) && ItemOk(s, x)
    ensures Progresses(s.book, ProcessStep(s, c, j, batch).book, x)
  {
    var t := ProcessStep(s, c, j, batch);
    if batch != [] {
      FrontFetched(s, c, j, batch, x);
      hide ItemOk, CpuOk, Progresses;
      assert t.book.stage == Noted(s.book, batch[0], Running).stage;
      NotedProgresses(s.book, batch[0], Fetched, t.book, x);
    }
  }

  lemma SameProgresses(book: Ledger, x: Item)
    ensures Progresses(book, book, x)
  {
  }

  lemma QueuesProgress(s: System, c: nat, j: nat, turn: Turn, x: Item)
    requires c < |s.cpus| && Inv(s)
    ensures Progresses(s.book, QueuesStep(s, c, j, turn).book, x)
  {
    assert ItemOk(s, x) && ChannelOk(s.net, Response(c, j)) && ChannelOk(s.net, Request(j, c));
    SameProgresses(s.book, x);
    hide Inv, ItemOk, ChannelOk, Progresses, PopStep;
    PopProgresses(s, c, Response(c, j), x);
    PopProgresses(s, c, Request(j, c), x);
  }

  lemma GoProgresses(s: System, c: nat, x: Item)
    requires c < |s.cpus| && Inv(s)
    ensures Progresses(s.book, GoStep(s, c).book, x)
  {
    assert CpuOk(s, c) && ItemOk(s, x);
    SameProgresses(s.book, x);
    hide Inv, ItemOk, CpuOk, Progresses, QueuesStep, BatchStep, CompleteStep, ProcessStep, Alone;
    var pc := s.cpus[c].pc;
    if pc.Queues? {
      QueuesProgress(s, c, pc.j, pc.turn, x);
    } else if pc.Batch? {
      BatchProgresses(s, c, pc.i, x);
    } else if pc.Completing? {
      CompleteProgresses(s, c, pc.j, pc.batch, x);
    } else if pc.Processing? {
      ProcessProgresses(s, c, pc.j, pc.batch, x);
    }
  }

  lemma ChoiceProgresses(s: System, c: nat, choice: Choice, x: Item)
    requires c < |s.cpus| && Inv(s) && s.cpus[c].sub == Quiet
    ensures Progresses(s.book, AdvanceStep(s, c, choice).book, x)
  {
    SameProgresses(s.book, x);
    if choice.Go? {
      hide Inv, GoStep, Progresses;
      GoProgresses(s, c, x);
    } else {
      hide Inv;
    }
  }

  lemma FlushProgresses(s: System, c: nat, k: Channel, moved: bool, x: Item)
    requires c < |s.cpus| && ChannelOk(s.net, k) && ItemOk(s, x)
    ensures Progresses(s.book, FlushStep(s, c, k, moved).book, x)
  {
    InPlace(s, x);
    var t := FlushStep(s, c, k, moved);
    if |Ring(s.net, k)| < Spsc.RING_CAPACITY && Buffer(s.net, k) != [] {
      var y := Buffer(s.net, k)[0];
      assert y in Buffer(s.net, k);
      hide ItemOk, Fetching, Collecting, Progresses;
      assert t.book.stage == Noted(s.book, y, InRing(k)).stage;
      NotedProgresses(s.book, y, InBuffer(k), t.book, x);
    }
  }

  lemma StepProgresses(s: System, a: Action, x: Item)
    requires Inv(s)
    ensures Progresses(s.book, Step(s, a).book, x)
  {
    assert ItemOk(s, x);
    SameProgresses(s.book, x);
    if a.c < |s.cpus| && a.Advance? {
      if s.cpus[a.c].sub.Flushing? {
        assert ChannelOk(s.net, s.cpus[a.c].sub.k);
      }
      hide Inv, ItemOk, GoStep, FlushStep, ChannelOk, Progresses;
      match s.cpus[a.c].sub {
        case Flushing(k, moved) => FlushProgresses(s, a.c, k, moved, x);
        case Alerting(_) =>
        case Quiet => ChoiceProgresses(s, a.c, a.choice, x);
      }
    }
  }

  /** In every run, every step leaves every item at its stage, or takes it to the next. */
  lemma StagesInOrder(n: nat, h: seq<Action>, a: Action, x: Item)
    ensures Progresses(Run(n, h).book, Step(Run(n, h), a).book, x)
  {
    hide Inv, Progresses, Step, Run;
    RunKeepsInv(n, h);
    StepProgresses(Run(n, h), a, x);
  }
}
