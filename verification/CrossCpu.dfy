/** CPUs that exchange work items, sleep and wake each other, one step at a time. */
module CrossCpu {
  import Spsc = SpscQueues

  /** A work item, with the CPU that submitted it and the CPU that runs it. */
  datatype Item = Item(from: nat, to: nat, id: nat)

  /** The two unbounded queues, tx_ and rx_, of a Cross_cpu_queue. */
  datatype Channel = Request(from: nat, to: nat) | Response(from: nat, to: nat)

  function Producer(k: Channel): nat {
    if k.Request? then k.from else k.to
  }

  function Consumer(k: Channel): nat {
    if k.Request? then k.to else k.from
  }

  /** The ordered pair of CPUs that item x and channel k are for. */
  predicate Routed(x: Item, k: Channel) {
    x.from == k.from && x.to == k.to
  }

  /** The life of an item: in the buffer, in the ring and in a popped batch of tx_; its handler's future not
      yet resolved; its result about to be stored; about to be sent back; in the buffer, in the ring and in a
      popped batch of rx_; its promise satisfied and the item freed. */
  datatype Stage =
    | Unsent | Sent | Fetched | Running | Storing | Responding | Answered | Returned | Collected | Completed

  function Rank(st: Stage): nat {
    match st
    case Unsent => 0
    case Sent => 1
    case Fetched => 2
    case Running => 3
    case Storing => 4
    case Responding => 5
    case Answered => 6
    case Returned => 7
    case Collected => 8
    case Completed => 9
  }

  /** A task: user code, the continuation that stores an item's result, or the one that sends the item back. */
  datatype Task = Other | Store(x: Item) | Respond(x: Item)

  /** The four calls of OS::poll_queues() for one peer. */
  datatype Turn = FlushTx | PollRx | FlushRx | PollTx

  /** What user code returns to: the batch loop of CPU::run(), or the rest of a batch of poll_tx(). */
  datatype Caller = FromBatch(i: nat) | FromPoll(j: nat, rest: seq<Item>)

  /** Where a CPU is: in the signal poller, in poll_queues() at peer j, in the other pollers, in the loop over
      the task queue, or in run_idle_proc_(). */
  datatype Pc =
    | Start
    | Load
    | Clear
    | Handlers
    | Queues(j: nat, turn: Turn)
    | Completing(j: nat, batch: seq<Item>)
    | Processing(j: nat, batch: seq<Item>)
    | Others
    | Decide
    | Batch(i: nat)
    | User(caller: Caller)
    | Idle
    | Masked
    | Waiting
    | Parked
    | Returning
    | Aborted

  /** A flush in progress, which may have moved something, and the wakeup that follows. */
  datatype Sub = Quiet | Flushing(k: Channel, moved: bool) | Alerting(k: Channel)

  /** A CPU: where it is, cpu_active, a SIGALRM pending in the kernel, one noted in pending_signals_, and
      the task queue. */
  datatype Cpu = Cpu(pc: Pc, sub: Sub, active: bool, kernel: bool, flag: bool, tasks: seq<Task>)

  /** What is recorded: a handler started, and the promise of an item satisfied, each on some CPU. */
  datatype Event = Processed(x: Item, c: nat) | Finished(x: Item, c: nat, v: int)

  /** The buffers and rings of all queues. */
  datatype Network = Network(buffer: map<Channel, seq<Item>>, ring: map<Channel, seq<Item>>)

  /** The stage of each item submitted so far, the outcome its handler's future resolved to, and its ret_. */
  datatype Ledger = Ledger(stage: map<Item, Stage>, handled: map<Item, int>, ret: map<Item, int>, log: seq<Event>)

  datatype System = System(cpus: seq<Cpu>, net: Network, book: Ledger)

  /** What code the model does not know chooses to do next. */
  datatype Choice = Go | Submit(to: nat, id: nat) | Spawn | Resolve(x: Item, v: int) | Found

  datatype Action =
    | Advance(c: nat, choice: Choice)   // the next step of CPU c
    | Tick(c: nat)                      // a signal to CPU c from elsewhere, such as its timer
    | Deliver(c: nat)                   // the kernel runs the signal handler on CPU c
    | Spurious(c: nat)                  // epoll_pwait() on CPU c returns without a signal

  function Buffer(net: Network, k: Channel): seq<Item> {
    if k in net.buffer then net.buffer[k] else []
  }

  function Ring(net: Network, k: Channel): seq<Item> {
    if k in net.ring then net.ring[k] else []
  }

  /** SIGALRM is blocked outside epoll_pwait(). */
  predicate SignalsBlocked(pc: Pc) {
    pc.Masked? || pc.Waiting? || pc.Returning?
  }

  function Put(s: System, c: nat, cpu: Cpu): System
    requires c < |s.cpus|
  {
    s.(cpus := s.cpus[c := cpu])
  }

  function MovedTo(stage: map<Item, Stage>, batch: seq<Item>, st: Stage): map<Item, Stage> {
    map x | x in stage :: if x in batch then st else stage[x]
  }

  function Noted(book: Ledger, x: Item, st: Stage): Ledger {
    book.(stage := book.stage[x := st])
  }

  predicate At(book: Ledger, x: Item, st: Stage) {
    x in book.stage && book.stage[x] == st
  }

  /** The CPU is on its way to sleep, or asleep. */
  predicate Resting(pc: Pc) {
    pc.Idle? || pc.Masked? || pc.Waiting? || pc.Parked?
  }

  // ---------------------------------------------------------------------------------------------
  // The steps of a CPU

  /** push() of Unbounded_spsc_queue: the buffer grows, and is flushed when it holds eight items. */
  function PushStep(s: System, c: nat, k: Channel, x: Item, st: Stage, pc: Pc): System
    requires c < |s.cpus|
  {
    var buffer := Buffer(s.net, k) + [x];
    var sub := if |buffer| < Spsc.FLUSH_THRESHOLD then Quiet else Flushing(k, false);
    Put(s, c, s.cpus[c].(pc := pc, sub := sub))
    .(net := s.net.(buffer := s.net.buffer[k := buffer]), book := Noted(s.book, x, st))
  }

  /** The end of a flush; cpu_active notes that a poll flushed something. */
  function AfterFlush(cpu: Cpu, k: Channel, moved: bool): Cpu {
    if moved then cpu.(sub := Alerting(k), active := cpu.active || cpu.pc.Queues?) else cpu.(sub := Quiet)
  }

  /** A turn of the loop of flush(), or its end. */
  function FlushStep(s: System, c: nat, k: Channel, moved: bool): System
    requires c < |s.cpus|
  {
    var cpu, buffer, ring := s.cpus[c], Buffer(s.net, k), Ring(s.net, k);
    if |ring| < Spsc.RING_CAPACITY && buffer != [] then
      Put(s, c, cpu.(sub := Flushing(k, true)))
      .(net := Network(s.net.buffer[k := buffer[1..]], s.net.ring[k := ring + [buffer[0]]]),
        book := Noted(s.book, buffer[0], if k.Request? then Sent else Returned))
    else Put(s, c, AfterFlush(cpu, k, moved))
  }

  /** wakeup(): pthread_kill() makes the signal pending at the consumer. */
  function AlertStep(s: System, c: nat, k: Channel): System
    requires c < |s.cpus|
  {
    var t := Put(s, c, s.cpus[c].(sub := Quiet));
    var d := Consumer(k);
    if d < |t.cpus| then Put(t, d, t.cpus[d].(kernel := true)) else t
  }

  /** Where poll_rx() or poll_tx() goes on with what it has popped from k. */
  function Popped(k: Channel, batch: seq<Item>): Pc {
    match k
    case Response(_, j) => if batch == [] then Queues(j, FlushRx) else Completing(j, batch)
    case Request(j, _) => if batch == [] then Queues(j + 1, FlushTx) else Processing(j, batch)
  }

  /** pop() of up to eight items; cpu_active notes that a poll found something. */
  function PopStep(s: System, c: nat, k: Channel): System
    requires c < |s.cpus|
  {
    var cpu, ring := s.cpus[c], Ring(s.net, k);
    var n := Spsc.Min(Spsc.BATCH, |ring|);
    Put(s, c, cpu.(pc := Popped(k, ring[..n]), active := cpu.active || n > 0))
    .(net := s.net.(ring := s.net.ring[k := ring[n..]]),
      book := s.book.(stage := MovedTo(s.book.stage, ring[..n], if k.Request? then Fetched else Collected)))
  }

  /** One call of poll_queues() for peer j. */
  function QueuesStep(s: System, c: nat, j: nat, turn: Turn): System
    requires c < |s.cpus|
  {
    var cpu := s.cpus[c];
    if j >= |s.cpus| then Put(s, c, cpu.(pc := Others))
    else if j == c then Put(s, c, cpu.(pc := Queues(j + 1, FlushTx)))
    else
      match turn
      case FlushTx => Put(s, c, cpu.(pc := Queues(j, PollRx), sub := Flushing(Request(c, j), false)))
      case PollRx => PopStep(s, c, Response(c, j))
      case FlushRx => Put(s, c, cpu.(pc := Queues(j, PollTx), sub := Flushing(Response(j, c), false)))
      case PollTx => PopStep(s, c, Request(j, c))
  }

  /** complete(): satisfy the promise with ret_, which must not be empty. */
  function CompleteStep(s: System, c: nat, j: nat, batch: seq<Item>): System
    requires c < |s.cpus|
  {
    var cpu := s.cpus[c];
    if batch == [] then Put(s, c, cpu.(pc := Queues(j, FlushRx)))
    else if batch[0] in s.book.ret then
      Put(s, c, cpu.(pc := Completing(j, batch[1..])))
      .(book := Noted(s.book, batch[0], Completed)
                .(log := s.book.log + [Finished(batch[0], c, s.book.ret[batch[0]])]))
    else Put(s, c, cpu.(pc := Aborted))
  }

  /** process(): call the handler, which is user code. */
  function ProcessStep(s: System, c: nat, j: nat, batch: seq<Item>): System
    requires c < |s.cpus|
  {
    var cpu := s.cpus[c];
    if batch == [] then Put(s, c, cpu.(pc := Queues(j + 1, FlushTx)))
    else
      Put(s, c, cpu.(pc := User(FromPoll(j, batch[1..]))))
      .(book := Noted(s.book, batch[0], Running).(log := s.book.log + [Processed(batch[0], c)]))
  }

  /** The task loop: take the front task and run it, up to eight times. */
  function BatchStep(s: System, c: nat, i: nat): System
    requires c < |s.cpus|
  {
    var cpu := s.cpus[c];
    if i >= 8 || cpu.tasks == [] then Put(s, c, cpu.(pc := Start))
    else
      var rest := cpu.(tasks := cpu.tasks[1..]);
      match cpu.tasks[0]
      case Other => Put(s, c, rest.(pc := User(FromBatch(i + 1))))
      case Store(x) =>
        Put(s, c, rest.(pc := Batch(i + 1), tasks := rest.tasks + [Respond(x)]))
        .(book := Noted(s.book, x, Responding)
                  .(ret := if x in s.book.handled then s.book.ret[x := s.book.handled[x]] else s.book.ret))
      case Respond(x) => PushStep(Put(s, c, rest), c, Response(x.from, x.to), x, Answered, Batch(i + 1))
  }

  /** A step that concerns the CPU alone: between the pollers, in the signal poller, around the task loop
      and in run_idle_proc_(). */
  function Alone(cpu: Cpu): Cpu {
    match cpu.pc
    case Start => cpu.(pc := Load, active := false)
    case Load => cpu.(pc := if cpu.flag then Clear else Queues(0, FlushTx))
    case Clear => cpu.(pc := Handlers, flag := false, active := true)
    case Handlers => cpu.(pc := Queues(0, FlushTx))
    case Others => cpu.(pc := Decide)
    case Decide => cpu.(pc := if cpu.tasks == [] && !cpu.active then Idle else Batch(0))
    case User(FromBatch(i)) => cpu.(pc := Batch(i))
    case User(FromPoll(j, rest)) => cpu.(pc := Processing(j, rest))
    case Idle => cpu.(pc := Masked)
    case Masked => cpu.(pc := if cpu.flag then Returning else Waiting)
    case Waiting => if cpu.kernel then cpu.(pc := Returning, kernel := false, flag := true) else cpu.(pc := Parked)
    case Returning => cpu.(pc := Start)
    case _ => cpu
  }

  /** The next step of a CPU that chooses nothing. */
  function GoStep(s: System, c: nat): System
    requires c < |s.cpus|
  {
    match s.cpus[c].pc
    case Queues(j, turn) => QueuesStep(s, c, j, turn)
    case Completing(j, batch) => CompleteStep(s, c, j, batch)
    case Processing(j, batch) => ProcessStep(s, c, j, batch)
    case Batch(i) => BatchStep(s, c, i)
    case _ => Put(s, c, Alone(s.cpus[c]))
  }

  /** Code that may schedule tasks and resolve futures is running. */
  predicate Effectful(pc: Pc) {
    pc.Handlers? || pc.Completing? || pc.Others? || pc.User?
  }

  function AdvanceStep(s: System, c: nat, choice: Choice): System
    requires c < |s.cpus|
  {
    var cpu := s.cpus[c];
    match cpu.sub
    case Flushing(k, moved) => FlushStep(s, c, k, moved)
    case Alerting(k) => AlertStep(s, c, k)
    case Quiet =>
      match choice
      case Go => GoStep(s, c)
      case Submit(to, id) =>
        if cpu.pc.User? && to < |s.cpus| && to != c && Item(c, to, id) !in s.book.stage then
          PushStep(s, c, Request(c, to), Item(c, to, id), Unsent, cpu.pc)
        else s
      case Spawn => if Effectful(cpu.pc) then Put(s, c, cpu.(tasks := cpu.tasks + [Other])) else s
      case Resolve(x, v) =>
        if Effectful(cpu.pc) && x.to == c && At(s.book, x, Running) then
          Put(s, c, cpu.(tasks := cpu.tasks + [Store(x)]))
          .(book := Noted(s.book, x, Storing).(handled := s.book.handled[x := v]))
        else s
      case Found => if cpu.pc.Others? then Put(s, c, cpu.(active := true)) else s
  }

  /** Every step of the system; an action that cannot happen changes nothing. */
  function Step(s: System, a: Action): System {
    if a.c >= |s.cpus| then s
    else
      var cpu := s.cpus[a.c];
      match a
      case Advance(c, choice) => AdvanceStep(s, c, choice)
      case Tick(c) => Put(s, c, cpu.(kernel := true))
      case Deliver(c) =>
        if !cpu.kernel || SignalsBlocked(cpu.pc) then s
        else Put(s, c, cpu.(kernel := false, flag := true, pc := if cpu.pc.Parked? then Returning else cpu.pc))
      case Spurious(c) => if cpu.pc.Parked? then Put(s, c, cpu.(pc := Returning)) else s
  }

  /** All CPUs constructed, and nothing submitted. */
  function Init(n: nat): System {
    System(seq(n, _ => Cpu(Start, Quiet, false, false, false, [])), Network(map[], map[]),
           Ledger(map[], map[], map[], []))
  }

  ghost function Run(n: nat, h: seq<Action>): System {
    if h == [] then Init(n) else Step(Run(n, h[..|h| - 1]), h[|h| - 1])
  }

  // ---------------------------------------------------------------------------------------------
  // The shape of a CPU and of a channel

  /** A channel between two different CPUs out of n. */
  predicate Proper(n: nat, k: Channel) {
    k.from < n && k.to < n && k.from != k.to
  }

  /** A flush or wakeup in progress is on an outgoing channel, in a place where the program makes one. */
  predicate SubOk(n: nat, c: nat, cpu: Cpu) {
    cpu.sub != Quiet ==>
      && Producer(cpu.sub.k) == c && Proper(n, cpu.sub.k)
      && ((cpu.pc.Queues? && (cpu.sub.Alerting? ==> cpu.active)) || cpu.pc.User? || cpu.pc.Batch?)
  }

  /** The batch came over the channel k, and counts as activity. */
  predicate PeerOk(n: nat, cpu: Cpu, k: Channel, batch: seq<Item>) {
    cpu.active && Proper(n, k) && forall x <- batch :: Routed(x, k)
  }

  /** Batches come from the peer being polled; a CPU rests with nothing to do, and sleeps with no signal
      noted; and it never aborts. */
  predicate PcOk(n: nat, c: nat, cpu: Cpu) {
    match cpu.pc
    case Queues(j, turn) => turn.FlushTx? || (j < n && j != c)
    case Completing(j, batch) => PeerOk(n, cpu, Response(c, j), batch)
    case Processing(j, batch) => PeerOk(n, cpu, Request(j, c), batch)
    case User(FromPoll(j, rest)) => PeerOk(n, cpu, Request(j, c), rest)
    case Aborted => false
    case pc => (Resting(pc) ==> cpu.tasks == [] && !cpu.active) && (pc.Waiting? || pc.Parked? ==> !cpu.flag)
  }

  predicate TaskOk(n: nat, c: nat, t: Task) {
    t.Other? || (t.x.to == c && t.x.from < n && t.x.from != c)
  }

  ghost predicate Fine(n: nat, c: nat, cpu: Cpu) {
    SubOk(n, c, cpu) && PcOk(n, c, cpu) && forall t <- cpu.tasks :: TaskOk(n, c, t)
  }

  ghost predicate CpuOk(s: System, c: nat)
    requires c < |s.cpus|
  {
    Fine(|s.cpus|, c, s.cpus[c])
  }

  ghost predicate ChannelOk(net: Network, k: Channel) {
    && |Ring(net, k)| <= Spsc.RING_CAPACITY
    && (forall x <- Buffer(net, k) :: Routed(x, k))
    && (forall x <- Ring(net, k) :: Routed(x, k))
  }
}
