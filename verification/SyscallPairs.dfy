/** A CPU and its syscall worker thread, which share two rings and an eventfd, one step at a time; with the
    semaphores of the syscall runner and of the asynchronous file I/O. */
module SyscallPairs {
  import Sem = Semaphores

  const QUEUE_SIZE: nat := 128
  const MAX_IO: nat := 128

  /** When consume_all() frees the slot of an item: as it hands the item over, or all slots at its end. */
  datatype Policy = AsHanded | AtEnd

  /** A task: user code, or the continuation of a wait() for room in the syscall queue or in the kernel's. */
  datatype Task = Other | Call(w: nat) | StartIo(w: nat)

  /** Where the CPU is: in its pollers, in the task loop, or in run_idle_proc_(). */
  datatype Pc =
    | Start
    | Load
    | Clear
    | Handlers
    | Ipc
    | Results
    | Completing(batch: seq<nat>, nr: nat)
    | Releasing(nr: nat)
    | Events
    | ReleasingIo(nr: nat)
    | Decide
    | Batch(i: nat)
    | User(i: nat)
    | Signalling(i: nat)
    | Idle
    | Masked
    | Waiting
    | Parked
    | Returning

  datatype Cpu = Cpu(pc: Pc, active: bool, kernel: bool, flag: bool, tasks: seq<Task>)

  /** The worker: blocked on the eventfd, about to look at the call ring, in consume_all() with some items to go,
      running one, or about to wake the CPU. */
  datatype Worker = Blocked | Scanning | Consuming(quota: nat) | Holding(w: nat, quota: nat) | Waking

  /** The rings, with the slots of the call ring that are not free yet though their items were handed over; the
      counter of the eventfd; and the items that a ring had no room for. */
  datatype Rings = Rings(call: seq<nat>, handed: nat, result: seq<nat>, counter: nat, dropped: seq<nat>)

  /** A submitted call has the number of its wait() for room.  `flying` and `failed` count the file operations in
      the kernel and those it refused. */
  datatype Pair = Pair(cpu: Cpu, worker: Worker, rings: Rings, room: Sem.Sem, io: Sem.Sem, flying: nat, failed: nat,
                       completed: seq<nat>)

  /** What code the model does not know chooses to do next. */
  datatype Choice = Go | Spawn | Submit | SubmitIo | Reap(n: nat) | Refuse | Found

  datatype Action =
    | Advance(choice: Choice)   // the next step of the CPU
    | Work(more: bool)          // the next step of the worker
    | Tick                      // a signal to the CPU from elsewhere
    | Deliver                   // the kernel runs the signal handler on the CPU
    | Spurious                  // epoll_pwait() returns without a signal

  function Granted(before: Sem.Sem, after: Sem.Sem): seq<nat> {
    if |before.granted| <= |after.granted| then after.granted[|before.granted|..] else []
  }

  function Calls(ws: seq<nat>): seq<Task> {
    seq(|ws|, i requires 0 <= i < |ws| => Call(ws[i]))
  }

  function StartIos(ws: seq<nat>): seq<Task> {
    seq(|ws|, i requires 0 <= i < |ws| => StartIo(ws[i]))
  }

  /** The room semaphore goes on to a state; each request granted leaves its continuation on the task queue. */
  function Roomed(p: Pair, room: Sem.Sem, pc: Pc, active: bool): Pair {
    p.(room := room, cpu := p.cpu.(pc := pc, active := active, tasks := p.cpu.tasks + Calls(Granted(p.room, room))))
  }

  function IoRoomed(p: Pair, io: Sem.Sem, pc: Pc, active: bool): Pair {
    p.(io := io, cpu := p.cpu.(pc := pc, active := active, tasks := p.cpu.tasks + StartIos(Granted(p.io, io))))
  }

  function Tokens(n: nat): Sem.Size {
    n % Sem.SIZE_LIMIT
  }

  // ---------------------------------------------------------------------------------------------
  // The steps

  /** The continuation of wait(): push into the call ring, whatever comes of it; the signal follows. */
  function CallStep(p: Pair, i: nat, w: nat): Pair
    requires p.cpu.tasks != []
  {
    var cpu := p.cpu.(pc := Signalling(i + 1), tasks := p.cpu.tasks[1..]);
    if |p.rings.call| + p.rings.handed < QUEUE_SIZE then
      p.(cpu := cpu, rings := p.rings.(call := p.rings.call + [w]))
    else
      p.(cpu := cpu, rings := p.rings.(dropped := p.rings.dropped + [w]))
  }

  function BatchStep(p: Pair, i: nat, refused: bool): Pair {
    if i >= 8 || p.cpu.tasks == [] then p.(cpu := p.cpu.(pc := Start))
    else
      var rest := p.cpu.(tasks := p.cpu.tasks[1..]);
      match p.cpu.tasks[0]
      case Other => p.(cpu := rest.(pc := User(i + 1)))
      case Call(w) => CallStep(p, i, w)
      case StartIo(_) =>
        if refused then p.(cpu := rest.(pc := Batch(i + 1)), failed := p.failed + 1)
        else p.(cpu := rest.(pc := Batch(i + 1)), flying := p.flying + 1)
  }

  /** A step that concerns the CPU alone. */
  function Alone(cpu: Cpu): Cpu {
    match cpu.pc
    case Start => cpu.(pc := Load, active := false)
    case Load => cpu.(pc := if cpu.flag then Clear else Ipc)
    case Clear => cpu.(pc := Handlers, flag := false, active := true)
    case Handlers => cpu.(pc := Ipc)
    case Ipc => cpu.(pc := Results)
    case Decide => cpu.(pc := if cpu.tasks == [] && !cpu.active then Idle else Batch(0))
    case User(i) => cpu.(pc := Batch(i))
    case Idle => cpu.(pc := Masked)
    case Masked => cpu.(pc := if cpu.flag then Returning else Waiting)
    case Waiting => if cpu.kernel then cpu.(pc := Returning, kernel := false, flag := true) else cpu.(pc := Parked)
    case Returning => cpu.(pc := Start)
    case _ => cpu
  }

  /** poll_results(): pop, complete what was popped, and release as many tokens, even none. */
  function ResultsStep(p: Pair): Pair {
    match p.cpu.pc
    case Results =>
      var n := if |p.rings.result| < QUEUE_SIZE then |p.rings.result| else QUEUE_SIZE;
      p.(cpu := p.cpu.(pc := Completing(p.rings.result[..n], n)), rings := p.rings.(result := p.rings.result[n..]))
    case Completing(batch, nr) =>
      if batch == [] then p.(cpu := p.cpu.(pc := Releasing(nr)))
      else p.(cpu := p.cpu.(pc := Completing(batch[1..], nr)), completed := p.completed + [batch[0]])
    case Releasing(nr) => Roomed(p, Sem.Step(p.room, Sem.Release(Tokens(nr))), Events, p.cpu.active || nr > 0)
    case _ => p
  }

  /** reap_io(): release as many tokens as there were events, even none. */
  function ReapStep(p: Pair, n: nat): Pair {
    match p.cpu.pc
    case Events =>
      if n <= p.flying && n <= MAX_IO then p.(cpu := p.cpu.(pc := ReleasingIo(n)), flying := p.flying - n) else p
    case ReleasingIo(nr) => IoRoomed(p, Sem.Step(p.io, Sem.Release(Tokens(nr))), Decide, p.cpu.active || nr > 0)
    case _ => p
  }

  function GoStep(p: Pair): Pair {
    match p.cpu.pc
    case Results => ResultsStep(p)
    case Completing(_, _) => ResultsStep(p)
    case Releasing(_) => ResultsStep(p)
    case Events => ReapStep(p, 0)
    case ReleasingIo(_) => ReapStep(p, 0)
    case Batch(i) => BatchStep(p, i, false)
    case Signalling(i) => p.(cpu := p.cpu.(pc := Batch(i)), rings := p.rings.(counter := p.rings.counter + 1))
    case _ => p.(cpu := Alone(p.cpu))
  }

  /** User code is running: a task, or the handler of an item from another CPU. */
  predicate InUserCode(pc: Pc) {
    pc.Ipc? || pc.User?
  }

  /** Code that may schedule tasks is running. */
  predicate Effectful(pc: Pc) {
    pc.Handlers? || pc.Completing? || pc.ReleasingIo? || InUserCode(pc)
  }

  function AdvanceStep(p: Pair, choice: Choice): Pair {
    match choice
    case Go => GoStep(p)
    case Spawn => if Effectful(p.cpu.pc) then p.(cpu := p.cpu.(tasks := p.cpu.tasks + [Other])) else p
    case Submit =>
      if InUserCode(p.cpu.pc) then Roomed(p, Sem.Step(p.room, Sem.Wait(1)), p.cpu.pc, p.cpu.active) else p
    case SubmitIo =>
      if InUserCode(p.cpu.pc) then IoRoomed(p, Sem.Step(p.io, Sem.Wait(1)), p.cpu.pc, p.cpu.active) else p
    case Reap(n) => if p.cpu.pc.Events? then ReapStep(p, n) else p
    case Refuse => if p.cpu.pc.Batch? then BatchStep(p, p.cpu.pc.i, true) else p
    case Found => if p.cpu.pc.Ipc? then p.(cpu := p.cpu.(active := true)) else p
  }

  /** worker_run_(), until the thread is stopped. */
  function WorkStep(policy: Policy, p: Pair, more: bool): Pair {
    var r := p.rings;
    match p.worker
    case Blocked => if r.counter > 0 then p.(worker := Scanning, rings := r.(counter := 0)) else p
    case Scanning => p.(worker := if r.call == [] then Blocked else Consuming(|r.call|))
    case Consuming(quota) =>
      if quota > 0 && r.call != [] then
        p.(worker := Holding(r.call[0], quota - 1),
           rings := r.(call := r.call[1..], handed := if policy.AtEnd? then r.handed + 1 else r.handed))
      else if more && r.call != [] then p.(worker := Consuming(1))
      else p.(worker := Waking, rings := r.(handed := 0))
    case Holding(w, quota) =>
      if |r.result| < QUEUE_SIZE then p.(worker := Consuming(quota), rings := r.(result := r.result + [w]))
      else p.(worker := Consuming(quota), rings := r.(dropped := r.dropped + [w]))
    case Waking => p.(worker := Scanning, cpu := p.cpu.(kernel := true))
  }

  predicate SignalsBlocked(pc: Pc) {
    pc.Masked? || pc.Waiting? || pc.Returning?
  }

  function Step(policy: Policy, p: Pair, a: Action): Pair {
    match a
    case Advance(choice) => AdvanceStep(p, choice)
    case Work(more) => WorkStep(policy, p, more)
    case Tick => p.(cpu := p.cpu.(kernel := true))
    case Deliver =>
      if !p.cpu.kernel || SignalsBlocked(p.cpu.pc) then p
      else p.(cpu := p.cpu.(kernel := false, flag := true, pc := if p.cpu.pc.Parked? then Returning else p.cpu.pc))
    case Spurious => if p.cpu.pc.Parked? then p.(cpu := p.cpu.(pc := Returning)) else p
  }

  function Init(): Pair {
    Pair(Cpu(Start, false, false, false, []), Blocked, Rings([], 0, [], 0, []),
         Sem.Sem(QUEUE_SIZE, [], 0, []), Sem.Sem(MAX_IO, [], 0, []), 0, 0, [])
  }

  ghost function Run(policy: Policy, h: seq<Action>): Pair {
    if h == [] then Init() else Step(policy, Run(policy, h[..|h| - 1]), h[|h| - 1])
  }

  // ---------------------------------------------------------------------------------------------
  // Tokens

  /** The calls whose continuation of wait() is on the task queue, in order. */
  function CallsIn(tasks: seq<Task>): seq<nat> {
    if tasks == [] then []
    else (if tasks[0].Call? then [tasks[0].w] else []) + CallsIn(tasks[1..])
  }

  function IosIn(tasks: seq<Task>): nat {
    if tasks == [] then 0 else (if tasks[0].StartIo? then 1 else 0) + IosIn(tasks[1..])
  }

  /** The calls that poll_results() has popped and not completed, and the number of tokens it has yet to release. */
  function Popped(pc: Pc): seq<nat> {
    if pc.Completing? then pc.batch else []
  }

  function Owed(pc: Pc): nat {
    match pc
    case Completing(_, nr) => nr
    case Releasing(nr) => nr
    case _ => 0
  }

  function OwedIo(pc: Pc): nat {
    if pc.ReleasingIo? then pc.nr else 0
  }

  function Held(worker: Worker): seq<nat> {
    if worker.Holding? then [worker.w] else []
  }

  /** Requests are of one token each, and are granted in the order they are made. */
  ghost predicate OneByOne(s: Sem.Sem) {
    && s.granted == Sem.FirstCalls(|s.granted|)
    && s.calls == |s.granted| + |s.waiting|
    && (forall i :: 0 <= i < |s.waiting| ==> s.waiting[i] == Sem.Entry(1, |s.granted| + i))
  }

  ghost predicate TokensOk(p: Pair) {
    && OneByOne(p.room) && OneByOne(p.io)
    && p.room.tokens + |CallsIn(p.cpu.tasks)| + |p.rings.call| + |Held(p.worker)| + |p.rings.result| + Owed(p.cpu.pc)
         + |p.rings.dropped| == QUEUE_SIZE
    && p.io.tokens + IosIn(p.cpu.tasks) + p.flying + OwedIo(p.cpu.pc) + p.failed == MAX_IO
    && |Popped(p.cpu.pc)| <= Owed(p.cpu.pc)
  }

  lemma WaitOneByOne(s: Sem.Sem)
    requires OneByOne(s)
    ensures var t := Sem.Step(s, Sem.Wait(1));
            && OneByOne(t) && s.granted + Granted(s, t) == t.granted && t.tokens + |Granted(s, t)| == s.tokens
  {
  }

  lemma ReleaseOneByOne(s: Sem.Sem, n: nat)
    requires OneByOne(s) && s.tokens + n <= QUEUE_SIZE
    ensures var t := Sem.Step(s, Sem.Release(Tokens(n)));
            && OneByOne(t) && s.granted + Granted(s, t) == t.granted && t.tokens + |Granted(s, t)| == s.tokens + n
  {
  }

  lemma {:induction false} CallsAppend(a: seq<Task>, b: seq<Task>)
    ensures CallsIn(a + b) == CallsIn(a) + CallsIn(b)
    ensures IosIn(a + b) == IosIn(a) + IosIn(b)
  {
    if a == [] {
      assert a + b == b;
    } else {
      CallsAppend(a[1..], b);
      assert (a + b)[0] == a[0] && (a + b)[1..] == a[1..] + b;
      hide Calls, StartIos;
    }
  }

  lemma {:induction false} CallsOfTasks(ws: seq<nat>)
    ensures CallsIn(Calls(ws)) == ws && IosIn(Calls(ws)) == 0
    ensures CallsIn(StartIos(ws)) == [] && IosIn(StartIos(ws)) == |ws|
  {
    if ws != [] {
      CallsOfTasks(ws[1..]);
      assert Calls(ws)[1..] == Calls(ws[1..]) && StartIos(ws)[1..] == StartIos(ws[1..]);
    }
  }

  lemma CallsFront(tasks: seq<Task>)
    requires tasks != []
    ensures CallsIn(tasks) == (if tasks[0].Call? then [tasks[0].w] else []) + CallsIn(tasks[1..])
    ensures IosIn(tasks) == (if tasks[0].StartIo? then 1 else 0) + IosIn(tasks[1..])
  {
  }

  lemma RoomedTasks(p: Pair, room: Sem.Sem, pc: Pc, active: bool)
    ensures var t := Roomed(p, room, pc, active).cpu.tasks;
            CallsIn(t) == CallsIn(p.cpu.tasks) + Granted(p.room, room) && IosIn(t) == IosIn(p.cpu.tasks)
  {
    CallsAppend(p.cpu.tasks, Calls(Granted(p.room, room)));
    CallsOfTasks(Granted(p.room, room));
  }

  lemma IoRoomedTasks(p: Pair, io: Sem.Sem, pc: Pc, active: bool)
    ensures var t := IoRoomed(p, io, pc, active).cpu.tasks;
            CallsIn(t) == CallsIn(p.cpu.tasks) && IosIn(t) == IosIn(p.cpu.tasks) + |Granted(p.io, io)|
  {
    CallsAppend(p.cpu.tasks, StartIos(Granted(p.io, io)));
    CallsOfTasks(Granted(p.io, io));
  }

  lemma ResultsKeepTokens(p: Pair)
    requires TokensOk(p)
    ensures TokensOk(ResultsStep(p))
  {
    if p.cpu.pc.Releasing? {
      var nr := p.cpu.pc.nr;
      ReleaseOneByOne(p.room, nr);
      RoomedTasks(p, Sem.Step(p.room, Sem.Release(Tokens(nr))), Events, p.cpu.active || nr > 0);
      hide CallsIn, IosIn, OneByOne, Sem.Step, Granted;
    } else {
      hide CallsIn, IosIn, OneByOne;
    }
  }

  lemma ReapKeepsTokens(p: Pair, n: nat)
    requires TokensOk(p)
    ensures TokensOk(ReapStep(p, n))
  {
    if p.cpu.pc.ReleasingIo? {
      var nr := p.cpu.pc.nr;
      ReleaseOneByOne(p.io, nr);
      IoRoomedTasks(p, Sem.Step(p.io, Sem.Release(Tokens(nr))), Decide, p.cpu.active || nr > 0);
      hide CallsIn, IosIn, OneByOne, Sem.Step, Granted;
    } else {
      hide CallsIn, IosIn, OneByOne;
    }
  }

  lemma CallKeepsTokens(p: Pair, i: nat, w: nat)
    requires TokensOk(p) && p.cpu.pc == Batch(i) && p.cpu.tasks != [] && p.cpu.tasks[0] == Call(w)
    ensures TokensOk(CallStep(p, i, w))
  {
  }

  lemma BatchKeepsTokens(p: Pair, i: nat, refused: bool)
    requires TokensOk(p) && p.cpu.pc == Batch(i)
    ensures TokensOk(BatchStep(p, i, refused))
  {
    if p.cpu.tasks != [] {
      CallsFront(p.cpu.tasks);
      if p.cpu.tasks[0].Call? {
        CallKeepsTokens(p, i, p.cpu.tasks[0].w);
      }
    }
    hide CallsIn, IosIn, OneByOne, CallStep;
  }

  lemma AdvanceKeepsTokens(p: Pair, choice: Choice)
    requires TokensOk(p)
    ensures TokensOk(AdvanceStep(p, choice))
  {
    hide OneByOne, ResultsStep, ReapStep, BatchStep, CallsIn, IosIn, Sem.Step, Granted;
    match choice {
      case Go =>
        match p.cpu.pc {
          case Events => ReapKeepsTokens(p, 0);
          case ReleasingIo(_) => ReapKeepsTokens(p, 0);
          case Batch(i) => BatchKeepsTokens(p, i, false);
          case _ => ResultsKeepTokens(p);
        }
      case Spawn => SpawnedCalls(p.cpu.tasks);
      case Submit =>
        SubmitKeepsTokens(p);
      case SubmitIo =>
        SubmitIoKeepsTokens(p);
      case Reap(n) => ReapKeepsTokens(p, n);
      case Refuse =>
        if p.cpu.pc.Batch? {
          BatchKeepsTokens(p, p.cpu.pc.i, true);
        }
      case Found =>
    }
  }

  lemma SpawnedCalls(tasks: seq<Task>)
    ensures CallsIn(tasks + [Other]) == CallsIn(tasks) && IosIn(tasks + [Other]) == IosIn(tasks)
  {
    CallsAppend(tasks, [Other]);
    assert CallsIn([Other]) == [] && IosIn([Other]) == 0;
  }

  lemma SubmitKeepsTokens(p: Pair)
    requires TokensOk(p)
    ensures TokensOk(Roomed(p, Sem.Step(p.room, Sem.Wait(1)), p.cpu.pc, p.cpu.active))
  {
    WaitOneByOne(p.room);
    RoomedTasks(p, Sem.Step(p.room, Sem.Wait(1)), p.cpu.pc, p.cpu.active);
    hide CallsIn, IosIn, OneByOne, Sem.Step, Granted;
  }

  lemma SubmitIoKeepsTokens(p: Pair)
    requires TokensOk(p)
    ensures TokensOk(IoRoomed(p, Sem.Step(p.io, Sem.Wait(1)), p.cpu.pc, p.cpu.active))
  {
    WaitOneByOne(p.io);
    IoRoomedTasks(p, Sem.Step(p.io, Sem.Wait(1)), p.cpu.pc, p.cpu.active);
    hide CallsIn, IosIn, OneByOne, Sem.Step, Granted;
  }

  lemma StepKeepsTokens(policy: Policy, p: Pair, a: Action)
    requires TokensOk(p)
    ensures TokensOk(Step(policy, p, a))
  {
    hide OneByOne, AdvanceStep, CallsIn, IosIn;
    if a.Advance? {
      AdvanceKeepsTokens(p, a.choice);
    }
  }

  /** Token conservation, under all interleavings: the free tokens, the granted calls not yet pushed, those in the
      call ring, held by the worker and in the result ring, those popped and not released, and those a ring had
      no room for, are 128 in all; and likewise for file operations. */
  lemma {:induction false} TokensAreConserved(policy: Policy, h: seq<Action>)
    ensures TokensOk(Run(policy, h))
  {
    if h == [] {
      assert Sem.FirstCalls(0) == [];
    } else {
      hide TokensOk, Step;
      TokensAreConserved(policy, h[..|h| - 1]);
      StepKeepsTokens(policy, Run(policy, h[..|h| - 1]), h[|h| - 1]);
    }
  }

  // ---------------------------------------------------------------------------------------------
  // The rings never overflow

  /** The push into the result ring, whose result respond_() ignores, never fails. */
  lemma ResultPushNeverFails(policy: Policy, h: seq<Action>, more: bool)
    requires Run(policy, h).worker.Holding?
    ensures var p := Run(policy, h);
            WorkStep(policy, p, more).rings == p.rings.(result := p.rings.result + [p.worker.w])
  {
    hide Run, OneByOne, CallsIn, IosIn;
    TokensAreConserved(policy, h);
  }

  /** The push into the call ring, whose result submit_() ignores, fails only when slots of items already handed
      over are still taken. */
  lemma CallPushFailsOnlyOverTakenSlots(policy: Policy, h: seq<Action>, i: nat, w: nat)
    requires var p := Run(policy, h); p.cpu.pc == Batch(i) && i < 8 && p.cpu.tasks != [] && p.cpu.tasks[0] == Call(w)
    ensures var p := Run(policy, h); var t := BatchStep(p, i, false);
            if |p.rings.call| + p.rings.handed < QUEUE_SIZE
            then t.rings == p.rings.(call := p.rings.call + [w])
            else t.rings == p.rings.(dropped := p.rings.dropped + [w]) && p.rings.handed > 0
  {
    hide Run, OneByOne, IosIn;
    TokensAreConserved(policy, h);
    CallsFront(Run(policy, h).cpu.tasks);
    hide CallsIn;
  }

  lemma AsHandedFreesSlots(p: Pair, a: Action)
    requires p.rings.handed == 0
    ensures Step(AsHanded, p, a).rings.handed == 0
  {
  }

  lemma OnlyFullRingsDrop(policy: Policy, p: Pair, a: Action)
    requires TokensOk(p) && p.rings.handed == 0
    ensures Step(policy, p, a).rings.dropped == p.rings.dropped
  {
  }

  /** When slots are freed as items are handed over, no call is ever dropped. */
  lemma {:induction false} RingsHaveRoom(h: seq<Action>)
    ensures Run(AsHanded, h).rings.handed == 0 && Run(AsHanded, h).rings.dropped == []
  {
    if h != [] {
      hide Step, TokensOk;
      var p := Run(AsHanded, h[..|h| - 1]);
      RingsHaveRoom(h[..|h| - 1]);
      TokensAreConserved(AsHanded, h[..|h| - 1]);
      AsHandedFreesSlots(p, h[|h| - 1]);
      OnlyFullRingsDrop(AsHanded, p, h[|h| - 1]);
    }
  }

  /** When slots are freed as items are handed over, nothing is dropped: the free tokens and the calls in flight,
      wherever they are, are 128 in all, and the call ring has room for every granted call. */
  lemma NothingIsDropped(h: seq<Action>)
    ensures var p := Run(AsHanded, h);
            && p.rings.dropped == []
            && p.room.tokens + |CallsIn(p.cpu.tasks)| + |p.rings.call| + |Held(p.worker)| + |p.rings.result|
                 + Owed(p.cpu.pc) == QUEUE_SIZE
            && |p.rings.call| + p.rings.handed + |CallsIn(p.cpu.tasks)| <= QUEUE_SIZE
  {
    hide Run, OneByOne, CallsIn, IosIn;
    RingsHaveRoom(h);
    TokensAreConserved(AsHanded, h);
  }

  // ---------------------------------------------------------------------------------------------
  // Calls are completed in the order they were submitted in

  /** The calls that have been granted room, from the one completed first to the one granted last. */
  ghost function Pipeline(p: Pair): seq<nat> {
    p.completed + Popped(p.cpu.pc) + p.rings.result + Held(p.worker) + p.rings.call + CallsIn(p.cpu.tasks)
  }

  /** Two states that differ in where a call is between the result ring and the end. */
  lemma PipelineFront(p: Pair, t: Pair)
    requires t.completed + Popped(t.cpu.pc) + t.rings.result == p.completed + Popped(p.cpu.pc) + p.rings.result
    requires t.worker == p.worker && t.rings.call == p.rings.call && t.cpu.tasks == p.cpu.tasks
    ensures Pipeline(t) == Pipeline(p)
  {
  }

  /** Requests that are granted enter at the end. */
  lemma PipelineGrows(p: Pair, t: Pair, granted: seq<nat>)
    requires t.completed == p.completed && Popped(t.cpu.pc) == Popped(p.cpu.pc) && t.rings == p.rings
    requires t.worker == p.worker && CallsIn(t.cpu.tasks) == CallsIn(p.cpu.tasks) + granted
    ensures Pipeline(t) == Pipeline(p) + granted
  {
  }

  lemma ResultsKeepPipeline(p: Pair)
    requires TokensOk(p) && Pipeline(p) == p.room.granted
    ensures Pipeline(ResultsStep(p)) == ResultsStep(p).room.granted
  {
    var t := ResultsStep(p);
    if p.cpu.pc.Releasing? {
      var nr := p.cpu.pc.nr;
      ReleaseOneByOne(p.room, nr);
      RoomedTasks(p, Sem.Step(p.room, Sem.Release(Tokens(nr))), Events, p.cpu.active || nr > 0);
      hide CallsIn, OneByOne, Sem.Step, Granted, Pipeline;
      PipelineGrows(p, t, Granted(p.room, t.room));
    } else {
      hide CallsIn, OneByOne, Pipeline, TokensOk;
      if p.cpu.pc.Results? {
        assert p.rings.result == t.cpu.pc.batch + t.rings.result;
      } else if p.cpu.pc.Completing? {
        assert t.completed + Popped(t.cpu.pc) == p.completed + Popped(p.cpu.pc);
      }
      PipelineFront(p, t);
    }
  }

  lemma BatchKeepsPipeline(p: Pair, i: nat, refused: bool)
    requires p.cpu.pc == Batch(i) && Pipeline(p) == p.room.granted
    requires BatchStep(p, i, refused).rings.dropped == p.rings.dropped
    ensures Pipeline(BatchStep(p, i, refused)) == BatchStep(p, i, refused).room.granted
  {
    if p.cpu.tasks != [] {
      CallsFront(p.cpu.tasks);
      hide CallsIn;
      if p.cpu.tasks[0].Call? && i < 8 {
        var t := BatchStep(p, i, refused);
        assert t.rings.call == p.rings.call + [p.cpu.tasks[0].w];
        assert t.rings.call + CallsIn(t.cpu.tasks) == p.rings.call + CallsIn(p.cpu.tasks);
        PipelineEnds(p, t);
      }
    }
  }

  /** Two states that differ in where a call is between the call ring and the task queue. */
  lemma PipelineEnds(p: Pair, t: Pair)
    requires t.completed == p.completed && Popped(t.cpu.pc) == Popped(p.cpu.pc) && t.rings.result == p.rings.result
    requires t.worker == p.worker && t.rings.call + CallsIn(t.cpu.tasks) == p.rings.call + CallsIn(p.cpu.tasks)
    ensures Pipeline(t) == Pipeline(p)
  {
    hide CallsIn;
    var front := p.completed + Popped(p.cpu.pc) + p.rings.result + Held(p.worker);
    assert Pipeline(p) == front + (p.rings.call + CallsIn(p.cpu.tasks));
    assert Pipeline(t) == front + (t.rings.call + CallsIn(t.cpu.tasks));
  }

  lemma WorkKeepsPipeline(policy: Policy, p: Pair, more: bool)
    requires Pipeline(p) == p.room.granted && WorkStep(policy, p, more).rings.dropped == p.rings.dropped
    ensures Pipeline(WorkStep(policy, p, more)) == WorkStep(policy, p, more).room.granted
  {
    hide CallsIn;
    var t := WorkStep(policy, p, more);
    if p.worker.Consuming? && p.worker.quota > 0 && p.rings.call != [] {
      assert p.rings.call == [p.rings.call[0]] + t.rings.call;
      assert t.rings.result + Held(t.worker) + t.rings.call == p.rings.result + Held(p.worker) + p.rings.call;
      PipelineMiddle(p, t);
    } else if p.worker.Holding? {
      assert t.rings.result + Held(t.worker) == p.rings.result + Held(p.worker);
      assert t.rings.result + Held(t.worker) + t.rings.call == p.rings.result + Held(p.worker) + p.rings.call;
      PipelineMiddle(p, t);
    }
  }

  lemma PipelineMiddle(p: Pair, t: Pair)
    requires t.completed == p.completed && t.cpu == p.cpu
    requires t.rings.result + Held(t.worker) + t.rings.call == p.rings.result + Held(p.worker) + p.rings.call
    ensures Pipeline(t) == Pipeline(p)
  {
    hide CallsIn, Held, Popped;
    var front, back := p.completed + Popped(p.cpu.pc), CallsIn(p.cpu.tasks);
    assert Pipeline(p) == front + (p.rings.result + Held(p.worker) + p.rings.call) + back;
    assert Pipeline(t) == front + (t.rings.result + Held(t.worker) + t.rings.call) + back;
  }

  lemma SubmitKeepsPipeline(p: Pair)
    requires TokensOk(p) && Pipeline(p) == p.room.granted
    ensures var t := Roomed(p, Sem.Step(p.room, Sem.Wait(1)), p.cpu.pc, p.cpu.active); Pipeline(t) == t.room.granted
  {
    WaitOneByOne(p.room);
    var t := Roomed(p, Sem.Step(p.room, Sem.Wait(1)), p.cpu.pc, p.cpu.active);
    RoomedTasks(p, Sem.Step(p.room, Sem.Wait(1)), p.cpu.pc, p.cpu.active);
    hide CallsIn, OneByOne, Sem.Step, Granted, Pipeline;
    PipelineGrows(p, t, Granted(p.room, t.room));
  }

  lemma AdvanceKeepsPipeline(p: Pair, choice: Choice)
    requires TokensOk(p) && Pipeline(p) == p.room.granted
    requires AdvanceStep(p, choice).rings.dropped == p.rings.dropped
    ensures Pipeline(AdvanceStep(p, choice)) == AdvanceStep(p, choice).room.granted
  {
    match choice {
      case Go =>
        match p.cpu.pc {
          case Batch(i) =>
            hide BatchStep, TokensOk, Pipeline;
            BatchKeepsPipeline(p, i, false);
          case ReleasingIo(nr) =>
            IoRoomedTasks(p, Sem.Step(p.io, Sem.Release(Tokens(nr))), Decide, p.cpu.active || nr > 0);
            hide CallsIn, TokensOk, Sem.Step;
          case _ =>
            ResultsKeepPipeline(p);
            hide ResultsStep, TokensOk, CallsIn;
        }
      case Spawn =>
        SpawnedCalls(p.cpu.tasks);
        hide CallsIn, TokensOk;
      case Submit =>
        SubmitKeepsPipeline(p);
        hide Pipeline, TokensOk, Roomed;
      case SubmitIo =>
        IoRoomedTasks(p, Sem.Step(p.io, Sem.Wait(1)), p.cpu.pc, p.cpu.active);
        hide CallsIn, TokensOk, Sem.Step;
      case Reap(n) =>
        if p.cpu.pc.Events? {
          hide CallsIn, TokensOk;
        }
      case Refuse =>
        if p.cpu.pc.Batch? {
          hide BatchStep, TokensOk, Pipeline;
          BatchKeepsPipeline(p, p.cpu.pc.i, true);
        }
      case Found =>
        hide CallsIn, TokensOk;
    }
  }

  lemma StepKeepsPipeline(policy: Policy, p: Pair, a: Action)
    requires TokensOk(p) && Pipeline(p) == p.room.granted
    requires Step(policy, p, a).rings.dropped == p.rings.dropped
    ensures Pipeline(Step(policy, p, a)) == Step(policy, p, a).room.granted
  {
    match a {
      case Advance(choice) =>
        hide AdvanceStep, TokensOk, Pipeline;
        AdvanceKeepsPipeline(p, choice);
      case Work(more) =>
        hide WorkStep, TokensOk, Pipeline;
        WorkKeepsPipeline(policy, p, more);
      case _ =>
        hide TokensOk, CallsIn;
    }
  }

  /** Submitted calls are completed once each, in the order of their submission: at any time they are, in this
      order, completed, popped, in the result ring, with the worker, in the call ring, granted room, or waiting. */
  lemma {:induction false} CompletedInOrder(h: seq<Action>)
    ensures var p := Run(AsHanded, h);
            && Pipeline(p) == p.room.granted == Sem.FirstCalls(|p.room.granted|)
            && (forall i :: 0 <= i < |p.room.waiting| ==> p.room.waiting[i].pr == |p.room.granted| + i)
            && p.room.calls == |p.room.granted| + |p.room.waiting|
  {
    TokensAreConserved(AsHanded, h);
    if h != [] {
      var g := h[..|h| - 1];
      CompletedInOrder(g);
      TokensAreConserved(AsHanded, g);
      NothingIsDropped(g);
      NothingIsDropped(h);
      hide Pipeline, Step;
      StepKeepsPipeline(AsHanded, Run(AsHanded, g), h[|h| - 1]);
    }
  }

  // ---------------------------------------------------------------------------------------------
  // No wakeup is lost, and nothing is left waiting

  predicate Resting(pc: Pc) {
    pc.Idle? || pc.Masked? || pc.Waiting? || pc.Parked?
  }

  predicate CpuOk(cpu: Cpu) {
    && (Resting(cpu.pc) ==> cpu.tasks == [] && !cpu.active)
    && (cpu.pc.Waiting? || cpu.pc.Parked? ==> !cpu.flag)
  }

  /** The CPU polls the result ring before it can park. */
  predicate WillPoll(cpu: Cpu) {
    match cpu.pc
    case Completing(_, nr) => nr > 0 || cpu.active
    case Releasing(nr) => nr > 0 || cpu.active
    case Events => cpu.active
    case ReleasingIo(_) => cpu.active
    case Decide => cpu.active
    case pc => !Resting(pc)
  }

  /** The worker is in a batch, at the end of which it wakes the CPU. */
  predicate WillWake(worker: Worker) {
    worker.Consuming? || worker.Holding? || worker.Waking?
  }

  /** Whoever consumes a ring is told about what is in it. */
  predicate Heard(p: Pair) {
    && (p.rings.call != [] ==> p.rings.counter > 0 || p.worker != Blocked || p.cpu.pc.Signalling?)
    && (p.rings.result != [] ==> WillWake(p.worker) || p.cpu.kernel || p.cpu.flag || WillPoll(p.cpu))
  }

  /** No request can be granted. */
  predicate Quiescent(s: Sem.Sem) {
    s.waiting == [] || s.waiting[0].tokens > s.tokens
  }

  /** Since the last release of each semaphore, nothing has been granted without leaving a task behind. */
  predicate QuietOk(p: Pair) {
    && (p.cpu.pc.Events? || p.cpu.pc.ReleasingIo? || p.cpu.pc.Decide? || Resting(p.cpu.pc) ==>
          p.cpu.tasks != [] || Quiescent(p.room))
    && (p.cpu.pc.Decide? || Resting(p.cpu.pc) ==> p.cpu.tasks != [] || Quiescent(p.io))
  }

  lemma ReleasingKeepsQuiet(p: Pair)
    requires p.cpu.pc.Releasing?
    ensures QuietOk(ResultsStep(p)) && CpuOk(ResultsStep(p).cpu)
  {
  }

  lemma ReleasingIoKeepsQuiet(p: Pair)
    requires p.cpu.pc.ReleasingIo? && QuietOk(p)
    ensures QuietOk(ReapStep(p, 0)) && CpuOk(ReapStep(p, 0).cpu)
  {
  }

  lemma BatchIsBusy(p: Pair, i: nat, refused: bool)
    ensures var pc := BatchStep(p, i, refused).cpu.pc; pc.Start? || pc.Batch? || pc.User? || pc.Signalling?
  {
  }

  lemma OthersKeepQuiet(p: Pair)
    requires CpuOk(p.cpu) && QuietOk(p) && !p.cpu.pc.Releasing? && !p.cpu.pc.ReleasingIo? && !p.cpu.pc.Batch?
    ensures CpuOk(GoStep(p).cpu) && QuietOk(GoStep(p))
  {
    hide Sem.Step, Granted, Calls, StartIos, Quiescent, BatchStep;
  }

  lemma GoKeepsQuiet(p: Pair)
    requires CpuOk(p.cpu) && QuietOk(p)
    ensures CpuOk(GoStep(p).cpu) && QuietOk(GoStep(p))
  {
    match p.cpu.pc {
      case Releasing(_) =>
        ReleasingKeepsQuiet(p);
        hide QuietOk, CpuOk, ResultsStep;
      case ReleasingIo(_) =>
        ReleasingIoKeepsQuiet(p);
        hide QuietOk, CpuOk, ReapStep;
      case Batch(i) =>
        BatchIsBusy(p, i, false);
        hide BatchStep, Quiescent;
      case _ =>
        hide GoStep, CpuOk, QuietOk;
        OthersKeepQuiet(p);
    }
  }

  lemma AdvanceKeepsQuiet(p: Pair, choice: Choice)
    requires CpuOk(p.cpu) && QuietOk(p)
    ensures CpuOk(AdvanceStep(p, choice).cpu) && QuietOk(AdvanceStep(p, choice))
  {
    hide GoStep, Sem.Step, Granted, Calls, StartIos, Quiescent;
    if choice.Go? {
      hide CpuOk, QuietOk;
      GoKeepsQuiet(p);
    }
  }

  lemma StepKeepsQuiet(policy: Policy, p: Pair, a: Action)
    requires CpuOk(p.cpu) && QuietOk(p)
    ensures CpuOk(Step(policy, p, a).cpu) && QuietOk(Step(policy, p, a))
  {
    hide AdvanceStep, Quiescent;
    if a.Advance? {
      AdvanceKeepsQuiet(p, a.choice);
    }
  }

  lemma ResultsKeepHeard(p: Pair)
    requires Heard(p)
    ensures Heard(ResultsStep(p))
  {
    hide Sem.Step, Granted, Calls;
  }

  lemma BatchKeepsHeard(p: Pair, refused: bool)
    requires Heard(p) && p.cpu.pc.Batch?
    ensures Heard(BatchStep(p, p.cpu.pc.i, refused))
  {
  }

  lemma GoKeepsHeard(p: Pair)
    requires Heard(p)
    ensures Heard(GoStep(p))
  {
    hide ResultsStep, BatchStep, Sem.Step, Granted, StartIos;
    ResultsKeepHeard(p);
    if p.cpu.pc.Batch? {
      BatchKeepsHeard(p, false);
    }
  }

  lemma AdvanceKeepsHeard(p: Pair, choice: Choice)
    requires Heard(p)
    ensures Heard(AdvanceStep(p, choice))
  {
    hide GoStep, BatchStep, Sem.Step, Granted, Calls, StartIos;
    if choice.Go? {
      GoKeepsHeard(p);
    } else if choice.Refuse? && p.cpu.pc.Batch? {
      BatchKeepsHeard(p, true);
    }
  }

  lemma StepKeepsHeard(policy: Policy, p: Pair, a: Action)
    requires Heard(p)
    ensures Heard(Step(policy, p, a))
  {
    hide AdvanceStep;
    if a.Advance? {
      AdvanceKeepsHeard(p, a.choice);
    }
  }

  lemma {:induction false} RunKeepsQuiet(policy: Policy, h: seq<Action>)
    ensures var p := Run(policy, h); CpuOk(p.cpu) && QuietOk(p) && Heard(p)
  {
    if h != [] {
      hide Step, CpuOk, QuietOk, Heard;
      RunKeepsQuiet(policy, h[..|h| - 1]);
      StepKeepsQuiet(policy, Run(policy, h[..|h| - 1]), h[|h| - 1]);
      StepKeepsHeard(policy, Run(policy, h[..|h| - 1]), h[|h| - 1]);
    }
  }

  /** No lost wakeup in either direction: while the worker is blocked on a zero counter, the call ring is empty
      or the CPU is between its push and its signal; while the CPU sleeps with no signal pending, the result
      ring is empty or the worker has yet to wake it for the batch it is in. */
  lemma NoLostWakeup(policy: Policy, h: seq<Action>)
    ensures var p := Run(policy, h);
            && (p.worker.Blocked? && p.rings.counter == 0 ==> p.rings.call == [] || p.cpu.pc.Signalling?)
            && (p.cpu.pc.Parked? && !p.cpu.kernel ==> p.rings.result == [] || WillWake(p.worker))
  {
    hide Run, QuietOk;
    RunKeepsQuiet(policy, h);
  }

  /** Idle means quiescent semaphores: when the CPU has decided to park, no waiting request fits the free tokens
      of either semaphore. */
  lemma IdleIsQuiescent(policy: Policy, h: seq<Action>)
    requires Resting(Run(policy, h).cpu.pc)
    ensures Quiescent(Run(policy, h).room) && Quiescent(Run(policy, h).io)
  {
    hide Run, Heard, Quiescent;
    RunKeepsQuiet(policy, h);
  }

  /** When both threads sleep for good, every call ever submitted has been completed, in order, and all tokens
      are back. */
  lemma SleepingPairIsDone(h: seq<Action>)
    requires var p := Run(AsHanded, h);
             p.cpu.pc.Parked? && !p.cpu.kernel && p.worker.Blocked? && p.rings.counter == 0
    ensures var p := Run(AsHanded, h);
            && p.completed == Sem.FirstCalls(p.room.calls) && p.room.waiting == [] && p.room.tokens == QUEUE_SIZE
            && (p.flying == 0 && p.failed < MAX_IO ==> p.io.waiting == [])
  {
    hide Run;
    var p := Run(AsHanded, h);
    RunKeepsQuiet(AsHanded, h);
    TokensAreConserved(AsHanded, h);
    NothingIsDropped(h);
    CompletedInOrder(h);
    assert p.cpu.tasks == [] && CallsIn(p.cpu.tasks) == [] && IosIn(p.cpu.tasks) == 0;
    assert p.rings.call == [] && p.rings.result == [];
    hide CallsIn, IosIn;
  }
}
