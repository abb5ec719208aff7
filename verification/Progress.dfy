/** Progress: the CPUs can only do a bounded amount of work on what they are given, in any order of steps; then they
    all sleep. */
module Progress {
  import opened CrossCpu
  import opened Lifecycles
  import opened Deadlocks
  import opened Sums
  import Spsc = SpscQueues

  /** A step that is due to nothing from outside: the next step of a CPU, a handler's future being resolved, or the
      delivery of a pending signal.  In the middle of a flush a CPU has no choice but to go on. */
  predicate Internal(s: System, a: Action) {
    a.Deliver?
    || (a.Advance? && (a.choice.Go? || a.choice.Resolve? || (a.c < |s.cpus| && s.cpus[a.c].sub != Quiet)))
  }

  // ---------------------------------------------------------------------------------------------
  // The work a CPU has left

  /** More than the steps of a CPU from one pass through its pollers to the next, n CPUs in all. */
  function Round(n: nat): nat {
    20 + 12 * n
  }

  /** The peers from j on. */
  function Peers(n: nat, j: nat): nat {
    if j < n then n - j else 0
  }

  /** How far the CPU is from falling asleep, if nothing happens; a task that was run means another round. */
  function Distance(n: nat, pc: Pc): nat {
    match pc
    case Batch(i) => BatchDistance(n, i)
    case User(FromBatch(i)) => BatchDistance(n, i) + 1
    case Returning => Round(n) - 1
    case Start => Round(n) - 2
    case Load => Round(n) - 3
    case Clear => Round(n) - 4
    case Handlers => Round(n) - 5
    case Queues(j, turn) =>
      var base := 14 + 12 * Peers(n, j);
      (match turn
       case FlushTx => base
       case PollRx => base - 2
       case FlushRx => base - 4
       case PollTx => base - 6)
    case Completing(j, _) => 11 + 12 * Peers(n, j)
    case User(FromPoll(j, _)) => 7 + 12 * Peers(n, j)
    case Processing(j, _) => 6 + 12 * Peers(n, j)
    case Others => 5
    case Decide => 4
    case Idle => 3
    case Masked => 2
    case Waiting => 1
    case Parked => 0
    case Aborted => 0
  }

  function BatchDistance(n: nat, i: nat): nat {
    if i == 0 then Round(n) + 1 else 3 * Round(n) + if i < 8 then 2 * (8 - i) else 0
  }

  predicate InBatchLoop(pc: Pc) {
    pc.Batch? || (pc.User? && pc.caller.FromBatch?)
  }

  /** About to look at the noted signals. */
  predicate AboutToLook(pc: Pc) {
    pc.Returning? || pc.Start? || pc.Load? || pc.Clear?
  }

  /** What keeps the CPU from falling asleep at the end of this round: activity, tasks, and signals. */
  function Urges(n: nat, cpu: Cpu): nat {
    (if cpu.active && !InBatchLoop(cpu.pc) && !cpu.pc.Start? && !cpu.pc.Returning? then 2 * Round(n) else 0)
    + (if cpu.tasks != [] && !InBatchLoop(cpu.pc) then 2 * Round(n) else 0)
    + (if cpu.flag || cpu.pc.Clear? then if AboutToLook(cpu.pc) then 2 * Round(n) else 4 * Round(n) else 0)
    + (if cpu.kernel then Signal(n) else 0)
  }

  /** The work that a pending signal makes. */
  function Signal(n: nat): nat {
    6 * Round(n) + 1
  }

  function SubWork(n: nat, sub: Sub): nat {
    match sub
    case Quiet => 0
    case Flushing(_, moved) => if moved then Signal(n) + 2 * Round(n) + 2 else 1
    case Alerting(_) => Signal(n) + 1
  }

  /** The work that the tasks of user code make. */
  function UserWork(n: nat, tasks: seq<Task>): nat {
    if tasks == [] then 0 else (if tasks[0].Other? then 4 * Round(n) else 0) + UserWork(n, tasks[1..])
  }

  function CpuWork(n: nat, cpu: Cpu): nat {
    Distance(n, cpu.pc) + SubWork(n, cpu.sub) + Urges(n, cpu) + UserWork(n, cpu.tasks)
  }

  function CpusWork(n: nat, cpus: seq<Cpu>): nat {
    if cpus == [] then 0 else CpuWork(n, cpus[0]) + CpusWork(n, cpus[1..])
  }

  // ---------------------------------------------------------------------------------------------
  // The work there is about items

  /** How many stages an item has before it. */
  function StagesLeft(st: Stage): nat {
    9 - Rank(st)
  }

  /** More than the work of the CPUs can grow by when an item goes to its next stage. */
  function StageWork(n: nat): nat {
    10 * Round(n)
  }

  ghost function AllStagesLeft(stage: map<Item, Stage>): nat {
    SumOver<Item, Stage>(stage, StagesLeft)
  }

  function Times(a: nat, b: nat): nat {
    if b == 0 then 0 else a + Times(a, b - 1)
  }

  /** A bound on the steps that can still be made without anything from outside. */
  ghost function Work(s: System): nat {
    CpusWork(|s.cpus|, s.cpus) + Times(StageWork(|s.cpus|), AllStagesLeft(s.book.stage))
  }

  lemma {:induction false} OneCpu(n: nat, cpus: seq<Cpu>, c: nat, cpu: Cpu)
    requires c < |cpus|
    ensures CpusWork(n, cpus[c := cpu]) + CpuWork(n, cpus[c]) == CpusWork(n, cpus) + CpuWork(n, cpu)
  {
    hide CpuWork;
    if c == 0 {
      assert cpus[0 := cpu][1..] == cpus[1..];
    } else {
      OneCpu(n, cpus[1..], c - 1, cpu);
      assert cpus[c := cpu][1..] == cpus[1..][c - 1 := cpu];
    }
  }

  lemma {:induction false} UserWorkAppend(n: nat, tasks: seq<Task>, t: Task)
    ensures UserWork(n, tasks + [t]) == UserWork(n, tasks) + if t.Other? then 4 * Round(n) else 0
  {
    if tasks == [] {
      assert tasks + [t] == [t];
    } else {
      UserWorkAppend(n, tasks[1..], t);
      assert (tasks + [t])[1..] == tasks[1..] + [t];
    }
  }

  // ---------------------------------------------------------------------------------------------
  // Steps

  /** An item has gone on, and none has come or gone. */
  ghost predicate Shifts(book: Ledger, after: Ledger) {
    after.stage.Keys == book.stage.Keys && after.stage != book.stage
  }

  /** The CPUs have less work left, or an item has gone on. */
  ghost predicate Pays(s: System, t: System) {
    && |t.cpus| == |s.cpus|
    && if t.book.stage == s.book.stage then CpusWork(|s.cpus|, t.cpus) < CpusWork(|s.cpus|, s.cpus)
       else Shifts(s.book, t.book) && CpusWork(|s.cpus|, t.cpus) < CpusWork(|s.cpus|, s.cpus) + StageWork(|s.cpus|)
  }

  /** The same for a step that changes one CPU. */
  lemma OnePays(s: System, t: System, c: nat)
    requires c < |s.cpus| && |t.cpus| == |s.cpus| && t.cpus == s.cpus[c := t.cpus[c]]
    requires var n := |s.cpus|;
             if t.book.stage == s.book.stage then CpuWork(n, t.cpus[c]) < CpuWork(n, s.cpus[c])
             else Shifts(s.book, t.book) && CpuWork(n, t.cpus[c]) < CpuWork(n, s.cpus[c]) + StageWork(n)
    ensures Pays(s, t)
  {
    OneCpu(|s.cpus|, s.cpus, c, t.cpus[c]);
    hide CpuWork, CpusWork, Shifts;
  }

  /** Noting another stage for an item that has one. */
  lemma NotedShifts(book: Ledger, y: Item, was: Stage, after: Ledger, st: Stage)
    requires At(book, y, was) && st != was && after.stage == book.stage[y := st]
    ensures Shifts(book, after)
  {
    assert after.stage[y] != book.stage[y];
  }

  // What the steps cost the CPU that makes them.

  lemma FlushCosts(n: nat, cpu: Cpu, k: Channel, moved: bool)
    requires cpu.sub == Flushing(k, moved)
    ensures CpuWork(n, cpu.(sub := Flushing(k, true))) < CpuWork(n, cpu) + StageWork(n)
    ensures CpuWork(n, AfterFlush(cpu, k, moved)) < CpuWork(n, cpu)
  {
    hide Distance, UserWork;
  }

  lemma PopCosts(n: nat, cpu: Cpu, k: Channel, batch: seq<Item>)
    requires cpu.pc == Queues(Producer(k), if k.Request? then PollTx else PollRx) && Producer(k) < n
    ensures CpuWork(n, cpu.(pc := Popped(k, batch))) < CpuWork(n, cpu)
    ensures CpuWork(n, cpu.(pc := Popped(k, batch), active := true)) < CpuWork(n, cpu) + StageWork(n)
  {
    hide UserWork, SubWork;
  }

  lemma PassCosts(n: nat, cpu: Cpu, j: nat, turn: Turn)
    requires cpu.pc == Queues(j, turn)
    ensures j >= n ==> CpuWork(n, cpu.(pc := CrossCpu.Others)) < CpuWork(n, cpu)
    ensures j < n ==> CpuWork(n, cpu.(pc := Queues(j + 1, FlushTx))) < CpuWork(n, cpu)
  {
    hide UserWork, SubWork;
  }

  lemma TurnCosts(n: nat, cpu: Cpu, j: nat, turn: Turn, k: Channel)
    requires cpu.pc == Queues(j, turn) && cpu.sub == Quiet
    ensures turn == FlushTx ==> CpuWork(n, cpu.(pc := Queues(j, PollRx), sub := Flushing(k, false))) < CpuWork(n, cpu)
    ensures turn == FlushRx ==> CpuWork(n, cpu.(pc := Queues(j, PollTx), sub := Flushing(k, false))) < CpuWork(n, cpu)
  {
    hide UserWork;
  }

  lemma CompleteCosts(n: nat, cpu: Cpu, j: nat, batch: seq<Item>, rest: seq<Item>)
    requires cpu.pc == Completing(j, batch)
    ensures CpuWork(n, cpu.(pc := Queues(j, FlushRx))) < CpuWork(n, cpu)
    ensures CpuWork(n, cpu.(pc := Completing(j, rest))) < CpuWork(n, cpu) + StageWork(n)
  {
    hide UserWork, SubWork;
  }

  lemma ProcessCosts(n: nat, cpu: Cpu, j: nat, batch: seq<Item>, rest: seq<Item>)
    requires cpu.pc == Processing(j, batch) && j < n
    ensures CpuWork(n, cpu.(pc := Queues(j + 1, FlushTx))) < CpuWork(n, cpu)
    ensures CpuWork(n, cpu.(pc := User(FromPoll(j, rest)))) < CpuWork(n, cpu) + StageWork(n)
  {
    hide UserWork, SubWork;
  }

  lemma BatchCosts(n: nat, cpu: Cpu, i: nat)
    requires cpu.pc == Batch(i) && cpu.sub == Quiet
    ensures i >= 8 || cpu.tasks == [] ==> CpuWork(n, cpu.(pc := Start)) < CpuWork(n, cpu)
    ensures i < 8 && cpu.tasks != [] && cpu.tasks[0].Other? ==>
              CpuWork(n, cpu.(pc := User(FromBatch(i + 1)), tasks := cpu.tasks[1..])) < CpuWork(n, cpu)
  {
    hide SubWork;
  }

  lemma TaskCosts(n: nat, cpu: Cpu, i: nat, tasks: seq<Task>, sub: Sub)
    requires cpu.pc == Batch(i) && cpu.sub == Quiet && i < 8 && (sub.Flushing? ==> !sub.moved) && !sub.Alerting?
    requires UserWork(n, tasks) == UserWork(n, cpu.tasks)
    ensures CpuWork(n, cpu.(pc := Batch(i + 1), tasks := tasks, sub := sub)) < CpuWork(n, cpu) + StageWork(n)
  {
    hide UserWork;
  }

  lemma ResolveCosts(n: nat, cpu: Cpu, tasks: seq<Task>)
    requires UserWork(n, tasks) == UserWork(n, cpu.tasks)
    ensures CpuWork(n, cpu.(tasks := tasks)) < CpuWork(n, cpu) + StageWork(n)
  {
    hide UserWork, SubWork, Distance;
  }

  lemma DeliverCosts(n: nat, cpu: Cpu)
    requires cpu.kernel
    ensures CpuWork(n, cpu.(kernel := false, flag := true)) < CpuWork(n, cpu)
    ensures cpu.pc.Parked? ==> CpuWork(n, cpu.(kernel := false, flag := true, pc := Returning)) < CpuWork(n, cpu)
  {
    hide UserWork, SubWork;
  }

  lemma MovedShifts(s: System, c: nat, k: Channel, moved: bool)
    requires c < |s.cpus| && ChannelOk(s.net, k)
    requires |Ring(s.net, k)| < Spsc.RING_CAPACITY && Buffer(s.net, k) != [] && ItemOk(s, Buffer(s.net, k)[0])
    ensures Shifts(s.book, FlushStep(s, c, k, moved).book)
  {
    var y := Buffer(s.net, k)[0];
    assert y in Buffer(s.net, k);
    InPlace(s, y);
    hide ChannelOk, ItemOk, Shifts;
    NotedShifts(s.book, y, InBuffer(k), FlushStep(s, c, k, moved).book, InRing(k));
  }

  lemma FlushPays(s: System, c: nat, k: Channel, moved: bool)
    requires c < |s.cpus| && Inv(s) && s.cpus[c].sub == Flushing(k, moved)
    ensures Pays(s, FlushStep(s, c, k, moved))
  {
    if |Ring(s.net, k)| < Spsc.RING_CAPACITY && Buffer(s.net, k) != [] {
      assert ChannelOk(s.net, k) && ItemOk(s, Buffer(s.net, k)[0]);
      hide Inv, ChannelOk, ItemOk, FlushStep;
      MovedShifts(s, c, k, moved);
    }
    FlushCosts(|s.cpus|, s.cpus[c], k, moved);
    hide Inv, Shifts, CpuWork, AfterFlush;
    OnePays(s, FlushStep(s, c, k, moved), c);
  }

  lemma AlertCosts(n: nat, cpu: Cpu, k: Channel)
    requires cpu.sub == Alerting(k)
    ensures CpuWork(n, cpu.(sub := Quiet)) + Signal(n) < CpuWork(n, cpu)
  {
    hide UserWork, Distance;
  }

  lemma SignalCosts(n: nat, cpu: Cpu)
    ensures CpuWork(n, cpu.(kernel := true)) <= CpuWork(n, cpu) + Signal(n)
  {
    hide UserWork, Distance, SubWork;
  }

  lemma AlertPays(s: System, c: nat, k: Channel)
    requires c < |s.cpus| && s.cpus[c].sub == Alerting(k)
    ensures Pays(s, AlertStep(s, c, k))
  {
    var n, d, quiet := |s.cpus|, Consumer(k), s.cpus[c].(sub := Quiet);
    var u := s.cpus[c := quiet];
    AlertCosts(n, s.cpus[c], k);
    OneCpu(n, s.cpus, c, quiet);
    if d < n {
      SignalCosts(n, u[d]);
      OneCpu(n, u, d, u[d].(kernel := true));
    }
    hide CpuWork, CpusWork, Signal;
  }

  lemma PopShifts(s: System, c: nat, k: Channel)
    requires c < |s.cpus| && ChannelOk(s.net, k) && Ring(s.net, k) != [] && ItemOk(s, Ring(s.net, k)[0])
    ensures Shifts(s.book, PopStep(s, c, k).book)
  {
    var t, ring := PopStep(s, c, k), Ring(s.net, k);
    assert ring[0] in ring;
    InPlace(s, ring[0]);
    hide ChannelOk, ItemOk;
    assert ring[..Spsc.Min(Spsc.BATCH, |ring|)][0] == ring[0];
    assert t.book.stage[ring[0]] != s.book.stage[ring[0]];
  }

  lemma PopPays(s: System, k: Channel)
    requires Inv(s) && Consumer(k) < |s.cpus| && Producer(k) < |s.cpus|
    requires s.cpus[Consumer(k)].pc == Queues(Producer(k), if k.Request? then PollTx else PollRx)
    ensures Pays(s, PopStep(s, Consumer(k), k))
  {
    var c, ring := Consumer(k), Ring(s.net, k);
    var t := PopStep(s, c, k);
    if ring != [] {
      assert ChannelOk(s.net, k) && ItemOk(s, ring[0]);
      hide Inv, ItemOk, ChannelOk, PopStep;
      PopShifts(s, c, k);
    } else {
      hide Inv;
      assert t.book.stage == s.book.stage;
    }
    PopCosts(|s.cpus|, s.cpus[c], k, ring[..Spsc.Min(Spsc.BATCH, |ring|)]);
    hide Inv, Shifts, CpuWork, Popped, MovedTo;
    OnePays(s, t, c);
  }

  lemma QueuesPay(s: System, c: nat, j: nat, turn: Turn)
    requires c < |s.cpus| && Inv(s) && s.cpus[c].sub == Quiet && s.cpus[c].pc == Queues(j, turn)
    ensures Pays(s, QueuesStep(s, c, j, turn))
  {
    PassCosts(|s.cpus|, s.cpus[c], j, turn);
    TurnCosts(|s.cpus|, s.cpus[c], j, turn, if turn == FlushTx then Request(c, j) else Response(j, c));
    hide Inv, PopStep, Shifts, CpuWork;
    if j < |s.cpus| && j != c && turn.PollRx? {
      PopPays(s, Response(c, j));
    } else if j < |s.cpus| && j != c && turn.PollTx? {
      PopPays(s, Request(j, c));
    } else {
      OnePays(s, QueuesStep(s, c, j, turn), c);
    }
  }

  lemma CompletePays(s: System, c: nat, j: nat, batch: seq<Item>)
    requires c < |s.cpus| && Inv(s) && s.cpus[c].pc == Completing(j, batch)
    ensures Pays(s, CompleteStep(s, c, j, batch))
  {
    var t := CompleteStep(s, c, j, batch);
    if batch != [] {
      ResultIsThere(s, c);
      assert CpuOk(s, c) && ItemOk(s, batch[0]);
      assert batch[0] in batch && batch[0].from == c;
      InPlace(s, batch[0]);
      hide Inv, ItemOk, CpuOk;
      NotedShifts(s.book, batch[0], Collected, t.book, Completed);
    }
    CompleteCosts(|s.cpus|, s.cpus[c], j, batch, if batch == [] then [] else batch[1..]);
    hide Inv, Shifts, CpuWork;
    OnePays(s, t, c);
  }

  lemma ProcessPays(s: System, c: nat, j: nat, batch: seq<Item>)
    requires c < |s.cpus| && Inv(s) && s.cpus[c].pc == Processing(j, batch)
    ensures Pays(s, ProcessStep(s, c, j, batch))
  {
    var t := ProcessStep(s, c, j, batch);
    assert CpuOk(s, c) && j < |s.cpus|;
    if batch != [] {
      assert ItemOk(s, batch[0]);
      FrontFetched(s, c, j, batch, batch[0]);
      hide Inv, ItemOk, CpuOk;
      NotedShifts(s.book, batch[0], Fetched, t.book, Running);
    }
    ProcessCosts(|s.cpus|, s.cpus[c], j, batch, if batch == [] then [] else batch[1..]);
    hide Inv, Shifts, CpuWork;
    OnePays(s, t, c);
  }

  lemma TaskShifts(s: System, c: nat, i: nat)
    requires c < |s.cpus| && CpuOk(s, c) && s.cpus[c].pc == Batch(i) && i < 8
    requires s.cpus[c].tasks != [] && !s.cpus[c].tasks[0].Other? && ItemOk(s, s.cpus[c].tasks[0].x)
    ensures Shifts(s.book, BatchStep(s, c, i).book)
  {
    var t, task := BatchStep(s, c, i), s.cpus[c].tasks[0];
    FrontTask(s, c, task.x);
    hide ItemOk, CpuOk, Shifts;
    if task.Store? {
      NotedShifts(s.book, task.x, Storing, t.book, Responding);
    } else {
      NotedShifts(s.book, task.x, Responding, t.book, Answered);
    }
  }

  lemma TaskStepCosts(s: System, c: nat, i: nat)
    requires c < |s.cpus| && s.cpus[c].sub == Quiet && s.cpus[c].pc == Batch(i) && i < 8
    requires s.cpus[c].tasks != [] && !s.cpus[c].tasks[0].Other?
    ensures CpuWork(|s.cpus|, BatchStep(s, c, i).cpus[c]) < CpuWork(|s.cpus|, s.cpus[c]) + StageWork(|s.cpus|)
  {
    var cpu, next := s.cpus[c], BatchStep(s, c, i).cpus[c];
    UserWorkAppend(|s.cpus|, cpu.tasks[1..], Respond(cpu.tasks[0].x));
    TaskCosts(|s.cpus|, cpu, i, next.tasks, next.sub);
    hide CpuWork, UserWork;
  }

  lemma BatchPays(s: System, c: nat, i: nat)
    requires c < |s.cpus| && Inv(s) && s.cpus[c].sub == Quiet && s.cpus[c].pc == Batch(i)
    ensures Pays(s, BatchStep(s, c, i))
  {
    var cpu := s.cpus[c];
    if i < 8 && cpu.tasks != [] && !cpu.tasks[0].Other? {
      assert CpuOk(s, c) && ItemOk(s, cpu.tasks[0].x);
      hide Inv, ItemOk, CpuOk, Shifts, CpuWork, BatchStep;
      TaskShifts(s, c, i);
      TaskStepCosts(s, c, i);
    }
    BatchCosts(|s.cpus|, cpu, i);
    hide Inv, Shifts, CpuWork;
    OnePays(s, BatchStep(s, c, i), c);
  }

  lemma AwakeCosts(n: nat, cpu: Cpu)
    requires cpu.sub == Quiet && (AboutToLook(cpu.pc) || cpu.pc.Handlers?)
    ensures CpuWork(n, Alone(cpu)) < CpuWork(n, cpu)
  {
    hide UserWork, SubWork;
  }

  lemma DrowsyCosts(n: nat, cpu: Cpu)
    requires cpu.sub == Quiet && (cpu.pc.Others? || cpu.pc.Decide? || cpu.pc.User?)
    ensures CpuWork(n, Alone(cpu)) < CpuWork(n, cpu)
  {
    hide UserWork, SubWork;
  }

  lemma RestingCosts(n: nat, cpu: Cpu)
    requires cpu.sub == Quiet && Resting(cpu.pc) && !cpu.pc.Parked?
    ensures CpuWork(n, Alone(cpu)) < CpuWork(n, cpu)
  {
    hide UserWork, SubWork;
  }

  lemma GoPays(s: System, c: nat)
    requires c < |s.cpus| && Inv(s) && s.cpus[c].sub == Quiet && s.cpus[c].pc != Parked
    ensures Pays(s, GoStep(s, c))
  {
    assert CpuOk(s, c);
    var pc := s.cpus[c].pc;
    hide Inv, QueuesStep, CompleteStep, ProcessStep, BatchStep, Alone, CpuWork, Pays;
    if pc.Queues? {
      QueuesPay(s, c, pc.j, pc.turn);
    } else if pc.Completing? {
      CompletePays(s, c, pc.j, pc.batch);
    } else if pc.Processing? {
      ProcessPays(s, c, pc.j, pc.batch);
    } else if pc.Batch? {
      BatchPays(s, c, pc.i);
    } else {
      if AboutToLook(pc) || pc.Handlers? {
        AwakeCosts(|s.cpus|, s.cpus[c]);
      } else if Resting(pc) {
        RestingCosts(|s.cpus|, s.cpus[c]);
      } else {
        DrowsyCosts(|s.cpus|, s.cpus[c]);
      }
      OnePays(s, GoStep(s, c), c);
    }
  }

  lemma ResolvePays(s: System, c: nat, x: Item, v: int)
    requires c < |s.cpus| && s.cpus[c].sub == Quiet
    ensures var t := AdvanceStep(s, c, Choice.Resolve(x, v)); t == s || Pays(s, t)
  {
    var cpu, t := s.cpus[c], AdvanceStep(s, c, Choice.Resolve(x, v));
    if Effectful(cpu.pc) && x.to == c && At(s.book, x, Running) {
      UserWorkAppend(|s.cpus|, cpu.tasks, Store(x));
      NotedShifts(s.book, x, Running, t.book, Storing);
      ResolveCosts(|s.cpus|, cpu, t.cpus[c].tasks);
      hide Shifts, CpuWork, UserWork;
      OnePays(s, t, c);
    }
  }

  lemma DeliverPays(s: System, c: nat)
    requires c < |s.cpus|
    ensures var t := Step(s, Deliver(c)); t == s || Pays(s, t)
  {
    var cpu, t := s.cpus[c], Step(s, Deliver(c));
    if cpu.kernel && !SignalsBlocked(cpu.pc) {
      DeliverCosts(|s.cpus|, cpu);
      hide CpuWork;
      OnePays(s, t, c);
    }
  }

  /** Every internal step that changes anything pays for itself. */
  lemma StepPays(s: System, a: Action)
    requires Inv(s) && Internal(s, a)
    ensures Step(s, a) == s || Pays(s, Step(s, a))
  {
    hide Inv, GoStep, FlushStep, AlertStep, Pays;
    if a.c < |s.cpus| {
      var cpu := s.cpus[a.c];
      if a.Deliver? {
        DeliverPays(s, a.c);
      } else if cpu.sub.Flushing? {
        FlushPays(s, a.c, cpu.sub.k, cpu.sub.moved);
      } else if cpu.sub.Alerting? {
        AlertPays(s, a.c, cpu.sub.k);
      } else if a.choice.Resolve? {
        ResolvePays(s, a.c, a.choice.x, a.choice.v);
      } else if cpu.pc.Parked? {
        ParkedStays(s, a.c);
      } else {
        GoPays(s, a.c);
      }
    }
  }

  lemma ParkedStays(s: System, c: nat)
    requires c < |s.cpus| && s.cpus[c].pc.Parked?
    ensures GoStep(s, c) == s
  {
  }

  // ---------------------------------------------------------------------------------------------
  // Work only comes from outside

  lemma {:induction false} TimesGrows(a: nat, b: nat, c: nat)
    requires b < c
    ensures Times(a, b) + a <= Times(a, c)
  {
    if b + 1 < c {
      TimesGrows(a, b, c - 1);
    }
  }

  /** When an item goes on, there are fewer stages left. */
  lemma StagesShrink(book: Ledger, after: Ledger)
    requires Shifts(book, after) && forall x :: Progresses(book, after, x)
    ensures AllStagesLeft(after.stage) < AllStagesLeft(book.stage)
  {
    forall x <- book.stage ensures StagesLeft(after.stage[x]) <= StagesLeft(book.stage[x]) {
      assert Progresses(book, after, x);
    }
    var x :| x in book.stage && after.stage[x] != book.stage[x];
    assert Progresses(book, after, x);
    SumShrinksAt<Item, Stage>(book.stage, after.stage, StagesLeft, x);
  }

  /** Every internal step that changes anything leaves less work. */
  lemma InternalStepsShrinkWork(s: System, a: Action)
    requires Inv(s) && Internal(s, a) && Step(s, a) != s
    ensures |Step(s, a).cpus| == |s.cpus| && Work(Step(s, a)) < Work(s)
  {
    hide Inv, Step, Progresses, CpusWork, AllStagesLeft, StageWork, Shifts, Internal;
    var t, d := Step(s, a), StageWork(|s.cpus|);
    StepPays(s, a);
    if t.book.stage != s.book.stage {
      forall x ensures Progresses(s.book, t.book, x) {
        StepProgresses(s, a, x);
      }
      StagesShrink(s.book, t.book);
      TimesGrows(d, AllStagesLeft(t.book.stage), AllStagesLeft(s.book.stage));
    }
  }

  /** More than the work that anything from outside makes: an item, a task, a signal, a spurious wakeup, or
      something that another poller has found. */
  function InputWork(n: nat): nat {
    Times(StageWork(n), 10)
  }

  lemma {:induction false} TimesSum(a: nat, b: nat, c: nat)
    ensures Times(a, b + c) == Times(a, b) + Times(a, c)
  {
    if c > 0 {
      TimesSum(a, b, c - 1);
    }
  }

  lemma InputCosts(n: nat, cpu: Cpu, tasks: seq<Task>)
    requires UserWork(n, tasks) == UserWork(n, cpu.tasks) + 4 * Round(n)
    ensures CpuWork(n, cpu.(tasks := tasks)) <= CpuWork(n, cpu) + StageWork(n)
    ensures CpuWork(n, cpu.(active := true)) <= CpuWork(n, cpu) + StageWork(n)
    ensures CpuWork(n, cpu.(kernel := true)) <= CpuWork(n, cpu) + StageWork(n)
  {
    hide UserWork, Distance, SubWork;
  }

  lemma SpuriousCosts(n: nat, cpu: Cpu)
    requires cpu.pc.Parked?
    ensures CpuWork(n, cpu.(pc := Returning)) <= CpuWork(n, cpu) + StageWork(n)
  {
    hide UserWork, SubWork;
  }

  lemma SubmitCosts(n: nat, cpu: Cpu, sub: Sub)
    requires cpu.sub == Quiet && (sub == Quiet || (sub.Flushing? && !sub.moved))
    ensures CpuWork(n, cpu.(sub := sub)) <= CpuWork(n, cpu) + StageWork(n)
  {
    hide UserWork, Distance;
  }

  /** A step from outside that submits nothing changes one CPU, and not by much. */
  lemma OtherInputsCost(s: System, a: Action)
    requires !Internal(s, a) && !(a.Advance? && a.choice.Submit?) && a.c < |s.cpus|
    requires a.Advance? ==> s.cpus[a.c].sub == Quiet
    ensures var t, n := Step(s, a), |s.cpus|;
            && |t.cpus| == n && t.book == s.book && t.cpus == s.cpus[a.c := t.cpus[a.c]]
            && CpuWork(n, t.cpus[a.c]) <= CpuWork(n, s.cpus[a.c]) + StageWork(n)
  {
    var cpu, n := s.cpus[a.c], |s.cpus|;
    UserWorkAppend(n, cpu.tasks, Task.Other);
    InputCosts(n, cpu, cpu.tasks + [Task.Other]);
    if cpu.pc.Parked? {
      SpuriousCosts(n, cpu);
    }
    hide CpuWork, UserWork, Round;
  }

  /** An item that is submitted. */
  lemma SubmitsCost(s: System, c: nat, to: nat, id: nat)
    requires c < |s.cpus| && s.cpus[c].sub == Quiet
    ensures var t := AdvanceStep(s, c, Choice.Submit(to, id));
            |t.cpus| == |s.cpus| && Work(t) <= Work(s) + InputWork(|s.cpus|)
  {
    var t, n, x := AdvanceStep(s, c, Choice.Submit(to, id)), |s.cpus|, Item(c, to, id);
    if t != s {
      var next := t.cpus[c];
      assert t.cpus == s.cpus[c := next] && next == s.cpus[c].(sub := next.sub);
      assert t.book.stage == s.book.stage[x := Unsent] && x !in s.book.stage;
      SubmitCosts(n, s.cpus[c], next.sub);
      hide CpuWork, CpusWork, StageWork, AdvanceStep;
      OneCpu(n, s.cpus, c, next);
      NewStages(s.book.stage, x, StageWork(n));
      assert InputWork(n) == StageWork(n) + Times(StageWork(n), 9);
      hide Times, InputWork, AllStagesLeft;
    }
  }

  lemma NewStages(stage: map<Item, Stage>, x: Item, a: nat)
    requires x !in stage
    ensures Times(a, AllStagesLeft(stage[x := Unsent])) == Times(a, AllStagesLeft(stage)) + Times(a, 9)
  {
    SumUpdate<Item, Stage>(stage, StagesLeft, x, Unsent);
    TimesSum(a, AllStagesLeft(stage), 9);
  }

  lemma InputsCost(s: System, a: Action)
    requires !Internal(s, a)
    ensures |Step(s, a).cpus| == |s.cpus| && Work(Step(s, a)) <= Work(s) + InputWork(|s.cpus|)
  {
    var t, n := Step(s, a), |s.cpus|;
    if a.c < n {
      if a.Advance? && a.choice.Submit? {
        hide Work, InputWork;
        SubmitsCost(s, a.c, a.choice.to, a.choice.id);
      } else {
        assert InputWork(n) == StageWork(n) + Times(StageWork(n), 9);
        hide CpuWork, CpusWork, StageWork, Step, InputWork, Times;
        OtherInputsCost(s, a);
        OneCpu(n, s.cpus, a.c, t.cpus[a.c]);
      }
    }
  }

  // ---------------------------------------------------------------------------------------------
  // Runs

  /** The internal steps of a run that changed something. */
  ghost function Effective(n: nat, h: seq<Action>): nat {
    if h == [] then 0
    else
      var s, a := Run(n, h[..|h| - 1]), h[|h| - 1];
      Effective(n, h[..|h| - 1]) + if Internal(s, a) && Step(s, a) != s then 1 else 0
  }

  /** What came from outside during a run. */
  ghost function Inputs(n: nat, h: seq<Action>): nat {
    if h == [] then 0
    else
      Inputs(n, h[..|h| - 1]) + if Internal(Run(n, h[..|h| - 1]), h[|h| - 1]) then 0 else 1
  }

  lemma StepWork(s: System, a: Action)
    requires Inv(s)
    ensures var t := Step(s, a);
            (if Internal(s, a) && t != s then 1 else 0) + Work(t)
              <= Work(s) + if Internal(s, a) then 0 else InputWork(|s.cpus|)
  {
    hide Work, InputWork, Inv, Internal, Step;
    if !Internal(s, a) {
      InputsCost(s, a);
    } else if Step(s, a) != s {
      InternalStepsShrinkWork(s, a);
    }
  }

  /** The CPUs work no more than they are given to: whatever the interleaving, the steps that did anything, and the
      work that is left, are no more than what the CPUs began with and what came from outside account for. */
  lemma {:induction false} WorkIsLinear(n: nat, h: seq<Action>)
    ensures Effective(n, h) + Work(Run(n, h)) <= Work(Init(n)) + Times(InputWork(n), Inputs(n, h))
  {
    hide Work, InputWork, Inv, Internal, Step, Init;
    if h != [] {
      var g := h[..|h| - 1];
      WorkIsLinear(n, g);
      RunKeepsInv(n, g);
      StepWork(Run(n, g), h[|h| - 1]);
    }
  }

  /** Nothing changes any more unless something comes from outside. */
  ghost predicate Stuck(s: System) {
    forall a :: Internal(s, a) ==> Step(s, a) == s
  }

  /** A CPU that is not asleep has something to do. */
  lemma AwakeMoves(s: System, c: nat)
    requires Inv(s) && c < |s.cpus| && (!s.cpus[c].pc.Parked? || s.cpus[c].kernel)
    ensures exists a :: Internal(s, a) && Step(s, a) != s
  {
    var a := if s.cpus[c].pc.Parked? then Deliver(c) else Advance(c, Choice.Go);
    var cpu := s.cpus[c];
    assert Internal(s, a);
    hide Inv, GoStep, FlushStep, AlertStep;
    if !cpu.pc.Parked? {
      if cpu.sub.Flushing? {
        FlushPays(s, c, cpu.sub.k, cpu.sub.moved);
      } else if cpu.sub.Alerting? {
        AlertPays(s, c, cpu.sub.k);
      } else {
        GoPays(s, c);
      }
    }
  }

  /** The CPUs are stuck exactly when they are all asleep with no signal pending. */
  lemma StuckIsAsleep(s: System)
    requires Inv(s)
    ensures Stuck(s) <==> AllAsleep(s)
  {
    if AllAsleep(s) {
      forall a | Internal(s, a) ensures Step(s, a) == s {
        AsleepStays(s, a);
      }
    } else {
      var c: nat :| c < |s.cpus| && !(s.cpus[c].pc.Parked? && !s.cpus[c].kernel);
      AwakeMoves(s, c);
    }
  }

  lemma AsleepStays(s: System, a: Action)
    requires Inv(s) && AllAsleep(s) && Internal(s, a)
    ensures Step(s, a) == s
  {
    if a.c < |s.cpus| {
      assert CpuOk(s, a.c) && s.cpus[a.c].pc.Parked?;
      ParkedStays(s, a.c);
      hide Inv, GoStep, FlushStep, AlertStep, PushStep;
    }
  }

  /** Internal steps bring no new items, and finish no item twice. */
  lemma InternalStaysWithin(s: System, a: Action, m: nat)
    requires Inv(s) && Internal(s, a) && Within(s, m)
    ensures Within(Step(s, a), m)
  {
    var t := Step(s, a);
    StepPays(s, a);
    assert t.book.stage.Keys == s.book.stage.Keys;
    forall b: nat, c: nat ensures |Outstanding(t, b, c)| <= m {
      forall x <- Outstanding(t, b, c) ensures x in Outstanding(s, b, c) {
        StepProgresses(s, a, x);
      }
      SubsetIsSmaller(Outstanding(t, b, c), Outstanding(s, b, c));
      assert |Outstanding(s, b, c)| <= m;
    }
  }

  /** A sequence of internal steps each of which changes something. */
  ghost predicate Effects(s: System, e: seq<Action>)
    decreases |e|
  {
    e == [] || (Internal(s, e[0]) && Step(s, e[0]) != s && Effects(Step(s, e[0]), e[1..]))
  }

  lemma RunOn(n: nat, h: seq<Action>, a: Action)
    ensures Run(n, h + [a]) == Step(Run(n, h), a)
  {
    assert (h + [a])[..|h|] == h;
  }

  /** What internal steps keep on the way. */
  lemma {:induction false} EffectsEnd(n: nat, h: seq<Action>, e: seq<Action>, m: nat)
    requires Effects(Run(n, h), e)
    ensures |e| + Work(Run(n, h + e)) <= Work(Run(n, h))
    ensures AlwaysWithin(n, h, m) ==> AlwaysWithin(n, h + e, m)
    decreases |e|
  {
    if e == [] {
      assert h + e == h;
    } else {
      var s, a := Run(n, h), e[0];
      assert h + e == (h + [a]) + e[1..];
      RunOn(n, h, a);
      RunKeepsInv(n, h);
      InternalStepsShrinkWork(s, a);
      if AlwaysWithin(n, h, m) {
        InternalStaysWithin(s, a, m);
        assert (h + [a])[..|h|] == h;
      }
      hide Work, Inv, Step, Internal, Within, Run;
      EffectsEnd(n, h + [a], e[1..], m);
    }
  }

  /** Progress.  From any point of a run, if nothing more comes from outside, the CPUs fall asleep: in whatever order
      they make their steps, they can make no more than there is work, and as long as they are not all asleep they
      can make another.  When they are, and never more items were outstanding than a ring can hold, every channel is
      empty, and every item is completed, or waits for its handler's future. */
  lemma EverythingGetsDone(n: nat, h: seq<Action>, e: seq<Action>)
    requires Effects(Run(n, h), e)
    ensures |e| <= Work(Run(n, h))
    ensures Stuck(Run(n, h + e)) <==> AllAsleep(Run(n, h + e))
    ensures AlwaysBounded(n, h) && Stuck(Run(n, h + e)) ==>
              var s := Run(n, h + e);
              && Drained(s)
              && forall x <- s.book.stage :: s.book.stage[x] == Running || s.book.stage[x] == Completed
  {
    EffectsEnd(n, h, e, Spsc.RING_CAPACITY);
    RunKeepsInv(n, h + e);
    hide Inv, Work, Effects, Run, AlwaysWithin, Drained, AllAsleep, Stuck;
    StuckIsAsleep(Run(n, h + e));
    if AlwaysBounded(n, h) && AllAsleep(Run(n, h + e)) {
      OnlyHandlersAreWaitedFor(n, h + e, Item(0, 0, 0));
      forall x <- Run(n, h + e).book.stage
        ensures Run(n, h + e).book.stage[x] == Running || Run(n, h + e).book.stage[x] == Completed
      {
        OnlyHandlersAreWaitedFor(n, h + e, x);
      }
    }
  }

  lemma NextMove(n: nat, h: seq<Action>) returns (a: Action)
    requires !AllAsleep(Run(n, h))
    ensures Internal(Run(n, h), a) && Step(Run(n, h), a) != Run(n, h)
    ensures Run(n, h + [a]) == Step(Run(n, h), a) && Work(Run(n, h + [a])) < Work(Run(n, h))
  {
    hide Inv, Work, Internal, Step, AllAsleep, Run;
    RunKeepsInv(n, h);
    StuckIsAsleep(Run(n, h));
    a :| Internal(Run(n, h), a) && Step(Run(n, h), a) != Run(n, h);
    InternalStepsShrinkWork(Run(n, h), a);
    RunOn(n, h, a);
  }

  /** There is such an end of every run. */
  lemma {:induction false} SleepIsReached(n: nat, h: seq<Action>) returns (e: seq<Action>)
    ensures Effects(Run(n, h), e) && AllAsleep(Run(n, h + e))
    decreases Work(Run(n, h))
  {
    hide Work, Run, Step, Internal, AllAsleep;
    if AllAsleep(Run(n, h)) {
      e := [];
      assert h + e == h;
    } else {
      var a := NextMove(n, h);
      var f := SleepIsReached(n, h + [a]);
      e := [a] + f;
      assert e[1..] == f && h + e == (h + [a]) + f;
    }
  }
}
