/** CPUs do not fall asleep over unfinished messages, as long as a ring can hold what is outstanding. */
module Deadlocks {
  import opened CrossCpu
  import opened Lifecycles
  import opened Wakeups
  import Spsc = SpscQueues

  /** The items that CPU a has submitted to CPU b and that are not completed. */
  ghost function Outstanding(s: System, a: nat, b: nat): set<Item> {
    set x | x in s.book.stage && x.from == a && x.to == b && s.book.stage[x] != Completed
  }

  /** No ordered pair of CPUs has more than m outstanding items. */
  ghost predicate Within(s: System, m: nat) {
    forall a: nat, b: nat :: |Outstanding(s, a, b)| <= m
  }

  ghost predicate AlwaysWithin(n: nat, h: seq<Action>, m: nat) {
    Within(Run(n, h), m) && (h != [] ==> AlwaysWithin(n, h[..|h| - 1], m))
  }

  /** No more items are outstanding than a ring can hold. */
  ghost predicate Bounded(s: System) {
    Within(s, Spsc.RING_CAPACITY)
  }

  ghost predicate AlwaysBounded(n: nat, h: seq<Action>) {
    AlwaysWithin(n, h, Spsc.RING_CAPACITY)
  }

  /** The CPU has flushed k, an outgoing channel, in this round, has found nothing to do so far, and will not
      touch k before the next round. */
  predicate PastFlush(cpu: Cpu, k: Channel) {
    var peer := Consumer(k);
    match cpu.pc
    case Queues(j, turn) =>
      && !cpu.active && (cpu.sub != Quiet ==> cpu.sub.k != k)
      && (j > peer || (j == peer && (turn.PollTx? || (k.Request? && !turn.FlushTx?))))
    case Others => !cpu.active
    case Decide => !cpu.active
    case pc => Resting(pc)
  }

  /** Nothing is left behind in the buffer of k. */
  ghost predicate Clean(s: System, k: Channel) {
    Proper(|s.cpus|, k) && PastFlush(s.cpus[Producer(k)], k) ==> Buffer(s.net, k) == []
  }

  lemma {:induction false} NoDuplicates(q: seq<Item>, all: set<Item>)
    requires forall x <- q :: x in all && multiset(q)[x] == 1
    ensures |q| <= |all|
  {
    if q != [] {
      assert q == [q[0]] + q[1..];
      NoDuplicates(q[1..], all - {q[0]});
    }
  }

  lemma {:induction false} SubsetIsSmaller<T>(a: set<T>, b: set<T>)
    requires a <= b
    ensures |a| <= |b|
  {
    if a != {} {
      var x :| x in a;
      SubsetIsSmaller(a - {x}, b - {x});
    }
  }

  lemma QueuedAreOutstanding(s: System, k: Channel)
    requires ChannelOk(s.net, k) && forall x :: ItemOk(s, x)
    ensures |Buffer(s.net, k)| + |Ring(s.net, k)| <= |Outstanding(s, k.from, k.to)|
  {
    var q := Buffer(s.net, k) + Ring(s.net, k);
    forall x <- q ensures x in Outstanding(s, k.from, k.to) && multiset(q)[x] == 1 {
      assert ItemOk(s, x) && Routed(x, k) && HeldIn(s.net, s.book, k, x);
    }
    NoDuplicates(q, Outstanding(s, k.from, k.to));
  }

  // ---------------------------------------------------------------------------------------------
  // Every step keeps the channels clean

  /** A flush that moves nothing leaves nothing behind. */
  lemma FlushedIsEmpty(s: System, k: Channel)
    requires Inv(s) && Bounded(s)
    requires |Ring(s.net, k)| >= Spsc.RING_CAPACITY || Buffer(s.net, k) == []
    ensures Buffer(s.net, k) == []
  {
    assert ChannelOk(s.net, k);
    hide ItemOk;
    QueuedAreOutstanding(s, k);
    assert |Outstanding(s, k.from, k.to)| <= Spsc.RING_CAPACITY;
  }

  lemma AlonePastFlush(cpu: Cpu, k: Channel)
    requires PastFlush(Alone(cpu), k)
    ensures PastFlush(cpu, k)
  {
  }

  /** A step of CPU c that, where it is past flushing k, leaves k's buffer empty. */
  lemma LocalKeepsClean(s: System, t: System, c: nat, k: Channel)
    requires c < |s.cpus| && Clean(s, k) && |t.cpus| == |s.cpus|
    requires forall d | 0 <= d < |s.cpus| && d != c :: t.cpus[d] == s.cpus[d].(kernel := t.cpus[d].kernel)
    requires Proper(|s.cpus|, k) && c != Producer(k) ==> Buffer(t.net, k) == Buffer(s.net, k)
    requires Proper(|s.cpus|, k) && c == Producer(k) && PastFlush(t.cpus[c], k) ==>
               Buffer(t.net, k) == [] || (PastFlush(s.cpus[c], k) && Buffer(t.net, k) == Buffer(s.net, k))
    ensures Clean(t, k)
  {
  }

  lemma BusyIsNotPastFlush(cpu: Cpu, k: Channel)
    requires !Resting(cpu.pc)
    requires cpu.active || !(cpu.pc.Queues? || cpu.pc.Others? || cpu.pc.Decide?)
    ensures !PastFlush(cpu, k)
  {
  }

  lemma PushKeepsClean(s: System, c: nat, to: Channel, y: Item, st: Stage, pc: Pc, k: Channel)
    requires c < |s.cpus| && Clean(s, k) && Producer(to) == c && (pc.User? || pc.Batch?)
    ensures Clean(PushStep(s, c, to, y, st, pc), k)
  {
  }

  lemma AfterFlushPast(cpu: Cpu, at: Channel, moved: bool, k: Channel)
    requires cpu.sub == Flushing(at, moved) && PastFlush(AfterFlush(cpu, at, moved), k)
    requires cpu.pc.Queues? || cpu.pc.User? || cpu.pc.Batch?
    ensures (k == at && !moved) || (k != at && PastFlush(cpu, k))
  {
  }

  lemma FlushKeepsClean(s: System, c: nat, at: Channel, moved: bool, k: Channel)
    requires c < |s.cpus| && Inv(s) && Bounded(s) && Clean(s, k) && s.cpus[c].sub == Flushing(at, moved)
    ensures Clean(FlushStep(s, c, at, moved), k)
  {
    var t := FlushStep(s, c, at, moved);
    assert CpuOk(s, c);
    if |Ring(s.net, at)| < Spsc.RING_CAPACITY && Buffer(s.net, at) != [] {
      hide Inv, Bounded;
      MovingKeepsClean(s, c, at, moved, k);
    } else {
      FlushedIsEmpty(s, at);
      hide Inv, Bounded, AfterFlush, PastFlush;
      if PastFlush(t.cpus[c], k) {
        AfterFlushPast(s.cpus[c], at, moved, k);
      }
      LocalKeepsClean(s, t, c, k);
    }
  }

  lemma MovingKeepsClean(s: System, c: nat, at: Channel, moved: bool, k: Channel)
    requires c < |s.cpus| && CpuOk(s, c) && Clean(s, k) && s.cpus[c].sub == Flushing(at, moved)
    requires |Ring(s.net, at)| < Spsc.RING_CAPACITY && Buffer(s.net, at) != []
    ensures Clean(FlushStep(s, c, at, moved), k)
  {
  }

  lemma AlertKeepsClean(s: System, c: nat, at: Channel, k: Channel)
    requires c < |s.cpus| && CpuOk(s, c) && Clean(s, k) && s.cpus[c].sub == Alerting(at)
    ensures Clean(AlertStep(s, c, at), k)
  {
  }

  lemma PopKeepsClean(s: System, c: nat, at: Channel, k: Channel)
    requires c < |s.cpus| && Clean(s, k) && s.cpus[c].sub == Quiet && Proper(|s.cpus|, at) && Consumer(at) == c
    requires s.cpus[c].pc == Queues(Producer(at), if at.Request? then PollTx else PollRx)
    ensures Clean(PopStep(s, c, at), k)
  {
  }

  lemma QueuesKeepClean(s: System, c: nat, j: nat, turn: Turn, k: Channel)
    requires c < |s.cpus| && Clean(s, k) && s.cpus[c].sub == Quiet && s.cpus[c].pc == Queues(j, turn)
    ensures Clean(QueuesStep(s, c, j, turn), k)
  {
    hide PopStep;
    if j < |s.cpus| && j != c && turn.PollRx? {
      hide Clean;
      PopKeepsClean(s, c, Response(c, j), k);
    } else if j < |s.cpus| && j != c && turn.PollTx? {
      hide Clean;
      PopKeepsClean(s, c, Request(j, c), k);
    } else {
      var t := QueuesStep(s, c, j, turn);
      assert Proper(|s.cpus|, k) && c == Producer(k) && PastFlush(t.cpus[c], k) ==> PastFlush(s.cpus[c], k);
      hide PastFlush;
      LocalKeepsClean(s, t, c, k);
    }
  }

  lemma BatchKeepsClean(s: System, c: nat, i: nat, k: Channel)
    requires c < |s.cpus| && CpuOk(s, c) && Clean(s, k) && s.cpus[c].pc == Batch(i)
    ensures Clean(BatchStep(s, c, i), k)
  {
    var cpu := s.cpus[c];
    if i < 8 && cpu.tasks != [] && cpu.tasks[0].Respond? {
      assert cpu.tasks[0] in cpu.tasks && TaskOk(|s.cpus|, c, cpu.tasks[0]);
      var x, t := cpu.tasks[0].x, Put(s, c, cpu.(tasks := cpu.tasks[1..]));
      hide CpuOk, PushStep, PastFlush;
      TaskAside(s, c, t, k);
      PushKeepsClean(t, c, Response(x.from, x.to), x, Answered, Batch(i + 1), k);
    } else {
      var t := BatchStep(s, c, i);
      BusyIsNotPastFlush(t.cpus[c], k);
      hide PastFlush, CpuOk;
      LocalKeepsClean(s, t, c, k);
    }
  }

  /** Changing the task queue of a busy CPU. */
  lemma TaskAside(s: System, c: nat, t: System, k: Channel)
    requires c < |s.cpus| && Clean(s, k) && s.cpus[c].pc.Batch?
    requires c < |t.cpus| && t == Put(s, c, s.cpus[c].(tasks := t.cpus[c].tasks))
    ensures Clean(t, k)
  {
  }

  lemma CompleteKeepsClean(s: System, c: nat, j: nat, batch: seq<Item>, k: Channel)
    requires c < |s.cpus| && CpuOk(s, c) && Clean(s, k) && s.cpus[c].pc == Completing(j, batch)
    ensures Clean(CompleteStep(s, c, j, batch), k)
  {
  }

  lemma ProcessKeepsClean(s: System, c: nat, j: nat, batch: seq<Item>, k: Channel)
    requires c < |s.cpus| && CpuOk(s, c) && Clean(s, k) && s.cpus[c].pc == Processing(j, batch)
    ensures Clean(ProcessStep(s, c, j, batch), k)
  {
  }

  lemma GoKeepsClean(s: System, c: nat, k: Channel)
    requires c < |s.cpus| && CpuOk(s, c) && Clean(s, k) && s.cpus[c].sub == Quiet
    ensures Clean(GoStep(s, c), k)
  {
    hide QueuesStep, BatchStep, CompleteStep, ProcessStep, Alone, PastFlush, Clean, CpuOk;
    var t, pc := GoStep(s, c), s.cpus[c].pc;
    if pc.Queues? {
      QueuesKeepClean(s, c, pc.j, pc.turn, k);
    } else if pc.Batch? {
      BatchKeepsClean(s, c, pc.i, k);
    } else if pc.Completing? {
      CompleteKeepsClean(s, c, pc.j, pc.batch, k);
    } else if pc.Processing? {
      ProcessKeepsClean(s, c, pc.j, pc.batch, k);
    } else {
      if PastFlush(Alone(s.cpus[c]), k) {
        AlonePastFlush(s.cpus[c], k);
      }
      LocalKeepsClean(s, t, c, k);
    }
  }

  lemma ChoiceKeepsClean(s: System, c: nat, choice: Choice, k: Channel)
    requires c < |s.cpus| && CpuOk(s, c) && Clean(s, k) && s.cpus[c].sub == Quiet
    ensures Clean(AdvanceStep(s, c, choice), k)
  {
    hide GoStep, PushStep, PastFlush, Clean;
    var cpu, t := s.cpus[c], AdvanceStep(s, c, choice);
    match choice {
      case Go => GoKeepsClean(s, c, k);
      case Submit(to, id) =>
        if cpu.pc.User? {
          PushKeepsClean(s, c, Request(c, to), Item(c, to, id), Unsent, cpu.pc, k);
        }
      case _ =>
        EffectPastFlush(cpu, t.cpus[c], k);
        LocalKeepsClean(s, t, c, k);
    }
  }

  lemma EffectPastFlush(cpu: Cpu, next: Cpu, k: Channel)
    requires next.pc == cpu.pc && next.sub == cpu.sub && (cpu.active ==> next.active)
    ensures PastFlush(next, k) ==> PastFlush(cpu, k)
  {
  }

  lemma StepKeepsClean(s: System, a: Action, k: Channel)
    requires Inv(s) && Bounded(s) && Clean(s, k)
    ensures Clean(Step(s, a), k)
  {
    if a.c < |s.cpus| {
      assert CpuOk(s, a.c);
      hide Inv, Bounded, FlushStep, AlertStep, PastFlush, Clean, CpuOk;
      if a.Advance? {
        match s.cpus[a.c].sub {
          case Flushing(at, moved) => FlushKeepsClean(s, a.c, at, moved, k);
          case Alerting(at) => AlertKeepsClean(s, a.c, at, k);
          case Quiet => ChoiceKeepsClean(s, a.c, a.choice, k);
        }
      } else {
        var t := Step(s, a);
        SignalledPastFlush(s.cpus[a.c], t.cpus[a.c], k);
        LocalKeepsClean(s, t, a.c, k);
      }
    }
  }

  lemma SignalledPastFlush(cpu: Cpu, next: Cpu, k: Channel)
    requires next == cpu.(kernel := next.kernel, flag := next.flag) || next.pc == Returning
    ensures PastFlush(next, k) ==> PastFlush(cpu, k)
  {
  }

  lemma {:induction false} RunKeepsClean(n: nat, h: seq<Action>, k: Channel)
    requires AlwaysBounded(n, h)
    ensures Clean(Run(n, h), k)
  {
    if h != [] {
      var s := Run(n, h[..|h| - 1]);
      RunKeepsClean(n, h[..|h| - 1], k);
      RunKeepsInv(n, h[..|h| - 1]);
      assert Bounded(s);
      hide Bounded, Inv, Clean, Step;
      StepKeepsClean(s, h[|h| - 1], k);
    }
  }

  /** Nobody is awake, and nobody is going to be woken. */
  ghost predicate AllAsleep(s: System) {
    forall c: nat | c < |s.cpus| :: s.cpus[c].pc.Parked? && !s.cpus[c].kernel
  }

  /** All channels are empty. */
  ghost predicate Drained(s: System) {
    forall k | Proper(|s.cpus|, k) :: Buffer(s.net, k) == [] && Ring(s.net, k) == []
  }

  lemma AsleepMeansDrained(n: nat, h: seq<Action>, k: Channel)
    requires AlwaysBounded(n, h) && AllAsleep(Run(n, h)) && Proper(n, k)
    ensures Buffer(Run(n, h).net, k) == [] && Ring(Run(n, h).net, k) == []
  {
    var s := Run(n, h);
    RunKeepsInv(n, h);
    RunKeepsClean(n, h, k);
    NoLostWakeup(n, h, k);
    assert CpuOk(s, Producer(k)) && s.cpus[Producer(k)].pc.Parked? && s.cpus[Consumer(k)].pc.Parked?;
    hide Run, Inv, AlwaysBounded;
  }

  lemma AllDrained(n: nat, h: seq<Action>)
    requires AlwaysBounded(n, h) && AllAsleep(Run(n, h))
    ensures Drained(Run(n, h))
  {
    RunKeepsInv(n, h);
    hide Run, Inv, AlwaysBounded, AllAsleep;
    forall k | Proper(n, k) ensures Buffer(Run(n, h).net, k) == [] && Ring(Run(n, h).net, k) == [] {
      AsleepMeansDrained(n, h, k);
    }
  }

  /** Deadlock freedom: if no ordered pair of CPUs ever has more than 1024 outstanding items, then when all
      CPUs sleep with no signal pending, all buffers and rings are empty, and every item that is not completed
      is waiting for its handler's future. */
  lemma OnlyHandlersAreWaitedFor(n: nat, h: seq<Action>, x: Item)
    requires AlwaysBounded(n, h) && AllAsleep(Run(n, h))
    ensures var s := Run(n, h);
            && Drained(s)
            && (x in s.book.stage ==> s.book.stage[x] == Running || s.book.stage[x] == Completed)
  {
    AllDrained(n, h);
    RunKeepsInv(n, h);
    var s := Run(n, h);
    assert ItemOk(s, x);
    hide Run, AlwaysBounded, ItemOk;
    if x in s.book.stage {
      assert CpuOk(s, x.to) && s.cpus[x.to].pc.Parked? && s.cpus[x.from].pc.Parked?;
      assert Proper(n, Request(x.from, x.to)) && Proper(n, Response(x.from, x.to));
      hide Inv;
      ExactlyOnePlace(n, h, x, s.book.stage[x]);
    }
  }
}
