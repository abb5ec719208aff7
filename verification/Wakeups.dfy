/** No wakeup between CPUs is lost. */
module Wakeups {
  import opened CrossCpu
  import opened Lifecycles
  import Spsc = SpscQueues

  /** The producer of k has put something into its ring and not signalled yet. */
  predicate Signalling(cpu: Cpu, k: Channel) {
    cpu.sub == Flushing(k, true) || cpu.sub == Alerting(k)
  }

  /** The CPU polls k, its incoming channel, before it can park. */
  predicate WillPoll(cpu: Cpu, k: Channel) {
    var peer := Producer(k);
    match cpu.pc
    case Queues(j, turn) =>
      cpu.active || j < peer || (j == peer && (k.Request? || turn.FlushTx? || turn.PollRx?))
    case Others => cpu.active
    case Decide => cpu.active
    case pc => !Resting(pc)
  }

  /** The CPU will look at k, its incoming channel, before it sleeps for good. */
  predicate Attentive(cpu: Cpu, k: Channel) {
    cpu.kernel || cpu.flag || WillPoll(cpu, k)
  }

  /** Whoever consumes k is told about what is in its ring. */
  ghost predicate Heard(s: System, k: Channel) {
    Proper(|s.cpus|, k) && Ring(s.net, k) != [] ==>
      Signalling(s.cpus[Producer(k)], k) || Attentive(s.cpus[Consumer(k)], k)
  }

  lemma BusyIsAttentive(cpu: Cpu, k: Channel)
    requires !Resting(cpu.pc) && (cpu.active || !(cpu.pc.Queues? || cpu.pc.Others? || cpu.pc.Decide?))
    ensures Attentive(cpu, k)
  {
  }

  lemma PushKeepsHeard(s: System, c: nat, to: Channel, x: Item, st: Stage, pc: Pc, k: Channel)
    requires c < |s.cpus| && Heard(s, k)
    requires s.cpus[c].sub == Quiet && (pc.User? || pc.Batch?)
    ensures Heard(PushStep(s, c, to, x, st, pc), k)
  {
  }

  lemma FlushKeepsHeard(s: System, c: nat, at: Channel, moved: bool, k: Channel)
    requires c < |s.cpus| && SubOk(|s.cpus|, c, s.cpus[c]) && Heard(s, k) && s.cpus[c].sub == Flushing(at, moved)
    ensures Heard(FlushStep(s, c, at, moved), k)
  {
  }

  lemma AlertKeepsHeard(s: System, c: nat, k: Channel)
    requires c < |s.cpus| && SubOk(|s.cpus|, c, s.cpus[c]) && Heard(s, k) && s.cpus[c].sub.Alerting?
    ensures Heard(AlertStep(s, c, s.cpus[c].sub.k), k)
  {
  }

  lemma QueuesKeepHeard(s: System, c: nat, j: nat, turn: Turn, k: Channel)
    requires c < |s.cpus| && SubOk(|s.cpus|, c, s.cpus[c]) && Heard(s, k) && s.cpus[c].sub == Quiet
    requires s.cpus[c].pc == Queues(j, turn)
    ensures Heard(QueuesStep(s, c, j, turn), k)
  {
  }

  lemma PutKeepsHeard(s: System, c: nat, t: System, k: Channel)
    requires c < |s.cpus| == |t.cpus| && t.cpus == s.cpus[c := t.cpus[c]] && t.net == s.net
    requires Heard(s, k) && s.cpus[c].sub == Quiet == t.cpus[c].sub
    requires Attentive(s.cpus[c], k) ==> Attentive(t.cpus[c], k)
    ensures Heard(t, k)
  {
  }

  lemma CompleteKeepsHeard(s: System, c: nat, j: nat, batch: seq<Item>, k: Channel)
    requires c < |s.cpus| && PcOk(|s.cpus|, c, s.cpus[c]) && Heard(s, k) && s.cpus[c].sub == Quiet
    requires s.cpus[c].pc == Completing(j, batch)
    ensures Heard(CompleteStep(s, c, j, batch), k)
  {
  }

  lemma ProcessKeepsHeard(s: System, c: nat, j: nat, batch: seq<Item>, k: Channel)
    requires c < |s.cpus| && PcOk(|s.cpus|, c, s.cpus[c]) && Heard(s, k) && s.cpus[c].sub == Quiet
    requires s.cpus[c].pc == Processing(j, batch)
    ensures Heard(ProcessStep(s, c, j, batch), k)
  {
  }

  lemma BatchKeepsHeard(s: System, c: nat, i: nat, k: Channel)
    requires c < |s.cpus| && Heard(s, k) && s.cpus[c].sub == Quiet
    requires s.cpus[c].pc == Batch(i)
    ensures Heard(BatchStep(s, c, i), k)
  {
    hide PushStep, Heard, Attentive;
    var cpu := s.cpus[c];
    if i < 8 && cpu.tasks != [] && cpu.tasks[0].Respond? {
      var x, t := cpu.tasks[0].x, Put(s, c, cpu.(tasks := cpu.tasks[1..]));
      BusyIsAttentive(t.cpus[c], k);
      PutKeepsHeard(s, c, t, k);
      PushKeepsHeard(t, c, Response(x.from, x.to), x, Answered, Batch(i + 1), k);
    } else {
      BusyIsAttentive(BatchStep(s, c, i).cpus[c], k);
      PutKeepsHeard(s, c, BatchStep(s, c, i), k);
    }
  }

  lemma AloneStaysAttentive(cpu: Cpu, k: Channel)
    ensures Alone(cpu).sub == cpu.sub
    ensures Attentive(cpu, k) ==> Attentive(Alone(cpu), k)
  {
  }

  lemma GoKeepsHeard(s: System, c: nat, k: Channel)
    requires c < |s.cpus| && SubOk(|s.cpus|, c, s.cpus[c]) && PcOk(|s.cpus|, c, s.cpus[c])
    requires Heard(s, k) && s.cpus[c].sub == Quiet
    ensures Heard(GoStep(s, c), k)
  {
    hide QueuesStep, BatchStep, Alone, Attentive, Heard;
    match s.cpus[c].pc {
      case Queues(j, turn) => QueuesKeepHeard(s, c, j, turn, k);
      case Batch(i) => BatchKeepsHeard(s, c, i, k);
      case Completing(j, batch) => CompleteKeepsHeard(s, c, j, batch, k);
      case Processing(j, batch) => ProcessKeepsHeard(s, c, j, batch, k);
      case _ =>
        AloneStaysAttentive(s.cpus[c], k);
        PutKeepsHeard(s, c, Put(s, c, Alone(s.cpus[c])), k);
    }
  }

  lemma AdvanceKeepsHeard(s: System, c: nat, choice: Choice, k: Channel)
    requires c < |s.cpus| && SubOk(|s.cpus|, c, s.cpus[c]) && PcOk(|s.cpus|, c, s.cpus[c]) && Heard(s, k)
    ensures Heard(AdvanceStep(s, c, choice), k)
  {
    hide GoStep, FlushStep, AlertStep, PushStep;
    match s.cpus[c].sub {
      case Flushing(at, moved) => FlushKeepsHeard(s, c, at, moved, k);
      case Alerting(_) => AlertKeepsHeard(s, c, k);
      case Quiet =>
        match choice {
          case Go => GoKeepsHeard(s, c, k);
          case Submit(to, id) =>
            if s.cpus[c].pc.User? {
              PushKeepsHeard(s, c, Request(c, to), Item(c, to, id), Unsent, s.cpus[c].pc, k);
            }
          case _ =>
        }
    }
  }

  lemma StepKeepsHeard(s: System, a: Action, k: Channel)
    requires a.c < |s.cpus| ==> SubOk(|s.cpus|, a.c, s.cpus[a.c]) && PcOk(|s.cpus|, a.c, s.cpus[a.c])
    requires Heard(s, k)
    ensures Heard(Step(s, a), k)
  {
    hide AdvanceStep;
    if a.c < |s.cpus| && a.Advance? {
      AdvanceKeepsHeard(s, a.c, a.choice, k);
    }
  }

  /** In every reachable state, whoever consumes a channel is told about what is in its ring. */
  lemma {:induction false} RunKeepsHeard(n: nat, h: seq<Action>, k: Channel)
    ensures Heard(Run(n, h), k)
  {
    if h != [] {
      var s, a := Run(n, h[..|h| - 1]), h[|h| - 1];
      RunKeepsHeard(n, h[..|h| - 1], k);
      RunKeepsInv(n, h[..|h| - 1]);
      assert a.c < |s.cpus| ==> CpuOk(s, a.c);
      hide Heard, Step, ChannelOk, ItemOk;
      StepKeepsHeard(s, a, k);
    }
  }

  /** No lost wakeup: when a CPU sleeps with no signal pending, every ring into it is empty, except those
      whose producer is still between its push and its signal. */
  lemma NoLostWakeup(n: nat, h: seq<Action>, k: Channel)
    requires Proper(n, k)
    ensures var s := Run(n, h);
            && |s.cpus| == n
            && (s.cpus[Consumer(k)].pc.Parked? && !s.cpus[Consumer(k)].kernel ==>
                  Ring(s.net, k) == [] || Signalling(s.cpus[Producer(k)], k))
  {
    hide Run;
    RunKeepsInv(n, h);
    RunKeepsHeard(n, h, k);
    assert CpuOk(Run(n, h), Consumer(k));
    hide ItemOk, ChannelOk;
  }
}
