/** What a CPU does from one pass through its pollers to the next: its tasks are a queue, it runs at most eight of
    them, and it goes to rest only after a round in which it found nothing to do. */
module Rounds {
  import opened CrossCpu
  import opened Lifecycles
  import opened Sequences
  import Spsc = SpscQueues

  // ---------------------------------------------------------------------------------------------
  // Tasks

  /** Where the loop over the tasks is: how many it has run. */
  ghost predicate Counted(pc: Pc) {
    match pc
    case Batch(i) => i <= 8
    case User(FromBatch(i)) => 1 <= i <= 8
    case _ => true
  }

  lemma QueuesKeepTasks(s: System, c: nat, j: nat, turn: Turn)
    requires c < |s.cpus|
    ensures var t := QueuesStep(s, c, j, turn);
            |t.cpus| == |s.cpus| && t.cpus[c].tasks == s.cpus[c].tasks && Counted(t.cpus[c].pc)
  {
    hide MovedTo, Ring, Buffer;
  }

  lemma BatchesKeepTasks(s: System, c: nat, j: nat, batch: seq<Item>)
    requires c < |s.cpus|
    ensures var t := CompleteStep(s, c, j, batch);
            |t.cpus| == |s.cpus| && t.cpus[c].tasks == s.cpus[c].tasks && Counted(t.cpus[c].pc)
    ensures var t := ProcessStep(s, c, j, batch);
            |t.cpus| == |s.cpus| && t.cpus[c].tasks == s.cpus[c].tasks && Counted(t.cpus[c].pc)
  {
  }

  lemma LoopTakesTasks(s: System, c: nat, i: nat)
    requires c < |s.cpus| && s.cpus[c].pc == Batch(i)
    ensures var t, tasks := BatchStep(s, c, i), s.cpus[c].tasks;
            && |t.cpus| == |s.cpus| && (Counted(s.cpus[c].pc) ==> Counted(t.cpus[c].pc))
            && t.cpus[c].tasks ==
                 if i >= 8 || tasks == [] then tasks
                 else if tasks[0].Store? then tasks[1..] + [Respond(tasks[0].x)] else tasks[1..]
  {
    hide Ring, Buffer;
  }

  lemma LoopMovesTasks(s: System, c: nat, i: nat)
    requires c < |s.cpus| && s.cpus[c].pc == Batch(i)
    ensures var t := BatchStep(s, c, i);
            && |t.cpus| == |s.cpus| && (Counted(s.cpus[c].pc) ==> Counted(t.cpus[c].pc))
            && QueueMoves(s.cpus[c].tasks, t.cpus[c].tasks)
  {
    hide QueueMoves, BatchStep, Counted;
    var tasks := s.cpus[c].tasks;
    LoopTakesTasks(s, c, i);
    QueueGains(tasks, []);
    if tasks != [] {
      QueueLoses(tasks, [if tasks[0].Store? then Respond(tasks[0].x) else Task.Other]);
    }
  }

  lemma AloneKeepsTasks(cpu: Cpu)
    ensures Alone(cpu).tasks == cpu.tasks && (Counted(cpu.pc) ==> Counted(Alone(cpu).pc))
  {
  }

  lemma GoMovesTasks(s: System, c: nat)
    requires c < |s.cpus|
    ensures var t := GoStep(s, c);
            && |t.cpus| == |s.cpus| && (Counted(s.cpus[c].pc) ==> Counted(t.cpus[c].pc))
            && QueueMoves(s.cpus[c].tasks, t.cpus[c].tasks)
  {
    var pc := s.cpus[c].pc;
    hide QueueMoves, Counted, QueuesStep, CompleteStep, ProcessStep, BatchStep, Alone;
    QueueGains(s.cpus[c].tasks, []);
    if pc.Queues? {
      QueuesKeepTasks(s, c, pc.j, pc.turn);
    } else if pc.Completing? {
      BatchesKeepTasks(s, c, pc.j, pc.batch);
    } else if pc.Processing? {
      BatchesKeepTasks(s, c, pc.j, pc.batch);
    } else if pc.Batch? {
      LoopMovesTasks(s, c, pc.i);
    } else {
      AloneKeepsTasks(s.cpus[c]);
    }
  }

  /** What is left: the choices of user code, and flushes and wakeups. */
  lemma ChoiceAddsTasks(s: System, c: nat, choice: Choice)
    requires c < |s.cpus| && (choice.Go? ==> s.cpus[c].sub != Quiet)
    ensures var t, tasks := AdvanceStep(s, c, choice), s.cpus[c].tasks;
            && |t.cpus| == |s.cpus| && t.cpus[c].pc == s.cpus[c].pc
            && (t.cpus[c].tasks == tasks
                || t.cpus[c].tasks == tasks + [if choice.Resolve? then Store(choice.x) else Task.Other])
  {
    hide GoStep, Ring, Buffer;
  }

  lemma ChoiceMovesTasks(s: System, c: nat, choice: Choice)
    requires c < |s.cpus| && (choice.Go? ==> s.cpus[c].sub != Quiet)
    ensures var t := AdvanceStep(s, c, choice);
            && |t.cpus| == |s.cpus| && t.cpus[c].pc == s.cpus[c].pc
            && QueueMoves(s.cpus[c].tasks, t.cpus[c].tasks)
  {
    hide QueueMoves, AdvanceStep;
    ChoiceAddsTasks(s, c, choice);
    QueueGains(s.cpus[c].tasks, []);
    QueueGains(s.cpus[c].tasks, [if choice.Resolve? then Store(choice.x) else Task.Other]);
  }

  /** A step of anybody else leaves the tasks of a CPU alone, and where it is, unless it sleeps. */
  lemma OthersKeepTasks(s: System, a: Action, c: nat)
    requires c < |s.cpus| && (a.c != c || !a.Advance?)
    ensures var t := Step(s, a);
            && |t.cpus| == |s.cpus| && t.cpus[c].tasks == s.cpus[c].tasks
            && (t.cpus[c].pc == s.cpus[c].pc || t.cpus[c].pc == Returning)
  {
    hide AdvanceStep;
    if a.c != c {
      hide Step;
      OthersAreLeftAlone(s, a, c);
    }
  }

  /** The tasks of a CPU are a queue: whatever happens, tasks are taken from its front and added at its back, one at a
      time. */
  lemma TasksAreAQueue(s: System, a: Action, c: nat)
    requires c < |s.cpus|
    ensures |Step(s, a).cpus| == |s.cpus| && QueueMoves(s.cpus[c].tasks, Step(s, a).cpus[c].tasks)
  {
    hide QueueMoves, GoStep, AdvanceStep, Counted;
    if a.c != c || !a.Advance? {
      OthersKeepTasks(s, a, c);
      QueueGains(s.cpus[c].tasks, []);
    } else if a.choice.Go? && s.cpus[c].sub == Quiet {
      GoMovesTasks(s, c);
      assert AdvanceStep(s, c, a.choice) == GoStep(s, c) by {
        Going(s, c);
      }
    } else {
      ChoiceMovesTasks(s, c, a.choice);
    }
  }

  lemma Going(s: System, c: nat)
    requires c < |s.cpus| && s.cpus[c].sub == Quiet
    ensures AdvanceStep(s, c, Choice.Go) == GoStep(s, c)
  {
    hide GoStep;
  }

  lemma StepCounts(s: System, a: Action, c: nat)
    requires c < |s.cpus| && Counted(s.cpus[c].pc)
    ensures |Step(s, a).cpus| == |s.cpus| && Counted(Step(s, a).cpus[c].pc)
  {
    assert Counted(Returning);
    hide QueueMoves, GoStep, AdvanceStep, Counted;
    if a.c != c || !a.Advance? {
      OthersKeepTasks(s, a, c);
    } else if a.choice.Go? && s.cpus[c].sub == Quiet {
      GoMovesTasks(s, c);
      Going(s, c);
    } else {
      ChoiceMovesTasks(s, c, a.choice);
    }
  }

  /** A CPU runs at most eight tasks in a round. */
  lemma {:induction false} AtMostEightTasks(n: nat, h: seq<Action>, c: nat)
    requires c < n
    ensures |Run(n, h).cpus| == n && Counted(Run(n, h).cpus[c].pc)
  {
    if h != [] {
      AtMostEightTasks(n, h[..|h| - 1], c);
      hide Step, Counted;
      StepCounts(Run(n, h[..|h| - 1]), h[|h| - 1], c);
    }
  }

  /** It goes back to its pollers only when it has run eight, or has no more. */
  lemma LoopEnds(n: nat, h: seq<Action>, c: nat)
    requires c < n && |Run(n, h).cpus| == n && Run(n, h).cpus[c].pc.Batch? && Run(n, h).cpus[c].sub == Quiet
    ensures var s := Run(n, h);
            Step(s, Advance(c, Choice.Go)).cpus[c].pc.Start? <==> s.cpus[c].pc.i == 8 || s.cpus[c].tasks == []
  {
    AtMostEightTasks(n, h, c);
    hide Run;
  }

  // ---------------------------------------------------------------------------------------------
  // Going to rest

  /** Between the head of the event loop and the decision at its end. */
  predicate InPollers(pc: Pc) {
    || pc.Load? || pc.Clear? || pc.Handlers? || pc.Queues? || pc.Completing? || pc.Processing?
    || (pc.User? && pc.caller.FromPoll?) || pc.Others? || pc.Decide?
  }

  /** By a step of its own, CPU c begins a round. */
  predicate Begins(s: System, a: Action, c: nat) {
    a.c == c < |s.cpus| && a.Advance? && a.choice.Go? && s.cpus[c].sub == Quiet && s.cpus[c].pc.Start?
  }

  /** By a step of its own, CPU c finds that signals were noted, or takes something from a ring or puts something into
      one as it polls, or hears from another poller that it has found something. */
  ghost predicate Finds(s: System, a: Action, c: nat) {
    && a.c == c < |s.cpus| && a.Advance?
    && var pc := s.cpus[c].pc;
    || (pc.Clear? && |Step(s, a).cpus| == |s.cpus| && Step(s, a).cpus[c].pc.Handlers?)
    || (pc.Queues? && exists k :: Ring(Step(s, a).net, k) != Ring(s.net, k))
    || (pc.Others? && s.cpus[c].sub == Quiet && a.choice.Found?)
  }

  /** Whether CPU c has found anything since it began its round. */
  ghost predicate HasFound(n: nat, h: seq<Action>, c: nat) {
    h != [] &&
    var s, a := Run(n, h[..|h| - 1]), h[|h| - 1];
    !Begins(s, a, c) && (HasFound(n, h[..|h| - 1], c) || Finds(s, a, c))
  }

  /** cpu_active says so, from the moment a flush is over; and at rest nothing has been found. */
  ghost predicate Noticed(cpu: Cpu, found: bool) {
    && (InPollers(cpu.pc) ==>
          (found <==> cpu.active || (cpu.pc.Queues? && cpu.sub.Flushing? && cpu.sub.moved)))
    && (Resting(cpu.pc) ==> !found)
  }

  lemma FlushNotices(s: System, c: nat, k: Channel, moved: bool, choice: Choice, found: bool)
    requires c < |s.cpus| && s.cpus[c].sub == Flushing(k, moved) && Noticed(s.cpus[c], found)
    ensures var t := FlushStep(s, c, k, moved);
            && |t.cpus| == |s.cpus|
            && Noticed(t.cpus[c], found || (s.cpus[c].pc.Queues? && exists k :: Ring(t.net, k) != Ring(s.net, k)))
            && t.cpus[c].pc == s.cpus[c].pc
  {
    var t := FlushStep(s, c, k, moved);
    if |Ring(s.net, k)| < Spsc.RING_CAPACITY && Buffer(s.net, k) != [] {
      assert |Ring(t.net, k)| == |Ring(s.net, k)| + 1;
    }
  }

  lemma AlertNotices(s: System, c: nat, k: Channel, found: bool)
    requires c < |s.cpus| && s.cpus[c].sub == Alerting(k) && Noticed(s.cpus[c], found)
    ensures var t := AlertStep(s, c, k);
            |t.cpus| == |s.cpus| && Noticed(t.cpus[c], found) && t.cpus[c].pc == s.cpus[c].pc && t.net == s.net
  {
  }

  /** A pop changes a ring exactly if it takes anything. */
  lemma PopChanges(s: System, c: nat, k: Channel)
    requires c < |s.cpus|
    ensures var t := PopStep(s, c, k);
            && |t.cpus| == |s.cpus| && t.cpus[c].sub == s.cpus[c].sub && InPollers(t.cpus[c].pc)
            && (t.cpus[c].active <==> s.cpus[c].active || Ring(s.net, k) != [])
            && (Ring(s.net, k) != [] <==> exists i :: Ring(t.net, i) != Ring(s.net, i))
  {
    var t, ring := PopStep(s, c, k), Ring(s.net, k);
    var n := Spsc.Min(Spsc.BATCH, |ring|);
    assert Ring(t.net, k) == ring[n..];
    if ring == [] {
      assert forall i :: Ring(t.net, i) == Ring(s.net, i);
    } else {
      assert |Ring(t.net, k)| < |ring|;
    }
  }

  lemma PopNotices(s: System, c: nat, k: Channel, found: bool)
    requires c < |s.cpus| && s.cpus[c].sub == Quiet && s.cpus[c].pc.Queues? && Noticed(s.cpus[c], found)
    ensures var t := PopStep(s, c, k);
            && |t.cpus| == |s.cpus|
            && Noticed(t.cpus[c], found || exists k :: Ring(t.net, k) != Ring(s.net, k))
  {
    PopChanges(s, c, k);
    hide PopStep, Ring;
  }

  lemma QueuesNotice(s: System, c: nat, j: nat, turn: Turn, found: bool)
    requires c < |s.cpus| && s.cpus[c].sub == Quiet && s.cpus[c].pc == Queues(j, turn) && Noticed(s.cpus[c], found)
    ensures var t := QueuesStep(s, c, j, turn);
            && |t.cpus| == |s.cpus|
            && Noticed(t.cpus[c], found || exists k :: Ring(t.net, k) != Ring(s.net, k))
  {
    if j < |s.cpus| && j != c && turn.PollRx? {
      hide Noticed, PopStep;
      PopNotices(s, c, Response(c, j), found);
    } else if j < |s.cpus| && j != c && turn.PollTx? {
      hide Noticed, PopStep;
      PopNotices(s, c, Request(j, c), found);
    } else {
      assert QueuesStep(s, c, j, turn).net == s.net;
      hide PopStep;
    }
  }

  lemma AloneNotices(cpu: Cpu, found: bool)
    requires Noticed(cpu, found) && cpu.sub == Quiet
    requires !cpu.pc.Queues? && !cpu.pc.Completing? && !cpu.pc.Processing? && !cpu.pc.Batch?
    ensures Noticed(Alone(cpu), !cpu.pc.Start? && (found || cpu.pc.Clear?))
    ensures cpu.pc.Clear? ==> Alone(cpu).pc.Handlers?
  {
  }

  lemma LoopNotices(s: System, c: nat, i: nat, found: bool)
    requires c < |s.cpus| && s.cpus[c].pc == Batch(i)
    ensures |BatchStep(s, c, i).cpus| == |s.cpus| && Noticed(BatchStep(s, c, i).cpus[c], found)
  {
    hide Ring, Buffer;
  }

  lemma BatchesNotice(s: System, c: nat, j: nat, batch: seq<Item>, found: bool)
    requires c < |s.cpus| && s.cpus[c].sub == Quiet && Noticed(s.cpus[c], found)
    ensures s.cpus[c].pc == Completing(j, batch) ==>
              |CompleteStep(s, c, j, batch).cpus| == |s.cpus| && Noticed(CompleteStep(s, c, j, batch).cpus[c], found)
    ensures s.cpus[c].pc == Processing(j, batch) ==>
              |ProcessStep(s, c, j, batch).cpus| == |s.cpus| && Noticed(ProcessStep(s, c, j, batch).cpus[c], found)
  {
  }

  lemma GoNotices(s: System, c: nat, found: bool)
    requires c < |s.cpus| && s.cpus[c].sub == Quiet && Noticed(s.cpus[c], found)
    ensures var t, a := GoStep(s, c), Advance(c, Choice.Go);
            && |t.cpus| == |s.cpus|
            && Noticed(t.cpus[c], !Begins(s, a, c) && (found || Finds(s, a, c)))
  {
    Going(s, c);
    var pc := s.cpus[c].pc;
    if pc.Queues? {
      hide Noticed, QueuesStep;
      QueuesNotice(s, c, pc.j, pc.turn, found);
    } else if pc.Completing? {
      hide Noticed, CompleteStep;
      BatchesNotice(s, c, pc.j, pc.batch, found);
    } else if pc.Processing? {
      hide Noticed, ProcessStep;
      BatchesNotice(s, c, pc.j, pc.batch, found);
    } else if pc.Batch? {
      hide Noticed, BatchStep;
      LoopNotices(s, c, pc.i, found);
    } else {
      hide Noticed, Alone;
      AloneNotices(s.cpus[c], found);
    }
  }

  lemma ChoiceNotices(s: System, c: nat, choice: Choice, found: bool)
    requires c < |s.cpus| && s.cpus[c].sub == Quiet && !choice.Go? && Noticed(s.cpus[c], found)
    ensures var t := AdvanceStep(s, c, choice);
            && |t.cpus| == |s.cpus| && (s.cpus[c].pc.Queues? ==> t.net == s.net)
            && Noticed(t.cpus[c], found || (choice.Found? && s.cpus[c].pc.Others?)) && t.cpus[c].pc == s.cpus[c].pc
  {
    hide Ring, Buffer, GoStep;
  }

  lemma StepNotices(s: System, a: Action, c: nat, found: bool)
    requires c < |s.cpus| && Noticed(s.cpus[c], found)
    ensures var t := Step(s, a);
            && |t.cpus| == |s.cpus|
            && Noticed(t.cpus[c], !Begins(s, a, c) && (found || Finds(s, a, c)))
  {
    var cpu := s.cpus[c];
    if a.c != c {
      hide Step;
      OthersAreLeftAlone(s, a, c);
    } else if !a.Advance? {
      hide Ring, AdvanceStep;
    } else if cpu.sub.Flushing? {
      hide Noticed, FlushStep;
      FlushNotices(s, c, cpu.sub.k, cpu.sub.moved, a.choice, found);
    } else if cpu.sub.Alerting? {
      hide Noticed, AlertStep;
      AlertNotices(s, c, cpu.sub.k, found);
    } else if a.choice.Go? {
      hide Noticed, GoStep;
      GoNotices(s, c, found);
    } else {
      hide Noticed, AdvanceStep;
      ChoiceNotices(s, c, a.choice, found);
    }
  }

  /** cpu_active is exact: in every run, a CPU in its pollers is active exactly if it has found something since it began
      its round; and a CPU that is going to rest, or at rest, has found nothing. */
  lemma {:induction false} RestAfterAnIdleRound(n: nat, h: seq<Action>, c: nat)
    requires c < n
    ensures |Run(n, h).cpus| == n && Noticed(Run(n, h).cpus[c], HasFound(n, h, c))
  {
    if h != [] {
      RestAfterAnIdleRound(n, h[..|h| - 1], c);
      hide Step, Noticed, Finds, Begins;
      StepNotices(Run(n, h[..|h| - 1]), h[|h| - 1], c, HasFound(n, h[..|h| - 1], c));
    }
  }

  /** And it goes to rest as soon as that is so and it has no task. */
  lemma RestsWhenIdle(n: nat, h: seq<Action>, c: nat)
    requires c < n && |Run(n, h).cpus| == n && Run(n, h).cpus[c].pc.Decide? && Run(n, h).cpus[c].sub == Quiet
    ensures var s := Run(n, h); var t := Step(s, Advance(c, Choice.Go));
            && |t.cpus| == n
            && (Resting(t.cpus[c].pc) <==> s.cpus[c].tasks == [] && !HasFound(n, h, c))
            && (!Resting(t.cpus[c].pc) ==> t.cpus[c].pc == Batch(0))
  {
    RestAfterAnIdleRound(n, h, c);
    hide Run, HasFound;
  }
}
