/** What the CPU of a syscall pair does from one pass through its pollers to the next: its tasks are a queue, it runs at
    most eight of them, it takes all results at once, and it goes to rest only after a round in which it found
    nothing. */
module SyscallRounds {
  import Sem = Semaphores
  import opened SyscallPairs
  import opened Sequences

  /** A call on a semaphore grants at most one request. */
  lemma GrantsOne(s: Sem.Sem, e: Sem.Event)
    ensures |Granted(s, Sem.Step(s, e))| <= 1
  {
  }

  lemma RoomedMoves(p: Pair, e: Sem.Event, pc: Pc, active: bool)
    ensures QueueMoves(p.cpu.tasks, Roomed(p, Sem.Step(p.room, e), pc, active).cpu.tasks)
    ensures QueueMoves(p.cpu.tasks, IoRoomed(p, Sem.Step(p.io, e), pc, active).cpu.tasks)
  {
    GrantsOne(p.room, e);
    GrantsOne(p.io, e);
    QueueGains(p.cpu.tasks, Calls(Granted(p.room, Sem.Step(p.room, e))));
    QueueGains(p.cpu.tasks, StartIos(Granted(p.io, Sem.Step(p.io, e))));
    hide QueueMoves, Granted, Sem.Step;
  }

  /** How many tasks the loop has run. */
  ghost predicate Counted(pc: Pc) {
    match pc
    case Batch(i) => i <= 8
    case User(i) => 1 <= i <= 8
    case Signalling(i) => 1 <= i <= 8
    case _ => true
  }

  lemma BatchTakes(p: Pair, i: nat, refused: bool)
    requires p.cpu.pc == Batch(i) && Counted(p.cpu.pc)
    ensures var t, tasks := BatchStep(p, i, refused), p.cpu.tasks;
            t.cpu.tasks == (if i >= 8 || tasks == [] then tasks else tasks[1..]) && Counted(t.cpu.pc)
  {
  }

  lemma BatchMoves(p: Pair, i: nat, refused: bool)
    requires p.cpu.pc == Batch(i) && Counted(p.cpu.pc)
    ensures var t := BatchStep(p, i, refused); QueueMoves(p.cpu.tasks, t.cpu.tasks) && Counted(t.cpu.pc)
  {
    hide QueueMoves, BatchStep, Counted;
    BatchTakes(p, i, refused);
    QueueGains(p.cpu.tasks, []);
    if p.cpu.tasks != [] {
      QueueLoses(p.cpu.tasks, []);
    }
  }

  lemma ReleaseMoves(p: Pair, nr: nat)
    requires p.cpu.pc == Releasing(nr)
    ensures QueueMoves(p.cpu.tasks, ResultsStep(p).cpu.tasks) && Counted(ResultsStep(p).cpu.pc)
  {
    RoomedMoves(p, Sem.Release(Tokens(nr)), Events, p.cpu.active || nr > 0);
    RoomedAt(p, Sem.Step(p.room, Sem.Release(Tokens(nr))), Events, p.cpu.active || nr > 0);
    hide QueueMoves, Roomed, Sem.Step;
  }

  lemma PopKeepsTasks(p: Pair)
    requires !p.cpu.pc.Releasing? && Counted(p.cpu.pc)
    ensures ResultsStep(p).cpu.tasks == p.cpu.tasks && Counted(ResultsStep(p).cpu.pc)
  {
  }

  lemma ResultsMove(p: Pair)
    requires Counted(p.cpu.pc)
    ensures var t := ResultsStep(p); QueueMoves(p.cpu.tasks, t.cpu.tasks) && Counted(t.cpu.pc)
  {
    hide QueueMoves, ResultsStep, Counted;
    QueueGains(p.cpu.tasks, []);
    if p.cpu.pc.Releasing? {
      ReleaseMoves(p, p.cpu.pc.nr);
    } else {
      PopKeepsTasks(p);
    }
  }

  lemma RoomedAt(p: Pair, s: Sem.Sem, pc: Pc, active: bool)
    ensures Roomed(p, s, pc, active).cpu.pc == pc && IoRoomed(p, s, pc, active).cpu.pc == pc
    ensures Roomed(p, s, pc, active).cpu.active == active && IoRoomed(p, s, pc, active).cpu.active == active
  {
  }

  lemma ReapMoves(p: Pair, n: nat)
    requires Counted(p.cpu.pc)
    ensures var t := ReapStep(p, n); QueueMoves(p.cpu.tasks, t.cpu.tasks) && Counted(t.cpu.pc)
  {
    QueueGains(p.cpu.tasks, []);
    if p.cpu.pc.ReleasingIo? {
      RoomedMoves(p, Sem.Release(Tokens(p.cpu.pc.nr)), Decide, p.cpu.active || p.cpu.pc.nr > 0);
      RoomedAt(p, Sem.Step(p.io, Sem.Release(Tokens(p.cpu.pc.nr))), Decide, p.cpu.active || p.cpu.pc.nr > 0);
    }
    hide QueueMoves, IoRoomed, Sem.Step;
  }

  lemma AloneMoves(cpu: Cpu)
    requires Counted(cpu.pc)
    ensures Alone(cpu).tasks == cpu.tasks && Counted(Alone(cpu).pc)
  {
  }

  lemma GoMoves(p: Pair)
    requires Counted(p.cpu.pc)
    ensures QueueMoves(p.cpu.tasks, GoStep(p).cpu.tasks) && Counted(GoStep(p).cpu.pc)
  {
    assert p.cpu.pc.Signalling? ==> Counted(Batch(p.cpu.pc.i));
    QueueGains(p.cpu.tasks, []);
    ResultsMove(p);
    ReapMoves(p, 0);
    AloneMoves(p.cpu);
    if p.cpu.pc.Batch? {
      BatchMoves(p, p.cpu.pc.i, false);
    }
    hide QueueMoves, Counted, ResultsStep, ReapStep, BatchStep, Alone;
  }

  lemma AdvanceMoves(p: Pair, choice: Choice)
    requires Counted(p.cpu.pc)
    ensures QueueMoves(p.cpu.tasks, AdvanceStep(p, choice).cpu.tasks) && Counted(AdvanceStep(p, choice).cpu.pc)
  {
    hide Counted, GoStep, ReapStep, BatchStep, Roomed, IoRoomed, QueueMoves, Sem.Step;
    QueueGains(p.cpu.tasks, [Task.Other]);
    match choice {
      case Go => GoMoves(p);
      case Submit =>
        RoomedMoves(p, Sem.Wait(1), p.cpu.pc, p.cpu.active);
        RoomedAt(p, Sem.Step(p.room, Sem.Wait(1)), p.cpu.pc, p.cpu.active);
      case SubmitIo =>
        RoomedMoves(p, Sem.Wait(1), p.cpu.pc, p.cpu.active);
        RoomedAt(p, Sem.Step(p.io, Sem.Wait(1)), p.cpu.pc, p.cpu.active);
      case Reap(n) => ReapMoves(p, n);
      case Refuse =>
        if p.cpu.pc.Batch? {
          BatchMoves(p, p.cpu.pc.i, true);
        }
      case _ =>
    }
  }

  lemma OthersKeepTasks(policy: Policy, p: Pair, a: Action)
    requires !a.Advance?
    ensures var t := Step(policy, p, a);
            t.cpu.tasks == p.cpu.tasks && (t.cpu.pc == p.cpu.pc || t.cpu.pc == Returning)
  {
  }

  /** The tasks are a queue: whatever happens, they are taken from its front and added at its back, one at a time. */
  lemma TasksAreAQueue(policy: Policy, p: Pair, a: Action)
    requires Counted(p.cpu.pc)
    ensures var t := Step(policy, p, a); QueueMoves(p.cpu.tasks, t.cpu.tasks) && Counted(t.cpu.pc)
  {
    assert Counted(Returning);
    QueueGains(p.cpu.tasks, []);
    hide Counted, QueueMoves;
    if a.Advance? {
      hide AdvanceStep;
      AdvanceMoves(p, a.choice);
    } else {
      hide Step;
      OthersKeepTasks(policy, p, a);
    }
  }

  /** A CPU runs at most eight tasks in a round. */
  lemma {:induction false} AtMostEightTasks(policy: Policy, h: seq<Action>)
    ensures Counted(Run(policy, h).cpu.pc)
  {
    if h != [] {
      AtMostEightTasks(policy, h[..|h| - 1]);
      hide Counted, Step, QueueMoves;
      TasksAreAQueue(policy, Run(policy, h[..|h| - 1]), h[|h| - 1]);
    }
  }

  /** poll_results() takes all results there are, in order. */
  lemma AllResultsAreTaken(policy: Policy, h: seq<Action>)
    requires Run(policy, h).cpu.pc.Results?
    ensures var p := Run(policy, h); var t := GoStep(p);
            t.rings.result == [] && t.cpu.pc == Completing(p.rings.result, |p.rings.result|)
  {
    TokensAreConserved(policy, h);
    hide Run, OneByOne, CallsIn, IosIn;
  }

  // ---------------------------------------------------------------------------------------------
  // Going to rest

  /** Between the head of the event loop and the decision at its end. */
  predicate InPollers(pc: Pc) {
    || pc.Load? || pc.Clear? || pc.Handlers? || pc.Ipc? || pc.Results? || pc.Completing? || pc.Releasing? || pc.Events?
    || pc.ReleasingIo? || pc.Decide?
  }

  /** The CPU begins a round. */
  predicate Begins(p: Pair, a: Action) {
    a == Advance(Choice.Go) && p.cpu.pc.Start?
  }

  /** It finds that signals were noted, hears from another poller that it has found something, or pops results or
      events. */
  predicate Finds(p: Pair, a: Action) {
    && a.Advance?
    && (|| (p.cpu.pc.Clear? && a.choice.Go?)
        || (p.cpu.pc.Ipc? && a.choice.Found?)
        || (p.cpu.pc.Results? && a.choice.Go? && p.rings.result != [])
        || (p.cpu.pc.Events? && a.choice.Reap? && 0 < a.choice.n <= p.flying && a.choice.n <= MAX_IO))
  }

  /** Whether it has found anything since it began its round. */
  ghost predicate HasFound(policy: Policy, h: seq<Action>) {
    h != [] &&
    var p, a := Run(policy, h[..|h| - 1]), h[|h| - 1];
    !Begins(p, a) && (HasFound(policy, h[..|h| - 1]) || Finds(p, a))
  }

  /** cpu_active says so, from the moment the tokens are released; and at rest nothing has been found. */
  ghost predicate Noticed(cpu: Cpu, found: bool) {
    && (InPollers(cpu.pc) ==> (found <==> cpu.active || Owed(cpu.pc) > 0 || OwedIo(cpu.pc) > 0))
    && (Resting(cpu.pc) ==> !found)
  }

  lemma ResultsNotice(p: Pair, found: bool)
    requires Noticed(p.cpu, found) && (p.cpu.pc.Results? || p.cpu.pc.Completing? || p.cpu.pc.Releasing?)
    ensures Noticed(ResultsStep(p).cpu, found || (p.cpu.pc.Results? && p.rings.result != []))
  {
    hide Sem.Step, Granted, Calls;
  }

  lemma ReapNotices(p: Pair, n: nat, found: bool)
    requires Noticed(p.cpu, found) && (p.cpu.pc.Events? || p.cpu.pc.ReleasingIo?)
    ensures Noticed(ReapStep(p, n).cpu, found || (p.cpu.pc.Events? && 0 < n <= p.flying && n <= MAX_IO))
  {
    hide Sem.Step, Granted, StartIos;
  }

  lemma AloneNotices(cpu: Cpu, found: bool)
    requires Noticed(cpu, found) && !cpu.pc.Results? && !cpu.pc.Completing? && !cpu.pc.Releasing?
    requires !cpu.pc.Events? && !cpu.pc.ReleasingIo? && !cpu.pc.Batch? && !cpu.pc.Signalling?
    ensures Noticed(Alone(cpu), !cpu.pc.Start? && (found || cpu.pc.Clear?))
  {
  }

  lemma BatchNotices(p: Pair, refused: bool, found: bool)
    requires p.cpu.pc.Batch?
    ensures Noticed(BatchStep(p, p.cpu.pc.i, refused).cpu, found)
  {
  }

  lemma GoNotices(p: Pair, found: bool)
    requires Noticed(p.cpu, found)
    ensures Noticed(GoStep(p).cpu, !Begins(p, Advance(Choice.Go)) && (found || Finds(p, Advance(Choice.Go))))
  {
    var pc := p.cpu.pc;
    if pc.Results? || pc.Completing? || pc.Releasing? {
      hide Noticed, ResultsStep;
      ResultsNotice(p, found);
    } else if pc.Events? || pc.ReleasingIo? {
      hide Noticed, ReapStep;
      ReapNotices(p, 0, found);
    } else if pc.Batch? {
      hide Noticed, BatchStep;
      BatchNotices(p, false, found);
    } else if pc.Signalling? {
    } else {
      hide Noticed, Alone;
      AloneNotices(p.cpu, found);
    }
  }

  lemma AdvanceNotices(p: Pair, choice: Choice, found: bool)
    requires Noticed(p.cpu, found)
    ensures var a := Advance(choice);
            Noticed(AdvanceStep(p, choice).cpu, !Begins(p, a) && (found || Finds(p, a)))
  {
    if choice.Go? {
      hide Noticed, GoStep;
      GoNotices(p, found);
    } else if choice.Reap? && p.cpu.pc.Events? {
      hide Noticed, ReapStep;
      ReapNotices(p, choice.n, found);
    } else if choice.Refuse? && p.cpu.pc.Batch? {
      hide Noticed, BatchStep;
      BatchNotices(p, true, found);
    } else {
      hide GoStep, ReapStep, BatchStep, Sem.Step, Granted, Calls, StartIos;
    }
  }

  lemma StepNotices(policy: Policy, p: Pair, a: Action, found: bool)
    requires Noticed(p.cpu, found)
    ensures Noticed(Step(policy, p, a).cpu, !Begins(p, a) && (found || Finds(p, a)))
  {
    hide AdvanceStep;
    if a.Advance? {
      hide Noticed;
      AdvanceNotices(p, a.choice, found);
    }
  }

  /** cpu_active is exact: in every run, the CPU in its pollers has noticed exactly if it has found something since it
      began its round; and when it is going to rest, or at rest, it has found nothing. */
  lemma {:induction false} RestAfterAnIdleRound(policy: Policy, h: seq<Action>)
    ensures Noticed(Run(policy, h).cpu, HasFound(policy, h))
  {
    if h != [] {
      RestAfterAnIdleRound(policy, h[..|h| - 1]);
      hide Step, Noticed, Finds, Begins;
      StepNotices(policy, Run(policy, h[..|h| - 1]), h[|h| - 1], HasFound(policy, h[..|h| - 1]));
    }
  }

  /** And it goes to rest as soon as that is so and it has no task. */
  lemma RestsWhenIdle(policy: Policy, h: seq<Action>)
    requires Run(policy, h).cpu.pc.Decide?
    ensures var p := Run(policy, h); var t := Step(policy, p, Advance(Choice.Go));
            && (Resting(t.cpu.pc) <==> p.cpu.tasks == [] && !HasFound(policy, h))
            && (!Resting(t.cpu.pc) ==> t.cpu.pc == Batch(0))
  {
    RestAfterAnIdleRound(policy, h);
    hide Run, HasFound;
  }

  // ---------------------------------------------------------------------------------------------
  // The worker

  /** How many calls there were when the worker last looked, and how many it has taken since. */
  ghost function Seen(policy: Policy, h: seq<Action>): nat {
    if h == [] then 0
    else
      var p := Run(policy, h[..|h| - 1]);
      if h[|h| - 1].Work? && p.worker.Scanning? then |p.rings.call| else Seen(policy, h[..|h| - 1])
  }

  ghost function Taken(policy: Policy, h: seq<Action>): nat {
    if h == [] then 0
    else
      var p, t := Run(policy, h[..|h| - 1]), Run(policy, h);
      if h[|h| - 1].Work? && p.worker.Scanning? then 0
      else Taken(policy, h[..|h| - 1]) + if !p.worker.Holding? && t.worker.Holding? then 1 else 0
  }

  /** What the worker has still to take is there, and makes up for what it has seen. */
  ghost predicate Diligent(p: Pair, seen: nat, taken: nat) {
    match p.worker
    case Consuming(quota) => quota <= |p.rings.call| && taken + quota >= seen > 0
    case Holding(_, quota) => quota <= |p.rings.call| && taken > 0 && taken + quota >= seen > 0
    case Waking => taken >= seen > 0
    case _ => true
  }

  lemma CpuLeavesWorker(policy: Policy, p: Pair, a: Action)
    requires !a.Work?
    ensures var t := Step(policy, p, a); t.worker == p.worker && |t.rings.call| >= |p.rings.call|
  {
    hide Sem.Step, Granted, Calls, StartIos;
  }

  lemma WorkIsDiligent(policy: Policy, p: Pair, more: bool, seen: nat, taken: nat)
    requires Diligent(p, seen, taken)
    ensures var t := WorkStep(policy, p, more);
            && Diligent(t, if p.worker.Scanning? then |p.rings.call| else seen,
                        if p.worker.Scanning? then 0
                        else taken + if !p.worker.Holding? && t.worker.Holding? then 1 else 0)
  {
  }

  lemma {:induction false} StaysDiligent(policy: Policy, h: seq<Action>)
    ensures Diligent(Run(policy, h), Seen(policy, h), Taken(policy, h))
  {
    if h != [] {
      var p, a := Run(policy, h[..|h| - 1]), h[|h| - 1];
      StaysDiligent(policy, h[..|h| - 1]);
      hide AdvanceStep, WorkStep;
      if a.Work? {
        WorkIsDiligent(policy, p, a.more, Seen(policy, h[..|h| - 1]), Taken(policy, h[..|h| - 1]));
      } else {
        hide Step;
        CpuLeavesWorker(policy, p, a);
      }
    }
  }

  /** The worker wakes the CPU after it has taken all the calls that it saw, at least one; and it sends the CPU a signal
      in no other step. */
  lemma WakesWhenDone(policy: Policy, h: seq<Action>, more: bool)
    ensures var p := Run(policy, h);
            && (p.worker.Waking? ==> Taken(policy, h) >= Seen(policy, h) > 0)
            && (Step(policy, p, Work(more)).cpu != p.cpu ==> p.worker.Waking?)
  {
    StaysDiligent(policy, h);
    hide Run, Seen, Taken;
  }
}
