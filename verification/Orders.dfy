/** Each queue between two CPUs hands its items over in the order they were pushed. */
module Orders {
  import opened CrossCpu
  import opened Lifecycles
  import Spsc = SpscQueues

  /** What the consumer of k has popped and not got round to yet. */
  function InHand(cpu: Cpu, k: Channel): seq<Item> {
    match cpu.pc
    case Processing(j, batch) => if k.Request? && k.from == j then batch else []
    case User(FromPoll(j, rest)) => if k.Request? && k.from == j then rest else []
    case Completing(j, batch) => if k.Response? && k.to == j then batch else []
    case _ => []
  }

  /** The end of an item's way through k: it is processed, or its promise is satisfied. */
  predicate Ends(e: Event, k: Channel) {
    Routed(e.x, k) && (e.Processed? <==> k.Request?)
  }

  /** The items that have come through k, in order. */
  ghost function Through(log: seq<Event>, k: Channel): seq<Item> {
    if log == [] then []
    else
      var e := log[|log| - 1];
      Through(log[..|log| - 1], k) + if Ends(e, k) then [e.x] else []
  }

  /** Everything that was ever pushed into k, from the item that came through first to the one pushed last. */
  ghost function Pipe(s: System, k: Channel): seq<Item> {
    Through(s.book.log, k) + InHand(CpuAt(s.cpus, Consumer(k)), k) + Ring(s.net, k) + Buffer(s.net, k)
  }

  /** The item, if any, that a step submits to k or sends back over k. */
  ghost function PushedNow(s: System, a: Action, k: Channel): seq<Item> {
    if !a.Advance? || a.c >= |s.cpus| || s.cpus[a.c].sub != Quiet then []
    else
      var cpu := s.cpus[a.c];
      match a.choice
      case Submit(to, id) =>
        var x := Item(a.c, to, id);
        if k == Request(a.c, to) && cpu.pc.User? && to < |s.cpus| && to != a.c && x !in s.book.stage then [x] else []
      case Go =>
        if cpu.pc.Batch? && cpu.pc.i < 8 && cpu.tasks != [] && cpu.tasks[0].Respond?
           && k == Response(cpu.tasks[0].x.from, cpu.tasks[0].x.to) then [cpu.tasks[0].x] else []
      case _ => []
  }

  /** The items pushed into k in the course of a run, in order. */
  ghost function Pushed(n: nat, h: seq<Action>, k: Channel): seq<Item> {
    if h == [] then []
    else Pushed(n, h[..|h| - 1], k) + PushedNow(Run(n, h[..|h| - 1]), h[|h| - 1], k)
  }

  lemma ThroughNext(log: seq<Event>, e: Event, k: Channel)
    ensures Through(log + [e], k) == Through(log, k) + if Ends(e, k) then [e.x] else []
  {
    assert (log + [e])[..|log|] == log;
  }

  lemma SamePipe(s: System, t: System, k: Channel)
    requires t.book.log == s.book.log && Ring(t.net, k) == Ring(s.net, k) && Buffer(t.net, k) == Buffer(s.net, k)
    requires InHand(CpuAt(t.cpus, Consumer(k)), k) == InHand(CpuAt(s.cpus, Consumer(k)), k)
    ensures Pipe(t, k) == Pipe(s, k)
  {
  }

  lemma FlushKeepsPipe(s: System, c: nat, at: Channel, moved: bool, k: Channel)
    requires c < |s.cpus|
    ensures Pipe(FlushStep(s, c, at, moved), k) == Pipe(s, k)
  {
    hide Through;
    var t := FlushStep(s, c, at, moved);
    var ring, buffer := Ring(s.net, k), Buffer(s.net, k);
    assert InHand(CpuAt(t.cpus, Consumer(k)), k) == InHand(CpuAt(s.cpus, Consumer(k)), k);
    assert Ring(t.net, k) + Buffer(t.net, k) == ring + buffer;
    Behind(Through(s.book.log, k) + InHand(CpuAt(s.cpus, Consumer(k)), k), Ring(t.net, k), Buffer(t.net, k));
    Behind(Through(s.book.log, k) + InHand(CpuAt(s.cpus, Consumer(k)), k), ring, buffer);
  }

  lemma Behind<T>(p: seq<T>, q: seq<T>, r: seq<T>)
    ensures p + q + r == p + (q + r)
  {
  }

  lemma PopKeepsPipe(s: System, at: Channel, k: Channel)
    requires Consumer(at) < |s.cpus| && s.cpus[Consumer(at)].pc.Queues?
    ensures Pipe(PopStep(s, Consumer(at), at), k) == Pipe(s, k)
  {
    hide Through;
    var t := PopStep(s, Consumer(at), at);
    if k == at {
      var n := Spsc.Min(Spsc.BATCH, |Ring(s.net, k)|);
      assert InHand(CpuAt(t.cpus, Consumer(k)), k) == Ring(s.net, k)[..n];
      assert Ring(s.net, k) == Ring(s.net, k)[..n] + Ring(s.net, k)[n..];
      Behind(Through(s.book.log, k), Ring(s.net, k)[..n], Ring(s.net, k)[n..]);
    } else {
      SamePipe(s, t, k);
    }
  }

  /** The item at the front of what is in hand comes through. */
  lemma FrontComesThrough(s: System, t: System, c: nat, at: Channel, e: Event, k: Channel)
    requires c < |s.cpus| && c == Consumer(at) && |t.cpus| == |s.cpus| && t.cpus == s.cpus[c := t.cpus[c]]
    requires InHand(s.cpus[c], at) == [e.x] + InHand(t.cpus[c], at) && Routed(e.x, at) && Ends(e, at)
    requires k != at && Consumer(k) == c ==> InHand(s.cpus[c], k) == InHand(t.cpus[c], k)
    requires t.net == s.net && t.book.log == s.book.log + [e]
    ensures Pipe(t, k) == Pipe(s, k)
  {
    hide Through, InHand;
    ThroughNext(s.book.log, e, k);
    if k == at {
      Behind(Through(s.book.log, k), [e.x], InHand(t.cpus[c], k));
    } else {
      assert !Ends(e, k);
    }
  }

  lemma CompleteKeepsPipe(s: System, c: nat, j: nat, batch: seq<Item>, k: Channel)
    requires c < |s.cpus| && s.cpus[c].pc == Completing(j, batch)
    requires batch != [] ==> batch[0] in s.book.ret && Routed(batch[0], Response(c, j))
    ensures Pipe(CompleteStep(s, c, j, batch), k) == Pipe(s, k)
  {
    hide Pipe;
    var t := CompleteStep(s, c, j, batch);
    if batch == [] {
      SamePipe(s, t, k);
    } else {
      FrontComesThrough(s, t, c, Response(c, j), Finished(batch[0], c, s.book.ret[batch[0]]), k);
    }
  }

  lemma ProcessKeepsPipe(s: System, c: nat, j: nat, batch: seq<Item>, k: Channel)
    requires c < |s.cpus| && s.cpus[c].pc == Processing(j, batch)
    requires batch != [] ==> Routed(batch[0], Request(j, c))
    ensures Pipe(ProcessStep(s, c, j, batch), k) == Pipe(s, k)
  {
    hide Pipe;
    var t := ProcessStep(s, c, j, batch);
    if batch == [] {
      SamePipe(s, t, k);
    } else {
      FrontComesThrough(s, t, c, Request(j, c), Processed(batch[0], c), k);
    }
  }

  lemma PushGrowsPipe(s: System, c: nat, at: Channel, x: Item, st: Stage, pc: Pc, k: Channel)
    requires c < |s.cpus| && InHand(s.cpus[c].(pc := pc), k) == InHand(s.cpus[c], k)
    ensures Pipe(PushStep(s, c, at, x, st, pc), k) == Pipe(s, k) + if k == at then [x] else []
  {
    hide Through;
    var t := PushStep(s, c, at, x, st, pc);
    if k == at {
      Behind(Through(s.book.log, k) + InHand(CpuAt(s.cpus, Consumer(k)), k) + Ring(s.net, k), Buffer(s.net, k), [x]);
    } else {
      SamePipe(s, t, k);
    }
  }

  lemma QueuesKeepPipe(s: System, c: nat, j: nat, turn: Turn, k: Channel)
    requires c < |s.cpus| && s.cpus[c].pc == Queues(j, turn)
    ensures Pipe(QueuesStep(s, c, j, turn), k) == Pipe(s, k)
  {
    hide Pipe, PopStep;
    if j < |s.cpus| && j != c && turn.PollRx? {
      PopKeepsPipe(s, Response(c, j), k);
    } else if j < |s.cpus| && j != c && turn.PollTx? {
      PopKeepsPipe(s, Request(j, c), k);
    } else {
      SamePipe(s, QueuesStep(s, c, j, turn), k);
    }
  }

  lemma BatchGrowsPipe(s: System, c: nat, i: nat, k: Channel)
    requires c < |s.cpus| && s.cpus[c].pc == Batch(i) && s.cpus[c].sub == Quiet
    ensures Pipe(BatchStep(s, c, i), k) == Pipe(s, k) + PushedNow(s, Advance(c, Go), k)
  {
    hide Pipe, PushStep;
    var cpu := s.cpus[c];
    if i < 8 && cpu.tasks != [] && cpu.tasks[0].Respond? {
      var x := cpu.tasks[0].x;
      var u := Put(s, c, cpu.(tasks := cpu.tasks[1..]));
      SamePipe(s, u, k);
      PushGrowsPipe(u, c, Response(x.from, x.to), x, Answered, Batch(i + 1), k);
    } else {
      SamePipe(s, BatchStep(s, c, i), k);
    }
  }

  lemma AloneKeepsHand(cpu: Cpu, k: Channel)
    ensures InHand(Alone(cpu), k) == InHand(cpu, k)
  {
  }

  /** What is in hand has come over the channel it is processed or completed for. */
  lemma HandIsRouted(s: System, c: nat)
    requires c < |s.cpus| && CpuOk(s, c)
    ensures var pc := s.cpus[c].pc;
            && (pc.Completing? && pc.batch != [] ==> Routed(pc.batch[0], Response(c, pc.j)))
            && (pc.Processing? && pc.batch != [] ==> Routed(pc.batch[0], Request(pc.j, c)))
  {
  }

  lemma GoGrowsPipe(s: System, c: nat, k: Channel)
    requires c < |s.cpus| && Inv(s) && s.cpus[c].sub == Quiet
    ensures Pipe(GoStep(s, c), k) == Pipe(s, k) + PushedNow(s, Advance(c, Go), k)
  {
    ResultIsThere(s, c);
    assert CpuOk(s, c);
    HandIsRouted(s, c);
    hide Inv, CpuOk, Pipe, QueuesStep, CompleteStep, ProcessStep, BatchStep, Alone, InHand;
    var pc := s.cpus[c].pc;
    if pc.Queues? {
      QueuesKeepPipe(s, c, pc.j, pc.turn, k);
    } else if pc.Completing? {
      CompleteKeepsPipe(s, c, pc.j, pc.batch, k);
    } else if pc.Processing? {
      ProcessKeepsPipe(s, c, pc.j, pc.batch, k);
    } else if pc.Batch? {
      BatchGrowsPipe(s, c, pc.i, k);
    } else {
      AloneKeepsHand(s.cpus[c], k);
      SamePipe(s, GoStep(s, c), k);
    }
  }

  lemma ChoiceGrowsPipe(s: System, c: nat, choice: Choice, k: Channel)
    requires c < |s.cpus| && s.cpus[c].sub == Quiet && !choice.Go?
    ensures Pipe(AdvanceStep(s, c, choice), k) == Pipe(s, k) + PushedNow(s, Advance(c, choice), k)
  {
    hide Pipe, PushStep;
    var cpu := s.cpus[c];
    if choice.Submit? && cpu.pc.User? && choice.to < |s.cpus| && choice.to != c
       && Item(c, choice.to, choice.id) !in s.book.stage {
      PushGrowsPipe(s, c, Request(c, choice.to), Item(c, choice.to, choice.id), Unsent, cpu.pc, k);
    } else {
      SamePipe(s, AdvanceStep(s, c, choice), k);
    }
  }

  lemma StepGrowsPipe(s: System, a: Action, k: Channel)
    requires Inv(s)
    ensures Pipe(Step(s, a), k) == Pipe(s, k) + PushedNow(s, a, k)
  {
    hide Inv, Pipe, GoStep, FlushStep, PushStep;
    if a.c < |s.cpus| && a.Advance? {
      var cpu := s.cpus[a.c];
      if cpu.sub.Flushing? {
        FlushKeepsPipe(s, a.c, cpu.sub.k, cpu.sub.moved, k);
      } else if cpu.sub.Alerting? {
        SamePipe(s, Step(s, a), k);
      } else if a.choice.Go? {
        GoGrowsPipe(s, a.c, k);
      } else {
        ChoiceGrowsPipe(s, a.c, a.choice, k);
      }
    } else {
      SamePipe(s, Step(s, a), k);
    }
  }

  /** Under every interleaving, the items pushed into a queue are those that have come through it, those in the
      hand of its consumer, those in its ring and those in its buffer, in this order. */
  lemma {:induction false} PipeIsPushed(n: nat, h: seq<Action>, k: Channel)
    ensures Pipe(Run(n, h), k) == Pushed(n, h, k)
  {
    if h != [] {
      hide Pipe, PushedNow, Inv, Step;
      PipeIsPushed(n, h[..|h| - 1], k);
      RunKeepsInv(n, h[..|h| - 1]);
      StepGrowsPipe(Run(n, h[..|h| - 1]), h[|h| - 1], k);
    }
  }

  /** First in, first out: the items from one CPU to another are processed in the order they were submitted, and
      completed in the order they were sent back. */
  lemma FirstInFirstOut(n: nat, h: seq<Action>, k: Channel)
    ensures Through(Run(n, h).book.log, k) <= Pushed(n, h, k)
  {
    hide Run, Through, Pushed;
    PipeIsPushed(n, h, k);
  }
}
