/** The steps of the CPUs, left alone, do what the methods of the queues do. */
module Refinements {
  import opened CrossCpu
  import opened Lifecycles
  import Spsc = SpscQueues

  function SubRank(sub: Sub): nat {
    match sub
    case Flushing(_, _) => 2
    case Alerting(_) => 1
    case Quiet => 0
  }

  /** How much is left of a flush. */
  function Rest(s: System, sub: Sub): nat {
    if sub.Flushing? then |Buffer(s.net, sub.k)| else 0
  }

  /** The steps of CPU c, with nothing in between, until the flush and the wakeup it is in are over. */
  ghost function LeftAlone(s: System, c: nat): System
    requires c < |s.cpus|
    decreases if c < |s.cpus| then SubRank(s.cpus[c].sub) else 0, if c < |s.cpus| then Rest(s, s.cpus[c].sub) else 0
  {
    if s.cpus[c].sub == Quiet then s else LeftAlone(AdvanceStep(s, c, Choice.Go), c)
  }

  /** From s to t, n items have gone from the buffer of k to its ring, and the buffer has got x before, if any; the
      consumer has a signal pending if anything has gone, or had one already; and CPU c goes on. */
  ghost predicate Delivers(s: System, t: System, c: nat, k: Channel, all: seq<Item>, n: nat, pc: Pc)
    requires c < |s.cpus| && Consumer(k) < |s.cpus| && n <= |all|
  {
    var d := Consumer(k);
    && |t.cpus| == |s.cpus|
    && Buffer(t.net, k) == all[n..] && Ring(t.net, k) == Ring(s.net, k) + all[..n]
    && (forall j :: j != k ==> Buffer(t.net, j) == Buffer(s.net, j) && Ring(t.net, j) == Ring(s.net, j))
    && (t.cpus[d].kernel <==> s.cpus[d].kernel || n > 0)
    && (forall e :: 0 <= e < |s.cpus| && e != c && e != d ==> t.cpus[e] == s.cpus[e])
    && t.cpus[d] == s.cpus[d].(kernel := t.cpus[d].kernel)
    && t.cpus[c] == s.cpus[c].(sub := Quiet, pc := pc, active := s.cpus[c].active || (n > 0 && pc.Queues?))
    && t.book == s.book.(stage := t.book.stage)
  }

  /** As many as fit into the ring, of the items in the buffer. */
  ghost predicate Fits(all: seq<Item>, ring: seq<Item>, n: nat) {
    && n <= |all| && |ring| + n <= 1024
    && (n == |all| || |ring| + n == 1024)
  }

  /** From s to t, a flush of k by CPU c, which had `moved` something already, has moved n items and come to its end. */
  ghost predicate FlushedBy(s: System, t: System, c: nat, k: Channel, moved: bool, n: nat)
    requires c < |s.cpus| && Consumer(k) < |s.cpus| && n <= |Buffer(s.net, k)|
  {
    var d := Consumer(k);
    && Buffer(t.net, k) == Buffer(s.net, k)[n..] && Ring(t.net, k) == Ring(s.net, k) + Buffer(s.net, k)[..n]
    && (forall j :: j != k ==> Buffer(t.net, j) == Buffer(s.net, j) && Ring(t.net, j) == Ring(s.net, j))
    && t.cpus == s.cpus[c := AfterFlush(s.cpus[c], k, moved || n > 0).(sub := Quiet)]
                       [d := s.cpus[d].(kernel := s.cpus[d].kernel || moved || n > 0)]
    && t.book == s.book.(stage := t.book.stage)
  }

  lemma Unfolded(s: System, c: nat)
    requires c < |s.cpus| && s.cpus[c].sub != Quiet
    ensures LeftAlone(s, c) == LeftAlone(AdvanceStep(s, c, Choice.Go), c)
  {
  }

  lemma Over(s: System, c: nat)
    requires c < |s.cpus| && s.cpus[c].sub == Quiet
    ensures LeftAlone(s, c) == s
  {
  }

  /** The end of a flush, and the wakeup. */
  lemma NothingMoves(s: System, c: nat, k: Channel, moved: bool)
    requires c < |s.cpus| && Consumer(k) < |s.cpus| && Consumer(k) != c && s.cpus[c].sub == Flushing(k, moved)
    requires Buffer(s.net, k) == [] || |Ring(s.net, k)| >= Spsc.RING_CAPACITY
    ensures FlushedBy(s, LeftAlone(s, c), c, k, moved, 0)
  {
    hide LeftAlone;
    Unfolded(s, c);
    var u := FlushStep(s, c, k, moved);
    if moved {
      Unfolded(u, c);
      Over(AlertStep(u, c, k), c);
    } else {
      Over(u, c);
    }
  }

  /** A turn of its loop. */
  lemma OneMoves(s: System, t: System, c: nat, k: Channel, moved: bool, n: nat)
    requires c < |s.cpus| && Consumer(k) < |s.cpus| && Consumer(k) != c && s.cpus[c].sub == Flushing(k, moved)
    requires Buffer(s.net, k) != [] && |Ring(s.net, k)| < Spsc.RING_CAPACITY && 0 < n <= |Buffer(s.net, k)|
    requires FlushedBy(FlushStep(s, c, k, moved), t, c, k, true, n - 1)
    ensures FlushedBy(s, t, c, k, moved, n)
  {
    var u, buffer := FlushStep(s, c, k, moved), Buffer(s.net, k);
    assert Buffer(u.net, k) == buffer[1..] && Ring(u.net, k) == Ring(s.net, k) + [buffer[0]];
    assert buffer[..n] == [buffer[0]] + buffer[1..][..n - 1] && buffer[n..] == buffer[1..][n - 1..];
  }

  /** A flush, left alone. */
  lemma {:induction false} FlushLeftAlone(s: System, c: nat, k: Channel, moved: bool, n: nat)
    requires c < |s.cpus| && Consumer(k) < |s.cpus| && Consumer(k) != c && s.cpus[c].sub == Flushing(k, moved)
    requires Fits(Buffer(s.net, k), Ring(s.net, k), n)
    ensures FlushedBy(s, LeftAlone(s, c), c, k, moved, n)
    decreases n
  {
    hide LeftAlone, FlushedBy;
    if n == 0 {
      NothingMoves(s, c, k, moved);
    } else {
      var u := FlushStep(s, c, k, moved);
      Unfolded(s, c);
      FlushLeftAlone(u, c, k, true, n - 1);
      OneMoves(s, LeftAlone(u, c), c, k, moved, n);
    }
  }

  /** push(), with the flush and the wakeup that follow, left alone: below eight buffered items the item is buffered
      and nobody is signalled; from eight on, as many as fit go to the ring, and the consumer is signalled if any do. */
  lemma PushLeftAlone(s: System, c: nat, k: Channel, x: Item, st: Stage, pc: Pc, n: nat)
    requires c < |s.cpus| && Consumer(k) < |s.cpus| && Consumer(k) != c && |Ring(s.net, k)| <= Spsc.RING_CAPACITY
    requires var all := Buffer(s.net, k) + [x]; if |all| < 8 then n == 0 else Fits(all, Ring(s.net, k), n)
    requires !pc.Queues?
    ensures Delivers(s, LeftAlone(PushStep(s, c, k, x, st, pc), c), c, k, Buffer(s.net, k) + [x], n, pc)
  {
    hide LeftAlone;
    var u, all := PushStep(s, c, k, x, st, pc), Buffer(s.net, k) + [x];
    assert Buffer(u.net, k) == all && Ring(u.net, k) == Ring(s.net, k);
    if |all| < 8 {
      Over(u, c);
      assert all[0..] == all && Ring(s.net, k) + all[..0] == Ring(s.net, k);
    } else {
      FlushLeftAlone(u, c, k, false, n);
    }
  }

  // ---------------------------------------------------------------------------------------------
  // In any run

  /** submit_() in user code, as CrossCpuQueue.Submit does it. */
  lemma SubmitLeftAlone(n: nat, h: seq<Action>, c: nat, to: nat, id: nat, m: nat)
    requires c < n && to < n && to != c && |Run(n, h).cpus| == n
    requires var cpu := Run(n, h).cpus[c]; cpu.sub == Quiet && cpu.pc.User?
    requires Item(c, to, id) !in Run(n, h).book.stage
    requires var s, k := Run(n, h), Request(c, to); var all := Buffer(s.net, k) + [Item(c, to, id)];
             if |all| < 8 then m == 0 else Fits(all, Ring(s.net, k), m)
    ensures var s, k := Run(n, h), Request(c, to);
            var t := Step(s, Advance(c, Choice.Submit(to, id)));
            && |t.cpus| == n
            && Delivers(s, LeftAlone(t, c), c, k, Buffer(s.net, k) + [Item(c, to, id)], m, s.cpus[c].pc)
  {
    RunKeepsInv(n, h);
    assert ChannelOk(Run(n, h).net, Request(c, to));
    hide Run, Inv, Delivers, LeftAlone, PushStep;
    PushLeftAlone(Run(n, h), c, Request(c, to), Item(c, to, id), Unsent, Run(n, h).cpus[c].pc, m);
  }

  /** respond_() in the continuation of a handler, as CrossCpuQueue.Respond does it. */
  lemma RespondLeftAlone(n: nat, h: seq<Action>, c: nat, i: nat, x: Item, m: nat)
    requires c < n && |Run(n, h).cpus| == n && i < 8
    requires var cpu := Run(n, h).cpus[c];
             cpu.sub == Quiet && cpu.pc == Batch(i) && cpu.tasks != [] && cpu.tasks[0] == Respond(x)
    requires var s, k := Run(n, h), Response(x.from, x.to); var all := Buffer(s.net, k) + [x];
             if |all| < 8 then m == 0 else Fits(all, Ring(s.net, k), m)
    ensures var s, k := Run(n, h), Response(x.from, x.to);
            var taken := Put(s, c, s.cpus[c].(tasks := s.cpus[c].tasks[1..]));
            var t := Step(s, Advance(c, Choice.Go));
            && |t.cpus| == n && x.from < n && x.from != c
            && Delivers(taken, LeftAlone(t, c), c, k, Buffer(s.net, k) + [x], m, Batch(i + 1))
  {
    RunKeepsInv(n, h);
    var s, k := Run(n, h), Response(x.from, x.to);
    assert ChannelOk(s.net, k) && CpuOk(s, c) && s.cpus[c].tasks[0] in s.cpus[c].tasks;
    assert TaskOk(n, c, s.cpus[c].tasks[0]);
    hide Run, Inv, Delivers, LeftAlone, PushStep, CpuOk;
    PushLeftAlone(Put(s, c, s.cpus[c].(tasks := s.cpus[c].tasks[1..])), c, k, x, Answered, Batch(i + 1), m);
  }

  /** flush_tx() and flush_rx() of poll_queues(), as CrossCpuQueue.FlushTx and FlushRx do them. */
  lemma FlushTurnLeftAlone(n: nat, h: seq<Action>, c: nat, j: nat, turn: Turn, m: nat)
    requires c < n && j < n && j != c && |Run(n, h).cpus| == n && (turn.FlushTx? || turn.FlushRx?)
    requires Run(n, h).cpus[c].sub == Quiet && Run(n, h).cpus[c].pc == Queues(j, turn)
    requires var s, k := Run(n, h), if turn.FlushTx? then Request(c, j) else Response(j, c);
             Fits(Buffer(s.net, k), Ring(s.net, k), m)
    ensures var s, k := Run(n, h), if turn.FlushTx? then Request(c, j) else Response(j, c);
            var t := Step(s, Advance(c, Choice.Go));
            && |t.cpus| == n
            && Delivers(s, LeftAlone(t, c), c, k, Buffer(s.net, k), m,
                        Queues(j, if turn.FlushTx? then PollRx else PollTx))
  {
    hide Run, LeftAlone;
    var s, k := Run(n, h), if turn.FlushTx? then Request(c, j) else Response(j, c);
    var t := Step(s, Advance(c, Choice.Go));
    FlushLeftAlone(t, c, k, false, m);
  }

  /** poll_tx() and poll_rx(): a batch of up to eight items, in order, comes out of the ring and into the hand of the
      CPU, which notes that it has found something; nobody is signalled. */
  lemma PollTakesABatch(n: nat, h: seq<Action>, c: nat, j: nat, turn: Turn)
    requires c < n && j < n && j != c && |Run(n, h).cpus| == n && (turn.PollTx? || turn.PollRx?)
    requires Run(n, h).cpus[c].sub == Quiet && Run(n, h).cpus[c].pc == Queues(j, turn)
    ensures var s, k := Run(n, h), if turn.PollTx? then Request(j, c) else Response(c, j);
            var t := Step(s, Advance(c, Choice.Go));
            && |t.cpus| == n
            && var batch := if turn.PollTx? then Fetching(t.cpus[c]) else Collecting(t.cpus[c]);
            && batch + Ring(t.net, k) == Ring(s.net, k)
            && |batch| == (if |Ring(s.net, k)| < 8 then |Ring(s.net, k)| else 8)
            && t.net.buffer == s.net.buffer && (forall i :: i != k ==> Ring(t.net, i) == Ring(s.net, i))
            && t.cpus == s.cpus[c := t.cpus[c]] && t.cpus[c].kernel == s.cpus[c].kernel
            && (t.cpus[c].active <==> s.cpus[c].active || batch != [])
  {
    hide Run;
  }
}
