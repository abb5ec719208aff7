/** If consume_all() freed the slots of the call ring only at its end, a call could be lost.

    129 calls are submitted; 128 fill the call ring.  The worker hands over the first, whose result the CPU collects
    and whose token it releases; the last call is granted, and finds all 128 slots still taken. */
module TakenSlots {
  import opened SyscallPairs
  import Sem = Semaphores

  ghost predicate Reachable(p: Pair) {
    exists h :: Run(AtEnd, h) == p
  }

  lemma ReachStep(p: Pair, a: Action) returns (t: Pair)
    requires Reachable(p)
    ensures Reachable(t) && t == Step(AtEnd, p, a)
  {
    t := Step(AtEnd, p, a);
    var h :| Run(AtEnd, h) == p;
    assert (h + [a])[..|h|] == h;
    assert Run(AtEnd, h + [a]) == t;
  }

  /** The next step of the CPU. */
  lemma Go(p: Pair) returns (t: Pair)
    requires Reachable(p)
    ensures Reachable(t) && t == GoStep(p)
  {
    t := ReachStep(p, Advance(Choice.Go));
  }

  ghost predicate AllCalls(tasks: seq<Task>) {
    forall t <- tasks :: t.Call?
  }

  ghost predicate AllOnes(s: Sem.Sem) {
    forall e <- s.waiting :: e.tokens == 1
  }

  /** The CPU is somewhere, with n granted calls on its task queue, `call` of them pushed, and some tokens and
      waiting requests left. */
  ghost predicate At(p: Pair, pc: Pc, n: nat, call: nat, tokens: nat, waiting: nat) {
    && p.cpu.pc == pc && !p.cpu.flag && !p.cpu.kernel
    && |p.cpu.tasks| == n && AllCalls(p.cpu.tasks)
    && |p.rings.call| == call && p.rings.dropped == []
    && p.room.tokens == tokens && |p.room.waiting| == waiting && AllOnes(p.room)
    && p.io.waiting == [] && p.io.tokens == MAX_IO
  }

  /** The worker has not started. */
  ghost predicate NotStarted(p: Pair) {
    p.worker == Blocked && p.rings.result == [] && p.rings.handed == 0
  }

  lemma {:induction false} SubmitTo(p: Pair, n: nat) returns (t: Pair)
    requires n < QUEUE_SIZE && Reachable(p) && At(p, Ipc, n, 0, QUEUE_SIZE - n, 0) && NotStarted(p)
    ensures Reachable(t) && At(t, Ipc, QUEUE_SIZE - 1, 0, 1, 0) && NotStarted(t)
    decreases QUEUE_SIZE - n
  {
    if n == QUEUE_SIZE - 1 {
      t := p;
    } else {
      var u := ReachStep(p, Advance(Submit));
      hide Reachable;
      assert |Granted(p.room, u.room)| == 1;
      t := SubmitTo(u, n + 1);
    }
  }

  /** A request that has to wait. */
  lemma SubmitMore(p: Pair, n: nat, waiting: nat) returns (t: Pair)
    requires Reachable(p) && At(p, Ipc, n, 0, 1, waiting) && NotStarted(p)
    ensures Reachable(t) && At(t, Ipc, n, 0, 1, waiting + 1) && NotStarted(t)
  {
    t := ReachStep(p, Advance(Submit));
    hide Reachable;
    assert Granted(p.room, t.room) == [];
    assert p.cpu.tasks + Calls([]) == p.cpu.tasks;
  }

  /** Popping nothing. */
  lemma PopNothing(p: Pair, n: nat, call: nat, tokens: nat, waiting: nat) returns (t: Pair)
    requires Reachable(p) && At(p, Ipc, n, call, tokens, waiting) && NotStarted(p)
    ensures Reachable(t) && NotStarted(t) && At(t, Releasing(0), n, call, tokens, waiting)
  {
    hide Reachable, AllCalls, AllOnes;
    var u := Go(p);
    u := Go(u);
    t := Go(u);
  }

  /** A release that leaves at most one free token goes to the front request. */
  lemma ReleasedToFront(s: Sem.Sem, nr: nat)
    requires s.waiting != [] && AllOnes(s) && s.tokens + nr <= 1
    ensures var t := Sem.Step(s, Sem.Release(Tokens(nr)));
            && t.tokens == 0 && |t.waiting| == |s.waiting| - s.tokens - nr && AllOnes(t)
            && |Granted(s, t)| == s.tokens + nr
  {
  }

  /** poll_results() grants the front request, if the tokens released allow it. */
  lemma ReleaseSome(p: Pair, nr: nat, n: nat, call: nat, tokens: nat, waiting: nat) returns (t: Pair)
    requires Reachable(p) && At(p, Releasing(nr), n, call, tokens, waiting) && waiting > 0 && tokens + nr <= 1
    ensures Reachable(t) && t.worker == p.worker && t.rings == p.rings
    ensures At(t, Events, n + tokens + nr, call, 0, waiting - tokens - nr)
  {
    t := Go(p);
    ReleasedToFront(p.room, nr);
    hide Reachable, AllOnes, Sem.Step, Granted, Tokens;
  }

  /** reap_io() without events, and the decision to run tasks. */
  lemma ReapNothing(p: Pair, n: nat, call: nat, tokens: nat, waiting: nat) returns (t: Pair)
    requires Reachable(p) && At(p, Events, n, call, tokens, waiting) && n > 0
    ensures Reachable(t) && t.worker == p.worker && t.rings == p.rings
    ensures At(t, Batch(0), n, call, tokens, waiting)
  {
    hide Reachable, AllOnes;
    var u := Go(p);
    var v := Go(u);
    assert Granted(u.io, v.io) == [] && u.cpu.tasks + StartIos([]) == u.cpu.tasks;
    hide AllCalls;
    t := Go(v);
  }

  /** From user code to the task loop, with at most one more call granted. */
  lemma Around(p: Pair, n: nat, call: nat, tokens: nat, waiting: nat) returns (t: Pair)
    requires Reachable(p) && At(p, Ipc, n, call, tokens, waiting) && NotStarted(p)
    requires waiting > 0 && tokens <= 1 && n + tokens > 0
    ensures Reachable(t) && NotStarted(t) && At(t, Batch(0), n + tokens, call, 0, waiting - tokens)
  {
    hide Reachable;
    var u := PopNothing(p, n, call, tokens, waiting);
    var v := ReleaseSome(u, 0, n, call, tokens, waiting);
    t := ReapNothing(v, n + tokens, call, 0, waiting - tokens);
  }

  // ---------------------------------------------------------------------------------------------
  // The call ring fills up

  lemma PushOne(p: Pair, i: nat, n: nat, call: nat) returns (t: Pair)
    requires Reachable(p) && At(p, Batch(i), n, call, 0, 1) && NotStarted(p) && i < 8 && n > 0 && call < QUEUE_SIZE
    ensures Reachable(t) && NotStarted(t) && At(t, Batch(i + 1), n - 1, call + 1, 0, 1) && t.rings.counter > 0
  {
    assert p.cpu.tasks[0] in p.cpu.tasks;
    assert forall x <- p.cpu.tasks[1..] :: x in p.cpu.tasks;
    var u := Go(p);
    t := Go(u);
    hide Reachable, AllOnes;
  }

  /** From the end of the task loop to user code. */
  lemma NextRound(p: Pair, i: nat, n: nat, call: nat, waiting: nat) returns (t: Pair)
    requires Reachable(p) && At(p, Batch(i), n, call, 0, waiting) && (i >= 8 || n == 0)
    ensures Reachable(t) && At(t, Ipc, n, call, 0, waiting) && t.worker == p.worker && t.rings == p.rings
  {
    hide Reachable, AllCalls, AllOnes;
    var u := Go(p);
    u := Go(u);
    t := Go(u);
  }

  lemma {:induction false} PushAll(p: Pair, i: nat, n: nat, call: nat) returns (t: Pair, j: nat)
    requires Reachable(p) && At(p, Batch(i), n, call, 0, 1) && NotStarted(p) && n + call == QUEUE_SIZE && i <= 8
    requires n == 0 ==> p.rings.counter > 0
    ensures Reachable(t) && NotStarted(t) && At(t, Batch(j), 0, QUEUE_SIZE, 0, 1) && t.rings.counter > 0
    decreases n, i
  {
    hide Reachable, At, NotStarted;
    if n == 0 {
      t, j := p, i;
    } else if i < 8 {
      var u := PushOne(p, i, n, call);
      t, j := PushAll(u, i + 1, n - 1, call + 1);
    } else {
      var u := NextRound(p, i, n, call, 1);
      StillNotStarted(p, u);
      u := Around(u, n, call, 0, 1);
      t, j := PushAll(u, 0, n, call);
    }
  }

  lemma StillNotStarted(p: Pair, t: Pair)
    requires NotStarted(p) && t.worker == p.worker && t.rings == p.rings
    ensures NotStarted(t)
  {
  }

  // ---------------------------------------------------------------------------------------------
  // The worker hands one call over, and the last call finds no slot

  lemma Work(p: Pair) returns (t: Pair)
    requires Reachable(p)
    ensures Reachable(t) && t == WorkStep(AtEnd, p, false)
  {
    t := ReachStep(p, Action.Work(false));
  }

  lemma HandOver(p: Pair, i: nat) returns (t: Pair)
    requires Reachable(p) && NotStarted(p) && At(p, Batch(i), 0, QUEUE_SIZE, 0, 1) && p.rings.counter > 0
    ensures Reachable(t) && At(t, Batch(i), 0, QUEUE_SIZE - 1, 0, 1) && t.rings.handed == 1 && |t.rings.result| == 1
  {
    hide Reachable, AllCalls, AllOnes;
    var u := Work(p);
    u := Work(u);
    u := Work(u);
    t := Work(u);
  }

  /** poll_results() with one result. */
  lemma Collect(p: Pair, call: nat) returns (t: Pair)
    requires Reachable(p) && At(p, Ipc, 0, call, 0, 1) && |p.rings.result| == 1
    ensures Reachable(t) && At(t, Releasing(1), 0, call, 0, 1) && t.rings.handed == p.rings.handed
  {
    hide Reachable, AllCalls, AllOnes;
    var u := Go(p);
    u := Go(u);
    u := Go(u);
    t := Go(u);
  }

  /** The assumption that slots are freed as items are handed over is needed: without it, a call can be dropped. */
  lemma ACallCanBeDropped()
    ensures exists h :: Run(AtEnd, h).rings.dropped != []
  {
    var p := Submitted();
    var i;
    p, i := PushAll(p, 0, QUEUE_SIZE, 0);
    p := HandOver(p, i);
    var call := QUEUE_SIZE - 1;
    hide At, Reachable;
    p := NextRound(p, i, 0, call, 1);
    p := Collect(p, call);
    p := ReleaseSome(p, 1, 0, call, 0, 1);
    p := ReapNothing(p, 1, call, 0, 0);
    p := DropLast(p, call);
    HasHistory(p);
  }

  /** 129 calls have been submitted, and 128 granted. */
  lemma Submitted() returns (t: Pair)
    ensures Reachable(t) && NotStarted(t) && At(t, Batch(0), QUEUE_SIZE, 0, 0, 1)
  {
    assert Run(AtEnd, []) == Init();
    assert Reachable(Init());
    var p := Go(Init());
    p := Go(p);
    assert At(p, Ipc, 0, 0, QUEUE_SIZE, 0) && NotStarted(p);
    hide Reachable, At, NotStarted;
    p := SubmitTo(p, 0);
    p := SubmitMore(p, QUEUE_SIZE - 1, 0);
    p := SubmitMore(p, QUEUE_SIZE - 1, 1);
    t := Around(p, QUEUE_SIZE - 1, 0, 1, 2);
  }

  lemma DropLast(p: Pair, call: nat) returns (t: Pair)
    requires Reachable(p) && At(p, Batch(0), 1, call, 0, 0) && call + p.rings.handed == QUEUE_SIZE
    ensures Reachable(t) && t.rings.dropped != []
  {
    assert p.cpu.tasks[0] in p.cpu.tasks;
    t := Go(p);
    hide Reachable;
  }

  lemma HasHistory(p: Pair)
    requires Reachable(p) && p.rings.dropped != []
    ensures exists h :: Run(AtEnd, h).rings.dropped != []
  {
  }
}
