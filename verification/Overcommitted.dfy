/** With one item more outstanding than a ring can hold, CPUs can fall asleep over an item nobody will ever see.

    CPU 0 submits 1025 items to CPU 1 in one task and sleeps: the last one stays in its buffer.  CPU 1 takes the
    others out of the ring, which tells CPU 0 nothing, starts their handlers, and sleeps as well. */
module Overcommitted {
  import opened CrossCpu
  import opened Deadlocks
  import opened Lifecycles
  import Spsc = SpscQueues

  ghost predicate Reachable(s: System) {
    exists h :: Run(2, h) == s
  }

  lemma ReachStep(s: System, a: Action)
    requires Reachable(s)
    ensures Reachable(Step(s, a))
  {
    var h :| Run(2, h) == s;
    assert (h + [a])[..|h|] == h;
    assert Run(2, h + [a]) == Step(s, a);
  }

  /** The next step of CPU c. */
  lemma Go(s: System, c: nat) returns (t: System)
    requires Reachable(s) && c < |s.cpus|
    ensures Reachable(t) && t == AdvanceStep(s, c, Choice.Go)
  {
    t := Step(s, Advance(c, Choice.Go));
    ReachStep(s, Advance(c, Choice.Go));
  }

  const BUSY := Request(0, 1)

  ghost predicate SameNet(s: System, t: System) {
    forall k :: Buffer(t.net, k) == Buffer(s.net, k) && Ring(t.net, k) == Ring(s.net, k)
  }

  /** t is s but for where CPU c is. */
  ghost predicate Moved(s: System, t: System, c: nat, pc: Pc, sub: Sub, active: bool) {
    && c < |s.cpus|
    && t.cpus == s.cpus[c := s.cpus[c].(pc := pc, sub := sub, active := active)]
    && SameNet(s, t) && t.book.stage == s.book.stage
  }

  /** Nothing is in any channel but BUSY. */
  ghost predicate OthersEmpty(net: Network) {
    forall k :: k != BUSY ==> Buffer(net, k) == [] && Ring(net, k) == []
  }

  lemma StillEmpty(net: Network, next: Network)
    requires OthersEmpty(net)
    requires forall k :: k != BUSY ==> Buffer(next, k) == Buffer(net, k) && Ring(next, k) == Ring(net, k)
    ensures OthersEmpty(next)
  {
  }

  ghost function Ids(m: nat): set<Item> {
    set i: nat | i < m :: Item(0, 1, i)
  }

  lemma {:induction false} IdsCount(m: nat)
    ensures |Ids(m)| == m
  {
    if m > 0 {
      IdsCount(m - 1);
      assert Ids(m) == Ids(m - 1) + {Item(0, 1, m - 1)};
    }
  }

  /** The items 0 to m - 1 have been submitted, and none is completed; r are in the ring and b in the buffer. */
  ghost predicate Loaded(s: System, m: nat, r: nat, b: nat) {
    && |s.cpus| == 2 && OthersEmpty(s.net)
    && |Ring(s.net, BUSY)| == r && |Buffer(s.net, BUSY)| == b
    && s.book.stage.Keys == Ids(m) && (forall x <- s.book.stage :: s.book.stage[x] != Completed)
    && (forall x <- Buffer(s.net, BUSY) :: x in Ids(m)) && (forall x <- Ring(s.net, BUSY) :: x in Ids(m))
  }

  // ---------------------------------------------------------------------------------------------
  // A round of polling that finds nothing

  /** A flush of a channel that is stuck, or has nothing to flush. */
  lemma FlushNothing(s: System, c: nat, k: Channel, pc: Pc) returns (t: System)
    requires Reachable(s) && c < |s.cpus| && s.cpus[c].sub == Flushing(k, false) && s.cpus[c].pc == pc
    requires |Ring(s.net, k)| == Spsc.RING_CAPACITY || Buffer(s.net, k) == []
    ensures Reachable(t) && Moved(s, t, c, pc, Quiet, s.cpus[c].active)
  {
    t := Go(s, c);
  }

  lemma PopNothing(s: System, c: nat, k: Channel) returns (t: System)
    requires Reachable(s) && c < |s.cpus| && s.cpus[c].sub == Quiet && Ring(s.net, k) == []
    requires k.from < |s.cpus| && k.to < |s.cpus| && k.from != k.to && Consumer(k) == c
    requires s.cpus[c].pc == Queues(Producer(k), if k.Request? then PollTx else PollRx)
    ensures Reachable(t) && Moved(s, t, c, Popped(k, []), Quiet, s.cpus[c].active)
  {
    t := Go(s, c);
    assert Ring(s.net, k)[..0] == [] && Ring(s.net, k)[0..] == [];
    assert t.book.stage == s.book.stage;
  }

  lemma MovedOn(s: System, t: System, u: System, c: nat, pc: Pc, sub: Sub, a: bool, pc2: Pc, sub2: Sub, a2: bool)
    requires Moved(s, t, c, pc, sub, a) && Moved(t, u, c, pc2, sub2, a2)
    ensures Moved(s, u, c, pc2, sub2, a2)
  {
  }

  lemma StartFlush(s: System, c: nat, j: nat, turn: Turn) returns (t: System)
    requires Reachable(s) && c < |s.cpus| && j < |s.cpus| && c != j && (turn.FlushTx? || turn.FlushRx?)
    requires s.cpus[c].pc == Queues(j, turn) && s.cpus[c].sub == Quiet
    ensures Reachable(t)
    ensures turn.FlushTx? ==> Moved(s, t, c, Queues(j, PollRx), Flushing(Request(c, j), false), s.cpus[c].active)
    ensures turn.FlushRx? ==> Moved(s, t, c, Queues(j, PollTx), Flushing(Response(j, c), false), s.cpus[c].active)
  {
    t := Go(s, c);
  }

  /** A flush and a poll of poll_queues(), with nothing to do. */
  lemma FlushAndPoll(s: System, c: nat, j: nat, turn: Turn) returns (t: System)
    requires Reachable(s) && c < |s.cpus| && j < |s.cpus| && c != j && (turn.FlushTx? || turn.FlushRx?)
    requires s.cpus[c].pc == Queues(j, turn) && s.cpus[c].sub == Quiet
    requires var k := if turn.FlushTx? then Request(c, j) else Response(j, c);
             |Ring(s.net, k)| == Spsc.RING_CAPACITY || Buffer(s.net, k) == []
    requires Ring(s.net, if turn.FlushTx? then Response(c, j) else Request(j, c)) == []
    ensures Reachable(t)
    ensures Moved(s, t, c, if turn.FlushTx? then Queues(j, FlushRx) else Queues(j + 1, FlushTx), Quiet,
                  s.cpus[c].active)
  {
    hide Reachable;
    var mid := if turn.FlushTx? then Queues(j, PollRx) else Queues(j, PollTx);
    var out := if turn.FlushTx? then Request(c, j) else Response(j, c);
    var inc := if turn.FlushTx? then Response(c, j) else Request(j, c);
    var u := StartFlush(s, c, j, turn);
    var v := FlushNothing(u, c, out, mid);
    t := PopNothing(v, c, inc);
    hide Buffer, Ring;
    MovedOn(s, u, v, c, mid, Flushing(out, false), s.cpus[c].active, mid, Quiet, s.cpus[c].active);
    MovedOn(s, v, t, c, mid, Quiet, s.cpus[c].active, Popped(inc, []), Quiet, s.cpus[c].active);
  }

  /** Nothing to do for a peer. */
  ghost predicate IdlePeer(s: System, c: nat, j: nat) {
    && (|Ring(s.net, Request(c, j))| == Spsc.RING_CAPACITY || Buffer(s.net, Request(c, j)) == [])
    && Ring(s.net, Response(c, j)) == [] && Buffer(s.net, Response(j, c)) == [] && Ring(s.net, Request(j, c)) == []
  }

  lemma PollPeer(s: System, c: nat, j: nat) returns (t: System)
    requires Reachable(s) && c < |s.cpus| && j < |s.cpus| && c != j && IdlePeer(s, c, j)
    requires s.cpus[c].pc == Queues(j, FlushTx) && s.cpus[c].sub == Quiet
    ensures Reachable(t) && Moved(s, t, c, Queues(j + 1, FlushTx), Quiet, s.cpus[c].active)
  {
    hide Reachable;
    var u := FlushAndPoll(s, c, j, FlushTx);
    t := FlushAndPoll(u, c, j, FlushRx);
    hide Buffer, Ring;
    MovedOn(s, u, t, c, Queues(j, FlushRx), Quiet, s.cpus[c].active, Queues(j + 1, FlushTx), Quiet, s.cpus[c].active);
  }

  lemma SkipSelf(s: System, c: nat) returns (t: System)
    requires Reachable(s) && c < |s.cpus| && s.cpus[c].pc == Queues(c, FlushTx) && s.cpus[c].sub == Quiet
    ensures Reachable(t) && Moved(s, t, c, Queues(c + 1, FlushTx), Quiet, s.cpus[c].active)
  {
    t := Go(s, c);
  }

  lemma LastPeer(s: System, c: nat) returns (t: System)
    requires Reachable(s) && c < |s.cpus| && s.cpus[c].pc == Queues(|s.cpus|, FlushTx) && s.cpus[c].sub == Quiet
    ensures Reachable(t) && Moved(s, t, c, CrossCpu.Others, Quiet, s.cpus[c].active)
  {
    t := Go(s, c);
  }

  /** poll_queues() on either of two CPUs, with nothing to do. */
  lemma PollAll(s: System, c: nat) returns (t: System)
    requires Reachable(s) && |s.cpus| == 2 && c < 2 && IdlePeer(s, c, 1 - c)
    requires s.cpus[c].pc == Queues(0, FlushTx) && s.cpus[c].sub == Quiet
    ensures Reachable(t) && Moved(s, t, c, CrossCpu.Others, Quiet, s.cpus[c].active)
  {
    hide Reachable;
    var active, u, v := s.cpus[c].active, s, s;
    if c == 0 {
      u := SkipSelf(s, 0);
      v := PollPeer(u, 0, 1);
    } else {
      u := PollPeer(s, 1, 0);
      v := SkipSelf(u, 1);
    }
    t := LastPeer(v, c);
    hide Buffer, Ring;
    MovedOn(s, u, v, c, Queues(1, FlushTx), Quiet, active, Queues(2, FlushTx), Quiet, active);
    MovedOn(s, v, t, c, Queues(2, FlushTx), Quiet, active, CrossCpu.Others, Quiet, active);
  }

  /** A CPU with no task and no signal goes to sleep from the start of its loop. */
  lemma FallAsleep(s: System, c: nat) returns (t: System)
    requires Reachable(s) && |s.cpus| == 2 && c < 2 && IdlePeer(s, c, 1 - c)
    requires s.cpus[c].pc == Start && s.cpus[c].sub == Quiet && s.cpus[c].tasks == []
    requires !s.cpus[c].kernel && !s.cpus[c].flag
    ensures Reachable(t) && Moved(s, t, c, Parked, Quiet, false)
  {
    hide Reachable;
    var u := Go(s, c);
    var v := Go(u, c);
    var w := PollAll(v, c);
    hide Buffer, Ring;
    assert Moved(s, v, c, Queues(0, FlushTx), Quiet, false);
    MovedOn(s, v, w, c, Queues(0, FlushTx), Quiet, false, CrossCpu.Others, Quiet, false);
    t := Rest(w, c);
    MovedOn(s, w, t, c, CrossCpu.Others, Quiet, false, Parked, Quiet, false);
  }

  /** Deciding to sleep, with no task and no signal. */
  lemma Rest(s: System, c: nat) returns (t: System)
    requires Reachable(s) && c < |s.cpus| && s.cpus[c].pc == CrossCpu.Others && s.cpus[c].sub == Quiet
    requires s.cpus[c].tasks == [] && !s.cpus[c].active && !s.cpus[c].kernel && !s.cpus[c].flag
    ensures Reachable(t) && Moved(s, t, c, Parked, Quiet, false)
  {
    hide Reachable, Buffer, Ring;
    var u := Go(s, c);
    var v := Go(u, c);
    assert Moved(s, v, c, Idle, Quiet, false);
    u := Go(v, c);
    var w := Go(u, c);
    assert Moved(v, w, c, Waiting, Quiet, false);
    t := Go(w, c);
    assert Moved(w, t, c, Parked, Quiet, false);
    MovedOn(s, v, w, c, Idle, Quiet, false, Waiting, Quiet, false);
    MovedOn(s, w, t, c, Waiting, Quiet, false, Parked, Quiet, false);
  }

  // ---------------------------------------------------------------------------------------------
  // CPU 0 submits

  /** CPU 1 has yet to do anything. */
  ghost predicate Fresh(cpu: Cpu) {
    cpu == Cpu(Start, Quiet, false, cpu.kernel, false, [])
  }

  /** CPU 0 is in user code, and has submitted the items 0 to m - 1. */
  ghost predicate Submitting(s: System, m: nat, r: nat, b: nat, sub: Sub) {
    && Loaded(s, m, r, b) && Fresh(s.cpus[1])
    && s.cpus[0] == Cpu(User(FromBatch(1)), sub, false, false, false, [])
  }

  lemma Begin() returns (t: System)
    ensures Reachable(t) && Submitting(t, 0, 0, 0, Quiet)
  {
    var s := Init(2);
    assert Run(2, []) == s;
    assert Reachable(s);
    assert Loaded(s, 0, 0, 0);
    hide Reachable;
    var u := Go(s, 0);
    u := Go(u, 0);
    u := PollAll(u, 0);
    t := EnterTask(u);
  }

  /** A poller schedules a task, and the task loop starts it. */
  lemma EnterTask(s: System) returns (t: System)
    requires Reachable(s) && Loaded(s, 0, 0, 0) && Fresh(s.cpus[1])
    requires s.cpus[0] == Cpu(CrossCpu.Others, Quiet, false, false, false, [])
    ensures Reachable(t) && Submitting(t, 0, 0, 0, Quiet)
  {
    hide Reachable, Buffer, Ring, OthersEmpty;
    ReachStep(s, Advance(0, Spawn));
    var u := Step(s, Advance(0, Spawn));
    assert u.cpus[0] == Cpu(CrossCpu.Others, Quiet, false, false, false, [Other]);
    u := Go(u, 0);
    u := Go(u, 0);
    t := Go(u, 0);
  }

  lemma SubmitStep(s: System, m: nat, r: nat, b: nat) returns (t: System)
    requires Reachable(s) && Submitting(s, m, r, b, Quiet) && b < Spsc.FLUSH_THRESHOLD
    ensures Reachable(t)
    ensures Submitting(t, m + 1, r, b + 1, if b + 1 < Spsc.FLUSH_THRESHOLD then Quiet else Flushing(BUSY, false))
  {
    var x := Item(0, 1, m);
    t := Step(s, Advance(0, Submit(1, m)));
    ReachStep(s, Advance(0, Submit(1, m)));
    hide Reachable;
    assert x !in Ids(m) && Ids(m + 1) == Ids(m) + {x};
    assert t.book.stage == s.book.stage[x := Unsent];
    assert t.book.stage.Keys == Ids(m + 1);
    StillEmpty(s.net, t.net);
  }

  lemma MoveOne(s: System, m: nat, r: nat, b: nat, moved: bool) returns (t: System)
    requires Reachable(s) && Submitting(s, m, r, b, Flushing(BUSY, moved)) && b > 0 && r < Spsc.RING_CAPACITY
    ensures Reachable(t) && Submitting(t, m, r + 1, b - 1, Flushing(BUSY, true))
  {
    hide Reachable;
    assert Buffer(s.net, BUSY)[0] in Buffer(s.net, BUSY);
    assert forall x <- Buffer(s.net, BUSY)[1..] :: x in Buffer(s.net, BUSY);
    t := Go(s, 0);
    StillEmpty(s.net, t.net);
    assert t.book.stage.Keys == s.book.stage.Keys;
  }

  lemma {:induction false} MoveAll(s: System, m: nat, r: nat, b: nat, moved: bool) returns (t: System)
    requires Reachable(s) && Submitting(s, m, r, b, Flushing(BUSY, moved)) && r + b <= Spsc.RING_CAPACITY
    requires b == 0 ==> moved
    ensures Reachable(t) && Submitting(t, m, r + b, 0, Quiet)
    decreases b
  {
    hide Reachable;
    if b == 0 {
      var u := Go(s, 0);
      assert Submitting(u, m, r, 0, Alerting(BUSY));
      t := Go(u, 0);
    } else {
      var u := MoveOne(s, m, r, b, moved);
      hide Submitting;
      t := MoveAll(u, m, r + 1, b - 1, true);
    }
  }

  /** Submitting until the buffer holds eight items, which then all go to the ring. */
  lemma {:induction false} SubmitEight(s: System, m: nat, r: nat, b: nat) returns (t: System)
    requires Reachable(s) && Submitting(s, m, r, b, Quiet) && b < Spsc.FLUSH_THRESHOLD
    requires r + Spsc.FLUSH_THRESHOLD <= Spsc.RING_CAPACITY
    ensures Reachable(t) && Submitting(t, m + Spsc.FLUSH_THRESHOLD - b, r + Spsc.FLUSH_THRESHOLD, 0, Quiet)
    decreases Spsc.FLUSH_THRESHOLD - b
  {
    hide Reachable, Submitting;
    var u := SubmitStep(s, m, r, b);
    if b + 1 == Spsc.FLUSH_THRESHOLD {
      t := MoveAll(u, m + 1, r, b + 1, false);
    } else {
      t := SubmitEight(u, m + 1, r, b + 1);
    }
  }

  lemma {:induction false} FillRing(s: System, r: nat) returns (t: System)
    requires Reachable(s) && Submitting(s, r, r, 0, Quiet) && r <= Spsc.RING_CAPACITY && r % Spsc.FLUSH_THRESHOLD == 0
    ensures Reachable(t) && Submitting(t, Spsc.RING_CAPACITY, Spsc.RING_CAPACITY, 0, Quiet)
    decreases Spsc.RING_CAPACITY - r
  {
    hide Reachable, Submitting;
    if r == Spsc.RING_CAPACITY {
      t := s;
    } else {
      var u := SubmitEight(s, r, r, 0);
      t := FillRing(u, r + Spsc.FLUSH_THRESHOLD);
    }
  }

  /** CPU 0 sleeps, CPU 1 is at the start of its loop. */
  ghost predicate Draining(s: System, m: nat, r: nat, b: nat) {
    && Loaded(s, m, r, b)
    && s.cpus[0] == Cpu(Parked, Quiet, false, false, false, [])
    && s.cpus[1] == Cpu(Start, Quiet, s.cpus[1].active, s.cpus[1].kernel, s.cpus[1].flag, [])
  }

  /** The task ends, and CPU 0 goes to sleep over the item in its buffer. */
  lemma SleepOverIt(s: System, m: nat, b: nat) returns (t: System)
    requires Reachable(s) && Submitting(s, m, Spsc.RING_CAPACITY, b, Quiet)
    ensures Reachable(t) && Draining(t, m, Spsc.RING_CAPACITY, b)
  {
    hide Reachable;
    var u := Go(s, 0);
    u := Go(u, 0);
    assert IdlePeer(u, 0, 1);
    t := FallAsleep(u, 0);
    StillEmpty(s.net, t.net);
  }

  // ---------------------------------------------------------------------------------------------
  // CPU 1 takes what is in the ring

  /** CPU 1 is in its pollers, with all signals served. */
  ghost predicate Polling(s: System, m: nat, r: nat, b: nat, pc: Pc, active: bool) {
    && Loaded(s, m, r, b)
    && s.cpus[0] == Cpu(Parked, Quiet, false, false, false, [])
    && s.cpus[1] == Cpu(pc, Quiet, active, false, false, [])
  }

  /** The signals so far are served. */
  lemma Serve(s: System, m: nat, r: nat, b: nat) returns (t: System, active: bool)
    requires Reachable(s) && Draining(s, m, r, b)
    ensures Reachable(t) && Polling(t, m, r, b, Queues(0, FlushTx), active)
    ensures !s.cpus[1].kernel && !s.cpus[1].flag ==> !active
  {
    hide Reachable, Buffer, Ring, OthersEmpty, Ids;
    t := Step(s, Deliver(1));
    ReachStep(s, Deliver(1));
    t := Go(t, 1);
    t := Go(t, 1);
    active := false;
    if t.cpus[1].pc == Clear {
      t := Go(t, 1);
      t := Go(t, 1);
      active := true;
    }
  }

  lemma ReachTurn(s: System, m: nat, r: nat, b: nat, active: bool) returns (t: System)
    requires Reachable(s) && Polling(s, m, r, b, Queues(0, FlushRx), active)
    ensures Reachable(t) && Polling(t, m, r, b, Queues(0, PollTx), active)
  {
    hide Reachable;
    var u := StartFlush(s, 1, 0, FlushRx);
    t := FlushNothing(u, 1, Response(0, 1), Queues(0, PollTx));
    StillEmpty(s.net, t.net);
  }

  /** Up to the poll of the ring that CPU 0 has filled. */
  lemma ReachRing(s: System, m: nat, r: nat, b: nat, active: bool) returns (t: System)
    requires Reachable(s) && Polling(s, m, r, b, Queues(0, FlushTx), active)
    ensures Reachable(t) && Polling(t, m, r, b, Queues(0, PollTx), active)
  {
    hide Reachable;
    var u := FlushAndPoll(s, 1, 0, FlushTx);
    StillEmpty(s.net, u.net);
    t := ReachTurn(u, m, r, b, active);
  }

  /** A batch is popped. */
  lemma TakeBatch(s: System, m: nat, r: nat, b: nat, active: bool) returns (t: System, batch: seq<Item>)
    requires Reachable(s) && Polling(s, m, r, b, Queues(0, PollTx), active) && r >= Spsc.BATCH
    ensures Reachable(t) && Polling(t, m, r - Spsc.BATCH, b, Processing(0, batch), true)
    ensures forall x <- batch :: x in Ids(m)
  {
    hide Reachable;
    batch := Ring(s.net, BUSY)[..Spsc.BATCH];
    t := Go(s, 1);
    assert forall x <- Ring(s.net, BUSY)[Spsc.BATCH..] :: x in Ring(s.net, BUSY);
    StillEmpty(s.net, t.net);
    assert t.book.stage.Keys == s.book.stage.Keys;
  }

  /** The handler of an item starts, and its future stays unresolved. */
  lemma HandleOne(s: System, m: nat, r: nat, b: nat, batch: seq<Item>) returns (t: System)
    requires Reachable(s) && Polling(s, m, r, b, Processing(0, batch), true) && batch != [] && batch[0] in Ids(m)
    ensures Reachable(t) && Polling(t, m, r, b, Processing(0, batch[1..]), true)
  {
    hide Reachable;
    var u := Go(s, 1);
    assert u.book.stage.Keys == s.book.stage.Keys;
    StillEmpty(s.net, u.net);
    hide Buffer, Ring, OthersEmpty;
    t := Go(u, 1);
  }

  lemma {:induction false} HandleBatch(s: System, m: nat, r: nat, b: nat, batch: seq<Item>) returns (t: System)
    requires Reachable(s) && Polling(s, m, r, b, Processing(0, batch), true) && forall x <- batch :: x in Ids(m)
    ensures Reachable(t) && Polling(t, m, r, b, Processing(0, []), true)
    decreases |batch|
  {
    if batch == [] {
      t := s;
    } else {
      assert batch[0] in batch && forall x <- batch[1..] :: x in batch;
      hide Reachable, Polling;
      var u := HandleOne(s, m, r, b, batch);
      t := HandleBatch(u, m, r, b, batch[1..]);
    }
  }

  /** The rest of a round in which CPU 1 had something to do. */
  lemma EndRound(s: System, m: nat, r: nat, b: nat) returns (t: System)
    requires Reachable(s) && Polling(s, m, r, b, Processing(0, []), true)
    ensures Reachable(t) && Draining(t, m, r, b) && !t.cpus[1].kernel && !t.cpus[1].flag
  {
    hide Reachable, Buffer, Ring, OthersEmpty, Ids;
    var u := Go(s, 1);
    u := Go(u, 1);
    u := Go(u, 1);
    assert Polling(u, m, r, b, CrossCpu.Others, true);
    u := Go(u, 1);
    u := Go(u, 1);
    t := Go(u, 1);
  }

  /** With the ring empty, CPU 1 sleeps as well. */
  lemma LastToSleep(s: System, m: nat, b: nat) returns (t: System)
    requires Reachable(s) && Draining(s, m, 0, b) && !s.cpus[1].kernel && !s.cpus[1].flag
    ensures Reachable(t) && Loaded(t, m, 0, b) && AllAsleep(t)
  {
    hide Reachable;
    assert IdlePeer(s, 1, 0);
    t := FallAsleep(s, 1);
    StillEmpty(s.net, t.net);
  }

  /** Round by round, CPU 1 empties the ring, and then sleeps. */
  lemma {:induction false} Drain(s: System, m: nat, r: nat, b: nat) returns (t: System)
    requires Reachable(s) && Draining(s, m, r, b) && r % Spsc.BATCH == 0
    requires r == 0 ==> !s.cpus[1].kernel && !s.cpus[1].flag
    ensures Reachable(t) && Loaded(t, m, 0, b) && AllAsleep(t)
    decreases r
  {
    hide Reachable, Draining, Polling, Loaded, AllAsleep;
    if r == 0 {
      t := LastToSleep(s, m, b);
    } else {
      var u, active := Serve(s, m, r, b);
      var v := ReachRing(u, m, r, b, active);
      var w, batch := TakeBatch(v, m, r, b, active);
      var x := HandleBatch(w, m, r - Spsc.BATCH, b, batch);
      var y := EndRound(x, m, r - Spsc.BATCH, b);
      t := Drain(y, m, r - Spsc.BATCH, b);
    }
  }

  /** With 1025 items outstanding, all CPUs can be asleep with no signal pending, and an item still in a buffer, in a
      run in which no ordered pair of CPUs ever had more outstanding. */
  lemma AsleepOverAnItem()
    ensures exists h :: var s := Run(2, h);
              && AllAsleep(s)
              && |Outstanding(s, 0, 1)| == Spsc.RING_CAPACITY + 1
              && |Buffer(s.net, Request(0, 1))| == 1
              && AlwaysWithin(2, h, Spsc.RING_CAPACITY + 1)
  {
    var s := Begin();
    hide Submitting, Draining, Loaded, AllAsleep;
    s := FillRing(s, 0);
    s := SubmitStep(s, Spsc.RING_CAPACITY, Spsc.RING_CAPACITY, 0);
    s := SleepOverIt(s, Spsc.RING_CAPACITY + 1, 1);
    var t := Drain(s, Spsc.RING_CAPACITY + 1, Spsc.RING_CAPACITY, 1);
    AllOutstanding(t, Spsc.RING_CAPACITY + 1, 0, 1);
    var h :| Run(2, h) == t;
    SubmittedBound(2, h, Spsc.RING_CAPACITY + 1);
  }

  lemma AllOutstanding(s: System, m: nat, r: nat, b: nat)
    requires Loaded(s, m, r, b)
    ensures |Outstanding(s, 0, 1)| == m && |Buffer(s.net, BUSY)| == b && |s.book.stage| == m
  {
    IdsCount(m);
    assert Outstanding(s, 0, 1) == Ids(m);
    assert |s.book.stage| == |s.book.stage.Keys|;
  }

  /** A run that submits m items in all never has more outstanding. */
  lemma {:induction false} SubmittedBound(n: nat, h: seq<Action>, m: nat)
    requires |Run(n, h).book.stage| <= m
    ensures AlwaysWithin(n, h, m)
  {
    forall a: nat, b: nat ensures |Outstanding(Run(n, h), a, b)| <= m {
      SubsetIsSmaller(Outstanding(Run(n, h), a, b), Run(n, h).book.stage.Keys);
    }
    if h != [] {
      var g := h[..|h| - 1];
      RunKeepsInv(n, g);
      forall x | x in Run(n, g).book.stage ensures x in Run(n, h).book.stage {
        StepProgresses(Run(n, g), h[|h| - 1], x);
      }
      SubsetIsSmaller(Run(n, g).book.stage.Keys, Run(n, h).book.stage.Keys);
      SubmittedBound(n, g, m);
    }
  }

  lemma {:induction false} WithinMore(n: nat, h: seq<Action>, m: nat, more: nat)
    requires AlwaysWithin(n, h, m) && m <= more
    ensures AlwaysWithin(n, h, more)
  {
    if h != [] {
      WithinMore(n, h[..|h| - 1], m, more);
    }
  }

  /** The bound of 1024 is exact: it is the largest number of outstanding items for which CPUs that all sleep have
      left nothing in any channel. */
  lemma TheBoundIsExact(m: nat)
    ensures m <= Spsc.RING_CAPACITY
            <==> forall n, h :: AlwaysWithin(n, h, m) && AllAsleep(Run(n, h)) ==> Drained(Run(n, h))
  {
    hide AlwaysWithin, AllAsleep, Run, Outstanding;
    if m <= Spsc.RING_CAPACITY {
      forall n, h | AlwaysWithin(n, h, m) && AllAsleep(Run(n, h)) ensures Drained(Run(n, h)) {
        WithinMore(n, h, m, Spsc.RING_CAPACITY);
        OnlyHandlersAreWaitedFor(n, h, Item(0, 0, 0));
      }
    } else {
      AsleepOverAnItem();
      var h :| AllAsleep(Run(2, h)) && |Buffer(Run(2, h).net, Request(0, 1))| == 1
               && AlwaysWithin(2, h, Spsc.RING_CAPACITY + 1);
      WithinMore(2, h, Spsc.RING_CAPACITY + 1, m);
      RunKeepsInv(2, h);
      assert Proper(2, Request(0, 1));
    }
  }
}
