/** The unbounded single-producer single-consumer queue: a private buffer in front of a bounded ring. */
module SpscQueues {

  const RING_CAPACITY: nat := 1024
  const FLUSH_THRESHOLD: nat := 8
  const BATCH: nat := 8

  function Min(a: nat, b: nat): nat {
    if a < b then a else b
  }

  /** How many items a flush moves when nobody interferes. */
  function Movable<T>(buffer: seq<T>, ring: seq<T>): nat
    requires |ring| <= RING_CAPACITY
  {
    Min(|buffer|, RING_CAPACITY - |ring|)
  }

  class UnboundedSpscQueue<T> {
    var buffer: seq<T>
    var queue: seq<T>

    ghost predicate Valid()
      reads this
    {
      |queue| <= RING_CAPACITY
    }

    /** Everything in the queue, oldest first. */
    ghost function Contents(): seq<T>
      reads this
    {
      queue + buffer
    }

    constructor ()
      ensures Valid() && Contents() == []
    {
      buffer, queue := [], [];
    }

    method Push(item: T) returns (flushed: bool)
      requires Valid()
      modifies this
      ensures Valid() && Contents() == old(Contents()) + [item]
      ensures |old(buffer)| + 1 < FLUSH_THRESHOLD ==> queue == old(queue) && !flushed
      ensures |old(buffer)| + 1 >= FLUSH_THRESHOLD ==>
                var all := old(buffer) + [item]; var n := Movable(all, old(queue));
                buffer == all[n..] && queue == old(queue) + all[..n] && flushed == (n > 0)
    {
      buffer := buffer + [item];
      if |buffer| < FLUSH_THRESHOLD {
        return false;
      }
      flushed := Flush();
    }

    method Flush() returns (flushed: bool)
      requires Valid()
      modifies this
      ensures Valid() && Contents() == old(Contents())
      ensures var n := Movable(old(buffer), old(queue));
              buffer == old(buffer)[n..] && queue == old(queue) + old(buffer)[..n] && flushed == (n > 0)
    {
      var n := 0;
      while |queue| < RING_CAPACITY && buffer != []
        invariant Valid() && Contents() == old(Contents())
        invariant 0 <= n <= |old(buffer)| && buffer == old(buffer)[n..] && queue == old(queue) + old(buffer)[..n]
        decreases |buffer|
      {
        queue := queue + [buffer[0]];
        buffer := buffer[1..];
        n := n + 1;
      }
      flushed := n > 0;
    }

    /** The batch is what the functor is applied to, in order. */
    method Process() returns (batch: seq<T>)
      requires Valid()
      modifies this`queue
      ensures Valid() && batch + queue == old(queue) && |batch| == Min(BATCH, |old(queue)|)
    {
      var n := Min(BATCH, |queue|);
      batch := queue[..n];
      queue := queue[n..];
    }
  }

  // ---------------------------------------------------------------------------------------------
  // One producer and one consumer, step by step

  /** Where the producer is: outside, or in the loop of flush() having moved n items. */
  datatype Producer = Outside | Checking(n: nat) | Pushing(n: nat) | Popping(n: nat)

  /** The queue, the producer, and the histories of what was pushed and what was handed to the consumer. */
  datatype Shared<T> = Shared(buffer: seq<T>, ring: seq<T>, at: Producer, pushed: seq<T>, popped: seq<T>)

  datatype Action<T> = Append(x: T) | StartFlush | Produce | Consume

  /** The steps of the loop in flush(). */
  function ProduceStep<T>(s: Shared<T>): Shared<T> {
    match s.at
    case Outside => s
    case Checking(n) =>
      if |s.ring| < RING_CAPACITY && s.buffer != [] then s.(at := Pushing(n)) else s.(at := Outside)
    case Pushing(n) =>
      if |s.ring| < RING_CAPACITY && s.buffer != [] then s.(ring := s.ring + [s.buffer[0]], at := Popping(n))
      else s.(at := Popping(n))
    case Popping(n) =>
      if s.buffer != [] then s.(buffer := s.buffer[1..], at := Checking(n + 1)) else s
  }

  function Step<T>(s: Shared<T>, a: Action<T>): Shared<T> {
    match a
    case Append(x) =>
      if s.at != Outside then s
      else
        s.(buffer := s.buffer + [x], pushed := s.pushed + [x],
           at := if |s.buffer| + 1 < FLUSH_THRESHOLD then Outside else Checking(0))
    case StartFlush => if s.at != Outside then s else s.(at := Checking(0))
    case Produce => ProduceStep(s)
    case Consume =>
      var n := Min(BATCH, |s.ring|);
      s.(ring := s.ring[n..], popped := s.popped + s.ring[..n])
  }

  ghost function Run<T>(h: seq<Action<T>>): Shared<T> {
    if h == [] then Shared([], [], Outside, [], [])
    else Step(Run(h[..|h| - 1]), h[|h| - 1])
  }

  /** The part of the buffer that is not yet in the ring. */
  function Unsent<T>(s: Shared<T>): seq<T> {
    if s.at.Popping? && s.buffer != [] then s.buffer[1..] else s.buffer
  }

  ghost predicate Fifo<T>(s: Shared<T>) {
    && |s.ring| <= RING_CAPACITY
    && (s.at.Pushing? ==> |s.ring| < RING_CAPACITY && s.buffer != [])
    && (s.at.Popping? ==> s.buffer != [])
    && s.popped + s.ring + Unsent(s) == s.pushed
  }

  lemma StepKeepsFifo<T>(s: Shared<T>, a: Action<T>)
    requires Fifo(s)
    ensures Fifo(Step(s, a))
  {
  }

  /** Under every interleaving the queue is an unbounded first-in first-out queue, and its ring never
      holds more than its capacity. */
  lemma {:induction false} RefinesFifo<T>(h: seq<Action<T>>)
    ensures var s := Run(h);
            && s.popped + s.ring + Unsent(s) == s.pushed
            && |s.ring| <= RING_CAPACITY
    ensures Fifo(Run(h))
  {
    if h != [] {
      RefinesFifo(h[..|h| - 1]);
      StepKeepsFifo(Run(h[..|h| - 1]), h[|h| - 1]);
    }
  }

  /** The push into the ring whose result flush() ignores always succeeds. */
  lemma RingPushSucceeds<T>(h: seq<Action<T>>)
    requires Run(h).at.Pushing?
    ensures var s := Run(h);
            && s.buffer != []
            && ProduceStep(s) == s.(ring := s.ring + [s.buffer[0]], at := Popping(s.at.n))
  {
  }

  /** The steps of flush() from the loop head to its exit, without interference. */
  ghost function Uninterrupted<T>(s: Shared<T>): Shared<T>
    requires s.at.Checking?
    decreases |s.buffer|
  {
    var t := ProduceStep(s);
    if t.at.Outside? then t else Uninterrupted(ProduceStep(ProduceStep(t)))
  }

  /** Left alone, the steps do what the method Flush does. */
  lemma {:induction false} UninterruptedFlush<T>(s: Shared<T>)
    requires s.at.Checking? && |s.ring| <= RING_CAPACITY
    ensures var n := Movable(s.buffer, s.ring);
            Uninterrupted(s) == s.(buffer := s.buffer[n..], ring := s.ring + s.buffer[..n], at := Outside)
    decreases |s.buffer|
  {
    var n := Movable(s.buffer, s.ring);
    if n == 0 {
      assert s.buffer[0..] == s.buffer && s.ring + s.buffer[..0] == s.ring;
    } else {
      var t := ProduceStep(ProduceStep(ProduceStep(s)));
      UninterruptedFlush(t);
      assert t.buffer[n - 1..] == s.buffer[n..];
      assert t.ring + t.buffer[..n - 1] == s.ring + s.buffer[..n];
    }
  }

  /** Left alone, an append does what the method Push does: below eight buffered items it only buffers, and from eight
      on as many as fit go to the ring. */
  lemma UninterruptedPush<T>(s: Shared<T>, x: T, n: nat)
    requires s.at.Outside? && |s.ring| <= RING_CAPACITY
    requires var all := s.buffer + [x];
             if |all| < 8 then n == 0
             else n <= |all| && |s.ring| + n <= 1024 && (n == |all| || |s.ring| + n == 1024)
    ensures var t, all := Step(s, Append(x)), s.buffer + [x];
            var u := if t.at.Checking? then Uninterrupted(t) else t;
            u == Shared(all[n..], s.ring + all[..n], Outside, s.pushed + [x], s.popped)
  {
    var t, all := Step(s, Append(x)), s.buffer + [x];
    if t.at.Checking? {
      UninterruptedFlush(t);
    } else {
      assert all[0..] == all && s.ring + all[..0] == s.ring;
    }
  }

  /** A consumption does what the method Process does: up to eight items leave the ring, in order. */
  lemma ConsumedBatch<T>(s: Shared<T>)
    ensures var t := Step(s, Consume);
            exists batch :: t.popped == s.popped + batch && batch + t.ring == s.ring
                         && |batch| == (if |s.ring| < 8 then |s.ring| else 8)
                         && t == s.(ring := t.ring, popped := t.popped)
  {
    var n := Min(BATCH, |s.ring|);
    assert s.ring[..n] + s.ring[n..] == s.ring;
  }
}
