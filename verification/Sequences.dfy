/** Facts about concatenation, and about sequences used as queues. */
module Sequences {

  lemma Associative<T>(a: seq<T>, b: seq<T>, c: seq<T>)
    ensures a + (b + c) == (a + b) + c
  {
  }

  lemma FrontOfSum<T>(a: seq<T>, b: seq<T>)
    requires a != []
    ensures (a + b)[0] == a[0] && (a + b)[1..] == a[1..] + b
  {
  }

  /** A queue loses at most its front, and gains at most one element, at its back. */
  ghost predicate QueueMoves<T(!new)>(before: seq<T>, after: seq<T>) {
    exists n: nat, added: seq<T> :: n <= 1 && n <= |before| && |added| <= 1 && after == before[n..] + added
  }

  lemma QueueGains<T(!new)>(q: seq<T>, added: seq<T>)
    requires |added| <= 1
    ensures QueueMoves(q, q + added) && QueueMoves(q, q)
  {
    assert q + added == q[0..] + added && q == q[0..] + [];
  }

  lemma QueueLoses<T(!new)>(q: seq<T>, added: seq<T>)
    requires q != [] && |added| <= 1
    ensures QueueMoves(q, q[1..] + added) && QueueMoves(q, q[1..])
  {
    assert q[1..] == q[1..] + [];
  }
}
