/** The queue pair between two CPUs, and the loop over all of a CPU's queues, as one thread sees them. */
module PollQueues {
  import opened Sequences
  import opened SpscQueues

  /** A CPU, as far as its peers can see it. */
  class Peer {
    var signalled: bool

    constructor ()
      ensures !signalled
    {
      signalled := false;
    }

    method MaybeWakeup()
      modifies this
      ensures signalled
    {
      signalled := true;
    }
  }

  class CrossCpuQueue<T> {
    const from: Peer
    const to: Peer
    const tx: UnboundedSpscQueue<T>
    const rx: UnboundedSpscQueue<T>

    constructor (from: Peer, to: Peer)
      ensures this.from == from && this.to == to && fresh(tx) && fresh(rx) && tx != rx
      ensures tx.Valid() && rx.Valid() && tx.Contents() == [] == rx.Contents()
    {
      this.from := from;
      this.to := to;
      tx := new UnboundedSpscQueue();
      rx := new UnboundedSpscQueue();
    }

    /** submit_() */
    method Submit(item: T)
      requires tx.Valid()
      modifies tx, to
      ensures tx.Valid() && tx.Contents() == old(tx.Contents()) + [item]
      ensures |old(tx.buffer)| + 1 < FLUSH_THRESHOLD ==>
                tx.queue == old(tx.queue) && to.signalled == old(to.signalled)
      ensures |old(tx.buffer)| + 1 >= FLUSH_THRESHOLD ==>
                var all := old(tx.buffer) + [item]; var n := Movable(all, old(tx.queue));
                && tx.buffer == all[n..] && tx.queue == old(tx.queue) + all[..n]
                && to.signalled == (old(to.signalled) || n > 0)
    {
      var flushed := tx.Push(item);
      if flushed {
        to.MaybeWakeup();
      }
    }

    /** respond_() */
    method Respond(item: T)
      requires rx.Valid()
      modifies rx, from
      ensures rx.Valid() && rx.Contents() == old(rx.Contents()) + [item]
      ensures |old(rx.buffer)| + 1 < FLUSH_THRESHOLD ==>
                rx.queue == old(rx.queue) && from.signalled == old(from.signalled)
      ensures |old(rx.buffer)| + 1 >= FLUSH_THRESHOLD ==>
                var all := old(rx.buffer) + [item]; var n := Movable(all, old(rx.queue));
                && rx.buffer == all[n..] && rx.queue == old(rx.queue) + all[..n]
                && from.signalled == (old(from.signalled) || n > 0)
    {
      var flushed := rx.Push(item);
      if flushed {
        from.MaybeWakeup();
      }
    }

    method FlushTx() returns (r: bool)
      requires tx.Valid()
      modifies tx, to
      ensures tx.Valid() && Flushed(tx) && tx.Contents() == old(tx.Contents()) && r == old(CanFlush(tx))
      ensures to.signalled == (old(to.signalled) || r)
    {
      r := tx.Flush();
      if r {
        to.MaybeWakeup();
      }
    }

    method FlushRx() returns (r: bool)
      requires rx.Valid()
      modifies rx, from
      ensures rx.Valid() && Flushed(rx) && r == old(CanFlush(rx))
      ensures from.signalled == (old(from.signalled) || r)
    {
      r := rx.Flush();
      if r {
        from.MaybeWakeup();
      }
    }

    /** The items popped are those whose handlers run, in order; nobody is signalled. */
    method PollTx() returns (r: bool, items: seq<T>)
      requires tx.Valid()
      modifies tx
      ensures tx.Valid() && Polled(tx, items) && r == (old(tx.queue) != [])
    {
      items := tx.Process();
      r := |items| > 0;
    }

    /** The items popped are those that are completed, in order; nobody is signalled. */
    method PollRx() returns (r: bool, items: seq<T>)
      requires rx.Valid()
      modifies rx
      ensures rx.Valid() && Polled(rx, items) && r == (old(rx.queue) != [])
    {
      items := rx.Process();
      r := |items| > 0;
    }
  }

  /** There is room in the ring for something in the buffer. */
  predicate CanFlush<T>(q: UnboundedSpscQueue<T>)
    requires q.Valid()
    reads q
  {
    Movable(q.buffer, q.queue) > 0
  }

  /** As much as fits has gone from the buffer to the ring. */
  twostate predicate Flushed<T>(q: UnboundedSpscQueue<T>)
    requires old(q.Valid())
    reads q
  {
    var n := Movable(old(q.buffer), old(q.queue));
    q.buffer == old(q.buffer)[n..] && q.queue == old(q.queue) + old(q.buffer)[..n]
  }

  /** Up to eight items have left the ring, in order. */
  twostate predicate Polled<T>(q: UnboundedSpscQueue<T>, new items: seq<T>)
    reads q
  {
    q.buffer == old(q.buffer) && items + q.queue == old(q.queue) && |items| == Min(BATCH, |old(q.queue)|)
  }

  // ---------------------------------------------------------------------------------------------
  // All queues of a CPU

  /** The queues that a CPU shares with a peer: queues_[me][i] and queues_[i][me]. */
  datatype Link<!T(!new)> = Link(out: CrossCpuQueue<T>, inc: CrossCpuQueue<T>)

  ghost function Parts<T(!new)>(l: Link<T>): set<object> {
    {l.out.tx, l.out.rx, l.inc.tx, l.inc.rx}
  }

  ghost predicate Valid<T(!new)>(l: Link<T>)
    reads Parts(l)
  {
    && l.out.tx.Valid() && l.out.rx.Valid() && l.inc.tx.Valid() && l.inc.rx.Valid()
    && l.out.tx != l.out.rx && l.out.tx != l.inc.tx && l.out.tx != l.inc.rx && l.out.rx != l.inc.tx
    && l.out.rx != l.inc.rx && l.inc.tx != l.inc.rx
  }

  /** There is something to send to or to receive from the peer. */
  ghost predicate Busy<T(!new)>(l: Link<T>)
    requires Valid(l)
    reads Parts(l)
  {
    CanFlush(l.out.tx) || l.out.rx.queue != [] || CanFlush(l.inc.rx) || l.inc.tx.queue != []
  }

  /** Nothing is left that could be sent to or received from the peer. */
  ghost predicate Drained<T(!new)>(l: Link<T>)
    reads Parts(l)
  {
    && l.out.rx.queue == [] && l.inc.tx.queue == []
    && (l.out.tx.buffer == [] || |l.out.tx.queue| >= RING_CAPACITY)
    && (l.inc.rx.buffer == [] || |l.inc.rx.queue| >= RING_CAPACITY)
  }

  /** The links share no queue, and each is with a peer of its own, to which one of its queues goes and from which
      the other comes; the one of the CPU with itself is not used. */
  ghost predicate Apart<T(!new)>(links: seq<Link<T>>, me: nat) {
    && (forall i :: 0 <= i < |links| && i != me ==> links[i].out.to == links[i].inc.from)
    && (forall i, j :: 0 <= i < j < |links| && i != me && j != me ==>
          Parts(links[i]) !! Parts(links[j]) && links[i].out.to != links[j].out.to)
  }

  /** One turn of the loop of poll_queues(), without the handlers. */
  method PollOne<T(!new)>(link: Link<T>) returns (r: bool, completed: seq<T>, processed: seq<T>)
    requires Valid(link)
    modifies Parts(link), link.out.to, link.inc.from
    ensures Valid(link)
    ensures Flushed(link.out.tx) && link.out.tx.Contents() == old(link.out.tx.Contents())
    ensures Polled(link.out.rx, completed)
    ensures Flushed(link.inc.rx) && Polled(link.inc.tx, processed)
    ensures link.out.to.signalled
         == (old(link.out.to.signalled) || old(CanFlush(link.out.tx))
             || (link.inc.from == link.out.to && old(CanFlush(link.inc.rx))))
    ensures link.inc.from.signalled
         == (old(link.inc.from.signalled) || old(CanFlush(link.inc.rx))
             || (link.inc.from == link.out.to && old(CanFlush(link.out.tx))))
    ensures r == old(Busy(link))
    ensures !r ==> Drained(link)
  {
    var flushedTx := link.out.FlushTx();
    var polledRx, flushedRx, polledTx;
    polledRx, completed := link.out.PollRx();
    flushedRx := link.inc.FlushRx();
    polledTx, processed := link.inc.PollTx();
    r := flushedTx || polledRx || flushedRx || polledTx;
  }

  // ---------------------------------------------------------------------------------------------
  // Handlers, which are user code, submit items of their own

  /** What the handler of an item submits, in order, and to which peers. */
  type Handler<!T> = T -> seq<(nat, T)>

  /** The items that go to peer j, in order. */
  function SentTo<T>(sent: seq<(nat, T)>, j: nat): seq<T> {
    if sent == [] then []
    else
      var (to, x) := sent[|sent| - 1];
      SentTo(sent[..|sent| - 1], j) + if to == j then [x] else []
  }

  /** What the handlers of some items submit to peer j, one after the other. */
  ghost function SubmittedTo<T>(items: seq<T>, handler: Handler<T>, j: nat): seq<T> {
    if items == [] then []
    else SubmittedTo(items[..|items| - 1], handler, j) + SentTo(handler(items[|items| - 1]), j)
  }

  lemma {:induction false} SubmittedBySum<T>(a: seq<T>, b: seq<T>, handler: Handler<T>, j: nat)
    ensures SubmittedTo(a + b, handler, j) == SubmittedTo(a, handler, j) + SubmittedTo(b, handler, j)
  {
    if b == [] {
      assert a + b == a;
    } else {
      var c, x := b[..|b| - 1], b[|b| - 1];
      SubmittedBySum(a, c, handler, j);
      assert (a + b)[..|a + b| - 1] == a + c && (a + b)[|a + b| - 1] == x;
      Associative(SubmittedTo(a, handler, j), SubmittedTo(c, handler, j), SentTo(handler(x), j));
      hide SentTo;
    }
  }

  lemma {:induction false} SentBySum<T>(a: seq<(nat, T)>, b: seq<(nat, T)>, j: nat)
    ensures SentTo(a + b, j) == SentTo(a, j) + SentTo(b, j)
  {
    if b == [] {
      assert a + b == a;
    } else {
      var c := b[..|b| - 1];
      assert (a + b)[..|a + b| - 1] == a + c;
      SentBySum(a, c, j);
    }
  }

  /** What is submitted first comes first: by one handler, and by the handlers of several items. */
  lemma SubmissionsInOrder<T>(x: T, y: T, handler: Handler<T>, to: nat, v: T, later: nat, w: T, j: nat)
    ensures SentTo([(to, v), (later, w)], j) == (if to == j then [v] else []) + (if later == j then [w] else [])
    ensures SubmittedTo([x, y], handler, j) == SentTo(handler(x), j) + SentTo(handler(y), j)
  {
    assert [(to, v), (later, w)] == [(to, v)] + [(later, w)] && [x, y] == [x] + [y];
    SentBySum([(to, v)], [(later, w)], j);
    SubmittedBySum([x], [y], handler, j);
  }

  /** The queues that the CPU submits to. */
  ghost function Outs<T(!new)>(links: seq<Link<T>>, me: nat): set<object> {
    set i | 0 <= i < |links| && i != me :: links[i].out.tx
  }

  ghost function Peers<T(!new)>(links: seq<Link<T>>): set<object> {
    set i | 0 <= i < |links| :: links[i].out.to
  }

  /** Different queues are submitted to for different peers, and none of them is used otherwise. */
  ghost predicate OutsApart<T(!new)>(links: seq<Link<T>>, me: nat) {
    && (forall i, j :: 0 <= i < |links| && 0 <= j < |links| && i != me && j != me && i != j ==>
          links[i].out.tx != links[j].out.tx && links[i].out.to != links[j].out.to)
    && (forall j :: 0 <= j < |links| && j != me ==>
          && links[j].out.rx !in Outs(links, me)
          && links[j].inc.rx !in Outs(links, me)
          && links[j].inc.tx !in Outs(links, me))
  }

  lemma OutsAreApart<T(!new)>(links: seq<Link<T>>, me: nat)
    requires Apart(links, me) && forall j: nat :: j < |links| && j != me ==> Valid(links[j])
    ensures OutsApart(links, me)
  {
    forall i, j | 0 <= i < |links| && 0 <= j < |links| && i != me && j != me && i != j
      ensures Parts(links[i]) !! Parts(links[j]) && links[i].out.to != links[j].out.to
    {
      assert Parts(links[if i < j then i else j]) !! Parts(links[if i < j then j else i]);
    }
  }

  // What the CPU sees of its queues, as values.

  /** What a CPU shares with a peer: the requests and responses of `out`, then those of `inc`, each a ring and a
      buffer; and whether the peer has been signalled. */
  datatype View<T> = View(txRing: seq<T>, txBuffer: seq<T>, rxRing: seq<T>, rxBuffer: seq<T>, inTxRing: seq<T>,
                          inTxBuffer: seq<T>, inRxRing: seq<T>, inRxBuffer: seq<T>, told: bool)

  ghost function ViewOf<T(!new)>(l: Link<T>): View<T>
    reads Parts(l), l.out.to
  {
    View(l.out.tx.queue, l.out.tx.buffer, l.out.rx.queue, l.out.rx.buffer, l.inc.tx.queue, l.inc.tx.buffer,
         l.inc.rx.queue, l.inc.rx.buffer, l.out.to.signalled)
  }

  /** All the queues of a CPU, and the peers. */
  ghost function Shared<T(!new)>(links: seq<Link<T>>): set<object> {
    (set i, o | 0 <= i < |links| && o in Parts(links[i]) :: o) + Peers(links)
  }

  ghost function Views<T(!new)>(links: seq<Link<T>>, me: nat): (vs: seq<View<T>>)
    reads Shared(links)
    ensures |vs| == |links|
  {
    seq(|links|, i requires 0 <= i < |links| reads Shared(links) =>
          if i == me then View([], [], [], [], [], [], [], [], false) else ViewOf(links[i]))
  }

  /** Nothing leaves the ring of requests or that of the responses to the peer, who is signalled exactly if there is
      something new in one of them; and `more` is behind the requests that were on their way. */
  ghost predicate Sent<T>(v: View<T>, w: View<T>, more: seq<T>) {
    && |v.txRing| <= |w.txRing| && |v.inRxRing| <= |w.inRxRing|
    && (w.told <==> v.told || |w.txRing| > |v.txRing| || |w.inRxRing| > |v.inRxRing|)
    && w.txRing + w.txBuffer == v.txRing + v.txBuffer + more
  }

  ghost predicate SameInbox<T>(v: View<T>, w: View<T>) {
    && w.rxRing == v.rxRing && w.rxBuffer == v.rxBuffer && w.inTxRing == v.inTxRing && w.inTxBuffer == v.inTxBuffer
    && w.inRxRing == v.inRxRing && w.inRxBuffer == v.inRxBuffer
  }

  /** A turn: a batch of responses and one of requests are gone from their rings, and as many of the CPU's own
      responses as fit have gone to theirs. */
  ghost predicate Turned<T>(v: View<T>, w: View<T>, completed: seq<T>, processed: seq<T>)
    requires |v.inRxRing| <= RING_CAPACITY
  {
    var n := Movable(v.inRxBuffer, v.inRxRing);
    && completed + w.rxRing == v.rxRing && |completed| == Min(BATCH, |v.rxRing|) && w.rxBuffer == v.rxBuffer
    && processed + w.inTxRing == v.inTxRing && |processed| == Min(BATCH, |v.inTxRing|) && w.inTxBuffer == v.inTxBuffer
    && w.inRxRing == v.inRxRing + v.inRxBuffer[..n] && w.inRxBuffer == v.inRxBuffer[n..]
  }

  /** The handlers of some items have submitted what they submit. */
  ghost predicate Handled<T>(vs: seq<View<T>>, ws: seq<View<T>>, me: nat, items: seq<T>, handler: Handler<T>) {
    && |ws| == |vs|
    && (forall i :: 0 <= i < |vs| && i != me ==>
          Sent(vs[i], ws[i], SubmittedTo(items, handler, i)) && SameInbox(vs[i], ws[i]))
    && (items == [] ==> ws == vs)
  }

  lemma SentTwice<T>(u: View<T>, v: View<T>, w: View<T>, a: seq<T>, b: seq<T>)
    requires Sent(u, v, a) && Sent(v, w, b)
    ensures Sent(u, w, a + b)
  {
    assert u.txRing + u.txBuffer + a + b == u.txRing + u.txBuffer + (a + b);
  }

  /** The submissions of one handler have gone out. */
  ghost predicate Passed<T>(vs: seq<View<T>>, ws: seq<View<T>>, me: nat, sent: seq<(nat, T)>) {
    && |ws| == |vs|
    && forall i :: 0 <= i < |vs| && i != me ==> Sent(vs[i], ws[i], SentTo(sent, i)) && SameInbox(vs[i], ws[i])
  }

  lemma PassedOneMore<T>(us: seq<View<T>>, vs: seq<View<T>>, ws: seq<View<T>>, me: nat, sent: seq<(nat, T)>,
                         to: nat, x: T)
    requires Passed(us, vs, me, sent) && |ws| == |vs|
    requires forall i :: 0 <= i < |vs| && i != me ==>
               Sent(vs[i], ws[i], if i == to then [x] else []) && SameInbox(vs[i], ws[i])
    ensures Passed(us, ws, me, sent + [(to, x)])
  {
    assert (sent + [(to, x)])[..|sent|] == sent;
    hide Sent;
    forall i | 0 <= i < |us| && i != me ensures Sent(us[i], ws[i], SentTo(sent + [(to, x)], i)) {
      SentTwice(us[i], vs[i], ws[i], SentTo(sent, i), if i == to then [x] else []);
    }
  }

  lemma HandledOneMore<T>(us: seq<View<T>>, vs: seq<View<T>>, ws: seq<View<T>>, me: nat, items: seq<T>, x: T,
                          handler: Handler<T>)
    requires Handled(us, vs, me, items, handler) && Passed(vs, ws, me, handler(x))
    ensures Handled(us, ws, me, items + [x], handler)
  {
    assert (items + [x])[..|items|] == items;
    hide Sent, SentTo;
    forall i | 0 <= i < |us| && i != me ensures Sent(us[i], ws[i], SubmittedTo(items + [x], handler, i)) {
      SentTwice(us[i], vs[i], ws[i], SubmittedTo(items, handler, i), SentTo(handler(x), i));
    }
  }

  lemma NothingYet<T>(vs: seq<View<T>>, me: nat, handler: Handler<T>)
    ensures Passed(vs, vs, me, []) && Handled(vs, vs, me, [], handler)
  {
    assert forall i :: 0 <= i < |vs| ==> vs[i].txRing + vs[i].txBuffer + [] == vs[i].txRing + vs[i].txBuffer;
  }

  /** One submission of a handler. */
  method SendOne<T(!new)>(links: seq<Link<T>>, me: nat, to: nat, x: T)
    requires OutsApart(links, me) && forall j: nat :: j < |links| && j != me ==> Valid(links[j])
    modifies Outs(links, me), Peers(links)
    ensures forall j: nat :: j < |links| && j != me ==> Valid(links[j])
    ensures var vs, ws := old(Views(links, me)), Views(links, me);
            forall i :: 0 <= i < |links| && i != me ==>
              Sent(vs[i], ws[i], if i == to then [x] else []) && SameInbox(vs[i], ws[i])
  {
    assert forall i :: 0 <= i < |links| && i != me && i != to && to < |links| && to != me ==>
             links[i].out.to != links[to].out.to;
    if to < |links| && to != me {
      links[to].out.Submit(x);
    }
  }

  /** The submissions of one handler. */
  method Send<T(!new)>(links: seq<Link<T>>, me: nat, sent: seq<(nat, T)>)
    requires OutsApart(links, me) && forall j: nat :: j < |links| && j != me ==> Valid(links[j])
    modifies Outs(links, me), Peers(links)
    ensures forall j: nat :: j < |links| && j != me ==> Valid(links[j])
    ensures Passed(old(Views(links, me)), Views(links, me), me, sent)
  {
    hide Views, Passed, OutsApart, Sent, SameInbox, SentTo, Valid;
    NothingYet(Views(links, me), me, (x: T) => []);
    var n := 0;
    while n < |sent|
      invariant 0 <= n <= |sent|
      invariant forall j: nat :: j < |links| && j != me ==> Valid(links[j])
      invariant Passed(old(Views(links, me)), Views(links, me), me, sent[..n])
    {
      ghost var vs := Views(links, me);
      SendOne(links, me, sent[n].0, sent[n].1);
      PassedOneMore(old(Views(links, me)), vs, Views(links, me), me, sent[..n], sent[n].0, sent[n].1);
      assert sent[..n] + [(sent[n].0, sent[n].1)] == sent[..n + 1];
      n := n + 1;
    }
    assert sent[..n] == sent;
  }

  /** The handlers of a batch run, in order. */
  method Handle<T(!new)>(links: seq<Link<T>>, me: nat, items: seq<T>, handler: Handler<T>)
    requires OutsApart(links, me) && forall j: nat :: j < |links| && j != me ==> Valid(links[j])
    modifies Outs(links, me), Peers(links)
    ensures forall j: nat :: j < |links| && j != me ==> Valid(links[j])
    ensures Handled(old(Views(links, me)), Views(links, me), me, items, handler)
  {
    hide Views, Passed, Handled, OutsApart, SubmittedTo, Valid;
    NothingYet(Views(links, me), me, handler);
    var n := 0;
    while n < |items|
      invariant 0 <= n <= |items|
      invariant forall j: nat :: j < |links| && j != me ==> Valid(links[j])
      invariant Handled(old(Views(links, me)), Views(links, me), me, items[..n], handler)
    {
      ghost var vs := Views(links, me);
      Send(links, me, handler(items[n]));
      HandledOneMore(old(Views(links, me)), vs, Views(links, me), me, items[..n], items[n], handler);
      assert items[..n] + [items[n]] == items[..n + 1];
      n := n + 1;
    }
    assert items[..n] == items;
  }

  // ---------------------------------------------------------------------------------------------
  // The queues as they are built

  ghost function Queues<T(!new)>(q: CrossCpuQueue<T>): set<object> {
    {q.tx, q.rx}
  }

  /** A queue from each CPU to each. */
  ghost predicate Wired<T(!new)>(cpus: seq<Peer>, from: nat, row: seq<CrossCpuQueue<T>>)
    requires from < |cpus|
  {
    && |row| <= |cpus|
    && (forall j :: 0 <= j < |row| ==> row[j].from == cpus[from] && row[j].to == cpus[j] && row[j].tx != row[j].rx)
    && (forall j, k :: 0 <= j < k < |row| ==> Queues(row[j]) !! Queues(row[k]))
  }

  method BuildRow<T(!new)>(cpus: seq<Peer>, from: nat) returns (row: seq<CrossCpuQueue<T>>)
    requires from < |cpus|
    ensures |row| == |cpus| && Wired(cpus, from, row)
    ensures forall j :: 0 <= j < |row| ==> fresh(row[j].tx) && fresh(row[j].rx)
    ensures forall j :: 0 <= j < |row| ==> row[j].tx.Valid() && row[j].rx.Valid()
  {
    row := [];
    while |row| < |cpus|
      invariant |row| <= |cpus| && Wired(cpus, from, row)
      invariant forall j :: 0 <= j < |row| ==> fresh(row[j].tx) && fresh(row[j].rx)
      invariant forall j :: 0 <= j < |row| ==> row[j].tx.Valid() && row[j].rx.Valid()
    {
      var q := new CrossCpuQueue<T>(cpus[from], cpus[|row|]);
      row := row + [q];
    }
  }

  ghost predicate AllWired<T(!new)>(cpus: seq<Peer>, queues: seq<seq<CrossCpuQueue<T>>>) {
    && |queues| <= |cpus|
    && (forall i :: 0 <= i < |queues| ==> |queues[i]| == |cpus| && Wired(cpus, i, queues[i]))
    && (forall i, k, j, l :: 0 <= i < k < |queues| && 0 <= j < |cpus| && 0 <= l < |cpus| ==>
          Queues(queues[i][j]) !! Queues(queues[k][l]))
  }

  lemma OneRowMore<T(!new)>(cpus: seq<Peer>, queues: seq<seq<CrossCpuQueue<T>>>, row: seq<CrossCpuQueue<T>>)
    requires AllWired(cpus, queues) && |queues| < |cpus| && |row| == |cpus| && Wired(cpus, |queues|, row)
    requires forall i, j, l :: 0 <= i < |queues| && 0 <= j < |cpus| && 0 <= l < |cpus| ==>
               Queues(queues[i][j]) !! Queues(row[l])
    ensures AllWired(cpus, queues + [row])
  {
    hide Queues, Wired;
  }

  /** OS::init(), as far as the queues go. */
  method BuildQueues<T(!new)>(cpus: seq<Peer>) returns (queues: seq<seq<CrossCpuQueue<T>>>)
    ensures |queues| == |cpus| && AllWired(cpus, queues)
    ensures forall i, j :: 0 <= i < |cpus| && 0 <= j < |cpus| ==> queues[i][j].tx.Valid() && queues[i][j].rx.Valid()
  {
    queues := [];
    hide Wired;
    while |queues| < |cpus|
      invariant |queues| <= |cpus| && AllWired(cpus, queues)
      invariant forall i, j :: 0 <= i < |queues| && 0 <= j < |cpus| ==>
                  queues[i][j].tx.Valid() && queues[i][j].rx.Valid()
    {
      var row := BuildRow<T>(cpus, |queues|);
      assert forall i, j, l :: 0 <= i < |queues| && 0 <= j < |cpus| && 0 <= l < |cpus| ==>
               Queues(queues[i][j]) !! Queues(row[l]);
      OneRowMore(cpus, queues, row);
      queues := queues + [row];
    }
  }

  /** The queues that CPU `me` shares with each of the others. */
  function LinksOf<T(!new)>(queues: seq<seq<CrossCpuQueue<T>>>, me: nat): seq<Link<T>>
    requires me < |queues| && forall i :: 0 <= i < |queues| ==> |queues[i]| == |queues|
  {
    seq(|queues|, i requires 0 <= i < |queues| => Link(queues[me][i], queues[i][me]))
  }

  /** They are what poll_queues() demands. */
  lemma LinksAreApart<T(!new)>(cpus: seq<Peer>, queues: seq<seq<CrossCpuQueue<T>>>, me: nat)
    requires AllWired(cpus, queues) && |queues| == |cpus| && me < |cpus|
    requires forall i, j :: 0 <= i < j < |cpus| ==> cpus[i] != cpus[j]
    requires forall i, j :: 0 <= i < |cpus| && 0 <= j < |cpus| ==> queues[i][j].tx.Valid() && queues[i][j].rx.Valid()
    ensures var links := LinksOf(queues, me);
            Apart(links, me) && forall i: nat :: i < |links| && i != me ==> Valid(links[i])
  {
    forall i: nat, j: nat, k: nat, l: nat | i < |cpus| && j < |cpus| && k < |cpus| && l < |cpus| && (i != k || j != l)
      ensures Queues(queues[i][j]) !! Queues(queues[k][l])
    {
      if i == k {
        assert Queues(queues[i][if j < l then j else l]) !! Queues(queues[i][if j < l then l else j]);
      } else if i > k {
        assert Queues(queues[k][l]) !! Queues(queues[i][j]);
      }
    }
    var links := LinksOf(queues, me);
    forall i: nat, j: nat | i < j < |links| && i != me && j != me
      ensures Parts(links[i]) !! Parts(links[j]) && links[i].out.to != links[j].out.to
    {
      assert Queues(queues[me][i]) !! Queues(queues[me][j]) && Queues(queues[me][i]) !! Queues(queues[j][me]);
      assert Queues(queues[i][me]) !! Queues(queues[me][j]) && Queues(queues[i][me]) !! Queues(queues[j][me]);
    }
    forall i: nat | i < |links| && i != me
      ensures Valid(links[i]) && links[i].out.to == links[i].inc.from
    {
      assert Queues(queues[me][i]) !! Queues(queues[i][me]);
    }
  }

  // ---------------------------------------------------------------------------------------------
  // poll_queues()

  /** There is something to do for the peer. */
  ghost predicate HasWork<T>(v: View<T>)
    requires |v.txRing| <= RING_CAPACITY && |v.inRxRing| <= RING_CAPACITY
  {
    Movable(v.txBuffer, v.txRing) > 0 || v.rxRing != [] || Movable(v.inRxBuffer, v.inRxRing) > 0 || v.inTxRing != []
  }

  ghost predicate RingsOk<T>(vs: seq<View<T>>) {
    forall i :: 0 <= i < |vs| ==> |vs[i].txRing| <= RING_CAPACITY && |vs[i].inRxRing| <= RING_CAPACITY
  }

  /** What was on its way has gone to the ring, as far as it fits. */
  ghost predicate Pushed<T>(v: View<T>, w: View<T>) {
    |w.txRing| >= Min(RING_CAPACITY, |v.txRing| + |v.txBuffer|)
  }

  /** The turn of a peer, without the handlers, as the peer sees it. */
  method TurnOne<T(!new)>(link: Link<T>) returns (r: bool, completed: seq<T>, processed: seq<T>)
    requires Valid(link) && link.out.to == link.inc.from
    modifies Parts(link), link.out.to
    ensures Valid(link)
    ensures var v, w := old(ViewOf(link)), ViewOf(link);
            && |v.txRing| <= RING_CAPACITY && |v.inRxRing| <= RING_CAPACITY && r == HasWork(v)
            && Sent(v, w, []) && Turned(v, w, completed, processed) && Pushed(v, w) && (!r ==> w == v)
  {
    ghost var v := ViewOf(link);
    Fitting(v.txBuffer, v.txRing);
    Fitting(v.inRxBuffer, v.inRxRing);
    r, completed, processed := PollOne(link);
    hide Movable;
  }

  lemma Fitting<T>(buffer: seq<T>, ring: seq<T>)
    requires |ring| <= RING_CAPACITY
    ensures var n := Movable(buffer, ring);
            && n <= |buffer| && (ring + buffer[..n]) + buffer[n..] == ring + buffer + []
            && |ring + buffer[..n]| == Min(RING_CAPACITY, |ring| + |buffer|)
            && (n == 0 ==> ring + buffer[..n] == ring && buffer[n..] == buffer)
  {
  }

  /** The turn of peer i, and what the CPU sees of the others. */
  ghost predicate TurnTaken<T>(vs: seq<View<T>>, ws: seq<View<T>>, me: nat, i: nat, completed: seq<T>,
                               processed: seq<T>)
    requires i < |vs| && |vs[i].txRing| <= RING_CAPACITY && |vs[i].inRxRing| <= RING_CAPACITY
  {
    && |ws| == |vs|
    && (forall j :: 0 <= j < |vs| && j != i ==> ws[j] == vs[j])
    && Sent(vs[i], ws[i], []) && Turned(vs[i], ws[i], completed, processed) && Pushed(vs[i], ws[i])
    && (!HasWork(vs[i]) ==> ws == vs)
  }

  method Turn<T(!new)>(links: seq<Link<T>>, me: nat, i: nat) returns (r: bool, completed: seq<T>, processed: seq<T>)
    requires Apart(links, me) && i < |links| && i != me && forall j: nat :: j < |links| && j != me ==> Valid(links[j])
    modifies Parts(links[i]), links[i].out.to
    ensures forall j: nat :: j < |links| && j != me ==> Valid(links[j])
    ensures var vs := old(Views(links, me));
            && |vs[i].txRing| <= RING_CAPACITY && |vs[i].inRxRing| <= RING_CAPACITY && r == HasWork(vs[i])
            && TurnTaken(vs, Views(links, me), me, i, completed, processed)
  {
    ghost var vs := Views(links, me);
    hide HasWork, Sent, Turned, Pushed;
    r, completed, processed := TurnOne(links[i]);
    forall j: nat | j < |links| && j != me && j != i
      ensures Valid(links[j]) && ViewOf(links[j]) == old(ViewOf(links[j]))
    {
      assert Parts(links[if i < j then i else j]) !! Parts(links[if i < j then j else i]);
    }
  }

  /** A turn, and the handlers of the requests it has popped. */
  ghost predicate AfterTurn<T>(vs: seq<View<T>>, ws: seq<View<T>>, me: nat, i: nat, completed: seq<T>,
                               processed: seq<T>, handler: Handler<T>)
    requires i < |vs| && |vs[i].txRing| <= RING_CAPACITY && |vs[i].inRxRing| <= RING_CAPACITY
  {
    && |ws| == |vs|
    && (forall j :: 0 <= j < |vs| && j != me ==> Sent(vs[j], ws[j], SubmittedTo(processed, handler, j)))
    && (forall j :: 0 <= j < |vs| && j != me && j != i ==> SameInbox(vs[j], ws[j]))
    && Turned(vs[i], ws[i], completed, processed) && Pushed(vs[i], ws[i])
    && (!HasWork(vs[i]) ==> ws == vs)
  }

  lemma TurnThenHandlers<T>(us: seq<View<T>>, vs: seq<View<T>>, ws: seq<View<T>>, me: nat, i: nat, completed: seq<T>,
                            processed: seq<T>, handler: Handler<T>)
    requires i < |us| && i != me && |us[i].txRing| <= RING_CAPACITY && |us[i].inRxRing| <= RING_CAPACITY
    requires TurnTaken(us, vs, me, i, completed, processed) && Handled(vs, ws, me, processed, handler)
    ensures AfterTurn(us, ws, me, i, completed, processed, handler)
  {
    forall j | 0 <= j < |us| && j != me ensures Sent(us[j], ws[j], SubmittedTo(processed, handler, j)) {
      hide Turned, SubmittedTo, HasWork;
      if j == i {
        SentTwice(us[j], vs[j], ws[j], [], SubmittedTo(processed, handler, j));
        assert [] + SubmittedTo(processed, handler, j) == SubmittedTo(processed, handler, j);
      }
    }
    hide SubmittedTo;
  }

  method PollOneAmong<T(!new)>(links: seq<Link<T>>, me: nat, i: nat, handler: Handler<T>)
    returns (r: bool, completed: seq<T>, processed: seq<T>)
    requires Apart(links, me) && i < |links| && i != me && forall j: nat :: j < |links| && j != me ==> Valid(links[j])
    modifies Parts(links[i]), Outs(links, me), Peers(links)
    ensures forall j: nat :: j < |links| && j != me ==> Valid(links[j])
    ensures var vs := old(Views(links, me));
            && |vs[i].txRing| <= RING_CAPACITY && |vs[i].inRxRing| <= RING_CAPACITY && r == HasWork(vs[i])
            && AfterTurn(vs, Views(links, me), me, i, completed, processed, handler)
  {
    OutsAreApart(links, me);
    ghost var us := Views(links, me);
    hide HasWork, TurnTaken, Views, Valid, Apart, OutsApart, AfterTurn, Handled;
    r, completed, processed := Turn(links, me, i);
    ghost var vs := Views(links, me);
    Handle(links, me, processed, handler);
    TurnThenHandlers(us, vs, Views(links, me), me, i, completed, processed, handler);
  }

  /** The items of several batches, in order. */
  ghost function Joined<T>(batches: seq<seq<T>>): seq<T> {
    if batches == [] then [] else Joined(batches[..|batches| - 1]) + batches[|batches| - 1]
  }

  /** The turns of the first peers: they are done with, and of the others the CPU sees what its handlers have
      submitted to them. */
  ghost predicate Upto<T>(us: seq<View<T>>, vs: seq<View<T>>, me: nat, r: bool, completed: seq<seq<T>>,
                          processed: seq<seq<T>>, handler: Handler<T>)
    requires RingsOk(us)
  {
    var i := |completed|;
    && |vs| == |us| && |processed| == i <= |us|
    && (forall j :: 0 <= j < |us| && j != me ==> Sent(us[j], vs[j], SubmittedTo(Joined(processed), handler, j)))
    && (forall j :: i <= j < |us| && j != me ==> SameInbox(us[j], vs[j]))
    && (forall j :: 0 <= j < i && j != me ==>
          Turned(us[j], vs[j], completed[j], processed[j]) && Pushed(us[j], vs[j]))
    && (r <==> exists j :: 0 <= j < i && j != me && HasWork(us[j]))
    && (!r ==> vs == us)
  }

  lemma JoinedOneMore<T>(batches: seq<seq<T>>, batch: seq<T>)
    ensures Joined(batches + [batch]) == Joined(batches) + batch
  {
    assert (batches + [batch])[..|batches|] == batches;
  }

  lemma TurnedLater<T>(u: View<T>, v: View<T>, w: View<T>, more: seq<T>, completed: seq<T>, processed: seq<T>)
    requires |u.inRxRing| <= RING_CAPACITY && |v.inRxRing| <= RING_CAPACITY && Sent(u, v, more)
    ensures SameInbox(u, v) && Turned(v, w, completed, processed) && Pushed(v, w) ==>
              Turned(u, w, completed, processed) && Pushed(u, w)
  {
    assert |v.txRing| + |v.txBuffer| == |v.txRing + v.txBuffer| == |u.txRing + u.txBuffer + more|;
  }

  lemma TurnedEarlier<T>(u: View<T>, v: View<T>, w: View<T>, more: seq<T>, completed: seq<T>, processed: seq<T>)
    requires |u.inRxRing| <= RING_CAPACITY && Turned(u, v, completed, processed) && Pushed(u, v)
    requires SameInbox(v, w) && Sent(v, w, more)
    ensures Turned(u, w, completed, processed) && Pushed(u, w)
  {
  }

  lemma UptoSelf<T>(us: seq<View<T>>, vs: seq<View<T>>, me: nat, r: bool, completed: seq<seq<T>>,
                    processed: seq<seq<T>>, handler: Handler<T>)
    requires RingsOk(us) && Upto(us, vs, me, r, completed, processed, handler) && |completed| == me < |us|
    ensures Upto(us, vs, me, r, completed + [[]], processed + [[]], handler)
  {
    JoinedOneMore(processed, []);
    assert Joined(processed) + [] == Joined(processed);
    hide Sent, Turned, Pushed, SubmittedTo, Joined, HasWork;
  }

  lemma SentNext<T>(us: seq<View<T>>, vs: seq<View<T>>, ws: seq<View<T>>, me: nat, r: bool, completed: seq<seq<T>>,
                    processed: seq<seq<T>>, c: seq<T>, p: seq<T>, handler: Handler<T>)
    requires RingsOk(us) && Upto(us, vs, me, r, completed, processed, handler)
    requires |completed| < |us| && |completed| != me
    requires var v := vs[|completed|]; |v.txRing| <= RING_CAPACITY && |v.inRxRing| <= RING_CAPACITY
    requires AfterTurn(vs, ws, me, |completed|, c, p, handler)
    ensures forall j :: 0 <= j < |us| && j != me ==>
              Sent(us[j], ws[j], SubmittedTo(Joined(processed + [p]), handler, j))
  {
    JoinedOneMore(processed, p);
    hide Turned, Pushed, SubmittedTo, Joined, HasWork;
    forall j | 0 <= j < |us| && j != me
      ensures Sent(us[j], ws[j], SubmittedTo(Joined(processed + [p]), handler, j))
    {
      SubmittedBySum(Joined(processed), p, handler, j);
      SentTwice(us[j], vs[j], ws[j], SubmittedTo(Joined(processed), handler, j), SubmittedTo(p, handler, j));
    }
  }

  lemma TurnedNext<T>(us: seq<View<T>>, vs: seq<View<T>>, ws: seq<View<T>>, me: nat, r: bool, completed: seq<seq<T>>,
                      processed: seq<seq<T>>, c: seq<T>, p: seq<T>, handler: Handler<T>)
    requires RingsOk(us) && Upto(us, vs, me, r, completed, processed, handler)
    requires |completed| < |us| && |completed| != me
    requires var v := vs[|completed|]; |v.txRing| <= RING_CAPACITY && |v.inRxRing| <= RING_CAPACITY
    requires AfterTurn(vs, ws, me, |completed|, c, p, handler)
    ensures forall j :: 0 <= j <= |completed| && j != me ==>
              Turned(us[j], ws[j], (completed + [c])[j], (processed + [p])[j]) && Pushed(us[j], ws[j])
  {
    var i := |completed|;
    hide Sent, Turned, Pushed, SubmittedTo, Joined, HasWork;
    forall j | 0 <= j < i && j != me
      ensures Turned(us[j], ws[j], completed[j], processed[j]) && Pushed(us[j], ws[j])
    {
      TurnedEarlier(us[j], vs[j], ws[j], SubmittedTo(p, handler, j), completed[j], processed[j]);
    }
    TurnedLater(us[i], vs[i], ws[i], SubmittedTo(Joined(processed), handler, i), c, p);
  }

  lemma FoundNext<T>(us: seq<View<T>>, vs: seq<View<T>>, ws: seq<View<T>>, me: nat, r: bool, completed: seq<seq<T>>,
                     processed: seq<seq<T>>, c: seq<T>, p: seq<T>, handler: Handler<T>)
    requires RingsOk(us) && Upto(us, vs, me, r, completed, processed, handler)
    requires |completed| < |us| && |completed| != me
    requires var v := vs[|completed|]; |v.txRing| <= RING_CAPACITY && |v.inRxRing| <= RING_CAPACITY
    requires AfterTurn(vs, ws, me, |completed|, c, p, handler)
    ensures r || HasWork(vs[|completed|]) <==> exists j :: 0 <= j <= |completed| && j != me && HasWork(us[j])
    ensures !r && !HasWork(vs[|completed|]) ==> ws == us
    ensures forall j :: |completed| < j < |us| && j != me ==> SameInbox(us[j], ws[j])
    ensures |vs| == |ws| == |us| && |processed| == |completed|
  {
    hide Sent, Turned, Pushed, SubmittedTo, Joined, HasWork;
  }

  lemma UptoIs<T>(us: seq<View<T>>, vs: seq<View<T>>, me: nat, r: bool, completed: seq<seq<T>>,
                  processed: seq<seq<T>>, handler: Handler<T>)
    requires RingsOk(us) && |vs| == |us| && |processed| == |completed| <= |us|
    requires forall j :: 0 <= j < |us| && j != me ==> Sent(us[j], vs[j], SubmittedTo(Joined(processed), handler, j))
    requires forall j :: |completed| <= j < |us| && j != me ==> SameInbox(us[j], vs[j])
    requires forall j :: 0 <= j < |completed| && j != me ==>
               Turned(us[j], vs[j], completed[j], processed[j]) && Pushed(us[j], vs[j])
    requires r <==> exists j :: 0 <= j < |completed| && j != me && HasWork(us[j])
    requires !r ==> vs == us
    ensures Upto(us, vs, me, r, completed, processed, handler)
  {
    hide Sent, Turned, Pushed, SameInbox, SubmittedTo, Joined, HasWork;
  }

  lemma UptoNext<T>(us: seq<View<T>>, vs: seq<View<T>>, ws: seq<View<T>>, me: nat, r: bool, completed: seq<seq<T>>,
                    processed: seq<seq<T>>, c: seq<T>, p: seq<T>, handler: Handler<T>)
    requires RingsOk(us) && Upto(us, vs, me, r, completed, processed, handler)
    requires |completed| < |us| && |completed| != me
    requires var v := vs[|completed|]; |v.txRing| <= RING_CAPACITY && |v.inRxRing| <= RING_CAPACITY
    requires AfterTurn(vs, ws, me, |completed|, c, p, handler)
    ensures Upto(us, ws, me, r || HasWork(vs[|completed|]), completed + [c], processed + [p], handler)
  {
    hide *;
    FoundNext(us, vs, ws, me, r, completed, processed, c, p, handler);
    SentNext(us, vs, ws, me, r, completed, processed, c, p, handler);
    TurnedNext(us, vs, ws, me, r, completed, processed, c, p, handler);
    var found := r || HasWork(vs[|completed|]);
    UptoIs(us, ws, me, found, completed + [c], processed + [p], handler);
  }

  /** The loop of poll_queues(). */
  method PollFrom<T(!new)>(links: seq<Link<T>>, me: nat, handler: Handler<T>)
    returns (r: bool, completed: seq<seq<T>>, processed: seq<seq<T>>)
    requires Apart(links, me) && forall i: nat :: i < |links| && i != me ==> Valid(links[i])
    modifies Shared(links)
    ensures forall i: nat :: i < |links| && i != me ==> Valid(links[i])
    ensures |completed| == |links| && RingsOk(old(Views(links, me)))
    ensures Upto(old(Views(links, me)), Views(links, me), me, r, completed, processed, handler)
  {
    ghost var us := Views(links, me);
    assert RingsOk(us);
    UptoStart(us, me, handler);
    hide Views, Upto, Apart, Valid, AfterTurn, HasWork, RingsOk;
    r, completed, processed := false, [], [];
    var i := 0;
    while i < |links|
      invariant 0 <= i <= |links| && |completed| == i
      invariant forall j: nat :: j < |links| && j != me ==> Valid(links[j])
      invariant Upto(us, Views(links, me), me, r, completed, processed, handler)
    {
      if i != me {
        ghost var vs := Views(links, me);
        var found, c, p := PollOneAmong(links, me, i, handler);
        UptoNext(us, vs, Views(links, me), me, r, completed, processed, c, p, handler);
        r, completed, processed := r || found, completed + [c], processed + [p];
      } else {
        UptoSelf(us, Views(links, me), me, r, completed, processed, handler);
        completed, processed := completed + [[]], processed + [[]];
      }
      i := i + 1;
    }
  }

  lemma UptoStart<T>(us: seq<View<T>>, me: nat, handler: Handler<T>)
    requires RingsOk(us)
    ensures Upto(us, us, me, false, [], [], handler)
  {
    assert forall j :: 0 <= j < |us| ==> us[j].txRing + us[j].txBuffer + [] == us[j].txRing + us[j].txBuffer;
  }

  /** What poll_queues() has done for one peer.  Up to eight responses have come out of their ring, in order, and up to
      eight requests; nothing else is gone.  As many of the CPU's responses as fit are in their ring; the requests
      that were on its way, and `more` behind them, still are, and their ring holds as much as it can of those that
      were there.  The peer is signalled exactly if there is something new for it. */
  ghost predicate PeerPolled<T>(v: View<T>, w: View<T>, completed: seq<T>, processed: seq<T>, more: seq<T>) {
    && completed + w.rxRing == v.rxRing && |completed| == (if |v.rxRing| < 8 then |v.rxRing| else 8)
    && processed + w.inTxRing == v.inTxRing && |processed| == (if |v.inTxRing| < 8 then |v.inTxRing| else 8)
    && w.rxBuffer == v.rxBuffer && w.inTxBuffer == v.inTxBuffer
    && w.inRxRing + w.inRxBuffer == v.inRxRing + v.inRxBuffer
    && (w.inRxBuffer == [] || |w.inRxRing| == 1024)
    && w.txRing + w.txBuffer == v.txRing + v.txBuffer + more
    && |w.txRing| >= |v.txRing| && (|w.txRing| >= |v.txRing| + |v.txBuffer| || |w.txRing| >= 1024)
    && (w.told <==> v.told || |w.txRing| > |v.txRing| || |w.inRxRing| > |v.inRxRing|)
  }

  /** Nothing comes from the peer, and nothing can be sent to it. */
  ghost predicate AtRest<T>(v: View<T>) {
    && v.rxRing == [] && v.inTxRing == []
    && (v.txBuffer == [] || |v.txRing| >= 1024) && (v.inRxBuffer == [] || |v.inRxRing| >= 1024)
  }

  lemma TurnsDoThis<T>(u: View<T>, v: View<T>, completed: seq<T>, processed: seq<T>, more: seq<T>)
    requires |u.txRing| <= RING_CAPACITY && |u.inRxRing| <= RING_CAPACITY
    requires Sent(u, v, more) && Turned(u, v, completed, processed) && Pushed(u, v)
    ensures PeerPolled(u, v, completed, processed, more)
    ensures !HasWork(u) <==> AtRest(u)
  {
  }

  /** OS::poll_queues(): the result says whether there was anything to do; if not, nothing has changed, and nothing is
      left to do: all rings into the CPU are empty, and all its buffers are empty or stuck behind a full ring. */
  method PollAll<T(!new)>(links: seq<Link<T>>, me: nat, handler: Handler<T>)
    returns (r: bool, completed: seq<seq<T>>, processed: seq<seq<T>>)
    requires Apart(links, me) && forall i: nat :: i < |links| && i != me ==> Valid(links[i])
    modifies Shared(links)
    ensures forall i: nat :: i < |links| && i != me ==> Valid(links[i])
    ensures |completed| == |links| == |processed|
    ensures var vs, ws := old(Views(links, me)), Views(links, me);
            && (forall i :: 0 <= i < |links| && i != me ==>
                  PeerPolled(vs[i], ws[i], completed[i], processed[i], SubmittedTo(Joined(processed), handler, i)))
            && (r <==> exists i :: 0 <= i < |links| && i != me && !AtRest(vs[i]))
            && (!r ==> ws == vs)
  {
    ghost var us := Views(links, me);
    hide Views, Valid, Apart;
    r, completed, processed := PollFrom(links, me, handler);
    UptoTheEnd(us, Views(links, me), me, r, completed, processed, handler);
  }

  lemma UptoTheEnd<T>(us: seq<View<T>>, vs: seq<View<T>>, me: nat, r: bool, completed: seq<seq<T>>,
                      processed: seq<seq<T>>, handler: Handler<T>)
    requires RingsOk(us) && Upto(us, vs, me, r, completed, processed, handler) && |completed| == |us|
    ensures forall i :: 0 <= i < |us| && i != me ==>
              PeerPolled(us[i], vs[i], completed[i], processed[i], SubmittedTo(Joined(processed), handler, i))
    ensures (r <==> exists i :: 0 <= i < |us| && i != me && !AtRest(us[i])) && (!r ==> vs == us)
  {
    hide Sent, Turned, Pushed, SubmittedTo, Joined, HasWork, PeerPolled, AtRest;
    forall i | 0 <= i < |us| && i != me
      ensures PeerPolled(us[i], vs[i], completed[i], processed[i], SubmittedTo(Joined(processed), handler, i))
      ensures HasWork(us[i]) <==> !AtRest(us[i])
    {
      TurnsDoThis(us[i], vs[i], completed[i], processed[i], SubmittedTo(Joined(processed), handler, i));
    }
  }
}
