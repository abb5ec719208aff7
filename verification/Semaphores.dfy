/** The token semaphore with lazy first-in first-out granting. */
module Semaphores {

  const SIZE_LIMIT: nat := 0x1_0000_0000_0000_0000

  /** std::size_t */
  type Size = n: nat | n < SIZE_LIMIT witness 0

  /** A waiting request: its tokens, and its promise, named by the number of the wait() call. */
  datatype Entry = Entry(tokens: Size, pr: nat)

  /** The future returned by wait(). */
  datatype Reply = Ready | Pending(pr: nat)

  datatype Event = Wait(tokens: Size) | Release(tokens: Size)

  /** The semaphore, the number of wait() calls so far, and those granted, in the order of granting.  The counter of
      the class is a std::size_t; that of the ideal semaphore below is unbounded. */
  datatype Sem = Sem(tokens: nat, waiting: seq<Entry>, calls: nat, granted: seq<nat>)

  /** tokens_ += tokens, modulo the width of std::size_t. */
  function Plus(a: nat, b: Size): Size {
    (a + b) % SIZE_LIMIT
  }

  function Step(s: Sem, e: Event): Sem {
    match e
    case Wait(n) =>
      if n < s.tokens && s.waiting == [] then
        s.(tokens := s.tokens - n, calls := s.calls + 1, granted := s.granted + [s.calls])
      else
        s.(waiting := s.waiting + [Entry(n, s.calls)], calls := s.calls + 1)
    case Release(n) =>
      var t := Plus(s.tokens, n);
      if s.waiting == [] || s.waiting[0].tokens > t then s.(tokens := t)
      else
        s.(tokens := t - s.waiting[0].tokens, waiting := s.waiting[1..], granted := s.granted + [s.waiting[0].pr])
  }

  class Semaphore {
    var tokens: Size
    var waiting: seq<Entry>
    var calls: nat
    var granted: seq<nat>

    function View(): Sem
      reads this
    {
      Sem(tokens, waiting, calls, granted)
    }

    constructor (initial: Size)
      ensures View() == Sem(initial, [], 0, [])
    {
      tokens, waiting, calls, granted := initial, [], 0, [];
    }

    method Wait(n: Size) returns (r: Reply)
      modifies this
      ensures View() == Step(old(View()), Event.Wait(n))
      ensures r == if old(calls) in granted[|old(granted)|..] then Ready else Pending(old(calls))
    {
      if n < tokens && waiting == [] {
        tokens := tokens - n;
        granted := granted + [calls];
        r := Ready;
      } else {
        waiting := waiting + [Entry(n, calls)];
        r := Pending(calls);
      }
      calls := calls + 1;
    }

    method Release(n: Size)
      modifies this
      ensures View() == Step(old(View()), Event.Release(n))
    {
      tokens := Plus(tokens, n);
      if waiting == [] || waiting[0].tokens > tokens {
        return;
      }
      var entry := waiting[0];
      tokens := tokens - entry.tokens;
      granted := granted + [entry.pr];
      waiting := waiting[1..];
    }
  }

  // ---------------------------------------------------------------------------------------------
  // Histories

  /** The semaphore after a history of calls. */
  ghost function Run(initial: Size, h: seq<Event>): (s: Sem)
    ensures s.tokens < SIZE_LIMIT
  {
    if h == [] then Sem(initial, [], 0, [])
    else Step(Run(initial, h[..|h| - 1]), h[|h| - 1])
  }

  /** The token counts of the wait() calls, in order. */
  ghost function Requests(h: seq<Event>): seq<Size> {
    if h == [] then []
    else
      var e := h[|h| - 1];
      Requests(h[..|h| - 1]) + if e.Wait? then [e.tokens] else []
  }

  ghost function Released(h: seq<Event>): nat {
    if h == [] then 0
    else
      var e := h[|h| - 1];
      Released(h[..|h| - 1]) + if e.Release? then e.tokens else 0
  }

  /** The tokens lost to overflow of the counter. */
  ghost function Lost(initial: Size, h: seq<Event>): nat {
    if h == [] then 0
    else
      var e := h[|h| - 1];
      Lost(initial, h[..|h| - 1])
        + if e.Release? && Run(initial, h[..|h| - 1]).tokens + e.tokens >= SIZE_LIMIT then SIZE_LIMIT else 0
  }

  ghost function Sum(s: seq<Size>): nat {
    if s == [] then 0 else s[0] + Sum(s[1..])
  }

  /** The first k call numbers. */
  ghost function FirstCalls(k: nat): seq<nat> {
    seq(k, i => i)
  }

  /** The entries of the calls from number k on. */
  ghost function EntriesFrom(requests: seq<Size>, k: nat): seq<Entry>
    requires k <= |requests|
  {
    seq(|requests| - k, i requires 0 <= i < |requests| - k => Entry(requests[k + i], k + i))
  }

  lemma {:induction false} SumAppend(a: seq<Size>, b: seq<Size>)
    ensures Sum(a + b) == Sum(a) + Sum(b)
  {
    if a == [] {
      assert a + b == b;
    } else {
      SumAppend(a[1..], b);
      assert (a + b)[1..] == a[1..] + b;
    }
  }

  lemma SumTake(requests: seq<Size>, k: nat)
    requires k < |requests|
    ensures Sum(requests[..k + 1]) == Sum(requests[..k]) + requests[k]
  {
    assert requests[..k + 1] == requests[..k] + [requests[k]];
    SumAppend(requests[..k], [requests[k]]);
  }

  /** A state that has granted the first k of the requests and queued the rest, out of a budget. */
  ghost predicate Fair(s: Sem, requests: seq<Size>, budget: int, k: nat) {
    && k <= |requests| == s.calls
    && s.granted == FirstCalls(k)
    && s.waiting == EntriesFrom(requests, k)
    && s.tokens + Sum(requests[..k]) == budget
  }

  lemma WaitStaysFair(s: Sem, n: Size, requests: seq<Size>, budget: int, k: nat)
    requires Fair(s, requests, budget, k)
    ensures var t := Step(s, Wait(n)); Fair(t, requests + [n], budget, |t.granted|)
  {
    var all := requests + [n];
    assert all[..k] == requests[..k];
    if n < s.tokens && s.waiting == [] {
      assert k == |requests|;
      SumTake(all, k);
      assert FirstCalls(k + 1) == FirstCalls(k) + [k];
    } else {
      assert EntriesFrom(all, k) == EntriesFrom(requests, k) + [Entry(n, |requests|)];
    }
  }

  lemma ReleaseStaysFair(s: Sem, n: Size, requests: seq<Size>, budget: int, k: nat)
    requires Fair(s, requests, budget, k) && s.tokens < SIZE_LIMIT
    ensures var t := Step(s, Release(n));
            Fair(t, requests, budget + n - (if s.tokens + n >= SIZE_LIMIT then SIZE_LIMIT else 0), |t.granted|)
  {
    if s.waiting != [] && s.waiting[0].tokens <= Plus(s.tokens, n) {
      SumTake(requests, k);
      assert FirstCalls(k + 1) == FirstCalls(k) + [k];
      assert EntriesFrom(requests, k + 1) == EntriesFrom(requests, k)[1..];
    }
  }

  /** No overtaking and no underflow: after any history, the granted requests are the first ones, in order,
      the others wait in order, and the tokens of the granted ones, with those left, are exactly the initial
      ones plus those released, less those lost to overflow. */
  lemma {:induction false} ClosedForm(initial: Size, h: seq<Event>)
    ensures var s := Run(initial, h);
            Fair(s, Requests(h), initial + Released(h) - Lost(initial, h), |s.granted|)
  {
    if h == [] {
      assert FirstCalls(0) == [];
    } else {
      var g := h[..|h| - 1];
      ClosedForm(initial, g);
      var s := Run(initial, g);
      match h[|h| - 1]
      case Wait(n) => WaitStaysFair(s, n, Requests(g), initial + Released(g) - Lost(initial, g), |s.granted|);
      case Release(n) =>
        assert Requests(h) == Requests(g);
        ReleaseStaysFair(s, n, Requests(g), initial + Released(g) - Lost(initial, g), |s.granted|);
    }
  }

  /** The length of the longest prefix of the requests that fits a budget. */
  ghost function Longest(requests: seq<Size>, budget: int): nat {
    if requests == [] || requests[0] > budget then 0
    else 1 + Longest(requests[1..], budget - requests[0])
  }

  lemma {:induction false} LongestIsLongest(requests: seq<Size>, budget: int, k: nat)
    requires budget >= 0
    ensures var m := Longest(requests, budget); m <= |requests| && Sum(requests[..m]) <= budget
    ensures k <= |requests| && Sum(requests[..k]) <= budget ==> k <= Longest(requests, budget)
  {
    if requests != [] && requests[0] <= budget {
      var m := Longest(requests, budget);
      LongestIsLongest(requests[1..], budget - requests[0], if k == 0 then 0 else k - 1);
      assert requests[..m][1..] == requests[1..][..m - 1];
      if 0 < k <= |requests| {
        assert requests[..k][1..] == requests[1..][..k - 1];
      }
    } else if 0 < k <= |requests| {
      assert Sum(requests[..k]) == requests[0] + Sum(requests[..k][1..]);
    }
  }

  /** A prefix that fits and cannot be extended is the longest one. */
  lemma {:induction false} LongestWhenStuck(requests: seq<Size>, budget: int, k: nat)
    requires k <= |requests| && Sum(requests[..k]) <= budget
    requires k < |requests| ==> Sum(requests[..k]) + requests[k] > budget
    ensures Longest(requests, budget) == k
  {
    if k > 0 {
      assert requests[..k][1..] == requests[1..][..k - 1];
      LongestWhenStuck(requests[1..], budget - requests[0], k - 1);
    }
  }

  /** m calls of release(0), as the pollers make them. */
  ghost function Pumps(m: nat): seq<Event> {
    seq(m, i => Release(0))
  }

  lemma {:induction false} PumpedFair(s: Sem, requests: seq<Size>, budget: int, k: nat, m: nat)
    requires Fair(s, requests, budget, k) && s.tokens < SIZE_LIMIT && |s.waiting| <= m
    ensures var t := PumpedFrom(s, m); Fair(t, requests, budget, Longest(requests, budget))
    decreases m
  {
    if m == 0 {
      LongestWhenStuck(requests, budget, k);
    } else {
      ReleaseStaysFair(s, 0, requests, budget, k);
      var t := Step(s, Release(0));
      if t == s {
        PumpedStuck(s, m);
        LongestWhenStuck(requests, budget, k);
      } else {
        PumpedFair(t, requests, budget, |t.granted|, m - 1);
      }
    }
  }

  /** m calls of release(0) from state s. */
  ghost function PumpedFrom(s: Sem, m: nat): Sem
    decreases m
  {
    if m == 0 then s else PumpedFrom(Step(s, Release(0)), m - 1)
  }

  lemma {:induction false} PumpedStuck(s: Sem, m: nat)
    requires Step(s, Release(0)) == s
    ensures PumpedFrom(s, m) == s
  {
    if m > 0 {
      PumpedStuck(s, m - 1);
    }
  }

  lemma {:induction false} RunPumps(initial: Size, h: seq<Event>, m: nat)
    ensures Run(initial, h + Pumps(m)) == PumpedFrom(Run(initial, h), m)
  {
    if m == 0 {
      assert h + Pumps(0) == h;
    } else {
      var k := h + Pumps(m);
      assert k[..|k| - 1] == h + Pumps(m - 1);
      RunPumps(initial, h, m - 1);
      PumpLast(Run(initial, h), m - 1);
    }
  }

  lemma {:induction false} PumpLast(s: Sem, m: nat)
    ensures PumpedFrom(s, m + 1) == Step(PumpedFrom(s, m), Release(0))
    decreases m
  {
    if m > 0 {
      PumpLast(Step(s, Release(0)), m - 1);
    }
  }

  /** As many calls of release(0) as there are waiting requests grant the longest prefix that fits. */
  lemma PumpingGrantsTheLongestPrefix(initial: Size, h: seq<Event>, m: nat)
    requires |Run(initial, h).waiting| <= m
    ensures var budget := initial + Released(h) - Lost(initial, h);
            Fair(Run(initial, h + Pumps(m)), Requests(h), budget, Longest(Requests(h), budget))
  {
    hide Run, Fair, Requests, Released, Lost, Longest;
    ClosedForm(initial, h);
    RunPumps(initial, h, m);
    PumpedFair(Run(initial, h), Requests(h), initial + Released(h) - Lost(initial, h), |Run(initial, h).granted|, m);
  }

  /** Whether the call of release() at index j of the history wraps the counter round. */
  ghost predicate Overflows(initial: Size, h: seq<Event>, j: nat)
    requires j < |h|
  {
    h[j].Release? && Run(initial, h[..j]).tokens + h[j].tokens >= SIZE_LIMIT
  }

  /** Tokens are lost exactly when some call overflows. */
  lemma {:induction false} LostByOverflow(initial: Size, h: seq<Event>)
    ensures Lost(initial, h) == 0 <==> forall j :: 0 <= j < |h| ==> !Overflows(initial, h, j)
  {
    if h != [] {
      var g := h[..|h| - 1];
      LostByOverflow(initial, g);
      assert forall j :: 0 <= j < |g| ==> g[..j] == h[..j];
      assert forall j :: 0 <= j < |g| ==> Overflows(initial, h, j) == Overflows(initial, g, j);
      assert Lost(initial, h) == Lost(initial, g) + if Overflows(initial, h, |g|) then SIZE_LIMIT else 0;
    }
  }

  /** The tokens left and those granted fix the budget. */
  lemma OneBudget(s: Sem, requests: seq<Size>, a: int, b: int)
    ensures forall j, k :: Fair(s, requests, a, j) && Fair(s, requests, b, k) ==> a == b
  {
    forall j, k | Fair(s, requests, a, j) && Fair(s, requests, b, k)
      ensures a == b
    {
      assert |FirstCalls(j)| == |FirstCalls(k)|;
    }
  }

  /** The pumped semaphore has granted the longest prefix of all the tokens ever released, and kept the rest of
      them, if and only if no release overflowed. */
  lemma PumpingIsExact(initial: Size, h: seq<Event>, m: nat)
    requires |Run(initial, h).waiting| <= m
    ensures var budget := initial + Released(h);
            Fair(Run(initial, h + Pumps(m)), Requests(h), budget, Longest(Requests(h), budget))
            <==> forall j :: 0 <= j < |h| ==> !Overflows(initial, h, j)
  {
    hide Run, Fair, Requests, Released, Lost, Longest, Overflows;
    LostByOverflow(initial, h);
    PumpingGrantsTheLongestPrefix(initial, h, m);
    OneBudget(Run(initial, h + Pumps(m)), Requests(h), initial + Released(h),
              initial + Released(h) - Lost(initial, h));
  }

  // ---------------------------------------------------------------------------------------------
  // One grant at a time

  /** A release grants at most one request, the one that has waited longest. */
  lemma ReleaseGrantsAtMostOne(s: Sem, n: Size)
    ensures var t := Step(s, Release(n));
            || t.granted == s.granted
            || (s.waiting != [] && t.granted == s.granted + [s.waiting[0].pr] && t.waiting == s.waiting[1..])
  {
  }

  lemma ReleaseFair(s: Sem, n: Size, requests: seq<Size>, budget: int, k: nat)
    requires Fair(s, requests, budget, k) && s.tokens < SIZE_LIMIT
    ensures var t := Step(s, Release(n));
            var after := budget + n - (if s.tokens + n >= SIZE_LIMIT then SIZE_LIMIT else 0);
            Fair(t, requests, after, if k < Longest(requests, after) then k + 1 else k)
  {
    var t := Step(s, Release(n));
    var after := budget + n - (if s.tokens + n >= SIZE_LIMIT then SIZE_LIMIT else 0);
    ReleaseStaysFair(s, n, requests, budget, k);
    assert |s.granted| == k;
    if t.waiting == s.waiting {
      LongestWhenStuck(requests, after, k);
    } else {
      LongestIsLongest(requests, after, k + 1);
    }
  }

  /** A release grants exactly one request more, as long as the longest prefix that fits is not granted yet, and else
      none, whatever the number of tokens released. */
  lemma ReleaseGrantsOne(initial: Size, h: seq<Event>, n: Size)
    ensures var g := h + [Release(n)];
            var before := |Run(initial, h).granted|;
            var most := Longest(Requests(g), initial + Released(g) - Lost(initial, g));
            |Run(initial, g).granted| == if before < most then before + 1 else before
  {
    LastRelease(initial, h, n);
    hide Longest, Requests, Released, Lost, Run, Step, Fair;
    var s := Run(initial, h);
    ClosedForm(initial, h);
    ReleaseFair(s, n, Requests(h), initial + Released(h) - Lost(initial, h), |s.granted|);
    FairCount(Step(s, Release(n)));
  }

  lemma FairCount(s: Sem)
    ensures forall requests, budget, k :: Fair(s, requests, budget, k) ==> |s.granted| == k
  {
  }

  lemma LastRelease(initial: Size, h: seq<Event>, n: Size)
    ensures var g, s := h + [Release(n)], Run(initial, h);
            && Requests(g) == Requests(h) && Released(g) == Released(h) + n && Run(initial, g) == Step(s, Release(n))
            && Lost(initial, g) == Lost(initial, h) + if s.tokens + n >= SIZE_LIMIT then SIZE_LIMIT else 0
  {
    var g := h + [Release(n)];
    assert g[..|g| - 1] == h && g[|g| - 1] == Release(n);
    hide Step;
  }

  /** A request is granted at once if and only if all before it have been granted, and it leaves at least one token. */
  lemma WaitGrantsAtOnce(initial: Size, h: seq<Event>, n: Size)
    ensures var s, t := Run(initial, h), Run(initial, h + [Wait(n)]);
            && (t.granted == s.granted || t.granted == s.granted + [|Requests(h)|])
            && (t.granted != s.granted <==>
                  |s.granted| == |Requests(h)| && Sum(Requests(h)) + n < initial + Released(h) - Lost(initial, h))
  {
    var g, s := h + [Wait(n)], Run(initial, h);
    assert g[..|g| - 1] == h;
    ClosedForm(initial, h);
    if |s.granted| == |Requests(h)| {
      assert Requests(h)[..|s.granted|] == Requests(h);
    }
  }

  /** The calls that were granted as they were made, and the calls of release(). */
  ghost function Immediate(initial: Size, h: seq<Event>): nat {
    if h == [] then 0
    else
      var g, e := h[..|h| - 1], h[|h| - 1];
      Immediate(initial, g) + if e.Wait? && |Run(initial, h).granted| > |Run(initial, g).granted| then 1 else 0
  }

  ghost function Releases(h: seq<Event>): nat {
    if h == [] then 0 else Releases(h[..|h| - 1]) + if h[|h| - 1].Release? then 1 else 0
  }

  /** No more requests have been granted than at once and by a release each. */
  lemma {:induction false} EachGrantHasItsCall(initial: Size, h: seq<Event>)
    ensures |Run(initial, h).granted| <= Immediate(initial, h) + Releases(h)
  {
    if h != [] {
      var s, e := Run(initial, h[..|h| - 1]), h[|h| - 1];
      EachGrantHasItsCall(initial, h[..|h| - 1]);
      if e.Release? {
        ReleaseGrantsAtMostOne(s, e.tokens);
      }
    }
  }

  /** Each call of release(0) grants one request of the longest prefix that fits, until that is granted, and no fewer
      calls do it. */
  lemma {:induction false} PumpsGrantOneByOne(s: Sem, requests: seq<Size>, budget: int, k: nat, m: nat)
    requires Fair(s, requests, budget, k) && s.tokens < SIZE_LIMIT
    ensures var most := Longest(requests, budget);
            k <= most && |PumpedFrom(s, m).granted| == if k + m < most then k + m else most
    decreases m
  {
    LongestIsLongest(requests, budget, k);
    if m > 0 {
      ReleaseFair(s, 0, requests, budget, k);
      var next := if k < Longest(requests, budget) then k + 1 else k;
      PumpsGrantOneByOne(Step(s, Release(0)), requests, budget, next, m - 1);
    }
  }

  /** How many requests m calls of release(0) grant, after any history. */
  lemma PumpsAreOneByOne(initial: Size, h: seq<Event>, m: nat)
    ensures var before, most := |Run(initial, h).granted|,
                                Longest(Requests(h), initial + Released(h) - Lost(initial, h));
            |Run(initial, h + Pumps(m)).granted| == if before + m < most then before + m else most
  {
    ClosedForm(initial, h);
    hide Run, Fair, Requests, Released, Lost, Longest, PumpedFrom;
    RunPumps(initial, h, m);
    PumpsGrantOneByOne(Run(initial, h), Requests(h), initial + Released(h) - Lost(initial, h),
                       |Run(initial, h).granted|, m);
  }

  // ---------------------------------------------------------------------------------------------
  // The ideal semaphore: it grants as soon as it can, and its counter does not wrap round

  /** Granting from the front of the queue for as long as the front request fits. */
  ghost function Drained(s: Sem): Sem
    decreases |s.waiting|
  {
    if s.waiting == [] || s.waiting[0].tokens > s.tokens then s
    else
      Drained(s.(tokens := s.tokens - s.waiting[0].tokens, waiting := s.waiting[1..],
                 granted := s.granted + [s.waiting[0].pr]))
  }

  ghost function EagerStep(s: Sem, e: Event): Sem {
    match e
    case Wait(n) => Drained(s.(waiting := s.waiting + [Entry(n, s.calls)], calls := s.calls + 1))
    case Release(n) => Drained(s.(tokens := s.tokens + n))
  }

  ghost function Eager(initial: Size, h: seq<Event>): Sem {
    if h == [] then Sem(initial, [], 0, []) else EagerStep(Eager(initial, h[..|h| - 1]), h[|h| - 1])
  }

  lemma {:induction false} DrainedFair(s: Sem, requests: seq<Size>, budget: int, k: nat)
    requires Fair(s, requests, budget, k)
    ensures Fair(Drained(s), requests, budget, Longest(requests, budget))
    decreases |s.waiting|
  {
    if s.waiting == [] || s.waiting[0].tokens > s.tokens {
      LongestWhenStuck(requests, budget, k);
    } else {
      SumTake(requests, k);
      assert FirstCalls(k + 1) == FirstCalls(k) + [k];
      assert EntriesFrom(requests, k + 1) == EntriesFrom(requests, k)[1..];
      DrainedFair(s.(tokens := s.tokens - s.waiting[0].tokens, waiting := s.waiting[1..],
                     granted := s.granted + [s.waiting[0].pr]), requests, budget, k + 1);
    }
  }

  lemma EagerWaitFair(s: Sem, n: Size, requests: seq<Size>, budget: int, k: nat)
    requires Fair(s, requests, budget, k)
    ensures var t := s.(waiting := s.waiting + [Entry(n, s.calls)], calls := s.calls + 1);
            Fair(Drained(t), requests + [n], budget, Longest(requests + [n], budget))
  {
    hide Longest, Drained;
    var all := requests + [n];
    assert all[..k] == requests[..k];
    assert EntriesFrom(all, k) == EntriesFrom(requests, k) + [Entry(n, |requests|)];
    DrainedFair(s.(waiting := s.waiting + [Entry(n, s.calls)], calls := s.calls + 1), all, budget, k);
  }

  lemma EagerStepFair(s: Sem, e: Event, requests: seq<Size>, budget: int, k: nat)
    requires Fair(s, requests, budget, k)
    ensures var all := requests + if e.Wait? then [e.tokens] else [];
            var most := budget + if e.Release? then e.tokens else 0;
            Fair(EagerStep(s, e), all, most, Longest(all, most))
  {
    hide Drained, Longest;
    match e
    case Wait(n) => EagerWaitFair(s, n, requests, budget, k);
    case Release(n) =>
      assert requests + [] == requests;
      DrainedFair(s.(tokens := s.tokens + n), requests, budget + n, k);
  }

  lemma EagerStart(initial: Size)
    ensures var budget := initial + Released([]);
            Fair(Eager(initial, []), Requests([]), budget, Longest(Requests([]), budget))
  {
    assert FirstCalls(0) == [];
  }

  lemma LastCall(initial: Size, h: seq<Event>)
    requires h != []
    ensures var g, e := h[..|h| - 1], h[|h| - 1];
            && Eager(initial, h) == EagerStep(Eager(initial, g), e)
            && Requests(h) == Requests(g) + (if e.Wait? then [e.tokens] else [])
            && Released(h) == Released(g) + (if e.Release? then e.tokens else 0)
  {
  }

  /** The ideal semaphore has always granted the longest prefix that fits. */
  lemma {:induction false} EagerClosedForm(initial: Size, h: seq<Event>)
    ensures Fair(Eager(initial, h), Requests(h), initial + Released(h), Longest(Requests(h), initial + Released(h)))
  {
    hide *;
    if h == [] {
      EagerStart(initial);
    } else {
      LastCall(initial, h);
      var g := h[..|h| - 1];
      EagerClosedForm(initial, g);
      var budget := initial + Released(g);
      EagerStepFair(Eager(initial, g), h[|h| - 1], Requests(g), budget, Longest(Requests(g), budget));
    }
  }

  /** The lazy semaphore, once pumped, is in the state of the ideal one if and only if no release overflowed. */
  lemma LazyCatchesUpWithEager(initial: Size, h: seq<Event>, m: nat)
    requires |Run(initial, h).waiting| <= m
    ensures Run(initial, h + Pumps(m)) == Eager(initial, h)
            <==> forall j :: 0 <= j < |h| ==> !Overflows(initial, h, j)
  {
    hide Run, Eager, Longest, Requests, Released, Lost, Overflows;
    PumpingIsExact(initial, h, m);
    EagerClosedForm(initial, h);
  }

  /** The lazy semaphore is never ahead of the ideal one: it has granted a prefix of what that has granted. */
  lemma LazyIsNeverAhead(initial: Size, h: seq<Event>)
    ensures Run(initial, h).granted <= Eager(initial, h).granted
  {
    hide Run, Eager, Longest, Requests, Released;
    ClosedForm(initial, h);
    EagerClosedForm(initial, h);
    LongestIsLongest(Requests(h), initial + Released(h), |Run(initial, h).granted|);
  }

  /** When the counter overflows, the tokens lost can leave a request waiting for ever. */
  lemma OverflowStarves(m: nat)
    ensures var h := [Release(1), Wait(1)];
            && Released(h) == 1 && Requests(h) == [1]
            && Longest(Requests(h), (SIZE_LIMIT - 1) + Released(h)) == 1
            && Run(SIZE_LIMIT - 1, h + Pumps(m)).granted == []
  {
    var h: seq<Event> := [Release(1), Wait(1)];
    assert h[..1] == [Release(1)] && h[..1][..0] == [];
    assert Requests([Release(1)]) == [] && Released([Release(1)]) == 1;
    var a := Run(SIZE_LIMIT - 1, [Release(1)]);
    assert Run(SIZE_LIMIT - 1, []) == Sem(SIZE_LIMIT - 1, [], 0, []);
    assert a == Sem(0, [], 0, []);
    var s := Run(SIZE_LIMIT - 1, h);
    assert s == Sem(0, [Entry(1, 0)], 1, []);
    RunPumps(SIZE_LIMIT - 1, h, m);
    PumpedStuck(s, m);
  }

  /** A release that grants nothing leaves no front request that fits. */
  lemma SilentReleaseIsQuiescent(s: Sem, n: Size)
    requires Step(s, Release(n)).granted == s.granted
    ensures var t := Step(s, Release(n)); t.waiting == [] || t.waiting[0].tokens > t.tokens
  {
  }
}
