/** The signal poller: signals are noted in a 64-bit mask, and their handlers run later, from the event loop. */
module SignalPollers {
  const MASK_BITS: nat := 64

  /** The bits of a mask, as a set of bit numbers. */
  type Mask = s: set<nat> | forall i <- s :: i < MASK_BITS witness {}

  /** The members of a set, from i upwards. */
  function Ascending(s: set<nat>, i: nat): seq<nat>
    requires i <= MASK_BITS
    decreases MASK_BITS - i
  {
    if i == MASK_BITS then [] else (if i in s then [i] else []) + Ascending(s, i + 1)
  }

  /** Each member once, in ascending order, and nothing else. */
  lemma {:induction false} AscendingIsExact(s: set<nat>, i: nat)
    requires i <= MASK_BITS
    ensures var q := Ascending(s, i);
            && (forall x :: x in q <==> x in s && i <= x < MASK_BITS)
            && (forall j, k :: 0 <= j < k < |q| ==> q[j] < q[k])
    decreases MASK_BITS - i
  {
    if i < MASK_BITS {
      AscendingIsExact(s, i + 1);
      var rest := Ascending(s, i + 1);
      assert forall k :: 0 <= k < |rest| ==> rest[k] in rest;
      assert Ascending(s, i) == (if i in s then [i] else []) + rest;
      hide Ascending;
    }
  }

  lemma {:induction false} AscendingOfNone(i: nat)
    requires i <= MASK_BITS
    ensures Ascending({}, i) == []
    decreases MASK_BITS - i
  {
    if i < MASK_BITS {
      AscendingOfNone(i + 1);
    }
  }

  lemma AscendingStep(calls: seq<nat>, s: set<nat>, i: nat)
    requires i <= MASK_BITS
    ensures i == MASK_BITS ==> calls + Ascending(s, i) == calls
    ensures i < MASK_BITS ==>
              calls + Ascending(s, i) == (if i in s then calls + [i] else calls) + Ascending(s, i + 1)
  {
  }

  /** 1ull << signo: the bit of the signal, or anything at all when the shift is too wide. */
  function Shifted(signo: nat, undefined: Mask): Mask {
    if signo < MASK_BITS then {signo} else undefined
  }

  /** The mask once the given signals are cleared, and n rounds of the loop have gone by. */
  ghost function Noted(arriving: nat -> Mask, cleared: Mask, n: nat): Mask {
    if n == 0 then arriving(0) - cleared else Noted(arriving, cleared, n - 1) + arriving(n)
  }

  /** The bits that arrived after the fetch_and, and those that arrived before it and were not loaded. */
  lemma {:induction false} NotedIs(arriving: nat -> Mask, loaded: Mask, n: nat)
    ensures forall x :: x in Noted(arriving, loaded, n) <==>
                          (x in arriving(0) && x !in loaded) || exists i :: 1 <= i <= n && x in arriving(i)
  {
    if n > 0 {
      NotedIs(arriving, loaded, n - 1);
    }
  }

  class SignalPoller {
    var pending: Mask
    var handlers: set<nat>
    var calls: seq<nat>    // the handlers called so far

    constructor ()
      ensures pending == {} && handlers == {} && calls == []
    {
      pending, handlers, calls := {}, {}, [];
    }

    /** Throws when the signal has a handler already, and changes nothing then. */
    method RegisterSignal(signo: nat) returns (ok: bool)
      modifies this`handlers
      ensures ok <==> signo !in old(handlers)
      ensures handlers == old(handlers) + {signo}
    {
      ok := signo !in handlers;
      if ok {
        handlers := handlers + {signo};
      } else {
        assert handlers == handlers + {signo};
      }
    }

    /** dispatch_signal(), with the value of the shift where the language leaves it undefined. */
    method Raise(signo: nat, undefined: Mask)
      modifies this`pending
      ensures pending == old(pending) + Shifted(signo, undefined)
    {
      pending := pending + Shifted(signo, undefined);
    }

    /** Signals may arrive all the time: `arriving(0)` between the load and the fetch_and, `arriving(i + 1)` while
        the loop is at bit i.  Exactly the registered handlers of the loaded mask run, once each, in ascending
        order; a signal that arrives is noted for the next poll, unless the fetch_and clears it together with an
        earlier one that is about to be handled. */
    method Poll(arriving: nat -> Mask) returns (active: bool)
      modifies this`pending, this`calls
      ensures active <==> old(pending) != {}
      ensures calls == old(calls) + Ascending(old(pending) * handlers, 0)
      ensures forall x :: x in pending <==>
                            && active
                            && ((x in arriving(0) && x !in old(pending))
                                || exists i :: 1 <= i <= MASK_BITS && x in arriving(i))
    {
      var signals := pending;
      ghost var called := signals * handlers;
      if signals == {} {
        AscendingOfNone(0);
        assert called == {};
        return false;
      }
      pending := pending + arriving(0);
      pending := pending - signals;
      assert pending == Noted(arriving, signals, 0);
      hide Ascending;
      var i := 0;
      while i < MASK_BITS
        invariant 0 <= i <= MASK_BITS
        invariant pending == Noted(arriving, signals, i)
        invariant calls + Ascending(called, i) == old(calls) + Ascending(called, 0)
      {
        pending := pending + arriving(i + 1);
        AscendingStep(calls, called, i);
        if i in signals {
          if i in handlers {
            calls := calls + [i];
          }
        }
        i := i + 1;
      }
      AscendingStep(calls, called, i);
      NotedIs(arriving, signals, i);
      active := true;
    }
  }

  // ---------------------------------------------------------------------------------------------
  // Signals that arrive while the poller is at work

  /** Where the poller is: outside poll(), between its load and its fetch_and, or in its loop at bit i. */
  datatype At = Outside | Loaded(signals: Mask) | Dispatching(signals: Mask, i: nat)

  datatype Happening = Raised(signo: nat) | Called(signo: nat)

  datatype Poller = Poller(pending: Mask, handlers: set<nat>, at: At, log: seq<Happening>)

  datatype Action = Raise(signo: nat, undefined: Mask) | Advance

  function Step(p: Poller, a: Action): Poller {
    match a
    case Raise(x, undefined) => p.(pending := p.pending + Shifted(x, undefined), log := p.log + [Raised(x)])
    case Advance =>
      match p.at
      case Outside => if p.pending == {} then p else p.(at := Loaded(p.pending))
      case Loaded(signals) => p.(pending := p.pending - signals, at := Dispatching(signals, 0))
      case Dispatching(signals, i) =>
        if i >= MASK_BITS then p.(at := Outside)
        else
          p.(at := Dispatching(signals, i + 1),
             log := if i in signals && i in p.handlers then p.log + [Called(i)] else p.log)
  }

  ghost function Run(handlers: set<nat>, h: seq<Action>): Poller {
    if h == [] then Poller({}, handlers, Outside, []) else Step(Run(handlers, h[..|h| - 1]), h[|h| - 1])
  }

  /** The loop has yet to come to bit x of the mask it has loaded. */
  predicate Coming(p: Poller, x: nat) {
    p.at.Dispatching? && x in p.at.signals && p.at.i <= x
  }

  /** Every raise of a signal with a handler is still noted, or the handler is about to be called, or it has been
      called since. */
  ghost predicate Remembered(p: Poller, x: nat) {
    forall k :: 0 <= k < |p.log| && p.log[k] == Raised(x) && x in p.handlers ==>
      x in p.pending || Coming(p, x) || exists m :: k < m < |p.log| && p.log[m] == Called(x)
  }

  /** What has been loaded is still noted until the fetch_and. */
  predicate LoadedOk(p: Poller) {
    p.at.Loaded? ==> p.at.signals <= p.pending
  }

  /** All the signals raised have a bit of their own. */
  predicate InRange(log: seq<Happening>) {
    forall k :: 0 <= k < |log| && log[k].Raised? ==> log[k].signo < MASK_BITS
  }

  /** There are at least as many raises as calls, those to come included. */
  ghost predicate Caused(p: Poller, x: nat) {
    multiset(p.log)[Called(x)] + (if x in p.pending then 1 else 0) + (if Coming(p, x) then 1 else 0)
      <= multiset(p.log)[Raised(x)]
  }

  lemma StepKeepsCaused(p: Poller, a: Action, x: nat)
    requires LoadedOk(p) && (InRange(p.log) ==> Caused(p, x))
    ensures LoadedOk(Step(p, a)) && (InRange(Step(p, a).log) ==> Caused(Step(p, a), x))
  {
    if InRange(Step(p, a).log) {
      assert forall k :: 0 <= k < |p.log| ==> p.log[k] == Step(p, a).log[k];
      if a.Raise? {
        assert Step(p, a).log[|p.log|] == Raised(a.signo);
      }
    }
  }

  /** A signal that is neither noted nor coming up any more has just been handled. */
  lemma NoLongerComing(p: Poller, a: Action, x: nat)
    requires (x in p.pending || Coming(p, x)) && x in p.handlers && LoadedOk(p)
    ensures var t := Step(p, a); x in t.pending || Coming(t, x) || t.log == p.log + [Called(x)]
  {
  }

  lemma StepRemembers(p: Poller, a: Action, x: nat)
    requires Remembered(p, x) && LoadedOk(p) && x < MASK_BITS
    ensures Remembered(Step(p, a), x)
  {
    var t := Step(p, a);
    assert t.handlers == p.handlers && |p.log| <= |t.log| && t.log[..|p.log|] == p.log;
    forall k | 0 <= k < |t.log| && t.log[k] == Raised(x) && x in t.handlers
      ensures x in t.pending || Coming(t, x) || exists m :: k < m < |t.log| && t.log[m] == Called(x)
    {
      if k < |p.log| {
        assert p.log[k] == t.log[..|p.log|][k];
        hide Step;
        if m :| k < m < |p.log| && p.log[m] == Called(x) {
          assert t.log[..|p.log|][m] == Called(x);
        } else {
          NoLongerComing(p, a, x);
          if t.log == p.log + [Called(x)] {
            assert t.log[|p.log|] == Called(x);
          }
        }
      }
    }
  }

  /** Signal polling forgets nothing: under every interleaving, each raise of a registered signal leaves its bit set
      or is followed by its handler, or the loop is about to call it.  It makes nothing up either: a handler is
      never called more often than its signal was raised, as long as no shift was undefined. */
  lemma {:induction false} NothingIsForgotten(handlers: set<nat>, h: seq<Action>, x: nat)
    ensures var p := Run(handlers, h);
            LoadedOk(p) && (x < MASK_BITS ==> Remembered(p, x)) && (InRange(p.log) ==> Caused(p, x))
  {
    if h != [] {
      NothingIsForgotten(handlers, h[..|h| - 1], x);
      hide Remembered, Caused, Step, InRange, LoadedOk;
      if x < MASK_BITS {
        StepRemembers(Run(handlers, h[..|h| - 1]), h[|h| - 1], x);
      }
      StepKeepsCaused(Run(handlers, h[..|h| - 1]), h[|h| - 1], x);
    }
  }

  /** A signal without a bit of its own, which registration accepts, is forgotten at once when the shift gives
      nothing, and its handler is never called. */
  lemma {:induction false} NoBitNoCall(handlers: set<nat>, h: seq<Action>, x: nat)
    requires x >= MASK_BITS
    ensures Called(x) !in Run(handlers, h).log
    ensures x in handlers ==> !Remembered(Run(handlers, [Raise(x, {})]), x)
  {
    if h != [] {
      NoBitNoCall(handlers, h[..|h| - 1], x);
    }
    var once := [Raise(x, {})];
    assert once[..0] == [];
    assert Run(handlers, once) == Poller({}, handlers, Outside, [Raised(x)]);
    assert Run(handlers, once).log[0] == Raised(x);
  }

  // ---------------------------------------------------------------------------------------------
  // One poll, from the load to the exit, whatever arrives meanwhile

  ghost function From(p: Poller, h: seq<Action>): Poller
    decreases |h|
  {
    if h == [] then p else From(Step(p, h[0]), h[1..])
  }

  /** The actions take the poller to the end of the poll() it is in, and no further. */
  ghost predicate Finishes(p: Poller, h: seq<Action>)
    decreases |h|
  {
    if p.at.Outside? then h == [] else h != [] && Finishes(Step(p, h[0]), h[1..])
  }

  /** The handlers called, in order. */
  ghost function CallsOf(log: seq<Happening>): seq<nat> {
    if log == [] then []
    else
      var e := log[|log| - 1];
      CallsOf(log[..|log| - 1]) + if e.Called? then [e.signo] else []
  }

  /** What the poll has yet to call. */
  ghost function ToCall(p: Poller): seq<nat> {
    match p.at
    case Outside => []
    case Loaded(signals) => Ascending(signals * p.handlers, 0)
    case Dispatching(signals, i) => if i <= MASK_BITS then Ascending(signals * p.handlers, i) else []
  }

  lemma OneMore(log: seq<Happening>, e: Happening)
    ensures CallsOf(log + [e]) == if e.Called? then CallsOf(log) + [e.signo] else CallsOf(log)
  {
    assert (log + [e])[..|log|] == log;
  }

  /** A round of the loop calls the handler that comes next, if any. */
  lemma RoundCalls(p: Poller)
    requires p.at.Dispatching? && p.at.i <= MASK_BITS
    ensures CallsOf(Step(p, Advance).log) + ToCall(Step(p, Advance)) == CallsOf(p.log) + ToCall(p)
  {
    var i, called := p.at.i, p.at.signals * p.handlers;
    var calls := CallsOf(p.log);
    OneMore(p.log, Called(i));
    AscendingStep(calls, called, i);
    assert i < MASK_BITS ==> CallsOf(Step(p, Advance).log) == if i in called then calls + [i] else calls;
    hide CallsOf, Ascending;
  }

  lemma StepCalls(p: Poller, a: Action)
    requires !p.at.Outside?
    ensures CallsOf(Step(p, a).log) + ToCall(Step(p, a)) == CallsOf(p.log) + ToCall(p)
  {
    if a.Raise? {
      OneMore(p.log, Raised(a.signo));
      hide CallsOf, Ascending;
    } else if p.at.Dispatching? && p.at.i <= MASK_BITS {
      hide CallsOf, Ascending, Step, ToCall;
      RoundCalls(p);
    } else {
      hide CallsOf, Ascending;
    }
  }

  /** Whatever arrives during a poll, it calls exactly the registered handlers of the mask it has loaded, once each,
      in ascending order. */
  lemma {:induction false} InterruptedPoll(p: Poller, h: seq<Action>)
    requires Finishes(p, h)
    ensures CallsOf(From(p, h).log) == CallsOf(p.log) + ToCall(p)
    decreases |h|
  {
    if h != [] {
      hide CallsOf, ToCall, Step;
      StepCalls(p, h[0]);
      InterruptedPoll(Step(p, h[0]), h[1..]);
    }
  }

  /** What arrives after the fetch_and stays noted. */
  lemma {:induction false} ArrivalsStay(p: Poller, h: seq<Action>, k: nat)
    requires Finishes(p, h) && p.at.Dispatching?
    ensures p.pending <= From(p, h).pending
    ensures k < |h| && h[k].Raise? ==> Shifted(h[k].signo, h[k].undefined) <= From(p, h).pending
    decreases |h|
  {
    var t := Step(p, h[0]);
    if t.at.Dispatching? {
      ArrivalsStay(t, h[1..], if k == 0 then 0 else k - 1);
    }
  }

  /** The steps of a poll from bit i on, with what arrives at each of them; a raise of a number without a bit of its
      own may set any bits, and so stands for all that arrives at once. */
  ghost function Rounds(arriving: nat -> Mask, i: nat): seq<Action>
    decreases MASK_BITS - i
  {
    if i >= MASK_BITS then [Advance]
    else [Raise(MASK_BITS, arriving(i + 1)), Advance] + Rounds(arriving, i + 1)
  }

  /** What arrives from round i of the loop on. */
  ghost function ArrivedFrom(arriving: nat -> Mask, i: nat): Mask
    decreases MASK_BITS - i
  {
    if i >= MASK_BITS then {} else arriving(i + 1) + ArrivedFrom(arriving, i + 1)
  }

  lemma {:induction false} ArrivedFromIs(arriving: nat -> Mask, i: nat, x: nat)
    ensures x in ArrivedFrom(arriving, i) <==> exists k :: i < k <= MASK_BITS && x in arriving(k)
    decreases MASK_BITS - i
  {
    if i < MASK_BITS {
      ArrivedFromIs(arriving, i + 1, x);
    }
  }

  lemma {:induction false} RoundsDo(p: Poller, arriving: nat -> Mask, i: nat)
    requires p.at.Dispatching? && p.at.i == i <= MASK_BITS
    ensures Finishes(p, Rounds(arriving, i))
    ensures From(p, Rounds(arriving, i)).pending == p.pending + ArrivedFrom(arriving, i)
    decreases MASK_BITS - i
  {
    if i == MASK_BITS {
      assert Rounds(arriving, i) == [Advance];
    } else {
      var arrived := Raise(MASK_BITS, arriving(i + 1));
      var q := Step(Step(p, arrived), Advance);
      TwoSteps(p, arrived, Advance, Rounds(arriving, i + 1));
      assert q.at == Dispatching(p.at.signals, i + 1) && q.pending == p.pending + arriving(i + 1);
      hide From, Finishes, Step;
      RoundsDo(q, arriving, i + 1);
      Unite(p.pending, arriving(i + 1), ArrivedFrom(arriving, i + 1));
    }
  }

  lemma Unite(a: set<nat>, b: set<nat>, c: set<nat>)
    ensures (a + b) + c == a + (b + c)
  {
  }

  lemma TwoSteps(p: Poller, a: Action, b: Action, rest: seq<Action>)
    ensures From(p, [a, b] + rest) == From(Step(Step(p, a), b), rest)
    ensures !p.at.Outside? && !Step(p, a).at.Outside? ==>
              Finishes(p, [a, b] + rest) == Finishes(Step(Step(p, a), b), rest)
  {
    var all := [a, b] + rest;
    assert all[1..] == [b] + rest && all[1..][1..] == rest;
    assert From(p, all) == From(Step(p, a), all[1..]);
    hide Step;
  }

  /** The load, what arrives then, and the fetch_and. */
  ghost function Begun(p: Poller, arriving: nat -> Mask): Poller {
    Poller((p.pending + arriving(0)) - p.pending, p.handlers, Dispatching(p.pending, 0), p.log + [Raised(MASK_BITS)])
  }

  lemma PollBegins(p: Poller, arriving: nat -> Mask, rest: seq<Action>)
    requires p.at == Outside && p.pending != {}
    ensures From(p, [Advance, Raise(MASK_BITS, arriving(0)), Advance] + rest) == From(Begun(p, arriving), rest)
    ensures CallsOf(Begun(p, arriving).log) == CallsOf(p.log)
  {
    var arrived := Raise(MASK_BITS, arriving(0));
    var all := [Advance, arrived, Advance] + rest;
    assert all == [Advance, arrived] + ([Advance] + rest) && ([Advance] + rest)[1..] == rest;
    TwoSteps(p, Advance, arrived, [Advance] + rest);
    OneMore(p.log, Raised(MASK_BITS));
  }

  lemma NotedAfter(p: Poller, arriving: nat -> Mask, x: nat)
    ensures x in Begun(p, arriving).pending + ArrivedFrom(arriving, 0) <==>
              (x in arriving(0) && x !in p.pending) || exists i :: 0 < i <= MASK_BITS && x in arriving(i)
  {
    ArrivedFromIs(arriving, 0, x);
    hide ArrivedFrom;
  }

  /** The actions of a whole poll. */
  ghost function WholePoll(arriving: nat -> Mask): seq<Action> {
    [Advance, Raise(MASK_BITS, arriving(0)), Advance] + Rounds(arriving, 0)
  }

  /** The steps do what the method Poll does: the same calls, and the same bits noted afterwards. */
  lemma StepsDoWhatPollDoes(p: Poller, arriving: nat -> Mask)
    requires p.at == Outside && p.pending != {}
    ensures var t := From(p, WholePoll(arriving));
            && t.at == Outside
            && CallsOf(t.log) == CallsOf(p.log) + Ascending(p.pending * p.handlers, 0)
            && forall x :: x in t.pending <==>
                             || (x in arriving(0) && x !in p.pending)
                             || exists i :: 0 < i <= MASK_BITS && x in arriving(i)
  {
    hide From, Finishes, CallsOf, Rounds, Ascending, ArrivedFrom;
    var u, rest := Begun(p, arriving), Rounds(arriving, 0);
    assert ToCall(u) == Ascending(p.pending * p.handlers, 0);
    PollBegins(p, arriving, rest);
    RoundsDo(u, arriving, 0);
    FinishedOutside(u, rest);
    InterruptedPoll(u, rest);
    hide Begun, ToCall;
    forall x ensures x in From(u, rest).pending <==>
                       (x in arriving(0) && x !in p.pending) || exists i :: 0 < i <= MASK_BITS && x in arriving(i)
    {
      NotedAfter(p, arriving, x);
    }
  }

  ghost function Advances(n: nat): seq<Action> {
    seq(n, k => Advance)
  }

  lemma {:induction false} AdvancesFinish(p: Poller)
    requires p.at.Dispatching? && p.at.i <= MASK_BITS
    ensures Finishes(p, Advances(MASK_BITS + 1 - p.at.i))
    ensures From(p, Advances(MASK_BITS + 1 - p.at.i)).pending == p.pending
    decreases MASK_BITS - p.at.i
  {
    var n := MASK_BITS + 1 - p.at.i;
    assert Advances(n)[1..] == Advances(n - 1);
    var t := Step(p, Advance);
    if p.at.i < MASK_BITS {
      AdvancesFinish(t);
    } else {
      assert Advances(0) == [];
    }
  }

  /** Left alone, the loop comes to its end, and notes nothing new. */
  lemma UninterruptedPoll(p: Poller)
    requires p.at.Dispatching? && p.at.i <= MASK_BITS
    ensures var t := From(p, Advances(MASK_BITS + 1 - p.at.i));
            && t.at == Outside && t.pending == p.pending
            && CallsOf(t.log) == CallsOf(p.log) + Ascending(p.at.signals * p.handlers, p.at.i)
  {
    AdvancesFinish(p);
    InterruptedPoll(p, Advances(MASK_BITS + 1 - p.at.i));
    FinishedOutside(p, Advances(MASK_BITS + 1 - p.at.i));
  }

  lemma {:induction false} FinishedOutside(p: Poller, h: seq<Action>)
    requires Finishes(p, h)
    ensures From(p, h).at == Outside
    decreases |h|
  {
    if h != [] {
      FinishedOutside(Step(p, h[0]), h[1..]);
    }
  }
}
