/** The timer service: a sorted multimap of deadlines over one physical one-shot timer. */
module Timers {
  import opened Sequences

  /** Clock_type::time_point::max(), in nanoseconds; deadlines are 64-bit. */
  const CLOCK_MAX: int := 0x7fff_ffff_ffff_ffff

  /** A deadline and the tasks stored for it, which are numbered in the order they were added. */
  datatype Slot = Slot(deadline: int, tasks: seq<nat>)

  datatype Entry = Entry(deadline: int, id: nat)

  /** The physical timer. */
  datatype Arm = Disarmed | ArmedFor(t: int)

  /** timer_settime() with an absolute time; zero disarms. */
  function Settime(t: int): Arm {
    if t == 0 then Disarmed else ArmedFor(t)
  }

  /** timers_[deadline].push_back(task) */
  function Inserted(slots: seq<Slot>, deadline: int, id: nat): seq<Slot> {
    if slots == [] || deadline < slots[0].deadline then [Slot(deadline, [id])] + slots
    else if deadline == slots[0].deadline then [Slot(deadline, slots[0].tasks + [id])] + slots[1..]
    else [slots[0]] + Inserted(slots[1..], deadline, id)
  }

  /** How many slots upper_bound(now) leaves before it. */
  function Due(slots: seq<Slot>, now: int): (n: nat)
    ensures n <= |slots|
  {
    if slots == [] || slots[0].deadline > now then 0 else 1 + Due(slots[1..], now)
  }

  /** What is stored, in the order of the multimap. */
  function Flat(slots: seq<Slot>): seq<Entry> {
    if slots == [] then [] else OfSlot(slots[0]) + Flat(slots[1..])
  }

  function OfSlot(s: Slot): seq<Entry> {
    seq(|s.tasks|, i requires 0 <= i < |s.tasks| => Entry(s.deadline, s.tasks[i]))
  }

  function Earliest(slots: seq<Slot>): int {
    if slots == [] then CLOCK_MAX else slots[0].deadline
  }

  class TimerService {
    var slots: seq<Slot>
    var timer: Arm

    constructor ()
      ensures slots == [] && timer == Disarmed
    {
      slots, timer := [], Disarmed;
    }

    method AddTimer(now: int, interval: int, id: nat)
      modifies this
      ensures slots == Inserted(old(slots), now + interval, id)
      ensures timer == if now + interval < Earliest(old(slots)) then Settime(now + interval) else old(timer)
    {
      var deadline := now + interval;
      var old_deadline := if slots == [] then CLOCK_MAX else slots[0].deadline;
      InsertedFirst(slots, deadline, id);
      Insert(deadline, id);
      if deadline < old_deadline {
        RearmTimer();
      }
    }

    /** The map finds the place for a deadline, and makes a slot if there is none. */
    method Insert(deadline: int, id: nat)
      modifies this`slots
      ensures slots == Inserted(old(slots), deadline, id)
    {
      var i := 0;
      while i < |slots| && slots[i].deadline < deadline
        invariant 0 <= i <= |slots| && slots == old(slots)
        invariant forall j :: 0 <= j < i ==> slots[j].deadline < deadline
        invariant Inserted(slots, deadline, id) == slots[..i] + Inserted(slots[i..], deadline, id)
      {
        InsertedLater(slots, i, deadline, id);
        i := i + 1;
      }
      InsertedHere(slots, i, deadline, id);
      if i < |slots| && slots[i].deadline == deadline {
        slots := slots[i := Slot(deadline, slots[i].tasks + [id])];
      } else {
        slots := slots[..i] + [Slot(deadline, [id])] + slots[i..];
      }
    }

    /** The tasks handed to the CPU, in order. */
    method CompleteTimers(now: int) returns (handed: seq<Entry>)
      modifies this
      ensures var n := Due(old(slots), now);
              && handed == Flat(old(slots)[..n])
              && slots == old(slots)[n..]
              && timer == if slots == [] then old(timer) else Settime(slots[0].deadline)
    {
      var ub := UpperBound(now);
      handed := [];
      var i := 0;
      while i < ub
        invariant 0 <= i <= ub && slots == old(slots) && timer == old(timer)
        invariant handed == Flat(slots[..i])
      {
        FlatNext(slots, i);
        ghost var before := handed;
        var j := 0;
        while j < |slots[i].tasks|
          invariant slots == old(slots) && timer == old(timer) && 0 <= j <= |slots[i].tasks|
          invariant handed == before + OfSlot(slots[i])[..j]
        {
          handed := handed + [Entry(slots[i].deadline, slots[i].tasks[j])];
          j := j + 1;
        }
        i := i + 1;
      }
      slots := slots[ub..];
      if slots != [] {
        RearmTimer();
      }
    }

    method UpperBound(now: int) returns (n: nat)
      ensures n == Due(slots, now)
    {
      n := 0;
      while n < |slots| && slots[n].deadline <= now
        invariant 0 <= n <= |slots|
        invariant Due(slots, now) == n + Due(slots[n..], now)
      {
        assert slots[n..][1..] == slots[n + 1..];
        n := n + 1;
      }
    }

    method RearmTimer()
      requires slots != []
      modifies this`timer
      ensures timer == Settime(slots[0].deadline)
    {
      timer := Settime(slots[0].deadline);
    }
  }

  lemma InsertedLater(slots: seq<Slot>, i: nat, deadline: int, id: nat)
    requires i < |slots| && slots[i].deadline < deadline
    ensures slots[..i] + Inserted(slots[i..], deadline, id) == slots[..i + 1] + Inserted(slots[i + 1..], deadline, id)
  {
  }

  lemma InsertedHere(slots: seq<Slot>, i: nat, deadline: int, id: nat)
    requires i <= |slots| && (i < |slots| ==> deadline <= slots[i].deadline)
    ensures slots[..i] + Inserted(slots[i..], deadline, id)
         == if i < |slots| && slots[i].deadline == deadline then slots[i := Slot(deadline, slots[i].tasks + [id])]
            else slots[..i] + [Slot(deadline, [id])] + slots[i..]
  {
  }

  lemma FlatNext(slots: seq<Slot>, i: nat)
    requires i < |slots|
    ensures Flat(slots[..i + 1]) == Flat(slots[..i]) + OfSlot(slots[i])
  {
    assert slots[..i + 1] == slots[..i] + [slots[i]];
    FlatAppend(slots[..i], [slots[i]]);
    assert Flat([slots[i]]) == OfSlot(slots[i]) + [];
  }

  lemma InsertedFirst(slots: seq<Slot>, deadline: int, id: nat)
    ensures var t := Inserted(slots, deadline, id);
            && t != []
            && t[0].deadline == if slots != [] && slots[0].deadline < deadline then slots[0].deadline else deadline
  {
  }

  lemma {:induction false} FlatAppend(a: seq<Slot>, b: seq<Slot>)
    ensures Flat(a + b) == Flat(a) + Flat(b)
  {
    if a == [] {
      assert a + b == b;
    } else {
      hide OfSlot;
      FlatAppend(a[1..], b);
      FrontOfSum(a, b);
      Associative(OfSlot(a[0]), Flat(a[1..]), Flat(b));
    }
  }

  // ---------------------------------------------------------------------------------------------
  // The service over time

  /** The service, the clock, whether SIGALRM is pending, whether the signal poller has taken it and is about to
      call complete_timers(), what was handed to the CPU and when, the deadlines ever added, and the time of the
      last completion with the number of tasks added before it. */
  datatype System = System(slots: seq<Slot>, timer: Arm, clock: int, alarm: bool, serving: bool, handed: seq<Entry>,
                           times: seq<int>, added: seq<int>, completedAt: int, addedThen: nat)

  datatype Event =
    | Pass(t: nat)           // time goes by
    | Expire                 // the physical timer goes off
    | Wakeup                 // somebody sends SIGALRM
    | Serve                  // the signal poller takes the signal
    | Complete               // and calls complete_timers()
    | Add(interval: nat)     // add_timer()

  function AddStep(s: System, interval: nat): System {
    var deadline := s.clock + interval;
    if deadline > CLOCK_MAX then s
    else
      s.(slots := Inserted(s.slots, deadline, |s.added|), added := s.added + [deadline],
         timer := if deadline < Earliest(s.slots) then Settime(deadline) else s.timer)
  }

  function CompleteStep(s: System): System {
    var n := Due(s.slots, s.clock);
    var due := Flat(s.slots[..n]);
    s.(slots := s.slots[n..], serving := false, handed := s.handed + due,
       times := s.times + seq(|due|, i => s.clock),
       timer := if n < |s.slots| then Settime(s.slots[n].deadline) else s.timer,
       completedAt := s.clock, addedThen := |s.added|)
  }

  function Step(s: System, e: Event): System {
    match e
    case Pass(t) => s.(clock := s.clock + t)
    case Expire => if s.timer.ArmedFor? && s.timer.t <= s.clock then s.(timer := Disarmed, alarm := true) else s
    case Wakeup => s.(alarm := true)
    case Serve => if s.alarm then s.(alarm := false, serving := true) else s
    case Complete => if s.serving then CompleteStep(s) else s
    case Add(interval) => AddStep(s, interval)
  }

  ghost function Run(start: int, h: seq<Event>): System {
    if h == [] then System([], Disarmed, start, false, false, [], [], [], start, 0)
    else Step(Run(start, h[..|h| - 1]), h[|h| - 1])
  }

  /** The class goes through a run as the steps say: it is called when the signal poller has taken a signal, and when
      a timer is added, and the physical timer is disarmed as it goes off. */
  method Drive(start: int, h: seq<Event>) returns (service: TimerService, handed: seq<Entry>)
    ensures var s := Run(start, h); service.slots == s.slots && service.timer == s.timer && handed == s.handed
  {
    service := new TimerService();
    handed := [];
    var clock, alarm, serving, added, i := start, false, false, 0, 0;
    while i < |h|
      invariant 0 <= i <= |h| && fresh(service)
      invariant var s := Run(start, h[..i]);
                && service.slots == s.slots && service.timer == s.timer && handed == s.handed
                && clock == s.clock && alarm == s.alarm && serving == s.serving && added == |s.added|
    {
      assert h[..i + 1][..i] == h[..i];
      match h[i] {
        case Pass(t) => clock := clock + t;
        case Expire =>
          if service.timer.ArmedFor? && service.timer.t <= clock {
            service.timer, alarm := Disarmed, true;
          }
        case Wakeup => alarm := true;
        case Serve => serving, alarm := serving || alarm, false;
        case Complete =>
          if serving {
            var due := service.CompleteTimers(clock);
            handed, serving := handed + due, false;
          }
        case Add(interval) =>
          if clock + interval <= CLOCK_MAX {
            service.AddTimer(clock, interval, added);
            added := added + 1;
          }
      }
      i := i + 1;
    }
    assert h[..i] == h;
  }

  /** The order by deadline, and by insertion for equal deadlines. */
  predicate Before(a: Entry, b: Entry) {
    a.deadline < b.deadline || (a.deadline == b.deadline && a.id < b.id)
  }

  ghost predicate Sorted(q: seq<Entry>) {
    forall i, j :: 0 <= i < j < |q| ==> Before(q[i], q[j])
  }

  /** The slots are in ascending order, and none is empty. */
  ghost predicate SlotsOk(slots: seq<Slot>) {
    && (forall i, j :: 0 <= i < j < |slots| ==> slots[i].deadline < slots[j].deadline)
    && (forall i :: 0 <= i < |slots| ==> slots[i].tasks != [])
  }

  // ---------------------------------------------------------------------------------------------
  // The order of completion

  /** Everything handed over and everything stored, in this order. */
  ghost function All(s: System): seq<Entry> {
    s.handed + Flat(s.slots)
  }

  lemma {:induction false} InsertedOk(slots: seq<Slot>, deadline: int, id: nat)
    requires SlotsOk(slots)
    ensures SlotsOk(Inserted(slots, deadline, id))
  {
    if slots != [] && deadline > slots[0].deadline {
      InsertedOk(slots[1..], deadline, id);
      InsertedFirst(slots[1..], deadline, id);
    }
  }

  lemma FlatFirst(s: Slot, rest: seq<Slot>)
    ensures Flat([s] + rest) == OfSlot(s) + Flat(rest)
  {
  }

  /** Inserting puts one entry after all those that are not later. */
  lemma {:induction false} FlatInserted(slots: seq<Slot>, deadline: int, id: nat)
    returns (a: seq<Entry>, b: seq<Entry>)
    requires SlotsOk(slots)
    ensures Flat(slots) == a + b && Flat(Inserted(slots, deadline, id)) == a + [Entry(deadline, id)] + b
    ensures (forall x <- a :: x.deadline <= deadline) && (forall x <- b :: x.deadline > deadline)
  {
    hide Flat;
    if slots == [] || deadline < slots[0].deadline {
      a, b := [], Flat(slots);
      assert OfSlot(Slot(deadline, [id])) == [Entry(deadline, id)];
      FlatFirst(Slot(deadline, [id]), slots);
      LaterSlots(slots, deadline);
    } else {
      var s, rest := slots[0], slots[1..];
      assert slots == [s] + rest;
      FlatFirst(s, rest);
      if deadline == s.deadline {
        a, b := OfSlot(s), Flat(rest);
        assert OfSlot(Slot(deadline, s.tasks + [id])) == OfSlot(s) + [Entry(deadline, id)];
        FlatFirst(Slot(deadline, s.tasks + [id]), rest);
        LaterSlots(rest, deadline);
      } else {
        var c, d := FlatInserted(rest, deadline, id);
        a, b := OfSlot(s) + c, d;
        FlatFirst(s, Inserted(rest, deadline, id));
        FrontStays(OfSlot(s), c, Entry(deadline, id), d);
      }
    }
  }

  lemma FrontStays(front: seq<Entry>, c: seq<Entry>, e: Entry, d: seq<Entry>)
    ensures front + (c + d) == front + c + d
    ensures front + (c + [e] + d) == front + c + [e] + d
  {
  }

  lemma {:induction false} LaterSlots(slots: seq<Slot>, deadline: int)
    requires SlotsOk(slots) && (slots != [] ==> deadline < slots[0].deadline)
    ensures forall x <- Flat(slots) :: x.deadline > deadline
  {
    if slots != [] {
      LaterSlots(slots[1..], deadline);
    }
  }

  /** Exactly the slots up to now are due. */
  lemma {:induction false} DueIsDue(slots: seq<Slot>, now: int)
    requires SlotsOk(slots)
    ensures var n := Due(slots, now);
            && (forall x <- Flat(slots[..n]) :: x.deadline <= now)
            && (forall x <- Flat(slots[n..]) :: x.deadline > now)
  {
    var n := Due(slots, now);
    if n == 0 {
      assert slots[..0] == [] && slots[0..] == slots;
      LaterSlots(slots, now);
    } else {
      DueIsDue(slots[1..], now);
      assert slots[1..][..n - 1] == slots[..n][1..] && slots[1..][n - 1..] == slots[n..];
    }
  }

  /** The entries are those ever added. */
  ghost predicate Registered(added: seq<int>, all: seq<Entry>) {
    && (forall x <- all :: x.id < |added| && added[x.id] == x.deadline)
    && (forall i: nat :: i < |added| ==> Entry(added[i], i) in all)
  }

  lemma AddedIsRegistered(added: seq<int>, p: seq<Entry>, q: seq<Entry>, deadline: int)
    requires Registered(added, p + q)
    ensures Registered(added + [deadline], p + [Entry(deadline, |added|)] + q)
  {
  }

  /** What the service promises about order: all entries ever added are handed over or stored, each once, in the
      order of deadline and insertion; no entry was handed over early; and what is still stored is later than the
      last completion or was added after it. */
  ghost predicate Orderly(s: System) {
    && SlotsOk(s.slots)
    && Sorted(All(s))
    && Registered(s.added, All(s))
    && |s.times| == |s.handed| && (forall i :: 0 <= i < |s.handed| ==> s.handed[i].deadline <= s.times[i])
    && (forall x <- s.handed :: x.deadline <= s.completedAt && x.id < s.addedThen)
    && (forall x <- Flat(s.slots) :: x.deadline > s.completedAt || (x.id >= s.addedThen && x.deadline == s.completedAt))
    && s.completedAt <= s.clock && s.addedThen <= |s.added|
  }

  lemma SortedInsert(p: seq<Entry>, q: seq<Entry>, e: Entry)
    requires Sorted(p + q) && (forall x <- p :: Before(x, e)) && (forall x <- q :: Before(e, x))
    ensures Sorted(p + [e] + q)
  {
    var r := p + [e] + q;
    forall i, j | 0 <= i < j < |r| ensures Before(r[i], r[j]) {
      assert i < |p| ==> r[i] == (p + q)[i];
      assert i > |p| ==> r[i] == (p + q)[i - 1];
      assert j < |p| ==> r[j] == (p + q)[j];
      assert j > |p| ==> r[j] == (p + q)[j - 1] && r[j] in q;
    }
  }

  lemma InsertedMembers(slots: seq<Slot>, deadline: int, id: nat)
    requires SlotsOk(slots)
    ensures forall x :: x in Flat(Inserted(slots, deadline, id)) <==> x in Flat(slots) || x == Entry(deadline, id)
  {
    var a, b := FlatInserted(slots, deadline, id);
    hide Flat, Inserted;
  }

  /** A new entry is later than everything handed over, and than everything stored that is not later than it. */
  lemma NewEntryFits(handed: seq<Entry>, a: seq<Entry>, b: seq<Entry>, e: Entry, added: seq<int>)
    requires Sorted(handed + (a + b)) && Registered(added, handed + (a + b)) && e == Entry(e.deadline, |added|)
    requires (forall x <- handed :: x.deadline <= e.deadline) && (forall x <- a :: x.deadline <= e.deadline)
    requires forall x <- b :: x.deadline > e.deadline
    ensures Sorted(handed + (a + [e] + b)) && Registered(added + [e.deadline], handed + (a + [e] + b))
  {
    var p := handed + a;
    assert handed + (a + b) == p + b && handed + (a + [e] + b) == p + [e] + b;
    AddedIsRegistered(added, p, b, e.deadline);
    forall x <- p ensures Before(x, e) {
      assert x in p + b;
    }
    hide Registered;
    SortedInsert(p, b, e);
  }

  lemma AddKeepsOrder(s: System, interval: nat)
    requires Orderly(s) && s.clock + interval <= CLOCK_MAX
    ensures var t := AddStep(s, interval); Sorted(All(t)) && Registered(t.added, All(t))
  {
    var deadline := s.clock + interval;
    var a, b := FlatInserted(s.slots, deadline, |s.added|);
    hide SlotsOk, Flat, Inserted, Sorted, Registered;
    NewEntryFits(s.handed, a, b, Entry(deadline, |s.added|), s.added);
  }

  lemma AddStaysOrderly(s: System, interval: nat)
    requires Orderly(s)
    ensures Orderly(AddStep(s, interval))
  {
    if s.clock + interval <= CLOCK_MAX {
      AddKeepsOrder(s, interval);
      InsertedMembers(s.slots, s.clock + interval, |s.added|);
      InsertedOk(s.slots, s.clock + interval, |s.added|);
      hide SlotsOk, Flat, Inserted, Sorted, Registered, All;
    }
  }

  lemma SuffixOk(slots: seq<Slot>, n: nat)
    requires SlotsOk(slots) && n <= |slots|
    ensures SlotsOk(slots[n..])
  {
  }

  /** Completing moves the due entries from what is stored to what is handed over. */
  lemma CompleteMoves(s: System)
    ensures var t, due := CompleteStep(s), Flat(s.slots[..Due(s.slots, s.clock)]);
            All(t) == All(s) && Flat(s.slots) == due + Flat(t.slots)
  {
    var n := Due(s.slots, s.clock);
    FlatAppend(s.slots[..n], s.slots[n..]);
    assert s.slots == s.slots[..n] + s.slots[n..];
    hide Flat, Due;
    Associative(s.handed, Flat(s.slots[..n]), Flat(s.slots[n..]));
  }

  lemma CompleteStaysOrderly(s: System)
    requires Orderly(s)
    ensures Orderly(CompleteStep(s))
  {
    var t, n := CompleteStep(s), Due(s.slots, s.clock);
    SuffixOk(s.slots, n);
    DueIsDue(s.slots, s.clock);
    CompleteMoves(s);
    hide Sorted, Flat, SlotsOk, Due;
    forall x <- t.handed ensures x.deadline <= s.clock && x.id < |s.added| {
      assert x in All(s);
    }
    hide All;
  }

  /** The main result on order, for every run. */
  lemma {:induction false} TimersAreOrderly(start: int, h: seq<Event>)
    ensures Orderly(Run(start, h))
  {
    if h != [] {
      hide Orderly, AddStep, CompleteStep;
      var s := Run(start, h[..|h| - 1]);
      TimersAreOrderly(start, h[..|h| - 1]);
      match h[|h| - 1] {
        case Complete => CompleteStaysOrderly(s);
        case Add(interval) => AddStaysOrderly(s, interval);
        case _ => AsideStaysOrderly(s, h[|h| - 1]);
      }
    }
  }

  /** Each task ever added is handed over or stored exactly once. */
  lemma EachTaskOnce(start: int, h: seq<Event>, i: nat)
    requires i < |Run(start, h).added|
    ensures var s := Run(start, h);
            exists j :: 0 <= j < |All(s)| && All(s)[j] == Entry(s.added[i], i)
                     && forall k :: 0 <= k < |All(s)| && All(s)[k].id == i ==> k == j
  {
    hide Run, All;
    TimersAreOrderly(start, h);
    var s := Run(start, h);
    assert Entry(s.added[i], i) in All(s);
    var j :| 0 <= j < |All(s)| && All(s)[j] == Entry(s.added[i], i);
    forall k | 0 <= k < |All(s)| && All(s)[k].id == i ensures k == j {
      assert All(s)[k] in All(s);
    }
  }

  lemma AsideStaysOrderly(s: System, e: Event)
    requires Orderly(s) && !e.Complete? && !e.Add?
    ensures Orderly(Step(s, e))
  {
  }

  // ---------------------------------------------------------------------------------------------
  // The physical timer

  /** Something will call complete_timers() by the time the first deadline has passed: the timer is armed for
      it, or a signal is pending or being served. */
  predicate Covered(s: System) {
    s.slots == [] || s.timer == ArmedFor(s.slots[0].deadline) || s.alarm || s.serving
  }

  /** With a clock that has started, all stored deadlines are positive. */
  ghost predicate Positive(s: System) {
    s.clock > 0 && forall i :: 0 <= i < |s.slots| ==> s.slots[i].deadline > 0
  }

  lemma {:induction false} InsertedPositive(slots: seq<Slot>, deadline: int, id: nat)
    requires deadline > 0 && forall i :: 0 <= i < |slots| ==> slots[i].deadline > 0
    ensures forall i :: 0 <= i < |Inserted(slots, deadline, id)| ==> Inserted(slots, deadline, id)[i].deadline > 0
  {
    if slots != [] && deadline > slots[0].deadline {
      InsertedPositive(slots[1..], deadline, id);
    }
  }

  /** A timer is added that is stored alone with the latest time the clock knows, and no signal is on its way. */
  predicate AddsAtTheEnd(s: System, e: Event) {
    && e.Add? && s.slots == [] && s.clock + e.interval == CLOCK_MAX && !s.alarm && !s.serving
    && s.timer != ArmedFor(CLOCK_MAX)
  }

  /** The only step that leaves what is stored uncovered is such an addition. */
  lemma StepIsCovered(s: System, e: Event)
    requires Positive(s) && Covered(s)
    ensures Covered(Step(s, e)) <==> !AddsAtTheEnd(s, e)
  {
  }

  /** A deadline that the clock can pass is covered. */
  predicate CoveredBelowMax(s: System) {
    s.slots == [] || s.slots[0].deadline >= CLOCK_MAX || Covered(s)
  }

  lemma StepStaysCovered(s: System, e: Event)
    requires Positive(s) && CoveredBelowMax(s)
    ensures Positive(Step(s, e)) && CoveredBelowMax(Step(s, e))
  {
    if e.Add? {
      InsertedPositive(s.slots, s.clock + e.interval, |s.added|);
      InsertedFirst(s.slots, s.clock + e.interval, |s.added|);
    }
  }

  /** The main result on arming: no stored deadline can pass with nothing to call complete_timers(). */
  lemma {:induction false} TimersAreCovered(start: int, h: seq<Event>)
    requires start > 0
    ensures var s := Run(start, h);
            && Positive(s)
            && (s.slots != [] && s.slots[0].deadline < CLOCK_MAX ==>
                  s.timer == ArmedFor(s.slots[0].deadline) || s.alarm || s.serving)
  {
    if h != [] {
      TimersAreCovered(start, h[..|h| - 1]);
      hide Positive, Step;
      StepStaysCovered(Run(start, h[..|h| - 1]), h[|h| - 1]);
    }
  }

  /** Neither is a deadline at the very start of the clock: timer_settime() takes a time of zero for none. */
  lemma DeadlineZeroIsNotArmed()
    ensures var s := Run(0, [Add(0)]); s.slots == [Slot(0, [0])] && s.timer == Disarmed && !Covered(s)
  {
  }

  /** The latest time of the clock itself is stored without arming the timer. */
  lemma LatestDeadlineIsNotArmed(start: nat)
    requires 0 < start < CLOCK_MAX
    ensures var s := Run(start, [Add(CLOCK_MAX - start)]);
            s.slots == [Slot(CLOCK_MAX, [0])] && s.timer == Disarmed && !Covered(s)
  {
  }
}
