// What an entry does to a semaphore and to the ready queue, said without the kernel's own
// steps: the value is a ledger of the calls, the queue is first in, first out.
module KernelSemaphores {
  import opened Lists
  import opened Links
  import opened AslLists
  import opened Kernels
  import opened KernelInvs
  import opened KernelSteps
  import opened KernelRuns
  import opened KernelTheorems
  import opened KernelFairness

  // ------------------------------------------------- one entry, elsewhere

  // P on a: SYS4, SYS7 and SYS8.
  ghost predicate TakesFrom(s: Kernel, e: Event, a: int) {
    match e.call {
      case WaitOn(b) => b == a
      case WaitClock => a == SemAddr(s.base, CLOCK)
      case WaitIo(i) => a == SemAddr(s.base, i)
      case _ => false
    }
  }

  // V on a: SYS3 and the interrupts of the devices.
  ghost predicate GivesTo(s: Kernel, e: Event, a: int) {
    match e.call {
      case Signal(b) => b == a
      case Device(i) => a == SemAddr(s.base, i)
      case _ => false
    }
  }

  ghost predicate Resets(s: Kernel, e: Event, a: int) {
    e.call.Interval? && a == SemAddr(s.base, CLOCK)
  }

  // The semaphores that an entry other than a kill goes to.
  ghost predicate GoesTo(s: Kernel, e: Event, a: int) {
    TakesFrom(s, e, a) || GivesTo(s, e, a) || Resets(s, e, a)
  }

  // The rest of the system as one semaphore sees it.
  ghost predicate SameAt(s: Kernel, t: Kernel, a: int) {
    && a in s.mem && a in t.mem && t.mem[a] == s.mem[a] && QueueAt(t.blocked, a) == QueueAt(s.blocked, a)
    && t.base == s.base && forall x :: Live(s, x) ==> Live(t, x)
  }

  lemma WokenAt(s: Kernel, b: int, a: int)
    requires a in s.mem && a != b
    ensures SameAt(s, Woken(s, b), a)
  {
    hide Minus;
  }

  lemma {:induction false} DrainedAt(s: Kernel, tk: Ticks, k: nat, a: int)
    requires a in s.mem && a != SemAddr(s.base, CLOCK)
    ensures SameAt(s, Drained(s, tk, k), a)
    decreases |QueueAt(s.blocked, SemAddr(s.base, CLOCK))|
  {
    hide Woken, Live;
    var b := SemAddr(s.base, CLOCK);
    if QueueAt(s.blocked, b) == [] {
      DrainedNone(s, tk, k);
    } else {
      DrainedStep(s, tk, k);
      WokenAt(s, b, a);
      WokenTimes(s, tk, k);
      DrainedAt(WokenByClock(s, tk, k), tk, k + 1, a);
    }
  }

  lemma WokenTimes(s: Kernel, tk: Ticks, k: nat)
    requires QueueAt(s.blocked, SemAddr(s.base, CLOCK)) != []
    ensures var w, t := WokenByClock(s, tk, k), Woken(s, SemAddr(s.base, CLOCK));
      && w.mem == t.mem && w.blocked == t.blocked && w.base == t.base && (forall x :: Live(w, x) <==> Live(t, x))
  {
    hide Woken;
  }

  lemma ScheduledAt(s: Kernel, tk: Ticks, a: int)
    requires a in s.mem
    ensures SameAt(s, Scheduled(s, tk), a)
  {
  }

  lemma WaitAt(s: Kernel, b: int, a: int)
    requires a in s.mem && a != b
    ensures SameAt(s, Added(s, b, -1), a) && SameAt(s, Blocked(Added(s, b, -1), b), a)
    ensures SameAt(s, Soft(Blocked(Added(s, b, -1), b), 1), a)
  {
  }

  lemma SignalAt(s: Kernel, b: int, a: int)
    requires a in s.mem && a != b
    ensures SameAt(s, Signalled(s, b), a)
  {
    hide Minus, Woken;
    var t := Added(s, b, 1);
    WokenAt(t, b, a);
    assert forall x :: Live(s, x) <==> Live(t, x);
  }

  lemma FinishAt(s: Kernel, t: Kernel, tk: Ticks, a: int)
    requires SameAt(s, t, a)
    ensures SameAt(s, FinishStep(t, tk), a)
  {
  }

  lemma DeviceAt(s: Kernel, i: int, a: int)
    requires a in s.mem && a != SemAddr(s.base, i)
    ensures SameAt(s, IoDone(s, i), a)
  {
    hide Minus, Woken;
    var t := Added(s, SemAddr(s.base, i), 1);
    var w := Woken(t, SemAddr(s.base, i));
    WokenAt(t, SemAddr(s.base, i), a);
    assert forall x :: Live(s, x) <==> Live(t, x);
    assert forall x :: Live(w, x) <==> Live(Soft(w, -1), x);
  }

  lemma TickAt(s: Kernel, tk: Ticks, a: int)
    requires Inv(s) && a in s.mem && a != SemAddr(s.base, CLOCK)
    ensures SameAt(s, TickDone(s, tk), a)
  {
    hide Inv, Drained;
    DrainedAt(s, tk, 0, a);
  }

  lemma EntryElsewhere(s: Kernel, e: Event, a: int)
    requires Inv(s) && Possible(s, e) && a in s.mem && !GoesTo(s, e, a) && !e.call.Terminate?
    ensures SameAt(s, EntryOf(s, e).s, a)
  {
    hide Inv, Created, Signalled, Blocked, Added, IoDone, FinishStep, TickDone, SameAt;
    match e.call {
      case Create => CreatedAt(s, a);
      case Signal(b) => SignalAt(s, b, a);
      case WaitOn(b) => WaitAt(s, b, a);
      case WaitClock => WaitAt(s, SemAddr(s.base, CLOCK), a);
      case WaitIo(i) => WaitAt(s, SemAddr(s.base, i), a);
      case Device(i) => DeviceAt(s, i, a); FinishAt(s, IoDone(s, i), e.tk, a);
      case Timer => SelfAt(s, a); FinishAt(s, s, e.tk, a);
      case Interval => TickAt(s, e.tk, a); FinishAt(s, TickDone(s, e.tk), e.tk, a);
      case Specify => SelfAt(s, a);
      case CpuTime => TimedAt(s, e.tk, a);
      case _ =>
    }
  }

  lemma ElsewhereAt(s: Kernel, e: Event, a: int)
    requires Inv(s) && Possible(s, e) && a in s.mem && !GoesTo(s, e, a) && !e.call.Terminate?
    ensures SameAt(s, StateAfter(s, e), a)
  {
    hide Inv, Possible, EntryOf, Scheduled, SameAt, GoesTo;
    EntryElsewhere(s, e, a);
    if EntryOf(s, e).Reschedule? {
      ThenScheduledAt(s, EntryOf(s, e).s, e.tk, a);
    }
  }

  lemma SelfAt(s: Kernel, a: int)
    requires a in s.mem
    ensures SameAt(s, s, a)
  {
  }

  lemma TimedAt(s: Kernel, tk: Ticks, a: int)
    requires a in s.mem
    ensures SameAt(s, Timed(s, tk), a)
  {
  }

  lemma ThenScheduledAt(s: Kernel, t: Kernel, tk: Ticks, a: int)
    requires SameAt(s, t, a)
    ensures SameAt(s, Scheduled(t, tk), a)
  {
    hide Scheduled;
    ScheduledAt(t, tk, a);
  }

  lemma CreatedAt(s: Kernel, a: int)
    requires Inv(s) && a in s.mem
    ensures SameAt(s, Created(s), a)
  {
    hide NoDup, Accounted, Counted, Rooted, Tagged;
    assert forall x :: x in s.free[..] <==> x in s.free;
  }

  // ------------------------------------------------- one entry, there

  // What a kill gives back to a user semaphore: one for every victim in its queue, but
  // nothing just behind sem.
  ghost function Refund(s: Kernel, e: Event, a: int): nat {
    if !e.call.Terminate? || InSem(s.base, a) || a == SemAddr(s.base, TOTALSEM) then 0
    else |Elems(QueueAt(s.blocked, a)) * Elems(e.call.order)|
  }

  // The value is one less after a P, one more after a V and nought after an interval.
  ghost predicate ValueLaw(s: Kernel, e: Event, t: Kernel, a: int) {
    && a in s.mem && a in t.mem
    && t.mem[a] == if Resets(s, e, a) then 0
                   else s.mem[a] - (if TakesFrom(s, e, a) then 1 else 0) + (if GivesTo(s, e, a) then 1 else 0)
                        + Refund(s, e, a)
  }

  // A V takes the front out, a P that finds nothing puts its caller at the end.
  ghost predicate QueueLaw(s: Kernel, e: Event, t: Kernel, a: int) {
    var q := QueueAt(s.blocked, a);
    && a in s.mem
    && QueueAt(t.blocked, a) ==
       if Resets(s, e, a) then []
       else if e.call.Terminate? then Minus(q, Elems(e.call.order))
       else if GivesTo(s, e, a) then (if q == [] then [] else q[1..])
       else if TakesFrom(s, e, a) && s.mem[a] <= 0 then q + [s.current]
       else q
  }

  lemma SignalThere(s: Kernel, e: Event, a: int)
    requires Inv(s) && Possible(s, e) && e.call == Signal(a)
    ensures ValueLaw(s, e, Signalled(s, a), a) && QueueLaw(s, e, Signalled(s, a), a)
  {
    hide Structure, Everywhere, Rooted, Counted, Minus, Running;
    QueueNoDup(s, a);
    if QueueAt(s.blocked, a) != [] {
      MinusFirst(QueueAt(s.blocked, a));
    }
  }

  lemma QueueNoDup(s: Kernel, a: int)
    requires Inv(s)
    ensures NoDup(QueueAt(s.blocked, a)) && |QueueAt(s.blocked, a)| <= Debt(Value(s, a))
  {
    hide Within, Family, Tagged, Counted, Rooted;
  }

  lemma CurrentApart(s: Kernel, a: int)
    requires Inv(s) && s.current != NIL
    ensures Live(s, s.current) && s.current !in QueueAt(s.blocked, a) && NoDup(QueueAt(s.blocked, a))
    ensures forall x :: x in QueueAt(s.blocked, a) ==> Live(s, x)
  {
    hide Within, Family, Accounted, Counted, Rooted;
    StructureApart(s);
    assert forall x :: x in QueueAt(s.blocked, a) ==> Live(s, x) && AddrOf(s, x) != NULL_ADDR;
  }

  lemma FrontOnce(q: seq<int>)
    requires q != [] && NoDup(q)
    ensures q[0] in q && q[0] !in q[1..] && forall x :: x in q[1..] ==> x in q
  {
  }

  lemma DeviceThere(s: Kernel, e: Event, i: int)
    requires Inv(s) && Possible(s, e) && e.call == Device(i)
    ensures ValueLaw(s, e, IoDone(s, i), SemAddr(s.base, i)) && QueueLaw(s, e, IoDone(s, i), SemAddr(s.base, i))
  {
    hide Structure, Everywhere, Rooted, Counted, Minus, Running;
    var a := SemAddr(s.base, i);
    InvSized(s);
    SemInMem(s, i);
    QueueNoDup(s, a);
    if QueueAt(s.blocked, a) != [] {
      MinusFirst(QueueAt(s.blocked, a));
    }
  }

  lemma WaitThere(s: Kernel, a: int)
    requires a in s.mem
    ensures var t := Added(s, a, -1);
      t.mem[a] == s.mem[a] - 1 && Value(t, a) == s.mem[a] - 1 && t.blocked == s.blocked && a in t.mem
    ensures forall t :: t == Blocked(Added(s, a, -1), a) || t == Soft(Blocked(Added(s, a, -1), a), 1) ==>
      a in t.mem && t.mem[a] == s.mem[a] - 1 && QueueAt(t.blocked, a) == QueueAt(s.blocked, a) + [s.current]
  {
  }

  lemma TickThere(s: Kernel, tk: Ticks)
    requires Inv(s)
    ensures var t, a := TickDone(s, tk), SemAddr(s.base, CLOCK);
      a in s.mem && a in t.mem && t.mem[a] == 0 && QueueAt(t.blocked, a) == []
  {
    hide Inv, Drained;
    InvSized(s);
    SemInMem(s, CLOCK);
    DrainedInv(s, tk, 0);
  }

  lemma KillThere(s: Kernel, e: Event, a: int)
    requires Inv(s) && Possible(s, e) && e.call.Terminate? && a in s.mem
    ensures ValueLaw(s, e, Purged(s, e.call.order), a) && QueueLaw(s, e, Purged(s, e.call.order), a)
  {
    hide Inv, NoDup, Desc, Purged, SoftIn, Minus;
    TerminateEntry(s, e);
    InvSized(s);
    KillExact(s, e.call.order, Elems(e.call.order));
    KillSpares(s, e.call.order, Elems(e.call.order));
  }

  lemma ThereLaws(s: Kernel, e: Event, a: int)
    requires Inv(s) && Possible(s, e) && a in s.mem && GoesTo(s, e, a)
    ensures ValueLaw(s, e, EntryOf(s, e).s, a) && QueueLaw(s, e, EntryOf(s, e).s, a)
  {
    hide Inv, Signalled, IoDone, TickDone, Blocked, Added;
    match e.call {
      case Signal(_) => SignalThere(s, e, a);
      case WaitOn(_) => WaitThere(s, a);
      case WaitClock => WaitThere(s, a); ClockNeverPositive(s);
      case WaitIo(_) => WaitThere(s, a);
      case Device(i) => DeviceThere(s, e, i);
      case Interval => TickThere(s, e.tk);
      case _ =>
    }
  }

  lemma ElsewhereLaws(s: Kernel, e: Event, t: Kernel, a: int)
    requires SameAt(s, t, a) && !GoesTo(s, e, a) && !e.call.Terminate?
    ensures ValueLaw(s, e, t, a) && QueueLaw(s, e, t, a)
  {
  }

  lemma EntryLaws(s: Kernel, e: Event, a: int)
    requires Inv(s) && Possible(s, e) && a in s.mem
    ensures ValueLaw(s, e, EntryOf(s, e).s, a) && QueueLaw(s, e, EntryOf(s, e).s, a)
  {
    hide Inv, ValueLaw, QueueLaw, SameAt, GoesTo, Purged;
    if e.call.Terminate? {
      KillThere(s, e, a);
    } else if GoesTo(s, e, a) {
      ThereLaws(s, e, a);
    } else {
      EntryElsewhere(s, e, a);
      ElsewhereLaws(s, e, EntryOf(s, e).s, a);
    }
  }

  // Every possible entry, safe or not, keeps both laws for every semaphore.
  lemma SemaphoreLaws(s: Kernel, e: Event, a: int)
    requires Inv(s) && Possible(s, e) && a in s.mem
    ensures ValueLaw(s, e, StateAfter(s, e), a) && QueueLaw(s, e, StateAfter(s, e), a)
    ensures StateAfter(s, e).base == s.base
  {
    hide Inv, Possible, EntryOf;
    EntryLaws(s, e, a);
    EntryBase(s, e);
  }

  lemma {:induction false} DrainedBase(s: Kernel, tk: Ticks, k: nat)
    ensures Drained(s, tk, k).base == s.base
    decreases |QueueAt(s.blocked, SemAddr(s.base, CLOCK))|
  {
    hide Minus, Unblock;
    if QueueAt(s.blocked, SemAddr(s.base, CLOCK)) != [] {
      DrainedStep(s, tk, k);
      DrainedBase(WokenByClock(s, tk, k), tk, k + 1);
    }
  }

  lemma EntryBase(s: Kernel, e: Event)
    ensures EntryOf(s, e).s.base == s.base
  {
    hide Minus, Drained;
    if e.call.Interval? {
      DrainedBase(s, e.tk, 0);
    }
  }

  // ------------------------------------------------- the ready queue

  // The front of the queue of a, if there is one.
  ghost function Front(s: Kernel, a: int): seq<int> {
    if QueueAt(s.blocked, a) == [] then [] else [QueueAt(s.blocked, a)[0]]
  }

  // Whom an entry makes ready: a new process, the front of a queue, or all that wait for
  // the clock, in their order.
  ghost function Released(s: Kernel, e: Event): seq<int> {
    match e.call {
      case Create => if s.free == [] then [] else [s.free[0]]
      case Signal(a) => Front(s, a)
      case Device(i) => Front(s, SemAddr(s.base, i))
      case Interval => QueueAt(s.blocked, SemAddr(s.base, CLOCK))
      case _ => []
    }
  }

  // The ready queue up to the choice of the next process: an interrupted process comes
  // last.
  ghost function Line(s: Kernel, e: Event): seq<int> {
    if e.call.Terminate? then Minus(s.ready, Elems(e.call.order))
    else s.ready + Released(s, e) + if Interrupt?(e) && s.current != NIL then [s.current] else []
  }

  // The caller goes on, or somebody else is chosen.
  ghost predicate GivesUp(s: Kernel, e: Event) {
    match e.call {
      case Terminate(_) => true
      case WaitOn(a) => Value(s, a) <= 0
      case WaitIo(i) => Value(s, SemAddr(s.base, i)) <= 0
      case WaitClock => true
      case _ => Interrupt?(e)
    }
  }

  lemma {:induction false} DrainedReady(s: Kernel, tk: Ticks, k: nat)
    requires Inv(s)
    ensures Drained(s, tk, k).ready == s.ready + QueueAt(s.blocked, SemAddr(s.base, CLOCK))
    ensures Drained(s, tk, k).current == s.current
    decreases |QueueAt(s.blocked, SemAddr(s.base, CLOCK))|
  {
    hide Inv, WokenByClock;
    if QueueAt(s.blocked, SemAddr(s.base, CLOCK)) == [] {
      DrainedNone(s, tk, k);
    } else {
      DrainedStep(s, tk, k);
      WokenByClockInv(s, tk, k);
      WokenByClockReady(s, tk, k);
      DrainedReady(WokenByClock(s, tk, k), tk, k + 1);
    }
  }

  lemma WokenByClockReady(s: Kernel, tk: Ticks, k: nat)
    requires Inv(s) && QueueAt(s.blocked, SemAddr(s.base, CLOCK)) != []
    ensures var w, q := WokenByClock(s, tk, k), QueueAt(s.blocked, SemAddr(s.base, CLOCK));
      && w.base == s.base && w.current == s.current
      && w.ready == s.ready + [q[0]] && QueueAt(w.blocked, SemAddr(s.base, CLOCK)) == q[1..]
  {
    hide Minus, Structure, Counted, Rooted, Everywhere;
    QueueNoDup(s, SemAddr(s.base, CLOCK));
    MinusFirst(QueueAt(s.blocked, SemAddr(s.base, CLOCK)));
  }

  lemma SignalReady(s: Kernel, a: int)
    requires Inv(s) && a in s.mem
    ensures Signalled(s, a).ready == s.ready + Front(s, a) && Signalled(s, a).current == s.current
  {
    hide Minus, Structure, Counted, Rooted, Everywhere;
    QueueNoDup(s, a);
  }

  lemma DeviceReady(s: Kernel, i: int)
    requires Inv(s) && 0 <= i < TOTALSEM
    ensures IoDone(s, i).ready == s.ready + Front(s, SemAddr(s.base, i)) && IoDone(s, i).current == s.current
  {
    hide Minus, Structure, Counted, Rooted, Everywhere;
    QueueNoDup(s, SemAddr(s.base, i));
  }

  lemma WaitReady(s: Kernel, a: int)
    requires a in s.mem
    ensures var t, w := Added(s, a, -1), Blocked(Added(s, a, -1), a);
      && t.ready == w.ready == s.ready && t.current == w.current == s.current && Value(t, a) == Value(s, a) - 1
  {
  }

  // What scheduler() finds.
  lemma EntryLine(s: Kernel, e: Event)
    requires Inv(s) && Possible(s, e)
    ensures var m := EntryOf(s, e);
      && (m.Reschedule? <==> GivesUp(s, e)) && m.s.ready == Line(s, e)
      && (m.Back? ==> m.s.current == s.current)
  {
    hide Inv, Purged, Signalled, IoDone, Drained, Blocked, Added, Minus, Monotone, Desc;
    match e.call {
      case Create =>
      case Terminate(o) => PurgedReadyQueue(s, o);
      case Signal(a) => SignalReady(s, a);
      case WaitOn(a) => WaitReady(s, a);
      case WaitClock => ClockNeverPositive(s); WaitReady(s, SemAddr(s.base, CLOCK));
      case WaitIo(i) => WaitReady(s, SemAddr(s.base, i));
      case Device(i) => DeviceReady(s, i);
      case Interval => DrainedReady(s, e.tk, 0);
      case _ =>
    }
  }

  // Every possible entry leaves the processor with its caller, or with the first of the
  // line, or with nobody if there is none; the rest stays in line.
  lemma ReadyLaw(s: Kernel, e: Event)
    requires Inv(s) && Possible(s, e)
    ensures var t, line := StateAfter(s, e), Line(s, e);
      if !GivesUp(s, e) then VerdictAt(s, e) == Resume && t.current == s.current && t.ready == line
      else if line == [] then
        VerdictAt(s, e) != Resume && VerdictAt(s, e) != Dispatch && t.current == NIL && t.ready == []
      else VerdictAt(s, e) == Dispatch && t.current == line[0] && t.ready == line[1..]
  {
    hide Inv, Possible, EntryOf, Line, GivesUp;
    EntryLine(s, e);
  }
}
