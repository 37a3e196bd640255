// Whole runs of the nucleus, and what holds in all of them.
module KernelRuns {
  import opened Lists
  import opened Links
  import opened AslLists
  import opened Kernels
  import opened KernelInvs
  import opened KernelSteps

  // A kernel entry. Terminate names the order in which the victims' blocks go back to
  // the free stack; Device is an interrupt taken as one of the device with semaphore i.
  datatype Call =
    | Create
    | Terminate(order: seq<int>)
    | Signal(a: int)
    | WaitOn(a: int)
    | Specify
    | CpuTime
    | WaitClock
    | WaitIo(i: int)
    | Device(i: int)
    | Timer
    | Interval

  datatype Event = Event(call: Call, tk: Ticks)

  predicate Interrupt?(e: Event) {
    e.call.Device? || e.call.Timer? || e.call.Interval?
  }

  // Calls come from a running process, interrupts at any time.
  ghost predicate Possible(s: Kernel, e: Event) {
    && |s.birth| == |s.parent| && Monotone(s.now, e.tk)
    && (!Interrupt?(e) ==> s.current != NIL)
    && match e.call {
      case Terminate(o) => NoDup(o) && Elems(o) == Desc(s, s.current)
      case Signal(a) => a in s.mem
      case WaitOn(a) => a in s.mem
      case WaitIo(i) => SemAddr(s.base, i) in s.mem
      case Device(i) => 0 <= i < TOTALSEM
      case Interval => DrainEnds(s)
      case _ => true
    }
  }

  // What the code does not check: a victim that waits just behind sem, SYS3 and SYS4 on a
  // semaphore of sem, SYS8 outside it, and an interrupt charged to the clock.
  ghost predicate Safe(s: Kernel, e: Event) {
    match e.call {
      case Terminate(o) => NobodyBehind(s, Elems(o))
      case Signal(a) => VSafe(s, a)
      case WaitOn(a) => PSafe(s, a)
      case WaitIo(i) => SoftPSafe(s, SemAddr(s.base, i))
      case Device(i) => i == CLOCK ==> Value(s, SemAddr(s.base, CLOCK)) < 0
      case _ => true
    }
  }

  ghost predicate Enabled(s: Kernel, e: Event) {
    Possible(s, e) && Safe(s, e)
  }

  // The state in which scheduler() is called, if it is.
  datatype Entry = Back(s: Kernel) | Reschedule(s: Kernel)

  ghost function EntryOf(s: Kernel, e: Event): Entry {
    match e.call {
      case Create => Back(Created(s))
      case Terminate(o) => Reschedule(Purged(s, o))
      case Signal(a) => Back(Signalled(s, a))
      case WaitOn(a) =>
        var t := Added(s, a, -1);
        if Value(t, a) < 0 then Reschedule(Blocked(t, a)) else Back(t)
      case Specify => Back(s)
      case CpuTime => Back(Timed(s, e.tk))
      case WaitClock => Reschedule(ClockStep(s))
      case WaitIo(i) =>
        var t := Added(s, SemAddr(s.base, i), -1);
        if Value(t, SemAddr(s.base, i)) < 0 then Reschedule(IoStep(s, i)) else Back(t)
      case Device(i) => Reschedule(FinishStep(IoDone(s, i), e.tk))
      case Timer => Reschedule(FinishStep(s, e.tk))
      case Interval => Reschedule(FinishStep(TickDone(s, e.tk), e.tk))
    }
  }

  ghost function StateAfter(s: Kernel, e: Event): Kernel {
    match EntryOf(s, e) {
      case Back(t) => t
      case Reschedule(t) => Scheduled(t, e.tk)
    }
  }

  ghost function VerdictAt(s: Kernel, e: Event): Verdict {
    match EntryOf(s, e) {
      case Back(_) => Resume
      case Reschedule(t) => VerdictOf(t)
    }
  }

  // The machine goes on after this entry.
  ghost predicate Goes(s: Kernel, e: Event) {
    Enabled(s, e) && (VerdictAt(s, e) == Resume || VerdictAt(s, e) == Dispatch || VerdictAt(s, e) == Wait)
  }

  // A run of the machine from s: es are its entries, Run(s, es) the state they lead to.
  ghost function Run(s: Kernel, es: seq<Event>): Kernel {
    if es == [] then s else StateAfter(Run(s, es[..|es| - 1]), es[|es| - 1])
  }

  ghost predicate IsRun(s: Kernel, es: seq<Event>) {
    es == [] || (IsRun(s, es[..|es| - 1]) && Goes(Run(s, es[..|es| - 1]), es[|es| - 1]))
  }

  // Whoever runs can be killed, in some order.
  lemma KillPossible(s: Kernel, tk: Ticks)
    requires |s.birth| == |s.parent| && s.current != NIL && Monotone(s.now, tk)
    ensures exists o :: Possible(s, Event(Terminate(o), tk))
  {
    hide Desc, Monotone, NoDup, Elems;
    var o := Listed(Desc(s, s.current));
    assert Possible(s, Event(Terminate(o), tk));
  }

  lemma {:induction false} Listed(v: set<int>) returns (o: seq<int>)
    ensures NoDup(o) && Elems(o) == v
    decreases |v|
  {
    if v == {} {
      o := [];
    } else {
      var x := Member(v);
      var rest := Listed(v - {x});
      assert forall y :: y in Elems(rest) <==> y in v && y != x;
      o := [x] + rest;
      assert Elems(o) == Elems(rest) + {x};
    }
  }

  // ------------------------------------------------- the invariant in every run

  lemma TimedInv(s: Kernel, tk: Ticks)
    requires Inv(s)
    ensures Inv(Timed(s, tk))
  {
    hide Tagged, Family, Addressed, Accounted, NoDup, Within;
    var t := Timed(s, tk);
    AccountedSame(s, t);
    AddressedSame(s, t);
    FamilySame(s, t);
    CountedSame(s, t);
    assert Located(t);
  }

  lemma PWaitInv(s: Kernel, a: int)
    requires Inv(s) && s.current != NIL && a in s.mem
    ensures var t := Added(s, a, -1);
      if Value(t, a) < 0
      then IdleInv(if InSem(s.base, a) then Soft(Blocked(t, a), 1) else Blocked(t, a))
      else Inv(t)
  {
    hide Inv, Blocked;
    if s.mem[a] - 1 < 0 {
      BlockedInv(s, a);
    } else {
      AddedInv(s, a);
    }
  }

  lemma ClockNeverPositive(s: Kernel)
    requires Inv(s)
    ensures SemAddr(s.base, CLOCK) in s.mem && s.mem[SemAddr(s.base, CLOCK)] <= 0
  {
    SemInMem(s, CLOCK);
  }

  lemma VictimsClosed(s: Kernel, o: seq<int>)
    requires Inv(s) && s.current != NIL && Elems(o) == Desc(s, s.current)
    ensures Closed(s, Elems(o)) && s.current in o
  {
    DescClosed(s, s.current);
    DescSelf(s, s.current);
    assert s.current in Elems(o);
  }

  // Where scheduler() is called, nothing but the running process is amiss.
  lemma EntryInv(s: Kernel, e: Event)
    requires Inv(s) && Enabled(s, e)
    ensures match EntryOf(s, e) { case Back(t) => Inv(t) case Reschedule(t) => IdleInv(t) }
  {
    hide Inv, IdleInv, Created, Purged, Signalled, Added, Blocked, Timed, IoDone, FinishStep, TickDone, VSafe;
    match e.call {
      case Create => CreatedInv(s);
      case Terminate(o) => VictimsClosed(s, o); PurgedInv(s, o);
      case Signal(a) => SignalledInv(s, a);
      case WaitOn(a) => AddedValue(s, a); PWaitInv(s, a);
      case Specify =>
      case CpuTime => TimedInv(s, e.tk);
      case WaitClock =>
        ClockNeverPositive(s);
        AddedValue(s, SemAddr(s.base, CLOCK));
        PWaitInv(s, SemAddr(s.base, CLOCK));
      case WaitIo(i) => AddedValue(s, SemAddr(s.base, i)); PWaitInv(s, SemAddr(s.base, i));
      case Device(i) => IoDoneInv(s, i); FinishInv(IoDone(s, i), e.tk);
      case Timer => FinishInv(s, e.tk);
      case Interval => TickDoneInv(s, e.tk); FinishInv(TickDone(s, e.tk), e.tk);
    }
  }

  lemma AddedValue(s: Kernel, a: int)
    requires a in s.mem
    ensures Value(Added(s, a, -1), a) == s.mem[a] - 1
  {
  }

  // Every kernel entry keeps the invariant.
  lemma StepInv(s: Kernel, e: Event)
    requires Inv(s) && Enabled(s, e)
    ensures Inv(StateAfter(s, e))
  {
    hide Inv, EntryOf, IdleInv, Scheduled;
    EntryInv(s, e);
    if EntryOf(s, e).Reschedule? {
      ScheduledInv(EntryOf(s, e).s, e.tk);
    }
  }

  // And only those: an entry that is possible but not safe breaks the invariant.
  lemma StepExact(s: Kernel, e: Event)
    requires Inv(s) && Possible(s, e)
    ensures Inv(StateAfter(s, e)) <==> Safe(s, e)
  {
    hide Structure, Running, Everywhere, Rooted, Counted, Accounted, EntryOf, Scheduled, Signalled, Blocked, Safe;
    if Safe(s, e) {
      StepInv(s, e);
    } else {
      UnsafeEntry(s, e);
      if EntryOf(s, e).Reschedule? {
        ScheduledCounts(EntryOf(s, e).s, e.tk);
      }
    }
  }

  lemma UnsafeEntry(s: Kernel, e: Event)
    requires Inv(s) && Possible(s, e) && !Safe(s, e)
    ensures var m := EntryOf(s, e).s; Sized(m) && !(Counted(m) && Accounted(m))
  {
    hide Structure, Running, Everywhere, Rooted, Counted, Signalled, Blocked, IoDone, VSafe, Accounted;
    match e.call {
      case Terminate(o) => VictimsClosed(s, o); PurgedUnsafe(s, o);
      case Signal(a) => SignalledUnsafe(s, a);
      case WaitOn(a) => AddedValue(s, a); BlockedUnsafe(s, a);
      case WaitIo(i) => AddedValue(s, SemAddr(s.base, i)); IoUnsafe(s, SemAddr(s.base, i));
      case Device(i) => ClockUnsafe(s, e.tk);
      case _ =>
    }
  }

  lemma ClockUnsafe(s: Kernel, tk: Ticks)
    requires Inv(s) && Value(s, SemAddr(s.base, CLOCK)) >= 0
    ensures var m := FinishStep(IoDone(s, CLOCK), tk); Sized(m) && !Accounted(m)
  {
    hide Structure, Running, Everywhere, Rooted, Counted, Woken;
    SizedLike(s);
    SemInMem(s, CLOCK);
    AddedPlaced(s, SemAddr(s.base, CLOCK), 1);
    assert FinishStep(IoDone(s, CLOCK), tk).mem[SemAddr(s.base, CLOCK)] > 0;
  }

  lemma {:induction false} RunInv(s: Kernel, es: seq<Event>)
    requires Inv(s) && IsRun(s, es)
    ensures Inv(Run(s, es))
  {
    hide Inv, StateAfter, Goes;
    if es != [] {
      RunInv(s, es[..|es| - 1]);
      GoesEnabled(Run(s, es[..|es| - 1]), es[|es| - 1]);
      StepInv(Run(s, es[..|es| - 1]), es[|es| - 1]);
    }
  }

  lemma GoesEnabled(s: Kernel, e: Event)
    requires Goes(s, e)
    ensures Enabled(s, e)
  {
  }

  lemma InitialInv(s: Kernel)
    requires Initial(s)
    ensures Inv(s)
  {
    var p := s.first;
    SemArrayAt(s.base, TOTALSEM, 0);
    assert Sized(s);
    forall a | a in s.mem
      ensures InSem(s.base, a) ==> (a - s.base) % WORDLEN == 0
    {
      SemArrayAt(s.base, TOTALSEM, a);
    }
    assert SoftBlocked(s) == {};
    InitialCount(s);
  }

  lemma InitialIdle(t: Kernel)
    requires Initial(t) && Inv(t)
    ensures IdleInv(t)
  {
    assert t.(current := NIL) == t;
  }

  lemma InitialCount(s: Kernel)
    requires Initial(s)
    ensures |s.free| == |s.parent| - 1
  {
    ElemsCard(s.free);
    assert Elems(s.free) == Below(|s.parent|) - {s.first};
  }
}
