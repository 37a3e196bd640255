// CPU accounting over whole runs.
module KernelTime {
  import opened Lists
  import opened Links
  import opened AslLists
  import opened Kernels
  import opened KernelInvs
  import opened KernelSteps
  import opened KernelRuns
  import opened KernelFairness
  import opened KernelSemaphores

  // What a block has been billed, and what it would be if it were billed now.
  ghost function Owed(s: Kernel, p: int): int {
    TimeOf(s, p) + if p == s.current && p != NIL then s.now - s.todStarted else 0
  }

  // The running process was started in the past.
  ghost predicate Started(s: Kernel) {
    s.current != NIL ==> s.todStarted <= s.now
  }

  // From s to t the clock does not go back, and no block's bill grows by more than the
  // clock.
  ghost predicate Fair(s: Kernel, t: Kernel) {
    s.now <= t.now && forall p :: 0 <= Owed(t, p) - Owed(s, p) <= t.now - s.now
  }

  // No bill goes down.
  ghost predicate Grows(s: Kernel, t: Kernel) {
    forall p {:trigger TimeOf(t, p)} :: TimeOf(s, p) <= TimeOf(t, p)
  }

  lemma FairTrans(s: Kernel, t: Kernel, u: Kernel)
    requires Fair(s, t) && Fair(t, u)
    ensures Fair(s, u)
  {
    forall p
      ensures 0 <= Owed(u, p) - Owed(s, p) <= u.now - s.now
    {
      assert 0 <= Owed(t, p) - Owed(s, p) <= t.now - s.now;
      assert 0 <= Owed(u, p) - Owed(t, p) <= u.now - t.now;
    }
  }

  // The same clocks and the same running process.
  ghost predicate SameClocks(s: Kernel, t: Kernel) {
    t.time == s.time && t.current == s.current && t.todStarted == s.todStarted && t.now == s.now
  }

  // ------------------------------------------------- scheduler()

  // Before scheduler(): some have been billed d at most, and the running process's start
  // has been moved by h to leave the handler's time out.
  ghost predicate Prepared(s: Kernel, m: Kernel, h: int, d: int) {
    && m.current == s.current && m.now == s.now && |m.time| == |s.time| && 0 <= h && 0 <= d
    && (s.current != NIL ==> m.todStarted == s.todStarted + h)
    && (forall p {:trigger TimeOf(m, p)} ::
          0 <= TimeOf(m, p) - TimeOf(s, p) <= d && (p == s.current ==> TimeOf(m, p) == TimeOf(s, p)))
  }

  lemma ScheduledFair(s: Kernel, m: Kernel, tk: Ticks, h: int, d: int)
    requires Started(s) && Monotone(s.now, tk) && Prepared(s, m, h, d)
    requires s.current == NIL || 0 <= s.current < |s.time|
    requires h <= tk.end - tk.stop && d <= tk.end - tk.stop
    ensures Fair(s, Scheduled(m, tk)) && Started(Scheduled(m, tk)) && Grows(s, Scheduled(m, tk))
  {
    var t := Scheduled(m, tk);
    forall p
      ensures 0 <= Owed(t, p) - Owed(s, p) <= t.now - s.now && TimeOf(s, p) <= TimeOf(t, p)
    {
      assert TimeOf(m, p) >= TimeOf(s, p);
      assert Owed(t, p) == TimeOf(t, p);
      assert p == s.current && p != NIL ==> TimeOf(t, p) == TimeOf(s, p) + (tk.bill - s.todStarted - h);
    }
  }

  // ------------------------------------------------- the entries

  lemma PurgedClocks(s: Kernel, o: seq<int>)
    ensures SameClocks(s, Purged(s, o))
  {
    hide Minus;
  }

  lemma BlockedClocks(s: Kernel, a: int)
    ensures SameClocks(s, Blocked(Added(s, a, -1), a)) && SameClocks(s, Added(s, a, -1))
    ensures SameClocks(s, Soft(Blocked(Added(s, a, -1), a), 1))
  {
  }

  lemma WokenClocks(s: Kernel, a: int)
    ensures SameClocks(s, Woken(s, a)) && SameClocks(s, Signalled(s, a))
  {
    hide Minus;
  }

  lemma IoDoneClocks(s: Kernel, i: int)
    ensures SameClocks(s, IoDone(s, i))
  {
    hide Minus, Woken;
    WokenClocks(Added(s, SemAddr(s.base, i), 1), SemAddr(s.base, i));
  }

  lemma SamePrepared(s: Kernel, m: Kernel)
    requires SameClocks(s, m)
    ensures Prepared(s, m, 0, 0)
  {
  }

  lemma FinishPrepared(s: Kernel, m: Kernel, tk: Ticks, d: int)
    requires Prepared(s, m, 0, d) && tk.stop <= tk.end
    ensures Prepared(s, FinishStep(m, tk), tk.end - tk.stop, d)
  {
    var f := FinishStep(m, tk);
    forall p
      ensures TimeOf(f, p) == TimeOf(m, p)
    {
    }
  }

  // The interval timer bills every process it wakes once.
  lemma {:induction false} DrainedPrepared(s: Kernel, tk: Ticks, k: nat)
    requires Inv(s) && Monotone(s.now, tk)
    ensures Prepared(s, Drained(s, tk, k), 0, tk.end - tk.stop)
    ensures forall p ::
      p !in QueueAt(s.blocked, SemAddr(s.base, CLOCK)) ==> TimeOf(Drained(s, tk, k), p) == TimeOf(s, p)
    decreases |QueueAt(s.blocked, SemAddr(s.base, CLOCK))|
  {
    hide Inv, WokenByClock, Drained;
    var a := SemAddr(s.base, CLOCK);
    if QueueAt(s.blocked, a) == [] {
      DrainedNone(s, tk, k);
    } else {
      var w := WokenByClock(s, tk, k);
      DrainedStep(s, tk, k);
      WokenByClockInv(s, tk, k);
      WokenByClockTime(s, tk, k);
      CurrentNotQueued(s, a);
      DrainedPrepared(w, tk, k + 1);
      var t := Drained(s, tk, k);
      forall p
        ensures 0 <= TimeOf(t, p) - TimeOf(s, p) <= tk.end - tk.stop
        ensures p == s.current ==> TimeOf(t, p) == TimeOf(s, p)
        ensures p !in QueueAt(s.blocked, a) ==> TimeOf(t, p) == TimeOf(s, p)
      {
        if p != s.blocked[a][0] {
          assert TimeOf(w, p) == TimeOf(s, p);
        } else {
          assert TimeOf(t, p) == TimeOf(w, p);
        }
      }
    }
  }

  lemma WokenByClockTime(s: Kernel, tk: Ticks, k: nat)
    requires Inv(s) && QueueAt(s.blocked, SemAddr(s.base, CLOCK)) != [] && Monotone(s.now, tk)
    ensures var w, q := WokenByClock(s, tk, k), QueueAt(s.blocked, SemAddr(s.base, CLOCK));
      var p := q[0];
      && w.current == s.current && w.now == s.now && w.todStarted == s.todStarted
      && |w.time| == |s.time| && w.base == s.base
      && TimeOf(w, p) == TimeOf(s, p) + (EndOf(tk, k) - tk.stop) && 0 <= EndOf(tk, k) - tk.stop <= tk.end - tk.stop
      && (forall x :: x != p ==> TimeOf(w, x) == TimeOf(s, x))
      && QueueAt(w.blocked, SemAddr(w.base, CLOCK)) == q[1..] && p !in q[1..] && p in q
      && forall x :: x in q[1..] ==> x in q
  {
    hide Minus, Within, Family, Tagged, Accounted, Counted, Rooted;
    MinusFirst(s.blocked[SemAddr(s.base, CLOCK)]);
    StructureApart(s);
    assert s.blocked[SemAddr(s.base, CLOCK)][0] in s.blocked[SemAddr(s.base, CLOCK)];
  }

  lemma CurrentNotQueued(s: Kernel, a: int)
    requires Inv(s)
    ensures s.current !in QueueAt(s.blocked, a) && (s.current != NIL ==> 0 <= s.current < |s.time|)
  {
    hide NoDup, Within, Family, Accounted, Counted, Rooted;
    StructureApart(s);
    assert forall x :: x in QueueAt(s.blocked, a) ==> Live(s, x) && AddrOf(s, x) != NULL_ADDR && x != NIL;
  }

  lemma IntervalPrepared(s: Kernel, tk: Ticks)
    requires Inv(s) && Monotone(s.now, tk)
    ensures Prepared(s, TickDone(s, tk), 0, tk.end - tk.stop)
  {
    hide Inv, Drained, Monotone;
    DrainedPrepared(s, tk, 0);
    MonotoneEnd(s.now, tk);
    var d, t := Drained(s, tk, 0), TickDone(s, tk);
    forall p
      ensures TimeOf(t, p) == TimeOf(d, p)
    {
    }
  }

  lemma MonotoneEnd(now: int, tk: Ticks)
    requires Monotone(now, tk)
    ensures now <= tk.stop <= tk.end <= tk.bill <= tk.start
  {
  }

  // A kernel entry up to scheduler(): at most the handler's own time is moved about.
  lemma EntryPrepared(s: Kernel, e: Event)
    requires Inv(s) && Enabled(s, e) && EntryOf(s, e).Reschedule?
    ensures exists h, d :: h <= e.tk.end - e.tk.stop && d <= e.tk.end - e.tk.stop && Prepared(s, EntryOf(s, e).s, h, d)
  {
    hide Inv, Purged, Blocked, Added, IoDone, FinishStep, TickDone, Prepared, Monotone;
    MonotoneEnd(s.now, e.tk);
    var m, g := EntryOf(s, e).s, e.tk.end - e.tk.stop;
    match e.call {
      case Terminate(o) => PurgedClocks(s, o); SamePrepared(s, m); assert Prepared(s, m, 0, 0);
      case WaitOn(a) => BlockedClocks(s, a); SamePrepared(s, m); assert Prepared(s, m, 0, 0);
      case WaitClock => BlockedClocks(s, SemAddr(s.base, CLOCK)); SamePrepared(s, m); assert Prepared(s, m, 0, 0);
      case WaitIo(i) => BlockedClocks(s, SemAddr(s.base, i)); SamePrepared(s, m); assert Prepared(s, m, 0, 0);
      case Device(i) =>
        IoDoneClocks(s, i);
        SamePrepared(s, IoDone(s, i));
        FinishPrepared(s, IoDone(s, i), e.tk, 0);
        assert Prepared(s, m, g, 0);
      case Timer => SamePrepared(s, s); FinishPrepared(s, s, e.tk, 0); assert Prepared(s, m, g, 0);
      case Interval =>
        IntervalPrepared(s, e.tk);
        FinishPrepared(s, TickDone(s, e.tk), e.tk, g);
        assert Prepared(s, m, g, g);
      case _ =>
    }
  }

  lemma SameFair(s: Kernel, t: Kernel)
    requires Started(s) && SameClocks(s, t)
    ensures Fair(s, t) && Started(t) && Grows(s, t)
  {
  }

  lemma TimedFair(s: Kernel, tk: Ticks)
    requires Started(s) && Monotone(s.now, tk) && 0 <= s.current < |s.time|
    ensures Fair(s, Timed(s, tk)) && Started(Timed(s, tk)) && Grows(s, Timed(s, tk))
  {
  }

  lemma CreatedClocks(s: Kernel)
    ensures SameClocks(s, Created(s))
  {
  }

  // A kernel entry bills nobody for more than the time that has gone by.
  lemma EntryFair(s: Kernel, e: Event)
    requires Inv(s) && Started(s) && Enabled(s, e)
    ensures Fair(s, StateAfter(s, e)) && Started(StateAfter(s, e)) && Grows(s, StateAfter(s, e))
  {
    hide Inv, Created, Signalled, Blocked, Timed, Prepared, Fair, Grows, Started, Scheduled, Purged, IoDone, FinishStep,
      TickDone;
    CurrentNotQueued(s, 0);
    if EntryOf(s, e).Reschedule? {
      EntryPrepared(s, e);
      var h, d :| h <= e.tk.end - e.tk.stop && d <= e.tk.end - e.tk.stop && Prepared(s, EntryOf(s, e).s, h, d);
      ScheduledFair(s, EntryOf(s, e).s, e.tk, h, d);
    } else {
      match e.call {
        case Create => CreatedClocks(s); SameFair(s, Created(s));
        case Signal(a) => WokenClocks(s, a); SameFair(s, Signalled(s, a));
        case WaitOn(a) => BlockedClocks(s, a); SameFair(s, Added(s, a, -1));
        case Specify => SameFair(s, s);
        case CpuTime => TimedFair(s, e.tk);
        case WaitIo(i) => BlockedClocks(s, SemAddr(s.base, i)); SameFair(s, Added(s, SemAddr(s.base, i), -1));
        case _ =>
      }
    }
  }

  // In every run, between any two of its points no block is billed more than the clock
  // has gone on, whatever dispatching, blocking, preemption and waking lie in between.
  lemma {:induction false} RunFair(s: Kernel, es: seq<Event>, k: nat)
    requires Inv(s) && Started(s) && IsRun(s, es) && k <= |es|
    ensures IsRun(s, es[..k]) && Started(Run(s, es)) && Fair(Run(s, es[..k]), Run(s, es))
  {
    hide Inv, StateAfter, Goes, Started, Fair;
    if k == |es| {
      assert es[..k] == es;
      if es != [] {
        var f := es[..|es| - 1];
        RunFair(s, f, |f|);
        RunInv(s, f);
        GoesEnabled(Run(s, f), es[|es| - 1]);
        EntryFair(Run(s, f), es[|es| - 1]);
      }
      FairSelf(Run(s, es));
    } else {
      var f := es[..|es| - 1];
      assert f[..k] == es[..k];
      RunFair(s, f, k);
      RunInv(s, f);
      GoesEnabled(Run(s, f), es[|es| - 1]);
      EntryFair(Run(s, f), es[|es| - 1]);
      FairTrans(Run(s, es[..k]), Run(s, f), Run(s, es));
    }
  }

  lemma FairFromBoot(t: Kernel, tk: Ticks, es: seq<Event>, k: nat)
    requires Initial(t) && IsRun(Scheduled(t, tk), es) && k <= |es|
    ensures Fair(Run(Scheduled(t, tk), es[..k]), Run(Scheduled(t, tk), es))
  {
    hide Inv, Fair, IsRun, Run, Initial, IdleInv;
    InitialInv(t);
    InitialIdle(t);
    ScheduledInv(t, tk);
    ScheduledStarted(t, tk);
    RunFair(Scheduled(t, tk), es, k);
  }

  lemma ScheduledStarted(t: Kernel, tk: Ticks)
    ensures Started(Scheduled(t, tk))
  {
  }

  lemma FairSelf(s: Kernel)
    ensures Fair(s, s)
  {
  }

  // ------------------------------------------------- what is billed

  // The time a handler leaves out of the bill of the process it has interrupted.
  function LeftOut(e: Event): int {
    if Interrupt?(e) then e.tk.end - e.tk.stop else 0
  }

  // What the running process is billed if the entry takes the processor from it or it
  // asks: how long it has run.
  ghost function RunningBill(s: Kernel, e: Event, p: int): int {
    if p == s.current && p != NIL && (EntryOf(s, e).Reschedule? || e.call.CpuTime?)
    then e.tk.bill - s.todStarted - LeftOut(e) else 0
  }

  // What a process is billed when the interval timer wakes it: how long the handler has
  // run until its turn.
  ghost function WakingBill(s: Kernel, e: Event, p: int): int {
    var q := QueueAt(s.blocked, SemAddr(s.base, CLOCK));
    if e.call.Interval? && p in q then EndOf(e.tk, Ahead(q, p)) - e.tk.stop else 0
  }

  ghost function Charge(s: Kernel, e: Event, p: int): int {
    RunningBill(s, e, p) + WakingBill(s, e, p)
  }

  lemma {:induction false} DrainedTime(s: Kernel, tk: Ticks, k: nat, p: int)
    requires Inv(s) && Monotone(s.now, tk)
    ensures var q := QueueAt(s.blocked, SemAddr(s.base, CLOCK));
      TimeOf(Drained(s, tk, k), p) == TimeOf(s, p) + if p in q then EndOf(tk, k + Ahead(q, p)) - tk.stop else 0
    decreases |QueueAt(s.blocked, SemAddr(s.base, CLOCK))|
  {
    hide Inv, WokenByClock, Drained;
    var a := SemAddr(s.base, CLOCK);
    if QueueAt(s.blocked, a) == [] {
      DrainedNone(s, tk, k);
    } else {
      var w := WokenByClock(s, tk, k);
      DrainedStep(s, tk, k);
      WokenByClockInv(s, tk, k);
      WokenByClockTime(s, tk, k);
      DrainedTime(w, tk, k + 1, p);
    }
  }

  lemma IntervalTime(s: Kernel, e: Event, p: int)
    requires Inv(s) && Monotone(s.now, e.tk) && e.call.Interval?
    ensures TimeOf(EntryOf(s, e).s, p) == TimeOf(s, p) + WakingBill(s, e, p)
  {
    hide Inv, Drained, Monotone;
    DrainedTime(s, e.tk, 0, p);
  }

  // Where scheduler() is called, the running process's start has been moved by the
  // handler's time, and only the interval timer has billed anybody.
  lemma EntryTime(s: Kernel, e: Event, p: int)
    requires Inv(s) && Possible(s, e) && EntryOf(s, e).Reschedule?
    ensures var m := EntryOf(s, e).s;
      && m.current == s.current && |m.time| == |s.time|
      && (s.current != NIL ==> m.todStarted == s.todStarted + LeftOut(e))
      && TimeOf(m, p) == TimeOf(s, p) + WakingBill(s, e, p)
  {
    hide Inv, Purged, Blocked, Added, IoDone, Drained, Prepared, Monotone, Desc, WakingBill;
    NoWakingBill(s, e, p);
    match e.call {
      case Terminate(o) => PurgedClocks(s, o);
      case WaitOn(a) => BlockedClocks(s, a);
      case WaitClock => BlockedClocks(s, SemAddr(s.base, CLOCK));
      case WaitIo(i) => BlockedClocks(s, SemAddr(s.base, i));
      case Device(i) => IoDoneClocks(s, i);
      case Timer =>
      case Interval => IntervalPrepared(s, e.tk); PreparedClocks(s, TickDone(s, e.tk), e.tk); IntervalTime(s, e, p);
      case _ =>
    }
  }

  lemma NoWakingBill(s: Kernel, e: Event, p: int)
    ensures !e.call.Interval? ==> WakingBill(s, e, p) == 0
  {
  }

  lemma PreparedClocks(s: Kernel, m: Kernel, tk: Ticks)
    requires Prepared(s, m, 0, tk.end - tk.stop)
    ensures m.current == s.current && |m.time| == |s.time| && (s.current != NIL ==> m.todStarted == s.todStarted)
  {
  }

  // Exactly this is billed, whatever the entry.
  lemma ChargeExact(s: Kernel, e: Event, p: int)
    requires Inv(s) && Possible(s, e)
    ensures TimeOf(StateAfter(s, e), p) == TimeOf(s, p) + Charge(s, e, p)
  {
    hide Inv, Created, Signalled, Blocked, Purged, IoDone, FinishStep, TickDone, WakingBill, Added;
    CurrentNotQueued(s, 0);
    NoWakingBill(s, e, p);
    if EntryOf(s, e).Reschedule? {
      EntryTime(s, e, p);
    } else {
      match e.call {
        case Create => CreatedClocks(s);
        case Signal(a) => WokenClocks(s, a);
        case WaitOn(a) => BlockedClocks(s, a);
        case WaitIo(i) => BlockedClocks(s, SemAddr(s.base, i));
        case _ =>
      }
    }
  }

  // In terms of the readings: the running process pays from its start to the reading of
  // scheduler() or SYS6, without the time between the two readings of an interrupt's
  // handler. Whoever the clock wakes pays from the interrupt to the reading taken at its
  // turn. Whoever is dispatched starts with the last reading.
  lemma BillExact(s: Kernel, e: Event, p: int)
    requires Inv(s) && Possible(s, e) && (e.call.Interval? ==> p !in QueueAt(s.blocked, SemAddr(s.base, CLOCK)))
    ensures var t, tk := StateAfter(s, e), e.tk;
      TimeOf(t, p) - TimeOf(s, p) ==
      if p != s.current || p == NIL then 0
      else if Interrupt?(e) then (tk.stop - s.todStarted) + (tk.bill - tk.end)
      else if GivesUp(s, e) || e.call.CpuTime? then tk.bill - s.todStarted
      else 0
  {
    hide Inv, Possible, EntryOf, StateAfter, VerdictAt;
    ChargeExact(s, e, p);
    EntryLine(s, e);
  }

  lemma WakersBilled(s: Kernel, e: Event, j: nat)
    requires Inv(s) && Possible(s, e) && e.call.Interval?
    requires j < |QueueAt(s.blocked, SemAddr(s.base, CLOCK))| <= |e.tk.ends|
    ensures var p := QueueAt(s.blocked, SemAddr(s.base, CLOCK))[j];
      TimeOf(StateAfter(s, e), p) == TimeOf(s, p) + (e.tk.ends[j] - e.tk.stop)
  {
    hide Inv, Possible, StateAfter;
    var q := QueueAt(s.blocked, SemAddr(s.base, CLOCK));
    ChargeExact(s, e, q[j]);
    CurrentNotQueued(s, SemAddr(s.base, CLOCK));
    QueueNoDup(s, SemAddr(s.base, CLOCK));
    AheadAt(q, j);
    assert q[j] in q;
  }

  lemma {:induction false} AheadAt(q: seq<int>, j: nat)
    requires NoDup(q) && j < |q|
    ensures Ahead(q, q[j]) == j
  {
    if j > 0 {
      assert q[0] != q[j];
      assert NoDup(q[1..]) && q[1..][j - 1] == q[j];
      AheadAt(q[1..], j - 1);
    }
  }

  lemma StartExact(s: Kernel, e: Event)
    requires Inv(s) && Possible(s, e)
    ensures var t, v := StateAfter(s, e), VerdictAt(s, e);
      && (v == Dispatch || e.call.CpuTime? ==> t.todStarted == t.now == e.tk.start)
      && (v == Resume && !e.call.CpuTime? ==> t.todStarted == s.todStarted)
  {
    hide Inv, Possible, Created, Signalled, Blocked, IoDone, FinishStep, TickDone, Purged, Added;
    match e.call {
      case Create => CreatedClocks(s);
      case Signal(a) => WokenClocks(s, a);
      case WaitOn(a) => BlockedClocks(s, a);
      case WaitIo(i) => BlockedClocks(s, SemAddr(s.base, i));
      case _ =>
    }
  }

  // ------------------------------------------------- bills handed on

  // The k-th entry of the run bills block p: its owner has run while the clock went on, or
  // was woken by the clock a while after the interrupt.
  ghost predicate BilledAt(s: Kernel, es: seq<Event>, k: int, p: int) {
    0 <= k < |es| && Charge(Run(s, es[..k]), es[k], p) > 0
  }

  lemma {:induction false} NeverBilled(s: Kernel, es: seq<Event>, p: int)
    requires Inv(s) && Started(s) && IsRun(s, es)
    ensures TimeOf(Run(s, es), p) >= TimeOf(s, p)
    ensures TimeOf(Run(s, es), p) == TimeOf(s, p) <==> forall k :: 0 <= k < |es| ==> !BilledAt(s, es, k, p)
  {
    hide Inv, StateAfter, Goes, Possible, Safe, Started, Fair, TimeOf, Charge;
    if es != [] {
      var f, e := es[..|es| - 1], es[|es| - 1];
      NeverBilled(s, f, p);
      RunFair(s, f, |f|);
      RunInv(s, f);
      GoesEnabled(Run(s, f), e);
      EntryFair(Run(s, f), e);
      ChargeExact(Run(s, f), e, p);
      assert TimeOf(StateAfter(Run(s, f), e), p) >= TimeOf(Run(s, f), p);
      forall k | 0 <= k < |f|
        ensures BilledAt(s, f, k, p) <==> BilledAt(s, es, k, p)
      {
        assert f[..k] == es[..k] && f[k] == es[k];
      }
      assert BilledAt(s, es, |f|, p) <==> Charge(Run(s, f), e, p) > 0;
    }
  }

  // allocPcb leaves the bill of the block's last owner in place. In every run that starts
  // with no bills, SYS6 of a new process starts from nought exactly when no entry before
  // has billed its block.
  lemma BillInherited(t: Kernel, tk: Ticks, es: seq<Event>)
    requires Initial(t) && IsRun(Scheduled(t, tk), es) && forall p :: TimeOf(t, p) == 0
    requires var s := Run(Scheduled(t, tk), es); s.free != [] && s.current != NIL
    ensures var s := Run(Scheduled(t, tk), es);
      var p := s.free[0];
      && TimeOf(Created(s), p) == Owed(Created(s), p)
      && (Owed(Created(s), p) == 0 <==> forall k :: 0 <= k < |es| ==> !BilledAt(Scheduled(t, tk), es, k, p))
  {
    hide Inv, IsRun, Run, Initial, IdleInv, BilledAt, Started, Fair;
    var s := Run(Scheduled(t, tk), es);
    InitialInv(t);
    InitialIdle(t);
    ScheduledInv(t, tk);
    ScheduledStarted(t, tk);
    NeverBilled(Scheduled(t, tk), es, s.free[0]);
    FirstUnbilled(t, tk, s.free[0]);
    RunInv(Scheduled(t, tk), es);
    RunningNotFree(s);
  }

  lemma FirstUnbilled(t: Kernel, tk: Ticks, p: int)
    requires Initial(t)
    ensures TimeOf(Scheduled(t, tk), p) == TimeOf(t, p)
  {
  }

  lemma RunningNotFree(s: Kernel)
    requires Inv(s) && s.free != [] && s.current != NIL
    ensures s.current != s.free[0]
  {
    assert s.free[0] in s.free;
  }
}
