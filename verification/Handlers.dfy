// The entry points of the kernel over the linked structures: each is a step of the
// machine of KernelRuns, and keeps its invariant exactly if it is a safe one.
module Handlers {
  import opened Lists
  import opened Links
  import opened Kernels
  import opened KernelInvs
  import opened KernelRuns
  import opened Nuclei

  // h/const.h
  const CREATE_PROCESS := 1
  const TERMINATE_PROCESS := 2
  const VERHOGEN := 3
  const PASSEREN := 4
  const SESV := 5
  const GETTIME := 6
  const WAITCLOCK := 7
  const WAITIO := 8

  // What the calls demand of their arguments: the words that P and V go to are semaphores.
  predicate CallAllowed(mem: map<int, int>, base: int, call: int, a1: int, a2: int, a3: int) {
    && CREATE_PROCESS <= call <= WAITIO
    && (call == VERHOGEN || call == PASSEREN ==> a1 in mem)
    && (call == WAITIO ==> SemAddr(base, DeviceIndex(a1, a2, a3)) in mem)
  }

  // sysCallHandler: the call of the running process is one step of the machine, the one
  // that its number and arguments name. The invariant holds after it exactly if the step
  // is safe. Whether the process has already named a handler for the exception is a
  // parameter; SYS5 kills it if so.
  method SysCallHandler(n: Nucleus, call: int, a1: int, a2: int, a3: int, again: bool, tk: Ticks)
    returns (v: Verdict, ghost e: Event)
    requires n.Linked() && Inv(n.View()) && n.currentProcess != NIL && Monotone(n.now, tk)
    requires CallAllowed(n.mem, n.base, call, a1, a2, a3)
    modifies n, n.pcbs`freeHead, n.pcbs`free
    modifies n.pcbs.next, n.pcbs.prev, n.pcbs.child, n.pcbs.parent, n.pcbs.prevSib, n.pcbs.nextSib
    modifies n.pcbs.semAdd, n.pcbs.time
    modifies n.asl`semdFree, n.asl`free, n.asl`nodes, n.asl`blocked, n.asl.sNext, n.asl.sSemAdd, n.asl.sProcQ
    ensures call == CREATE_PROCESS ==> e.call == Create
    ensures call == TERMINATE_PROCESS ==> e.call.Terminate?
    ensures call == VERHOGEN ==> e.call == Signal(a1)
    ensures call == PASSEREN ==> e.call == WaitOn(a1)
    ensures call == SESV ==> if again then e.call.Terminate? else e.call == Specify
    ensures call == GETTIME ==> e.call == CpuTime
    ensures call == WAITCLOCK ==> e.call == WaitClock
    ensures call == WAITIO ==> e.call == WaitIo((a1 - DEVNOSEM + a3) * DEVPERINT + a2)
    ensures e.tk == tk && n.Linked() && Possible(old(n.View()), e)
    ensures n.View() == StateAfter(old(n.View()), e) && v == VerdictAt(old(n.View()), e)
    ensures Inv(n.View()) <==> Safe(old(n.View()), e)
  {
    hide n.Linked, Inv, Possible, Safe, StateAfter, VerdictAt, Monotone, Created, Purged, Scheduled, Signalled, Waited,
      Timed, WaitedClock, WaitedIo, VerdictOf, Blocked, Added, ClockStep, IoStep, Desc;
    ghost var s := n.View();
    SizedState(s);
    match call {
      case CREATE_PROCESS =>
        e, v := Event(Create, tk), Resume;
        var v0 := n.SysCreate();
      case TERMINATE_PROCESS =>
        ghost var order;
        v, order := n.SysSendToNorthKorea(tk);
        e := Event(Terminate(order), tk);
      case VERHOGEN =>
        e, v := Event(Signal(a1), tk), Resume;
        n.SysSignal(a1);
      case PASSEREN =>
        e := Event(WaitOn(a1), tk);
        v := n.SysWait(a1, tk);
      case SESV =>
        if again {
          ghost var order;
          v, order := n.SysSendToNorthKorea(tk);
          e := Event(Terminate(order), tk);
        } else {
          e, v := Event(Specify, tk), Resume;
        }
      case GETTIME =>
        e, v := Event(CpuTime, tk), Resume;
        var v0 := n.SysGetCPUTime(tk);
      case WAITCLOCK =>
        e := Event(WaitClock, tk);
        v := n.SysWaitForClock(tk);
      case _ =>
        e := Event(WaitIo(DeviceIndex(a1, a2, a3)), tk);
        v := n.SysGoPowerRangers(a1, a2, a3, tk);
    }
    CallIsStep(s, e);
    StepExact(s, e);
  }

  // ioTrapHandler: an interrupt is one step of the machine, or its drain loop never
  // ends. Lines 3 to 7 are those of the devices. The invariant holds after it exactly if
  // it is not charged to a clock that owes nobody anything.
  method IoTrapHandler(n: Nucleus, line: int, bitMap: bv32, receiving: bool, tk: Ticks)
    returns (v: Verdict, ghost e: Event)
    requires n.Linked() && Inv(n.View()) && Monotone(n.now, tk)
    requires 1 <= line <= TERMINT
    modifies n, n.pcbs.next, n.pcbs.prev, n.pcbs.semAdd, n.pcbs.time
    modifies n.asl`semdFree, n.asl`free, n.asl`nodes, n.asl`blocked, n.asl.sNext, n.asl.sSemAdd, n.asl.sProcQ
    ensures n.Linked()
    ensures v == Hang <==> line == 2 && !DrainEnds(old(n.View()))
    ensures v != Hang ==>
      && Possible(old(n.View()), e) && n.View() == StateAfter(old(n.View()), e) && v == VerdictAt(old(n.View()), e)
      && (Inv(n.View()) <==> Safe(old(n.View()), e))
    ensures line == 1 ==> e.call == Timer
    ensures line == 2 ==> e.call == Interval
    ensures line >= DEVNOSEM ==> e.call == Device(CodedIndex(line, bitMap, receiving))
    ensures e.tk == tk
  {
    hide n.Linked, Inv, Possible, Safe, StateAfter, VerdictAt, Monotone, Finished, Interrupted, Ticked, VerdictOf,
      FinishStep, IoDone, TickDone, DrainEnds, Drained;
    ghost var s := n.View();
    SizedState(s);
    if line == 1 {
      e := Event(Timer, tk);
      v := n.Quantum(tk);
    } else if line == 2 {
      e := Event(Interval, tk);
      v := n.IntervalTimer(tk);
    } else {
      IndexInRange(line, bitMap, receiving);
      e := Event(Device(CodedIndex(line, bitMap, receiving)), tk);
      v := n.IoTrap(line, bitMap, receiving, tk);
    }
    if v != Hang {
      InterruptIsStep(s, e);
      StepExact(s, e);
    }
  }

  lemma SizedState(s: Kernel)
    requires Inv(s)
    ensures Sized(s) && forall t :: VerdictOf(t) != Hang && VerdictOf(t) != Resume
  {
  }

  lemma IndexInRange(line: int, bitMap: bv32, receiving: bool)
    requires DEVNOSEM <= line <= TERMINT
    ensures 0 <= CodedIndex(line, bitMap, receiving) <= CLOCK
  {
  }

  // The transition of each call is what its method leaves behind.
  lemma CallIsStep(s: Kernel, e: Event)
    requires Sized(s) && Monotone(s.now, e.tk) && s.current != NIL
    ensures match e.call {
      case Create => Possible(s, e) && StateAfter(s, e) == Created(s) && VerdictAt(s, e) == Resume
      case Terminate(o) => NoDup(o) && Elems(o) == Desc(s, s.current) ==>
        Possible(s, e) && StateAfter(s, e) == Scheduled(Purged(s, o), e.tk)
        && VerdictAt(s, e) == VerdictOf(Purged(s, o))
      case Signal(a) => a in s.mem ==>
        Possible(s, e) && StateAfter(s, e) == Signalled(s, a) && VerdictAt(s, e) == Resume
      case WaitOn(a) => a in s.mem ==>
        Possible(s, e) && StateAfter(s, e) == Waited(s, a, e.tk)
        && VerdictAt(s, e) == if s.mem[a] - 1 < 0 then VerdictOf(Blocked(Added(s, a, -1), a)) else Resume
      case Specify => Possible(s, e) && StateAfter(s, e) == s && VerdictAt(s, e) == Resume
      case CpuTime => Possible(s, e) && StateAfter(s, e) == Timed(s, e.tk) && VerdictAt(s, e) == Resume
      case WaitClock =>
        Possible(s, e) && StateAfter(s, e) == WaitedClock(s, e.tk) && VerdictAt(s, e) == VerdictOf(ClockStep(s))
      case WaitIo(i) => SemAddr(s.base, i) in s.mem ==>
        Possible(s, e) && StateAfter(s, e) == WaitedIo(s, i, e.tk)
        && VerdictAt(s, e) == if Value(s, SemAddr(s.base, i)) - 1 < 0 then VerdictOf(IoStep(s, i)) else Resume
      case _ => true
    }
  {
    hide Monotone, Purged, Scheduled, Blocked, Created, Signalled, Timed, VerdictOf, ClockStep, IoStep, Desc,
      NoDup, Elems;
  }

  lemma InterruptIsStep(s: Kernel, e: Event)
    requires Sized(s) && Monotone(s.now, e.tk)
    ensures match e.call {
      case Device(i) => 0 <= i < TOTALSEM ==>
        Possible(s, e) && StateAfter(s, e) == Interrupted(s, i, e.tk)
        && VerdictAt(s, e) == VerdictOf(FinishStep(IoDone(s, i), e.tk))
      case Timer =>
        Possible(s, e) && StateAfter(s, e) == Finished(s, e.tk) && VerdictAt(s, e) == VerdictOf(FinishStep(s, e.tk))
      case Interval => DrainEnds(s) ==>
        Possible(s, e) && StateAfter(s, e) == Ticked(s, e.tk)
        && VerdictAt(s, e) == VerdictOf(FinishStep(TickDone(s, e.tk), e.tk))
      case _ => true
    }
  {
    hide Monotone, Scheduled, VerdictOf, FinishStep, IoDone, TickDone, DrainEnds;
  }
}
