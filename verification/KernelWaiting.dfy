// Waiting for a semaphore over whole runs: first come, first served, and which interrupt
// answers which SYS8.
module KernelWaiting {
  import opened Lists
  import opened AslLists
  import opened Kernels
  import opened KernelInvs
  import opened KernelRuns
  import opened KernelTheorems
  import opened KernelLimits
  import opened KernelFairness
  import opened KernelSemaphores
  import opened KernelLedger

  // e wakes x out of the queue of a: by a V with x in front, or by resetting the clock.
  ghost predicate Answers(s: Kernel, e: Event, a: int, x: int) {
    Resets(s, e, a) || (GivesTo(s, e, a) && Front(s, a) == [x])
  }

  ghost predicate Leaves(s: Kernel, e: Event, a: int, x: int) {
    Answers(s, e, a, x) || x in Victims(e)
  }

  // Whoever is answered is ready, or runs already; it waits for nothing.
  lemma AnsweredReady(s: Kernel, e: Event, a: int, x: int)
    requires Inv(s) && Possible(s, e) && a in s.mem && x in QueueAt(s.blocked, a) && Answers(s, e, a, x)
    ensures var t := StateAfter(s, e); (x in t.ready || x == t.current) && x !in QueueAt(t.blocked, a)
  {
    hide Inv, Possible, StateAfter, VerdictAt, Minus;
    SemaphoreLaws(s, e, a);
    ReadyLaw(s, e);
    QueueNoDup(s, a);
    if GivesTo(s, e, a) {
      FrontOnce(QueueAt(s.blocked, a));
    }
    assert x in Released(s, e) && x in Line(s, e);
    assert Line(s, e) != [] ==> forall y :: y in Line(s, e) <==> y == Line(s, e)[0] || y in Line(s, e)[1..];
  }

  // x is ready, runs, or is dead.
  ghost predicate Waitless(s: Kernel, x: int) {
    x in s.ready || x == s.current || !Live(s, x)
  }

  lemma LeaverWaitless(s: Kernel, e: Event, a: int, x: int)
    requires Inv(s) && Possible(s, e) && a in s.mem && x in QueueAt(s.blocked, a) && Leaves(s, e, a, x)
    ensures Waitless(StateAfter(s, e), x)
  {
    hide Inv, Possible, StateAfter;
    if Answers(s, e, a, x) {
      AnsweredReady(s, e, a, x);
    } else {
      VictimDead(s, e, x);
    }
  }

  lemma VictimDead(s: Kernel, e: Event, x: int)
    requires x in Victims(e)
    ensures !Live(StateAfter(s, e), x)
  {
    hide Purged;
    PurgedReadyQueue(s, e.call.order);
    ElemsIn(e.call.order, x);
  }

  // Whoever is not stays, and moves up one place with every V.
  lemma StaysQueued(s: Kernel, e: Event, a: int, x: int)
    requires Inv(s) && Possible(s, e) && a in s.mem && x in QueueAt(s.blocked, a) && !Leaves(s, e, a, x)
    ensures var q, r := QueueAt(s.blocked, a), QueueAt(StateAfter(s, e).blocked, a);
      && x in r && Ahead(r, x) + (if GivesTo(s, e, a) then 1 else 0) <= Ahead(q, x)
      && (!e.call.Terminate? ==> Ahead(r, x) + (if GivesTo(s, e, a) then 1 else 0) == Ahead(q, x))
  {
    hide Inv, Possible, StateAfter, Minus;
    SemaphoreLaws(s, e, a);
    var q := QueueAt(s.blocked, a);
    if e.call.Terminate? {
      AheadMinus(q, Elems(e.call.order), x);
    } else if GivesTo(s, e, a) {
      assert q[0] != x;
    } else {
      AheadConcat(q, [s.current], x);
    }
  }

  // ------------------------------------------------- whole runs

  ghost predicate LeavesAt(s: Kernel, es: seq<Event>, k: int, a: int, x: int) {
    0 <= k < |es| && Leaves(Run(s, es[..k]), es[k], a, x)
  }

  ghost predicate NoKill(es: seq<Event>) {
    forall k :: 0 <= k < |es| ==> !es[k].call.Terminate?
  }

  // Only V's take anybody out of the queue of a.
  ghost predicate Orderly(s: Kernel, es: seq<Event>, a: int) {
    NoKill(es) && a != SemAddr(s.base, CLOCK)
  }

  // Until it is answered or killed a process stays where it is, with one fewer ahead of
  // it for every V, and for every kill of one ahead of it.
  lemma {:induction false} StillQueued(s: Kernel, es: seq<Event>, a: int, x: int)
    requires Inv(s) && IsRun(s, es) && a in s.mem && x in QueueAt(s.blocked, a)
    requires forall k :: 0 <= k < |es| ==> !LeavesAt(s, es, k, a, x)
    ensures var q, r := QueueAt(s.blocked, a), QueueAt(Run(s, es).blocked, a);
      && x in r && a in Run(s, es).mem && Ahead(r, x) + Given(s, es, a) <= Ahead(q, x)
      && (NoKill(es) ==> Ahead(r, x) + Given(s, es, a) == Ahead(q, x))
  {
    hide Inv, StateAfter, Goes, Leaves, GivesTo, Ahead, Possible;
    if es != [] {
      var f, e := es[..|es| - 1], es[|es| - 1];
      forall k | 0 <= k < |f|
        ensures !LeavesAt(s, f, k, a, x)
      {
        assert f[..k] == es[..k] && f[k] == es[k] && !LeavesAt(s, es, k, a, x);
      }
      StillQueued(s, f, a, x);
      RunInv(s, f);
      GoesEnabled(Run(s, f), e);
      assert !LeavesAt(s, es, |f|, a, x);
      StaysQueued(Run(s, f), e, a, x);
      SemaphoreLaws(Run(s, f), e, a);
    }
  }

  // With n processes ahead of it a process is answered or killed no later than by the
  // (n + 1)-th V; if nobody is killed before, by just that one.
  lemma ServedInTurn(s: Kernel, es: seq<Event>, a: int, x: int)
    requires Inv(s) && IsRun(s, es) && a in s.mem && x in QueueAt(s.blocked, a)
    requires Given(s, es, a) > Ahead(QueueAt(s.blocked, a), x)
    ensures var n := Ahead(QueueAt(s.blocked, a), x);
      exists k :: LeavesAt(s, es, k, a, x) && Waitless(Run(s, es[..k + 1]), x)
               && Given(s, es[..k], a) <= n && (Orderly(s, es, a) ==> Given(s, es[..k], a) == n)
  {
    hide Inv, IsRun, Leaves, Given, Ahead, StateAfter, Waitless, Goes;
    if forall k :: 0 <= k < |es| ==> !LeavesAt(s, es, k, a, x) {
      StillQueued(s, es, a, x);
      assert false;
    }
    var k := FirstLeaving(s, es, a, x, |es|);
    var f := es[..k];
    RunPrefix(s, es, k);
    forall j | 0 <= j < |f|
      ensures !LeavesAt(s, f, j, a, x)
    {
      assert f[..j] == es[..j] && f[j] == es[j] && !LeavesAt(s, es, j, a, x);
    }
    StillQueued(s, f, a, x);
    RunBase(s, f);
    RunPrefix(s, es, k + 1);
    assert es[..k + 1][..k] == f;
    LastGoes(s, es[..k + 1]);
    RunInv(s, f);
    LeaverWaitless(Run(s, f), es[k], a, x);
    if Orderly(s, es, a) {
      AnsweredFirst(Run(s, f), es[k], a, x);
    }
  }

  lemma AnsweredFirst(s: Kernel, e: Event, a: int, x: int)
    requires Leaves(s, e, a, x) && a != SemAddr(s.base, CLOCK) && !e.call.Terminate?
    ensures Ahead(QueueAt(s.blocked, a), x) == 0
  {
  }

  lemma {:induction false} RunPrefix(s: Kernel, es: seq<Event>, k: nat)
    requires IsRun(s, es) && k <= |es|
    ensures IsRun(s, es[..k])
    decreases |es|
  {
    hide Goes;
    if k == |es| {
      assert es[..k] == es;
    } else {
      RunPrefix(s, es[..|es| - 1], k);
      assert es[..|es| - 1][..k] == es[..k];
    }
  }

  lemma LastGoes(s: Kernel, es: seq<Event>)
    requires IsRun(s, es) && es != []
    ensures Possible(Run(s, es[..|es| - 1]), es[|es| - 1])
  {
    hide Possible;
  }

  lemma {:induction false} FirstLeaving(s: Kernel, es: seq<Event>, a: int, x: int, n: nat) returns (k: nat)
    requires n <= |es| && exists j :: 0 <= j < n && LeavesAt(s, es, j, a, x)
    ensures k < n && LeavesAt(s, es, k, a, x) && forall j :: 0 <= j < k ==> !LeavesAt(s, es, j, a, x)
  {
    if exists j :: 0 <= j < n - 1 && LeavesAt(s, es, j, a, x) {
      k := FirstLeaving(s, es, a, x, n - 1);
    } else {
      k := n - 1;
    }
  }

  // ------------------------------------------------- SYS8 and the interrupts

  // The devices: line 7 has one to send and one to receive for every terminal.
  predicate IsDevice(line: int, device: int, isWrite: int) {
    DEVNOSEM <= line <= TERMINT && 0 <= device < DEVPERINT && (isWrite == 0 || (isWrite == 1 && line == TERMINT))
  }

  // Every device has a semaphore of its own, which is not the clock's.
  lemma DevicesDistinct(line: int, device: int, isWrite: int, line': int, device': int, isWrite': int)
    requires IsDevice(line, device, isWrite) && IsDevice(line', device', isWrite')
    ensures 0 <= DeviceIndex(line, device, isWrite) < CLOCK
    ensures DeviceIndex(line, device, isWrite) == DeviceIndex(line', device', isWrite') <==>
            line == line' && device == device' && isWrite == isWrite'
  {
  }

  // The interrupt of a line is for those who wait for its device 0, if that is pending,
  // and otherwise for those of the next line's, or the clock's: never for whoever waits
  // for another device.
  lemma InterruptIsFor(line: int, bitMap: bv32, receiving: bool, line': int, device: int, isWrite: int)
    requires DEVNOSEM <= line <= TERMINT && IsDevice(line', device, isWrite)
    ensures CodedIndex(line, bitMap, receiving) == DeviceIndex(line', device, isWrite) <==>
      var terminal := if line == TERMINT && receiving then 1 else 0;
      && device == 0
      && line' + isWrite == line + terminal + if Pending(bitMap, 0) then 0 else 1
  {
    assert Pending(bitMap, 0) <==> bitMap & 1 == 1;
  }

  // SYS8 on device 0 of a line, with n others waiting for it: by the (n + 1)-th interrupt
  // of that device the caller is ready again, or dead; if nobody is killed, just by that.
  lemma IoAnswered(s: Kernel, e: Event, es: seq<Event>, line: int, isWrite: int)
    requires Reachable(s) && IsDevice(line, 0, isWrite) && e.call == WaitIo(DeviceIndex(line, 0, isWrite)) && Goes(s, e)
    requires Value(s, SemAddr(s.base, DeviceIndex(line, 0, isWrite))) <= 0 && IsRun(StateAfter(s, e), es)
    requires Given(StateAfter(s, e), es, SemAddr(s.base, DeviceIndex(line, 0, isWrite))) >
      |QueueAt(s.blocked, SemAddr(s.base, DeviceIndex(line, 0, isWrite)))|
    ensures var a, t, x := SemAddr(s.base, DeviceIndex(line, 0, isWrite)), StateAfter(s, e), s.current;
      var n := |QueueAt(s.blocked, a)|;
      && QueueAt(t.blocked, a) == QueueAt(s.blocked, a) + [x]
      && exists k :: LeavesAt(t, es, k, a, x) && Waitless(Run(t, es[..k + 1]), x)
                  && Given(t, es[..k], a) <= n && (NoKill(es) ==> Given(t, es[..k], a) == n)
  {
    hide Inv, Reachable, Run, IsRun, Leaves, Given, StateAfter, VerdictAt, Ahead, Waitless;
    var a := SemAddr(s.base, DeviceIndex(line, 0, isWrite));
    ReachableInv(s);
    GoesEnabled(s, e);
    SemaphoreLaws(s, e, a);
    StepInv(s, e);
    CurrentApart(s, a);
    AheadLast(QueueAt(s.blocked, a), s.current);
    ServedInTurn(StateAfter(s, e), es, a, s.current);
  }

  lemma {:induction false} AheadLast(q: seq<int>, x: int)
    requires x !in q
    ensures Ahead(q + [x], x) == |q|
  {
    if q != [] {
      assert (q + [x])[1..] == q[1..] + [x];
      AheadLast(q[1..], x);
    }
  }

  // The interrupts of the hardware are charged as the code computes it.
  ghost predicate Coded(es: seq<Event>) {
    forall k :: 0 <= k < |es| && es[k].call.Device? ==>
      exists line, bitMap, receiving ::
        DEVNOSEM <= line <= TERMINT && es[k].call.i == CodedIndex(line, bitMap, receiving)
  }

  // Whoever waits for a device other than device 0 of a line is never answered: it waits
  // until it is killed, whatever the device does.
  lemma {:induction false} NeverAnswered(s: Kernel, es: seq<Event>, line: int, device: int, isWrite: int, x: int)
    requires Inv(s) && IsRun(s, es) && Coded(es) && IsDevice(line, device, isWrite) && device != 0
    requires x in QueueAt(s.blocked, SemAddr(s.base, DeviceIndex(line, device, isWrite)))
    requires forall k :: 0 <= k < |es| ==> x !in Victims(es[k])
    ensures x in QueueAt(Run(s, es).blocked, SemAddr(s.base, DeviceIndex(line, device, isWrite)))
  {
    hide Inv, StateAfter, Goes, Victims, DeviceIndex, CodedIndex, Leaves;
    if es != [] {
      var f, e := es[..|es| - 1], es[|es| - 1];
      assert forall k :: 0 <= k < |f| ==> f[k] == es[k];
      NeverAnswered(s, f, line, device, isWrite, x);
      RunInv(s, f);
      RunBase(s, f);
      GoesEnabled(Run(s, f), e);
      NotForOthers(Run(s, f), e, line, device, isWrite, x);
      StaysQueued(Run(s, f), e, SemAddr(s.base, DeviceIndex(line, device, isWrite)), x);
    }
  }

  lemma NotForOthers(s: Kernel, e: Event, line: int, device: int, isWrite: int, x: int)
    requires Inv(s) && Enabled(s, e) && IsDevice(line, device, isWrite) && device != 0 && x !in Victims(e)
    requires e.call.Device? ==> exists l, bitMap, receiving ::
      DEVNOSEM <= l <= TERMINT && e.call.i == CodedIndex(l, bitMap, receiving)
    requires x in QueueAt(s.blocked, SemAddr(s.base, DeviceIndex(line, device, isWrite)))
    ensures var a := SemAddr(s.base, DeviceIndex(line, device, isWrite)); a in s.mem && !Leaves(s, e, a, x)
  {
    hide Inv, Victims, CodedIndex;
    DevicesDistinct(line, device, isWrite, line, device, isWrite);
    InvSized(s);
    SemInMem(s, DeviceIndex(line, device, isWrite));
    if e.call.Device? {
      var l, bitMap, receiving :| DEVNOSEM <= l <= TERMINT && e.call.i == CodedIndex(l, bitMap, receiving);
      InterruptIsFor(l, bitMap, receiving, line, device, isWrite);
    }
  }
}
