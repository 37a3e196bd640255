// The accounts of the semaphores over whole runs, with no discipline of use assumed: every
// value is what the calls made on it add up to.
module KernelLedger {
  import opened Lists
  import opened AslLists
  import opened Kernels
  import opened KernelInvs
  import opened KernelSteps
  import opened KernelRuns
  import opened KernelTheorems
  import opened KernelSemaphores

  // How many of the entries are a P on a, and how many a V.
  ghost function Taken(s: Kernel, es: seq<Event>, a: int): nat {
    if es == [] then 0
    else
      var f := es[..|es| - 1];
      Taken(s, f, a) + if TakesFrom(Run(s, f), es[|es| - 1], a) then 1 else 0
  }

  ghost function Given(s: Kernel, es: seq<Event>, a: int): nat {
    if es == [] then 0
    else
      var f := es[..|es| - 1];
      Given(s, f, a) + if GivesTo(Run(s, f), es[|es| - 1], a) then 1 else 0
  }

  // How many of the killed were waiting for a, a user semaphore.
  ghost function Refunded(s: Kernel, es: seq<Event>, a: int): nat {
    if es == [] then 0
    else
      var f := es[..|es| - 1];
      Refunded(s, f, a) + Refund(Run(s, f), es[|es| - 1], a)
  }

  // In every run every semaphore but the clock's has the value it began with, less the
  // P's, plus the V's, plus what kills give back; nothing is lost and nothing saturates.
  lemma {:induction false} RunLedger(s: Kernel, es: seq<Event>, a: int)
    requires Inv(s) && IsRun(s, es) && a in s.mem && a != SemAddr(s.base, CLOCK)
    ensures var t := Run(s, es);
      && a in t.mem && t.base == s.base
      && t.mem[a] == s.mem[a] - Taken(s, es, a) + Given(s, es, a) + Refunded(s, es, a)
  {
    hide Inv, StateAfter, Goes, Refund;
    if es != [] {
      var f, e := es[..|es| - 1], es[|es| - 1];
      RunLedger(s, f, a);
      RunInv(s, f);
      GoesEnabled(Run(s, f), e);
      SemaphoreLaws(Run(s, f), e, a);
    }
  }

  // So it is after main(), where the semaphores of sem start at nought. What is below
  // nought of a user semaphore is how many wait for it.
  lemma LedgerFromBoot(t: Kernel, tk: Ticks, es: seq<Event>, a: int)
    requires Initial(t) && IsRun(Scheduled(t, tk), es) && a in t.mem && a != SemAddr(t.base, CLOCK)
    ensures var b, s := Scheduled(t, tk), Run(Scheduled(t, tk), es);
      var start := if InSem(t.base, a) then 0 else t.mem[a];
      && a in s.mem && s.mem[a] == start - Taken(b, es, a) + Given(b, es, a) + Refunded(b, es, a)
      && (!InSem(s.base, a) ==> |QueueAt(s.blocked, a)| == Debt(s.mem[a]))
  {
    hide Inv, IsRun, Run, IdleInv, Taken, Given, Refunded;
    InitialInv(t);
    InitialIdle(t);
    ScheduledInv(t, tk);
    RunLedger(Scheduled(t, tk), es, a);
    RunInv(Scheduled(t, tk), es);
    QueueAccount(Run(Scheduled(t, tk), es), a);
  }

  // So no V is lost and none is made up: as many P's have come through as there have been
  // V's, on top of the value at the start, unless all have but those of the killed.
  lemma ComeThrough(t: Kernel, tk: Ticks, es: seq<Event>, a: int)
    requires Initial(t) && IsRun(Scheduled(t, tk), es) && a in t.mem && !InSem(t.base, a)
    ensures var b := Scheduled(t, tk);
      var asked, given := Taken(b, es, a) - Refunded(b, es, a), t.mem[a] + Given(b, es, a);
      asked - |QueueAt(Run(b, es).blocked, a)| == if given < asked then given else asked
  {
    hide Inv, Initial, IsRun, Run, Taken, Given, Refunded;
    OutsideSem(t.base, a);
    LedgerFromBoot(t, tk, es, a);
    RunBase(Scheduled(t, tk), es);
  }

  lemma OutsideSem(base: int, a: int)
    requires !InSem(base, a)
    ensures a != SemAddr(base, CLOCK)
  {
  }

  lemma QueueAccount(s: Kernel, a: int)
    requires Inv(s) && a in s.mem
    ensures !InSem(s.base, a) ==> |QueueAt(s.blocked, a)| == Debt(s.mem[a])
  {
  }

  // ------------------------------------------------- the semaphores of sem

  // How many of those who waited for a have been killed, since the clock's was last reset
  // if a is the clock's.
  ghost function Lost(s: Kernel, es: seq<Event>, a: int): nat {
    if es == [] then 0
    else
      var f := es[..|es| - 1];
      LostBy(Run(s, f), es[|es| - 1], a, Lost(s, f, a))
  }

  ghost function LostBy(s: Kernel, e: Event, a: int, lost: nat): nat {
    if Resets(s, e, a) then 0
    else lost + if e.call.Terminate? then |Elems(QueueAt(s.blocked, a)) * Elems(e.call.order)| else 0
  }

  // How many V's found nobody, less the P's that found the value above nought.
  ghost function Unmet(s: Kernel, es: seq<Event>, a: int): int {
    if es == [] then 0
    else
      var f := es[..|es| - 1];
      UnmetBy(Run(s, f), es[|es| - 1], a, Unmet(s, f, a))
  }

  ghost function UnmetBy(s: Kernel, e: Event, a: int, unmet: int): int {
    if Resets(s, e, a) then 0
    else if GivesTo(s, e, a) && QueueAt(s.blocked, a) == [] then unmet + 1
    else if TakesFrom(s, e, a) && Value(s, a) > 0 then unmet - 1
    else unmet
  }

  // Everybody who waits has taken one, and nobody else has: the value of a semaphore of
  // sem is minus those who wait, minus those who were killed waiting, plus what V's have
  // left.
  ghost predicate Even(s: Kernel, a: int, lost: nat, unmet: int) {
    a in s.mem && s.mem[a] == -|QueueAt(s.blocked, a)| - lost + unmet
  }

  lemma {:induction false} DeviceLedger(s: Kernel, es: seq<Event>, a: int)
    requires Inv(s) && IsRun(s, es) && InSem(s.base, a) && Even(s, a, 0, 0)
    ensures Even(Run(s, es), a, Lost(s, es, a), Unmet(s, es, a)) && Run(s, es).base == s.base
  {
    hide Inv, StateAfter, Goes, LostBy, UnmetBy, Even;
    if es != [] {
      var f := es[..|es| - 1];
      DeviceLedger(s, f, a);
      RunInv(s, f);
      GoesEnabled(Run(s, f), es[|es| - 1]);
      EvenStep(Run(s, f), es[|es| - 1], a, Lost(s, f, a), Unmet(s, f, a));
    } else {
      assert Lost(s, es, a) == 0 && Unmet(s, es, a) == 0;
    }
  }

  lemma EvenStep(s: Kernel, e: Event, a: int, lost: nat, unmet: int)
    requires Inv(s) && Possible(s, e) && InSem(s.base, a) && Even(s, a, lost, unmet)
    ensures Even(StateAfter(s, e), a, LostBy(s, e, a, lost), UnmetBy(s, e, a, unmet)) && StateAfter(s, e).base == s.base
  {
    hide Inv, StateAfter, Possible, Minus;
    SemaphoreLaws(s, e, a);
    QueueNoDup(s, a);
    if e.call.Terminate? {
      MinusCard(QueueAt(s.blocked, a), Elems(e.call.order));
    }
  }

  // In every run from main() the clock stands at minus those who wait for it and those
  // who were killed waiting since the last interval, plus the V's that have found nobody
  // since: an interrupt charged to it, or a SYS3.
  lemma ClockLaw(t: Kernel, tk: Ticks, es: seq<Event>)
    requires Initial(t) && IsRun(Scheduled(t, tk), es)
    ensures var b, s, a := Scheduled(t, tk), Run(Scheduled(t, tk), es), SemAddr(t.base, CLOCK);
      && a in s.mem && s.mem[a] == -|QueueAt(s.blocked, a)| - Lost(b, es, a) + Unmet(b, es, a)
      && s.mem[a] <= 0 && Unmet(b, es, a) >= 0
      && ((forall k :: 0 <= k < |es| ==> !GivesTo(Run(b, es[..k]), es[k], a)) ==> Unmet(b, es, a) == 0)
  {
    hide Inv, IsRun, Run, IdleInv, Lost, Unmet, GivesTo, SemArray;
    var a := SemAddr(t.base, CLOCK);
    InitialInv(t);
    InitialIdle(t);
    ScheduledInv(t, tk);
    StartsEven(t, tk, CLOCK);
    DeviceLedger(Scheduled(t, tk), es, a);
    ClockUnmet(Scheduled(t, tk), es);
    RunInv(Scheduled(t, tk), es);
    ClockNeverPositive(Run(Scheduled(t, tk), es));
  }

  lemma StartsEven(t: Kernel, tk: Ticks, i: int)
    requires Initial(t) && Inv(t) && 0 <= i < TOTALSEM
    ensures Even(Scheduled(t, tk), SemAddr(t.base, i), 0, 0) && InSem(t.base, SemAddr(t.base, i))
    ensures Scheduled(t, tk).base == t.base
  {
    hide Inv;
    InvSized(t);
    SemInMem(t, i);
  }

  lemma {:induction false} ClockUnmet(s: Kernel, es: seq<Event>)
    requires Inv(s) && IsRun(s, es)
    ensures var a := SemAddr(s.base, CLOCK);
      && Unmet(s, es, a) >= 0
      && ((forall k :: 0 <= k < |es| ==> !GivesTo(Run(s, es[..k]), es[k], a)) ==> Unmet(s, es, a) == 0)
  {
    hide Inv, StateAfter, Goes, Resets, TakesFrom, GivesTo;
    if es != [] {
      var f, e, a := es[..|es| - 1], es[|es| - 1], SemAddr(s.base, CLOCK);
      ClockUnmet(s, f);
      RunInv(s, f);
      RunBase(s, f);
      ClockNeverPositive(Run(s, f));
      if forall k :: 0 <= k < |es| ==> !GivesTo(Run(s, es[..k]), es[k], a) {
        forall k | 0 <= k < |f|
          ensures !GivesTo(Run(s, f[..k]), f[k], a)
        {
          assert f[..k] == es[..k] && f[k] == es[k];
        }
        assert !GivesTo(Run(s, es[..|f|]), es[|f|], a);
      }
    }
  }

  lemma {:induction false} RunBase(s: Kernel, es: seq<Event>)
    ensures Run(s, es).base == s.base
  {
    hide StateAfter;
    if es != [] {
      RunBase(s, es[..|es| - 1]);
      StepBase(Run(s, es[..|es| - 1]), es[|es| - 1]);
    }
  }

  lemma StepBase(s: Kernel, e: Event)
    ensures StateAfter(s, e).base == s.base
  {
    hide EntryOf;
    EntryBase(s, e);
  }

  // For the semaphores of the devices, in every run from main().
  lemma DevicesFromBoot(t: Kernel, tk: Ticks, es: seq<Event>, i: int)
    requires Initial(t) && IsRun(Scheduled(t, tk), es) && 0 <= i < CLOCK
    ensures var b, s, a := Scheduled(t, tk), Run(Scheduled(t, tk), es), SemAddr(t.base, i);
      && a in s.mem && s.mem[a] == -|QueueAt(s.blocked, a)| - Lost(b, es, a) + Unmet(b, es, a)
      && s.mem[a] == Given(b, es, a) - Taken(b, es, a)
  {
    hide Inv, IsRun, Run, IdleInv, Lost, Unmet, Taken, Given, SemArray;
    InitialInv(t);
    InitialIdle(t);
    ScheduledInv(t, tk);
    StartsEven(t, tk, i);
    DeviceLedger(Scheduled(t, tk), es, SemAddr(t.base, i));
    RunLedger(Scheduled(t, tk), es, SemAddr(t.base, i));
    NoRefund(Scheduled(t, tk), es, SemAddr(t.base, i));
  }

  // A kill gives nothing back to sem.
  lemma {:induction false} NoRefund(s: Kernel, es: seq<Event>, a: int)
    requires InSem(s.base, a)
    ensures Refunded(s, es, a) == 0
  {
    hide StateAfter;
    if es != [] {
      NoRefund(s, es[..|es| - 1], a);
      RunBase(s, es[..|es| - 1]);
    }
  }
}
