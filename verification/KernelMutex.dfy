// A semaphore that starts at one is a mutex: what the support level relies on.
module KernelMutex {
  import opened Lists
  import opened Links
  import opened AslLists
  import opened Kernels
  import opened KernelInvs
  import opened KernelSteps
  import opened KernelRuns
  import opened KernelTheorems
  import opened KernelSemaphores

  // Who is between a P and a V of one semaphore, and how many have died there.
  datatype Section = Section(inside: set<int>, lost: nat)

  // Who is inside after an entry: P lets its caller in or makes it wait, V lets it out and
  // the front of the queue in.
  ghost function Passed(c: Section, s: Kernel, e: Event, a: int): Section {
    match e.call {
      case WaitOn(b) =>
        if b == a && Value(s, a) > 0 then c.(inside := c.inside + {s.current}) else c
      case Signal(b) =>
        if b != a then c
        else
          var q := QueueAt(s.blocked, a);
          c.(inside := c.inside - {s.current} + if q == [] then {} else {q[0]})
      case Terminate(o) => Section(c.inside - Elems(o), c.lost + |c.inside * Elems(o)|)
      case _ => c
    }
  }

  // P comes before V: nobody inside calls P, nobody outside calls V, and SYS8 is for
  // devices.
  ghost predicate Proper(c: Section, s: Kernel, e: Event, a: int) {
    match e.call {
      case WaitOn(b) => b == a ==> s.current !in c.inside
      case Signal(b) => b == a ==> s.current in c.inside
      case WaitIo(i) => SemAddr(s.base, i) != a
      case _ => true
    }
  }

  ghost function SectionAt(c: Section, s: Kernel, es: seq<Event>, a: int): Section {
    if es == [] then c
    else
      var f := es[..|es| - 1];
      Passed(SectionAt(c, s, f, a), Run(s, f), es[|es| - 1], a)
  }

  ghost predicate ProperRun(c: Section, s: Kernel, es: seq<Event>, a: int) {
    forall k :: 0 <= k < |es| ==> Proper(SectionAt(c, s, es[..k], a), Run(s, es[..k]), es[k], a)
  }

  // The value counts who is inside, who died there and who waits.
  ghost predicate Balanced(c: Section, s: Kernel, a: int) {
    && a in s.mem && !InSem(s.base, a)
    && s.mem[a] == 1 - |c.inside| - c.lost - |QueueAt(s.blocked, a)|
    && forall x :: x in c.inside ==> Live(s, x) && x !in QueueAt(s.blocked, a)
  }

  // ------------------------------------------------- one entry

  // P.
  lemma PassedWait(c: Section, s: Kernel, e: Event, a: int)
    requires Inv(s) && Enabled(s, e) && Balanced(c, s, a) && e.call == WaitOn(a) && Proper(c, s, e, a)
    ensures Balanced(Passed(c, s, e, a), StateAfter(s, e), a)
  {
    hide Structure, Everywhere, Rooted, Counted, Scheduled;
    var t := EntryOf(s, e).s;
    SizedLike(s);
    CurrentApart(s, a);
    assert s.mem[a] > 0 ==> |c.inside + {s.current}| == |c.inside| + 1;
    if EntryOf(s, e).Reschedule? {
      ScheduledAt(t, e.tk, a);
    }
  }

  // V.
  lemma PassedSignal(c: Section, s: Kernel, e: Event, a: int)
    requires Inv(s) && Enabled(s, e) && Balanced(c, s, a) && e.call == Signal(a) && Proper(c, s, e, a)
    ensures Balanced(Passed(c, s, e, a), StateAfter(s, e), a)
  {
    hide Structure, Everywhere, Rooted, Counted, Minus, Running;
    var q := QueueAt(s.blocked, a);
    CurrentApart(s, a);
    assert |c.inside - {s.current}| == |c.inside| - 1;
    if q != [] {
      MinusFirst(q);
      FrontOnce(q);
      assert |c.inside - {s.current} + {q[0]}| == |c.inside|;
    }
  }

  // SYS2.
  lemma PassedKill(c: Section, s: Kernel, e: Event, a: int)
    requires Inv(s) && Enabled(s, e) && Balanced(c, s, a) && e.call.Terminate?
    ensures Balanced(Passed(c, s, e, a), StateAfter(s, e), a)
  {
    hide Inv, NoDup, Desc, Purged, Scheduled, Credit, SoftIn, Minus;
    var o := e.call.order;
    var v, t := Elems(o), Purged(s, o);
    TerminateEntry(s, e);
    SafeKill(s, e);
    InvSized(s);
    KillRight(s, o, v);
    KillExact(s, o, v);
    KillSpares(s, o, v);
    CreditQueue(s, v, a);
    SplitSet(c.inside, v);
    MinusElems(QueueAt(s.blocked, a), v);
    ScheduledAt(t, e.tk, a);
    PurgedBase(s, o);
  }

  lemma SafeKill(s: Kernel, e: Event)
    requires Enabled(s, e) && e.call.Terminate?
    ensures NobodyBehind(s, Elems(e.call.order))
  {
  }

  lemma PurgedBase(s: Kernel, o: seq<int>)
    ensures Purged(s, o).base == s.base
  {
    hide Minus;
  }

  lemma SplitSet(x: set<int>, v: set<int>)
    ensures |x - v| + |x * v| == |x|
  {
    assert x == (x - v) + (x * v);
  }

  lemma CreditQueue(s: Kernel, v: set<int>, a: int)
    requires Inv(s) && a in s.mem && !InSem(s.base, a)
    ensures |Minus(QueueAt(s.blocked, a), v)| == |QueueAt(s.blocked, a)| - Credit(s, v, a)
  {
    hide Within, Family, Tagged, Accounted, Counted, Rooted;
    MinusCard(QueueAt(s.blocked, a), v);
  }

  lemma PassedBalanced(c: Section, s: Kernel, e: Event, a: int)
    requires Inv(s) && Enabled(s, e) && Balanced(c, s, a) && Proper(c, s, e, a)
    ensures Balanced(Passed(c, s, e, a), StateAfter(s, e), a)
  {
    hide Inv, StateAfter, Live, Safe;
    if e.call == WaitOn(a) {
      PassedWait(c, s, e, a);
    } else if e.call == Signal(a) {
      PassedSignal(c, s, e, a);
    } else if e.call.Terminate? {
      PassedKill(c, s, e, a);
    } else {
      ElsewhereAt(s, e, a);
    }
  }

  // ------------------------------------------------- whole runs

  lemma {:induction false} RunBalanced(c: Section, s: Kernel, es: seq<Event>, a: int)
    requires Inv(s) && IsRun(s, es) && Balanced(c, s, a) && ProperRun(c, s, es, a)
    ensures Inv(Run(s, es)) && Balanced(SectionAt(c, s, es, a), Run(s, es), a)
  {
    hide Inv, StateAfter, Goes, Balanced, Proper, Passed;
    if es != [] {
      var f, e := es[..|es| - 1], es[|es| - 1];
      forall k | 0 <= k < |f|
        ensures Proper(SectionAt(c, s, f[..k], a), Run(s, f[..k]), f[k], a)
      {
        assert f[..k] == es[..k] && f[k] == es[k];
      }
      RunBalanced(c, s, f, a);
      assert Proper(SectionAt(c, s, es[..|es| - 1], a), Run(s, es[..|es| - 1]), es[|es| - 1], a);
      GoesEnabled(Run(s, f), e);
      PassedBalanced(SectionAt(c, s, f, a), Run(s, f), e, a);
      StepInv(Run(s, f), e);
    }
  }

  // In every run from main a semaphore outside sem that starts at one, and is used P
  // before V, has at most one process inside. If one dies inside nobody ever is again;
  // otherwise the section is empty exactly when the semaphore is at one.
  lemma OneInside(t: Kernel, tk: Ticks, es: seq<Event>, a: int)
    requires Initial(t) && IsRun(Scheduled(t, tk), es) && a in t.mem && !InSem(t.base, a) && t.mem[a] == 1
    requires ProperRun(Section({}, 0), Scheduled(t, tk), es, a)
    ensures var c, s := SectionAt(Section({}, 0), Scheduled(t, tk), es, a), Run(Scheduled(t, tk), es);
      && |c.inside| + c.lost <= 1 && a in s.mem
      && (forall x :: x in c.inside ==> Live(s, x))
      && (|c.inside| + c.lost == 0 <==> s.mem[a] == 1)
      && (QueueAt(s.blocked, a) != [] ==> |c.inside| + c.lost == 1)
  {
    hide Inv, IsRun, Run, Initial, IdleInv, ProperRun, SectionAt;
    InitialInv(t);
    InitialIdle(t);
    ScheduledInv(t, tk);
    StartsBalanced(t, tk, a);
    RunBalanced(Section({}, 0), Scheduled(t, tk), es, a);
    AccountAt(Run(Scheduled(t, tk), es), a);
  }

  lemma StartsBalanced(t: Kernel, tk: Ticks, a: int)
    requires Initial(t) && a in t.mem && !InSem(t.base, a) && t.mem[a] == 1
    ensures Balanced(Section({}, 0), Scheduled(t, tk), a)
  {
  }

  lemma AccountAt(s: Kernel, a: int)
    requires Inv(s) && a in s.mem && !InSem(s.base, a)
    ensures |QueueAt(s.blocked, a)| == Debt(s.mem[a])
  {
  }
}
