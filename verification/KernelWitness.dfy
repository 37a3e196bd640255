// Runs from main() on which the code falls short: a new process takes over the bill of a
// dead one, a drain loop does not end, a device is never answered for, and system calls
// that are not safe.
module KernelWitness {
  import opened Lists
  import opened Links
  import opened AslLists
  import opened Kernels
  import opened KernelInvs
  import opened KernelSteps
  import opened KernelRuns
  import opened KernelTheorems
  import opened KernelTime
  import opened KernelFairness
  import opened KernelWaiting

  // Two blocks, no user semaphores, and no bills.
  ghost function TwoBlocks(): Kernel {
    Kernel(4, [1], [0], map[], NIL, [NIL, NIL], [NULL_ADDR, NULL_ADDR], [0, 0], [[], []],
           SemArray(4, TOTALSEM), 1, 0, 0, 0, [0, 0], 1, 0)
  }

  // Everything in an entry happens at one time.
  ghost function At(n: int): Ticks {
    Ticks(n, [], n, n, n)
  }

  lemma TwoBlocksInitial()
    ensures Initial(TwoBlocks()) && forall p :: TimeOf(TwoBlocks(), p) == 0
  {
    SemArrayAt(4, TOTALSEM, 4);
    forall a | a in SemArray(4, TOTALSEM)
      ensures Inner(a)
    {
      SemArrayAt(4, TOTALSEM, a);
    }
  }

  lemma RunMore(s: Kernel, es: seq<Event>, e: Event)
    requires IsRun(s, es) && Goes(Run(s, es), e)
    ensures IsRun(s, es + [e]) && Run(s, es + [e]) == StateAfter(Run(s, es), e)
  {
    assert (es + [e])[..|es|] == es;
  }

  lemma ReachMore(s: Kernel, e: Event)
    requires Reachable(s) && Goes(s, e)
    ensures Reachable(StateAfter(s, e))
  {
    hide Initial, Scheduled, IsRun, Run, StateAfter, Goes;
    var t, tk, es :| Initial(t) && IsRun(Scheduled(t, tk), es) && s == Run(Scheduled(t, tk), es);
    RunMore(Scheduled(t, tk), es, e);
  }

  lemma ReachStart(t: Kernel, tk: Ticks)
    requires Initial(t)
    ensures Reachable(Scheduled(t, tk))
  {
    assert IsRun(Scheduled(t, tk), []) && Run(Scheduled(t, tk), []) == Scheduled(t, tk);
  }

  // What matters of a state of that run.
  ghost predicate Looks(s: Kernel, free: seq<int>, ready: seq<int>, current: int, now: int) {
    && s.free == free && s.ready == ready && s.current == current && s.time == [0, 0]
    && s.todStarted == 0 && s.now == now && |s.parent| == |s.birth| == |s.kids| == |s.semAdd| == 2 && s.kids[1] == []
  }

  lemma CreateSecond(s: Kernel)
    requires Looks(s, [1], [], 0, 0)
    ensures var e := Event(Create, At(0)); Goes(s, e) && Looks(StateAfter(s, e), [], [1], 0, 0)
  {
  }

  lemma PreemptFirst(s: Kernel)
    requires Looks(s, [], [1], 0, 0)
    ensures var e := Event(Timer, At(0)); Goes(s, e) && Looks(StateAfter(s, e), [], [0], 1, 0)
  {
    assert EntryOf(s, Event(Timer, At(0))).s.ready == [1, 0];
  }

  lemma KillSecond(s: Kernel)
    requires Reachable(s) && Looks(s, [], [0], 1, 0)
    ensures var e := Event(Terminate([1]), At(5));
      var t := StateAfter(s, e);
      Goes(s, e) && t.free == [1] && t.current == 0 && t.time == [0, 5] && t.now == 5 && |t.birth| == |t.parent| == 2
  {
    hide Reachable, Desc, PurgedQueues, PurgedKids, Credited, Minus;
    SecondAlone(s);
    SecondNotBehind(s);
    KeepsFirst();
  }

  lemma SecondNotBehind(c: Kernel)
    requires Reachable(c) && c.current == 1 && Sized(c)
    ensures NobodyBehind(c, Elems([1]))
  {
    hide Reachable, Structure;
    ReachableInv(c);
    assert forall x :: x in Elems([1]) ==> x == 1;
  }

  lemma KeepsFirst()
    ensures Minus([0], Elems([1])) == [0]
  {
    MinusNone([0], Elems([1]));
  }

  lemma SecondAlone(c: Kernel)
    requires Reachable(c) && c.current == 1 && |c.kids| == 2 && c.kids[1] == []
    ensures Sized(c) && Desc(c, 1) == {1} == Elems([1]) && NoDup([1])
  {
    hide Reachable, Desc;
    ReachableInv(c);
    SecondDesc(c);
  }

  lemma SecondDesc(c: Kernel)
    requires Inv(c) && c.current == 1 && |c.kids| == 2 && c.kids[1] == []
    ensures Desc(c, 1) == {1}
  {
    DescSelf(c, 1);
    forall x | x in Desc(c, 1)
      ensures x == 1
    {
      DescLeaf(c, 1, x);
    }
  }

  // The first process runs; the second is created, gets its turn and dies after five
  // ticks. The next to be created has five on its bill before it has run at all.
  lemma BillHandedOn() returns (s: Kernel)
    ensures Reachable(s) && s.free != [] && s.current != NIL && Goes(s, Event(Create, At(5)))
    ensures Owed(StateAfter(s, Event(Create, At(5))), s.free[0]) == 5
  {
    hide Reachable, Initial, Goes;
    TwoBlocksInitial();
    ReachStart(TwoBlocks(), At(0));
    s := Scheduled(TwoBlocks(), At(0));
    CreateSecond(s);
    s := Onward(s, Event(Create, At(0)));
    PreemptFirst(s);
    s := Onward(s, Event(Timer, At(0)));
    KillSecond(s);
    s := Onward(s, Event(Terminate([1]), At(5)));
    NewbornOwes(s);
  }

  lemma Onward(s: Kernel, e: Event) returns (t: Kernel)
    requires Reachable(s) && Goes(s, e)
    ensures Reachable(t) && t == StateAfter(s, e)
  {
    hide Reachable, Goes, StateAfter;
    ReachMore(s, e);
    t := StateAfter(s, e);
  }

  lemma NewbornOwes(s: Kernel)
    requires s.free == [1] && s.current == 0 && s.time == [0, 5] && s.now == 5 && |s.birth| == |s.parent|
    ensures var e := Event(Create, At(5)); Goes(s, e) && Owed(StateAfter(s, e), 1) == 5
  {
  }

  // ------------------------------------------------- three blocks, two semaphores

  // One semaphore just behind sem, one further on.
  const BEHIND := 200
  const ABOVE := 400

  ghost function Words(): map<int, int> {
    SemArray(4, TOTALSEM)[BEHIND := 0][ABOVE := 0]
  }

  ghost function ThreeBlocks(): Kernel {
    Kernel(4, [1, 2], [0], map[], NIL, [NIL, NIL, NIL], [NULL_ADDR, NULL_ADDR, NULL_ADDR], [0, 0, 0], [[], [], []],
           Words(), 1, 0, 0, 0, [0, 0, 0], 1, 0)
  }

  lemma ThreeBlocksInitial()
    ensures Initial(ThreeBlocks()) && BEHIND == SemAddr(4, TOTALSEM) && ABOVE > SemAddr(4, CLOCK)
  {
    SemArrayAt(4, TOTALSEM, 4);
    forall a | a in Words()
      ensures Inner(a) && (InSem(4, a) ==> a in SemArray(4, TOTALSEM) && Words()[a] == 0) && Words()[a] == 0
    {
      SemArrayAt(4, TOTALSEM, a);
    }
  }

  lemma WordsAt()
    ensures BEHIND in Words() && Words()[BEHIND] == 0 && ABOVE in Words() && Words()[ABOVE] == 0
    ensures SemAddr(4, 0) in Words() && Words()[SemAddr(4, 0)] == 0
    ensures SemAddr(4, CLOCK) in Words() && Words()[SemAddr(4, CLOCK)] == 0
  {
    SemArrayAt(4, TOTALSEM, 4);
  }

  // Nobody has blocked yet.
  ghost predicate Calm(s: Kernel, free: seq<int>, ready: seq<int>, current: int, kids: seq<seq<int>>) {
    && s.base == 4 && s.mem == Words() && s.blocked == map[] && s.softBlockCount == 0 && s.processCount == 3 - |free|
    && s.semAdd == [NULL_ADDR, NULL_ADDR, NULL_ADDR] && s.now == 0 && s.first == 0
    && s.free == free && s.ready == ready && s.current == current && s.kids == kids
    && |s.parent| == |s.birth| == |s.time| == 3
  }

  lemma Start() returns (s: Kernel)
    ensures Reachable(s) && Calm(s, [1, 2], [], 0, [[], [], []])
  {
    ThreeBlocksInitial();
    ReachStart(ThreeBlocks(), At(0));
    s := Scheduled(ThreeBlocks(), At(0));
  }

  // SYS1.
  lemma Beget(s: Kernel, p: int, free: seq<int>, ready: seq<int>, q: int, kids: seq<seq<int>>,
              more: seq<seq<int>>) returns (t: Kernel)
    requires Reachable(s) && Calm(s, [p] + free, ready, q, kids) && 0 <= p < 3 && 0 <= q < 3 && p != q
    requires |kids| == |more| == 3 && kids[p] == more[p] == [] && kids[q] == [] && more[q] == [p]
    requires forall i :: 0 <= i < 3 && i != q ==> more[i] == kids[i]
    ensures Reachable(t) && Calm(t, free, ready + [p], q, more)
  {
    hide Reachable;
    assert s.free[1..] == free && [p] + kids[q] == more[q];
    assert kids[p := []][q := [p] + kids[q]] == more;
    assert Goes(s, Event(Create, At(0)));
    t := Onward(s, Event(Create, At(0)));
  }

  lemma Preempt(s: Kernel, free: seq<int>, p: int, ready: seq<int>, q: int, kids: seq<seq<int>>) returns (t: Kernel)
    requires Reachable(s) && Calm(s, free, [p] + ready, q, kids) && q != NIL
    ensures Reachable(t) && Calm(t, free, ready + [q], p, kids)
  {
    hide Reachable;
    var e := Event(Timer, At(0));
    assert EntryOf(s, e).s.ready == [p] + (ready + [q]);
    assert Goes(s, e);
    t := Onward(s, e);
  }

  // SYS4 on a user semaphore at zero, with somebody ready.
  lemma WaitAt(s: Kernel, a: int, free: seq<int>, p: int, ready: seq<int>, q: int, kids: seq<seq<int>>)
      returns (t: Kernel)
    requires Reachable(s) && Calm(s, free, [p] + ready, q, kids) && 0 <= q < 3 && (a == BEHIND || a == ABOVE)
    ensures Reachable(t) && t.base == 4 && t.blocked == map[a := [q]] && t.mem == Words()[a := -1]
    ensures t.current == p && t.ready == ready && t.free == free && t.kids == kids && t.now == 0 && t.first == 0
    ensures t.softBlockCount == 0 && t.processCount == 3 - |free| && |t.parent| == |t.birth| == 3
    ensures t.semAdd == [NULL_ADDR, NULL_ADDR, NULL_ADDR][q := a]
  {
    hide Reachable;
    WordsAt();
    var e := Event(WaitOn(a), At(0));
    assert QueueAt(s.blocked, a) + [q] == [q];
    assert Goes(s, e);
    t := Onward(s, e);
  }

  // ------------------------------------------------- a drain loop without end

  // The first process waits for a semaphore above the clock's; the next interval
  // interrupt never returns.
  lemma DrainNeverEnds() returns (s: Kernel)
    ensures Reachable(s) && !DrainEnds(s) && s.current != NIL
  {
    hide Reachable;
    var a := Start();
    var b := Beget(a, 1, [2], [], 0, [[], [], []], [[1], [], []]);
    s := WaitAt(b, ABOVE, [2], 1, [], 0, [[1], [], []]);
    assert ABOVE in s.blocked;
  }

  // ------------------------------------------------- calls that are not safe

  // SYS4 on a device's semaphore: the process waits for a device, but the machine panics.
  lemma UnsafeWait() returns (s: Kernel, e: Event)
    ensures Reachable(s) && Possible(s, e) && e.call.WaitOn? && !Safe(s, e) && !Inv(StateAfter(s, e))
    ensures VerdictAt(s, e) == Panic && WaitsSoftly(StateAfter(s, e), s.current)
  {
    hide Reachable, Inv;
    s := Start();
    WordsAt();
    e := Event(WaitOn(SemAddr(4, 0)), At(0));
    assert Possible(s, e) && !Safe(s, e);
    ReachableInv(s);
    StepExact(s, e);
  }

  // SYS3 on a device's semaphore that somebody waits for: nobody waits any more, but
  // softBlockCount says one does.
  lemma UnsafeSignal() returns (s: Kernel, e: Event)
    ensures Reachable(s) && Possible(s, e) && e.call.Signal? && !Safe(s, e) && !Inv(StateAfter(s, e))
    ensures var t := StateAfter(s, e); t.softBlockCount == 1 && t.blocked == map[]
  {
    hide Reachable, Inv;
    var a := Start();
    var b := Beget(a, 1, [2], [], 0, [[], [], []], [[1], [], []]);
    s := WaitForDevice(b, 0);
    e := Event(Signal(SemAddr(4, 0)), At(0));
    assert Possible(s, e) && !Safe(s, e);
    ReachableInv(s);
    StepExact(s, e);
    assert Minus([0], {0}) == [];
  }

  // SYS8 of the first process on a device's semaphore.
  lemma WaitForDevice(b: Kernel, i: nat) returns (s: Kernel)
    requires Reachable(b) && Calm(b, [2], [1], 0, [[1], [], []]) && i < CLOCK
    ensures Reachable(s) && s.base == 4 && s.blocked == map[SemAddr(4, i) := [0]] && s.current == 1 && s.now == 0
    ensures SemAddr(4, i) in s.mem && s.mem[SemAddr(4, i)] == -1 && s.softBlockCount == 1
    ensures |s.parent| == |s.birth| == 3
  {
    hide Reachable;
    SemArrayAt(4, TOTALSEM, SemAddr(4, i));
    var e := Event(WaitIo(i), At(0));
    assert QueueAt(b.blocked, SemAddr(4, i)) + [0] == [0];
    assert Goes(b, e);
    s := Onward(b, e);
  }

  // ------------------------------------------------- a device that nobody answers for

  // The first process waits for disk 1, and whatever interrupts there are, it waits on.
  lemma NobodyAnswers() returns (s: Kernel, a: int)
    ensures Reachable(s) && a == SemAddr(s.base, DeviceIndex(3, 1, 0)) && QueueAt(s.blocked, a) == [0]
    ensures forall es :: IsRun(s, es) && Coded(es) && (forall k :: 0 <= k < |es| ==> 0 !in Victims(es[k])) ==>
      0 in QueueAt(Run(s, es).blocked, a)
  {
    hide Reachable, Inv, IsRun, Run, Coded, Victims;
    var b := Start();
    var c := Beget(b, 1, [2], [], 0, [[], [], []], [[1], [], []]);
    s := WaitForDevice(c, 1);
    a := SemAddr(4, 1);
    ReachableInv(s);
    forall es | IsRun(s, es) && Coded(es) && forall k :: 0 <= k < |es| ==> 0 !in Victims(es[k])
      ensures 0 in QueueAt(Run(s, es).blocked, a)
    {
      NeverAnswered(s, es, 3, 1, 0, 0);
    }
  }

  // ------------------------------------------------- a kill that is not safe

  // The first process has a child and a grandchild. The grandchild waits for the semaphore
  // just behind sem, and the child terminates.
  lemma BeforeKill() returns (s: Kernel)
    ensures Reachable(s) && s.base == 4 && s.blocked == map[BEHIND := [2]] && s.mem == Words()[BEHIND := -1]
    ensures s.current == 1 && s.ready == [0] && s.free == [] && s.kids == [[1], [2], []] && s.now == 0 && s.first == 0
    ensures s.softBlockCount == 0 && s.processCount == 3 && |s.parent| == |s.birth| == 3
    ensures s.semAdd == [NULL_ADDR, NULL_ADDR, BEHIND]
  {
    hide Reachable;
    var a := Start();
    var b := Beget(a, 1, [2], [], 0, [[], [], []], [[1], [], []]);
    var c := Preempt(b, [2], 1, [], 0, [[1], [], []]);
    var d := Beget(c, 2, [], [0], 1, [[1], [], []], [[1], [2], []]);
    var e := Preempt(d, [], 0, [2], 1, [[1], [2], []]);
    var f := Preempt(e, [], 2, [1], 0, [[1], [2], []]);
    s := WaitAt(f, BEHIND, [], 1, [0], 2, [[1], [2], []]);
  }

  lemma ChildAndGrandchild(s: Kernel)
    requires Reachable(s) && s.current == 1 && s.kids == [[1], [2], []]
    requires s.first == 0 && s.free == [] && |s.parent| == 3
    ensures Sized(s) && Desc(s, 1) == {1, 2} == Elems([1, 2]) && NoDup([1, 2])
  {
    hide Reachable, Desc, Inv;
    ReachableInv(s);
    InvSized(s);
    OneAndTwo(s);
  }

  lemma OneAndTwo(s: Kernel)
    requires Inv(s) && s.current == 1 && s.kids == [[1], [2], []] && s.first == 0 && s.free == [] && |s.parent| == 3
    ensures Desc(s, 1) == {1, 2}
  {
    hide Accounted, Counted, Located, Addressed;
    assert Live(s, 1) && 2 in s.kids[1] && Live(s, 2) && s.parent[2] == 1;
    NoOrphans(s, 1);
    NoCycle(s, 1, 0);
    DescSelf(s, 1);
    assert Anc(s.parent, s.birth, 1, 2);
  }

  // The kill takes one off softBlockCount that was never counted. The first process is
  // alone then, and when it waits for the clock the machine panics.
  lemma KillBehind() returns (s: Kernel, e: Event)
    ensures Reachable(s) && Possible(s, e) && e.call.Terminate? && !Safe(s, e)
    ensures var t, f := StateAfter(s, e), Event(WaitClock, At(0));
      && t.softBlockCount == -1 && Live(t, 0) && t.current == 0 && BEHIND in t.mem && t.mem[BEHIND] == -1
      && Possible(t, f) && VerdictAt(t, f) == Panic && WaitsSoftly(StateAfter(t, f), 0)
  {
    hide Reachable, Desc;
    s := BeforeKill();
    ChildAndGrandchild(s);
    e := Event(Terminate([1, 2]), At(0));
    assert 2 in Elems([1, 2]) && AddrOf(s, 2) == SemAddr(s.base, TOTALSEM);
    KilledBehind(s);
    PanicsWaiting(StateAfter(s, e));
  }

  lemma KilledBehind(s: Kernel)
    requires Sized(s) && s.base == 4 && s.mem == Words()[BEHIND := -1] && s.current == 1
    requires s.ready == [0] && s.free == [] && s.softBlockCount == 0 && s.processCount == 3 && |s.parent| == 3
    requires s.semAdd == [NULL_ADDR, NULL_ADDR, BEHIND]
    ensures var t := Scheduled(Purged(s, [1, 2]), At(0));
      && t.softBlockCount == -1 && t.processCount == 1 && t.current == 0 && t.ready == [] && t.free == [1, 2]
      && t.base == 4 && t.now == 0 && |t.parent| == |t.birth| == |t.semAdd| == 3 && t.semAdd[0] == NULL_ADDR
      && BEHIND in t.mem && t.mem[BEHIND] == -1 && SemAddr(4, CLOCK) in t.mem && t.mem[SemAddr(4, CLOCK)] == 0
  {
    hide PurgedQueues, PurgedKids, Minus;
    WordsAt();
    assert Elems([1, 2]) == {1, 2};
    MinusNone([0], {1, 2});
    assert CodedSoftIn(4, s.semAdd, {1, 2}) == {2};
  }

  lemma PanicsWaiting(t: Kernel)
    requires t.softBlockCount == -1 && t.processCount == 1 && t.current == 0 && t.ready == [] && t.free == [1, 2]
    requires t.base == 4 && t.now == 0 && |t.parent| == |t.birth| == |t.semAdd| == 3
    requires SemAddr(4, CLOCK) in t.mem && t.mem[SemAddr(4, CLOCK)] == 0
    ensures var f := Event(WaitClock, At(0));
      Possible(t, f) && VerdictAt(t, f) == Panic && WaitsSoftly(StateAfter(t, f), 0)
  {
  }
}
