// What the invariant gives: scheduler verdicts, no orphans, exact kills and when they are
// right, accounts.
module KernelTheorems {
  import opened Lists
  import opened Links
  import opened AslLists
  import opened Kernels
  import opened KernelInvs
  import opened KillSpecs
  import opened KernelSteps
  import opened KernelRuns

  // ------------------------------------------------- every run from main()

  lemma AlwaysInv(t: Kernel, tk: Ticks, es: seq<Event>)
    requires Initial(t) && IsRun(Scheduled(t, tk), es)
    ensures Inv(Run(Scheduled(t, tk), es))
  {
    hide Inv, Initial, Scheduled, IsRun, Run;
    InitialInv(t);
    InitialIdle(t);
    ScheduledInv(t, tk);
    RunInv(Scheduled(t, tk), es);
  }

  // What the machine can get to after main().
  ghost predicate Reachable(s: Kernel) {
    exists t, tk, es :: Initial(t) && IsRun(Scheduled(t, tk), es) && s == Run(Scheduled(t, tk), es)
  }

  lemma ReachableInv(s: Kernel)
    requires Reachable(s)
    ensures Inv(s)
  {
    hide Inv, Initial, Scheduled, IsRun, Run;
    var t, tk, es :| Initial(t) && IsRun(Scheduled(t, tk), es) && s == Run(Scheduled(t, tk), es);
    AlwaysInv(t, tk, es);
  }

  // A block is in exactly one place, and a live one that waits is in the queue of the
  // semaphore whose address it carries.
  ghost function Places(s: Kernel, x: int): nat {
    (if x in s.free then 1 else 0) + (if x in s.ready then 1 else 0) + (if x == s.current then 1 else 0)
    + (if exists a :: a in s.blocked && x in s.blocked[a] then 1 else 0)
  }

  lemma OnePlace(s: Kernel, x: int)
    requires Inv(s) && Block?(s, x)
    ensures Places(s, x) == 1
    ensures forall a :: a in s.blocked && x in s.blocked[a] <==> a != NULL_ADDR && Live(s, x) && s.semAdd[x] == a
  {
    hide NoDup, Within, Family, Accounted, Counted, Rooted;
    StructureApart(s);
    forall a
      ensures a in s.blocked && x in s.blocked[a] <==> a != NULL_ADDR && Live(s, x) && s.semAdd[x] == a
    {
    }
    if Live(s, x) && s.semAdd[x] != NULL_ADDR {
      assert s.semAdd[x] in s.blocked && x in s.blocked[s.semAdd[x]];
    }
  }

  // ------------------------------------------------- the scheduler's verdicts

  // x waits for a device or the clock.
  ghost predicate WaitsSoftly(s: Kernel, x: int) {
    Live(s, x) && InSem(s.base, AddrOf(s, x))
  }

  // x waits for a semaphore outside sem.
  ghost predicate WaitsHard(s: Kernel, x: int) {
    Live(s, x) && AddrOf(s, x) in s.mem && !InSem(s.base, AddrOf(s, x))
  }

  lemma FullSet(v: set<int>, n: nat)
    requires forall x :: x in v ==> 0 <= x < n
    ensures |v| <= n && (|v| == n <==> forall x :: 0 <= x < n ==> x in v)
  {
    assert v <= Below(n);
    SubsetCard(v, Below(n));
    if forall x :: 0 <= x < n ==> x in v {
      assert v == Below(n);
    }
  }

  lemma FreeCount(s: Kernel)
    requires Sized(s) && Located(s)
    ensures |s.parent| - |s.free| == 0 <==> forall x :: Block?(s, x) ==> x in s.free
    ensures |s.parent| - |s.free| >= 0
  {
    hide Tagged;
    ElemsCard(s.free);
    FullSet(Elems(s.free), |s.parent|);
    assert forall x :: x in Elems(s.free) <==> x in s.free;
  }

  lemma IdleCounts(s: Kernel)
    requires IdleInv(s)
    ensures Sized(s) && s.processCount >= 0 && s.softBlockCount >= 0
    ensures s.processCount == 0 <==> forall x :: Block?(s, x) ==> x in s.free
    ensures s.softBlockCount == 0 <==> forall x :: Block?(s, x) ==> !WaitsSoftly(s, x)
    ensures s.ready == [] ==> forall x :: Live(s, x) ==> WaitsSoftly(s, x) || WaitsHard(s, x)
  {
    hide NoDup, Within, Family, Accounted, Rooted;
    var i := s.(current := NIL);
    FreeCount(i);
    assert forall x :: x in SoftBlocked(i) <==> Block?(s, x) && WaitsSoftly(s, x);
    EmptyOrNot(SoftBlocked(i));
    if s.ready == [] {
      forall x | Live(s, x)
        ensures WaitsSoftly(s, x) || WaitsHard(s, x)
      {
        assert Live(i, x) && i.semAdd[x] != NULL_ADDR;
      }
    }
  }

  // Wherever scheduler() is called in a run, its verdict is exact.
  lemma VerdictExact(s: Kernel)
    requires IdleInv(s)
    ensures VerdictOf(s) == Dispatch <==> s.ready != []
    ensures VerdictOf(s) == Halt <==> forall x :: Block?(s, x) ==> !Live(s, x)
    ensures VerdictOf(s) == Panic <==>
      s.ready == [] && (exists x :: Live(s, x)) && forall x :: Live(s, x) ==> WaitsHard(s, x)
    ensures VerdictOf(s) == Wait <==> s.ready == [] && exists x :: WaitsSoftly(s, x)
    ensures VerdictOf(s) != Fall
  {
    hide IdleInv;
    IdleCounts(s);
    ReadyLive(s);
    HardNotSoft(s);
  }

  // So it is in every run: the machine halts if and only if nobody lives, panics if and
  // only if everybody waits for a user semaphore, and waits if and only if nobody is
  // ready but somebody waits for a device or the clock.
  lemma VerdictsInRuns(s: Kernel, e: Event)
    requires Reachable(s) && Enabled(s, e) && EntryOf(s, e).Reschedule?
    ensures var m, v := EntryOf(s, e).s, VerdictAt(s, e);
      && (v == Dispatch <==> m.ready != [])
      && (v == Halt <==> forall x :: Block?(m, x) ==> !Live(m, x))
      && (v == Panic <==> m.ready == [] && (exists x :: Live(m, x)) && forall x :: Live(m, x) ==> WaitsHard(m, x))
      && (v == Wait <==> m.ready == [] && exists x :: WaitsSoftly(m, x))
      && v != Fall
  {
    hide Inv, IdleInv, Reachable, Enabled, EntryOf, WaitsHard, WaitsSoftly, Live;
    ReachableInv(s);
    EntryInv(s, e);
    VerdictExact(EntryOf(s, e).s);
  }

  lemma ReadyLive(s: Kernel)
    requires IdleInv(s)
    ensures s.ready != [] ==> Live(s, s.ready[0])
  {
    hide NoDup, Family, Accounted, Rooted, Counted;
    if s.ready != [] {
      assert s.ready[0] in s.ready;
    }
  }

  lemma HardNotSoft(s: Kernel)
    ensures forall x :: WaitsHard(s, x) ==> !WaitsSoftly(s, x)
  {
  }

  // ------------------------------------------------- no orphans

  lemma NoOrphans(s: Kernel, x: int)
    requires Inv(s) && Live(s, x)
    ensures Live(s, s.first) && x in Desc(s, s.first)
  {
    FromFirst(s, x);
  }

  // When the first process terminates, everything does, and the machine halts.
  lemma FirstHalts(s: Kernel, o: seq<int>)
    requires Inv(s) && s.current != NIL && s.current == s.first
    requires NoDup(o) && Elems(o) == Desc(s, s.current)
    ensures VerdictOf(Purged(s, o)) == Halt && forall x :: !Live(Purged(s, o), x)
  {
    hide Inv, Purged, Desc, NoDup, Structure, Located, Live;
    var t := Purged(s, o);
    VictimsClosed(s, o);
    InvSized(s);
    PurgeStructure(s, o);
    PurgedFields(s, o);
    PurgedCounts(s, o);
    StructureLists(t);
    forall x | Live(s, x)
      ensures x in Elems(o)
    {
      NoOrphans(s, x);
    }
    FreeCount(t);
    AllFree(t);
    NoneReady(t);
  }

  lemma PurgedCounts(s: Kernel, o: seq<int>)
    requires Inv(s)
    ensures var t := Purged(s, o); t.processCount == |t.parent| - |t.free|
  {
    hide Minus, PurgedQueues, PurgedKids, Credited;
  }

  lemma StructureLists(s: Kernel)
    requires Structure(s)
    ensures Sized(s) && Located(s) && Within(s.ready, |s.parent|) && forall x :: x in s.ready ==> Live(s, x)
  {
    hide NoDup, Tagged, Family;
  }

  lemma AllFree(s: Kernel)
    requires forall x :: !Live(s, x)
    ensures forall x :: Block?(s, x) ==> x in s.free
  {
    assert forall x :: Block?(s, x) && x !in s.free ==> Live(s, x);
  }

  lemma NoneReady(s: Kernel)
    requires forall x :: x in s.ready ==> Live(s, x)
    requires forall x :: !Live(s, x)
    ensures s.ready == []
  {
    SomeOrNone(s.ready);
  }

  lemma SomeOrNone(q: seq<int>)
    ensures q == [] || exists x :: x in q
  {
    if q != [] {
      var x := q[0];
      assert x in q;
    }
  }

  lemma InvSized(s: Kernel)
    requires Inv(s)
    ensures Sized(s) && Structure(s)
  {
  }

  lemma OrphansInRuns(s: Kernel, x: int, y: int)
    requires Reachable(s) && Live(s, x) && Live(s, y)
    ensures Sized(s) && x in Desc(s, s.first) && !(x != y && x in Desc(s, y) && y in Desc(s, x))
  {
    hide Reachable, Inv, Desc, Anc;
    ReachableInv(s);
    InvSized(s);
    NoOrphans(s, x);
    if x != y {
      NoCycle(s, x, y);
    }
  }

  lemma NoCycle(s: Kernel, x: int, y: int)
    requires Inv(s) && x != y
    ensures x in Desc(s, y) ==> y !in Desc(s, x)
  {
    hide NoDup, Within, Located, Accounted, Counted, Addressed, Rooted;
    if x in Desc(s, y) {
      AncOlder(s, y, x);
    }
    if y in Desc(s, x) {
      AncOlder(s, x, y);
    }
  }

  // Nothing but a kill takes a process off processCount.
  lemma CountStays(s: Kernel, e: Event)
    requires EntryOf(s, e).Reschedule? && !e.call.Terminate?
    ensures EntryOf(s, e).s.processCount == s.processCount
  {
    hide Minus, Drained;
    if e.call.Interval? {
      DrainedCount(s, e.tk, 0);
    }
  }

  lemma {:induction false} DrainedCount(s: Kernel, tk: Ticks, k: nat)
    ensures Drained(s, tk, k).processCount == s.processCount
    decreases |QueueAt(s.blocked, SemAddr(s.base, CLOCK))|
  {
    hide Minus, Unblock;
    if QueueAt(s.blocked, SemAddr(s.base, CLOCK)) != [] {
      DrainedStep(s, tk, k);
      DrainedCount(WokenByClock(s, tk, k), tk, k + 1);
    }
  }

  // In every run, safe or not in its last entry: as long as somebody lives the machine
  // halts if and only if the first process terminates.
  lemma HaltsExactly(s: Kernel, e: Event, y: int)
    requires Reachable(s) && Possible(s, e) && EntryOf(s, e).Reschedule? && Live(s, y)
    ensures VerdictAt(s, e) == Halt <==> e.call.Terminate? && s.current == s.first
  {
    hide Reachable, Inv, Structure, Located, Purged, Desc, NoDup, Live, EntryOf, Safe;
    ReachableInv(s);
    InvSized(s);
    StructureLists(s);
    if !e.call.Terminate? {
      CountStays(s, e);
      LivesCount(s, y);
    } else if s.current == s.first {
      TerminateEntry(s, e);
      FirstHalts(s, e.call.order);
    } else {
      TerminateEntry(s, e);
      FirstSurvives(s, e.call.order);
    }
  }

  lemma LivesCount(s: Kernel, y: int)
    requires Inv(s) && Live(s, y)
    ensures s.processCount > 0
  {
    hide NoDup, Family, Accounted, Rooted, Tagged;
    FreeCount(s);
  }

  lemma TerminateEntry(s: Kernel, e: Event)
    requires Possible(s, e) && e.call.Terminate?
    ensures var o := e.call.order;
      && EntryOf(s, e) == Reschedule(Purged(s, o)) && VerdictAt(s, e) == VerdictOf(Purged(s, o))
      && s.current != NIL && NoDup(o) && |s.birth| == |s.parent| && Elems(o) == Desc(s, s.current)
  {
  }

  lemma FirstSurvives(s: Kernel, o: seq<int>)
    requires Inv(s) && s.current != NIL && s.current != s.first && NoDup(o) && Elems(o) == Desc(s, s.current)
    ensures Purged(s, o).processCount > 0
  {
    hide Inv, Structure, Located, Purged, Desc, NoDup;
    var t := Purged(s, o);
    VictimsClosed(s, o);
    InvSized(s);
    RunningLive(s);
    NoOrphans(s, s.current);
    NoCycle(s, s.current, s.first);
    PurgeStructure(s, o);
    PurgedFields(s, o);
    PurgedCounts(s, o);
    StructureLists(t);
    assert Live(t, s.first);
    FreeCount(t);
  }

  lemma RunningLive(s: Kernel)
    requires Inv(s) && s.current != NIL
    ensures Live(s, s.current)
  {
  }

  // ------------------------------------------------- semaphores

  // In every run a user semaphore blocks as many processes as its value says, a
  // semaphore of sem at most as many, and the clock's is never positive; sem is the only
  // thing that softBlockCount counts.
  lemma SemaphoresInRuns(s: Kernel, a: int)
    requires Reachable(s) && a in s.mem
    ensures |QueueAt(s.blocked, a)| <= Debt(s.mem[a])
    ensures !InSem(s.base, a) ==> |QueueAt(s.blocked, a)| == Debt(s.mem[a])
    ensures a == SemAddr(s.base, CLOCK) ==> s.mem[a] <= 0
    ensures Sized(s) && s.softBlockCount == |SoftBlocked(s)| && s.processCount == |s.parent| - |s.free|
  {
    hide Reachable, Structure;
    ReachableInv(s);
    InvSized(s);
  }

  // So SYS7 never loses its caller: it waits in the clock's queue.
  lemma ClockKeepsCaller(s: Kernel, tk: Ticks)
    requires Reachable(s) && s.current != NIL
    ensures var t, a := WaitedClock(s, tk), SemAddr(s.base, CLOCK);
      AddrOf(t, s.current) == a && QueueAt(t.blocked, a) == QueueAt(s.blocked, a) + [s.current]
  {
    hide Reachable, Structure, Everywhere, Rooted, Counted;
    ReachableInv(s);
    InvSized(s);
    SemInMem(s, CLOCK);
  }

  // ------------------------------------------------- what a kill does

  // The processes of v blocked on a semaphore of sem.
  ghost function SoftIn(s: Kernel, v: set<int>): set<int> {
    set x | x in v && WaitsSoftly(s, x)
  }

  // What a user semaphore gains: one for every victim in its queue.
  ghost function Credit(s: Kernel, v: set<int>, a: int): nat {
    if InSem(s.base, a) then 0 else |Elems(QueueAt(s.blocked, a)) * v|
  }

  // The victims that wait at the address just behind sem.
  ghost function BehindIn(s: Kernel, v: set<int>): set<int> {
    set x | x in v && AddrOf(s, x) == SemAddr(s.base, TOTALSEM)
  }

  // Exactly the subtree of the running process dies, and the counters and semaphores
  // follow, but for those behind sem: they cost softBlockCount, in which they never were,
  // and earn their semaphore nothing.
  lemma KillExact(s: Kernel, o: seq<int>, v: set<int>)
    requires Inv(s) && s.current != NIL && NoDup(o) && Elems(o) == v == Desc(s, s.current)
    ensures var t := Purged(s, o);
      && (forall x :: Live(t, x) <==> Live(s, x) && x !in v)
      && t.processCount == s.processCount - |v|
      && t.softBlockCount == s.softBlockCount - |SoftIn(s, v)| - |BehindIn(s, v)|
      && t.mem.Keys == s.mem.Keys
      && (forall a :: a in s.mem ==>
            t.mem[a] == s.mem[a] + if a == SemAddr(s.base, TOTALSEM) then 0 else Credit(s, v, a))
  {
    hide Minus, Desc, NoDup, PurgedQueues, PurgedKids, Credited;
    var t := Purged(s, o);
    VictimsClosed(s, o);
    PurgedFields(s, o);
    ElemsCard(o);
    assert CodedSoftIn(s.base, s.semAdd, v) == SoftIn(s, v) + BehindIn(s, v);
    forall a | a in s.mem
      ensures t.mem[a] == s.mem[a] + if a == SemAddr(s.base, TOTALSEM) then 0 else Credit(s, v, a)
    {
      WaitingAt(s, v, a);
      CreditedAt(s, v, a);
    }
  }

  // softBlockCount loses one for every victim that waited for a device or the clock, and
  // every user semaphore gains one for every victim that waited for it, exactly when no
  // victim waits just behind sem.
  lemma KillRight(s: Kernel, o: seq<int>, v: set<int>)
    requires Inv(s) && s.current != NIL && NoDup(o) && Elems(o) == v == Desc(s, s.current)
    ensures var t := Purged(s, o);
      && t.mem.Keys == s.mem.Keys
      && (t.softBlockCount == s.softBlockCount - |SoftIn(s, v)| <==> NobodyBehind(s, v))
      && ((forall a :: a in s.mem ==> t.mem[a] == s.mem[a] + Credit(s, v, a)) <==> NobodyBehind(s, v))
  {
    hide Inv, Desc, NoDup, Purged, Credit, SoftIn;
    KillExact(s, o, v);
    BehindCredit(s, o, v);
  }

  // What the semaphore behind sem misses.
  lemma BehindCredit(s: Kernel, o: seq<int>, v: set<int>)
    requires Inv(s) && s.current != NIL && Elems(o) == v == Desc(s, s.current)
    ensures NobodyBehind(s, v) <==> BehindIn(s, v) == {}
    ensures NobodyBehind(s, v) <==> |BehindIn(s, v)| == 0
    ensures var a := SemAddr(s.base, TOTALSEM);
      if a in s.mem then Credit(s, v, a) == |BehindIn(s, v)| else NobodyBehind(s, v)
  {
    hide Minus, Desc, NoDup, Family, Within;
    VictimsClosed(s, o);
    var a := SemAddr(s.base, TOTALSEM);
    EmptyOrNot(BehindIn(s, v));
    if a in s.mem {
      WaitingAt(s, v, a);
      assert WaitingIn(s.semAdd, v, a) == BehindIn(s, v);
    }
    if x :| x in v && AddrOf(s, x) == a {
      CarriesItsQueue(s, x);
      assert x in BehindIn(s, v);
    }
  }

  lemma CreditedAt(s: Kernel, v: set<int>, a: int)
    requires a in s.mem
    ensures Credited(s, v)[a] == s.mem[a] + if CodedInSem(s.base, a) then 0 else |WaitingIn(s.semAdd, v, a)|
  {
  }

  // The survivors keep their order in every queue, their parents and their children;
  // only the parent of the killed process loses a child.
  lemma KillSpares(s: Kernel, o: seq<int>, v: set<int>)
    requires Inv(s) && s.current != NIL && NoDup(o) && Elems(o) == v == Desc(s, s.current)
    ensures var t := Purged(s, o);
      && Sized(t) && |t.parent| == |s.parent|
      && t.ready == Minus(s.ready, v) && (forall a :: QueueAt(t.blocked, a) == Minus(QueueAt(s.blocked, a), v))
      && (forall x :: Live(s, x) && x !in v ==>
            && t.parent[x] == s.parent[x] && t.semAdd[x] == s.semAdd[x]
            && t.kids[x] == if x == s.parent[s.current] then Minus(s.kids[x], {s.current}) else s.kids[x])
  {
    hide Minus, Desc, NoDup, PurgedKids, PurgedQueues, Credited;
    VictimsClosed(s, o);
    PurgedFields(s, o);
    forall a
      ensures QueueAt(Purged(s, o).blocked, a) == Minus(QueueAt(s.blocked, a), v)
    {
      PurgedQueueAt(s.blocked, v, a);
    }
    forall x | Live(s, x) && x !in v
      ensures Minus(s.kids[x], v) == if x == s.parent[s.current] then Minus(s.kids[x], {s.current}) else s.kids[x]
    {
      OnlyCurrentDies(s, v, x);
      MinusSame(s.kids[x], v, if x == s.parent[s.current] then {s.current} else {});
      MinusNone(s.kids[x], {});
    }
  }

  // Among the children of a survivor only the killed process itself can die.
  lemma OnlyCurrentDies(s: Kernel, v: set<int>, x: int)
    requires Inv(s) && s.current != NIL && v == Desc(s, s.current) && Live(s, x) && x !in v
    ensures forall c :: c in s.kids[x] ==> (c in v <==> x == s.parent[s.current] && c == s.current)
  {
    DescSelf(s, s.current);
    forall c | c in s.kids[x]
      ensures c in v <==> x == s.parent[s.current] && c == s.current
    {
      KidBelow(s, x, c);
    }
  }
}
