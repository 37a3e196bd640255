// Every kernel step keeps the invariant.
module KernelSteps {
  import opened Lists
  import opened Links
  import opened AslLists
  import opened Kernels
  import opened KernelInvs

  // The invariant but for the process that was running.
  ghost predicate IdleInv(s: Kernel) {
    Inv(s.(current := NIL))
  }

  // Only the queues, the addresses and the semaphores matter to the accounts.
  lemma AccountedSame(s: Kernel, t: Kernel)
    requires Accounted(s) && t.base == s.base && t.blocked == s.blocked && t.mem == s.mem
    ensures Accounted(t)
  {
  }

  lemma CountedSame(s: Kernel, t: Kernel)
    requires Sized(s) && Sized(t) && Counted(s) && t.base == s.base && t.free == s.free && t.semAdd == s.semAdd
    requires |t.parent| == |s.parent| && t.processCount == s.processCount && t.softBlockCount == s.softBlockCount
    ensures Counted(t)
  {
    assert SoftBlocked(t) == SoftBlocked(s);
  }

  lemma FamilySame(s: Kernel, t: Kernel)
    requires Sized(s) && Sized(t) && Family(s) && t.free == s.free && t.kids == s.kids && t.parent == s.parent
    requires t.birth == s.birth && t.births == s.births
    ensures Family(t)
  {
  }

  lemma AddressedSame(s: Kernel, t: Kernel)
    requires Addressed(s) && t.base == s.base && t.blocked == s.blocked && t.mem.Keys == s.mem.Keys
    ensures Addressed(t)
  {
    assert forall a :: a in t.mem <==> a in s.mem;
  }

  // scheduler(): whatever it does, the invariant holds again.
  lemma ScheduledInv(s: Kernel, tk: Ticks)
    requires IdleInv(s)
    ensures Inv(Scheduled(s, tk))
  {
    hide NoDup, Within, Tagged, Accounted, Addressed, Family;
    var i, t := s.(current := NIL), Scheduled(s, tk);
    AccountedSame(i, t);
    AddressedSame(i, t);
    FamilySame(i, t);
    CountedSame(i, t);
    if s.ready != [] {
      TailOfReady(s.ready, |s.parent|);
    }
    assert Located(t);
    assert Everywhere(t);
  }

  lemma TailOfReady(q: seq<int>, n: nat)
    requires q != [] && NoDup(q) && Within(q, n)
    ensures NoDup(q[1..]) && Within(q[1..], n) && 0 <= q[0] < n && q[0] !in q[1..]
    ensures forall x :: x in q <==> x == q[0] || x in q[1..]
  {
  }

  // No orphans: every live process descends from the first one.
  lemma {:induction false} FromFirst(s: Kernel, x: int)
    requires Sized(s) && Family(s) && Rooted(s) && Live(s, x)
    ensures Live(s, s.first) && Anc(s.parent, s.birth, s.first, x)
    decreases s.birth[x]
  {
    if s.parent[x] != NIL {
      FromFirst(s, s.parent[x]);
    }
  }

  // SYS1.
  lemma CreatedInv(s: Kernel)
    requires Inv(s) && s.current != NIL
    ensures Inv(Created(s))
  {
    hide NoDup, Within, Tagged, Accounted, Addressed;
    if s.free != [] {
      var p, t := s.free[0], Created(s);
      FreeApart(s);
      AccountedSame(s, t);
      AddressedSame(s, t);
      CreatedFamily(s);
      CreatedLocated(s);
      assert SoftBlocked(t) == SoftBlocked(s);
      FromFirst(s, s.current);
      assert s.current != p && p != s.first;
      assert Everywhere(t) && Rooted(t) && Running(t);
    }
  }

  lemma CreatedFamily(s: Kernel)
    requires Inv(s) && s.current != NIL && s.free != []
    ensures Sized(Created(s)) && Family(Created(s))
  {
    hide Tagged, Accounted, Addressed, Counted, NoDup, Within;
    FreeApart(s);
    var p, t := s.free[0], Created(s);
    forall x | Live(t, x)
      ensures Within(t.kids[x], |t.parent|) && NoDup(t.kids[x])
    {
      if x == s.current {
        NewKid(s.kids[x], p, |s.parent|);
      } else if x == p {
        NoKids(|s.parent|);
      }
    }
    forall x, c {:trigger c in t.kids[x]} | Live(t, x) && c in t.kids[x]
      ensures Live(t, c) && t.parent[c] == x
    {
      if x == s.current {
        assert c == p || c in s.kids[x];
      } else if x != p {
        assert Live(s, x) && c in s.kids[x];
      }
    }
    forall c | Live(t, c) && t.parent[c] != NIL
      ensures Live(t, t.parent[c]) && c in t.kids[t.parent[c]] && t.birth[t.parent[c]] < t.birth[c]
    {
      if c != p {
        assert Live(s, c) && s.parent[c] == t.parent[c];
      }
    }
  }

  lemma NewKid(ks: seq<int>, p: int, n: nat)
    requires Within(ks, n) && NoDup(ks) && 0 <= p < n && p !in ks
    ensures Within([p] + ks, n) && NoDup([p] + ks)
  {
  }

  lemma NoKids(n: nat)
    ensures Within([], n) && NoDup([])
  {
  }

  lemma CreatedLocated(s: Kernel)
    requires Inv(s) && s.current != NIL && s.free != []
    ensures Sized(Created(s)) && Located(Created(s))
  {
    hide Accounted, Addressed, Counted, Family;
    FreeApart(s);
    StructureApart(s);
    var p, t := s.free[0], Created(s);
    TailOfReady(s.free, |s.parent|);
    PushedLists(s, p);
  }

  // Everything but the counts and the accounts.
  ghost predicate Placed(s: Kernel) {
    Structure(s) && Running(s) && Everywhere(s) && Rooted(s)
  }

  lemma RootedSame(s: Kernel, t: Kernel)
    requires Rooted(s) && t.parent == s.parent && t.free == s.free && t.first == s.first
    ensures Rooted(t)
  {
  }

  lemma WokenCounts(s: Kernel, a: int)
    requires Structure(s) && QueueAt(s.blocked, a) != []
    ensures var t, p := Woken(s, a), s.blocked[a][0];
      && Sized(t) && |QueueAt(t.blocked, a)| == |QueueAt(s.blocked, a)| - 1
      && (forall c :: c != a ==> QueueAt(t.blocked, c) == QueueAt(s.blocked, c))
      && SoftBlocked(t) == (if InSem(s.base, a) then SoftBlocked(s) - {p} else SoftBlocked(s))
      && (InSem(s.base, a) ==> p in SoftBlocked(s))
  {
    hide Minus, Within, Family;
    var t, p := Woken(s, a), s.blocked[a][0];
    MinusFirst(s.blocked[a]);
    WokenApart(s, a);
    assert p in s.blocked[a] && s.semAdd[p] == a;
    assert !InSem(s.base, NULL_ADDR);
  }

  lemma WokenPlaced(s: Kernel, a: int)
    requires Placed(s)
    ensures Placed(Woken(s, a))
  {
    hide Minus, Structure, Running, Rooted;
    WokenStructure(s, a);
    WokenRunning(s, a);
    SizedLike(s);
    SizedLike(Woken(s, a));
    RootedSame(s, Woken(s, a));
    assert Everywhere(Woken(s, a));
  }

  lemma AddedPlaced(s: Kernel, a: int, k: int)
    requires Placed(s) && a in s.mem
    ensures Placed(Added(s, a, k)) && Inner(a)
    ensures SoftBlocked(Added(s, a, k)) == SoftBlocked(s)
  {
    AddedStructure(s, a, k);
  }

  // What the invariant says about the account of one semaphore.
  ghost predicate InCredit(base: int, a: int, v: int, waiting: nat) {
    && waiting <= Debt(v)
    && (!InSem(base, a) ==> waiting == Debt(v))
    && (a == SemAddr(base, CLOCK) ==> v <= 0)
  }

  // Only the account of a has changed.
  lemma AccountedBut(s: Kernel, t: Kernel, a: int)
    requires Accounted(s) && t.base == s.base && a in s.mem && t.mem == s.mem[a := Value(t, a)]
    requires forall c :: c != a ==> QueueAt(t.blocked, c) == QueueAt(s.blocked, c)
    requires InCredit(t.base, a, Value(t, a), |QueueAt(t.blocked, a)|)
    ensures Accounted(t)
  {
    forall c | c in t.mem
      ensures InCredit(t.base, c, t.mem[c], |QueueAt(t.blocked, c)|)
    {
      assert c in s.mem && (c != a ==> t.mem[c] == s.mem[c]);
    }
  }

  lemma InCreditAt(s: Kernel, a: int)
    requires Accounted(s) && a in s.mem
    ensures InCredit(s.base, a, s.mem[a], |QueueAt(s.blocked, a)|)
  {
  }

  // SYS3 counts nobody off, so on a semaphore of sem nobody may wait; and the clock has
  // to stay at most zero.
  ghost predicate VSafe(s: Kernel, a: int) {
    InSem(s.base, a) ==> QueueAt(s.blocked, a) == [] && (a == SemAddr(s.base, CLOCK) ==> Value(s, a) < 0)
  }

  // SYS4 counts nobody in, so on a semaphore of sem it must not block.
  ghost predicate PSafe(s: Kernel, a: int) {
    InSem(s.base, a) ==> Value(s, a) > 0
  }

  // SYS8 counts its caller in, so outside sem it must not block.
  ghost predicate SoftPSafe(s: Kernel, a: int) {
    !InSem(s.base, a) ==> Value(s, a) > 0
  }

  // SYS3.
  lemma SignalledInv(s: Kernel, a: int)
    requires Inv(s) && a in s.mem && VSafe(s, a)
    ensures Inv(Signalled(s, a))
  {
    hide Structure, Woken, Accounted, Everywhere, Rooted, Running;
    var t, u := Added(s, a, 1), Signalled(s, a);
    SizedLike(s);
    InCreditAt(s, a);
    AddedPlaced(s, a, 1);
    if Value(t, a) <= 0 {
      if QueueAt(t.blocked, a) == [] {
        WokenNone(t, a);
      } else {
        WokenPlaced(t, a);
        WokenCounts(t, a);
        WokenRest(t, a);
      }
    }
    SizedLike(u);
    AccountedBut(s, u, a);
  }

  // A V that is not safe leaves a count or an account wrong.
  lemma SignalledUnsafe(s: Kernel, a: int)
    requires Inv(s) && a in s.mem && !VSafe(s, a)
    ensures var u := Signalled(s, a); Sized(u) && !(Counted(u) && Accounted(u))
  {
    hide Structure, Woken, Everywhere, Rooted, Running;
    var t, u := Added(s, a, 1), Signalled(s, a);
    SizedLike(s);
    InCreditAt(s, a);
    AddedPlaced(s, a, 1);
    if Value(t, a) <= 0 {
      WokenCounts(t, a);
      WokenRest(t, a);
    } else {
      assert u.mem[a] > 0;
    }
  }

  // The V of a device interrupt. The clock's semaphore has to be negative.
  lemma IoDoneInv(s: Kernel, i: int)
    requires Inv(s) && 0 <= i < TOTALSEM && (i == CLOCK ==> Value(s, SemAddr(s.base, CLOCK)) < 0)
    ensures Inv(IoDone(s, i))
  {
    hide Structure, Woken, Accounted, Everywhere, Rooted, Running;
    var a := SemAddr(s.base, i);
    var t, u := Added(s, a, 1), IoDone(s, i);
    SizedLike(s);
    SemInMem(s, i);
    InCreditAt(s, a);
    AddedPlaced(s, a, 1);
    if Value(t, a) <= 0 && QueueAt(t.blocked, a) != [] {
      WokenPlaced(t, a);
      WokenCounts(t, a);
      WokenRest(t, a);
      SoftPlaced(Woken(t, a), -1);
    }
    SizedLike(u);
    AccountedBut(s, u, a);
  }

  lemma SoftPlaced(s: Kernel, k: int)
    requires Placed(s)
    ensures Placed(Soft(s, k)) && SoftBlocked(Soft(s, k)) == SoftBlocked(s)
  {
    SoftStructure(s, k);
  }

  // ------------------------------------------------- the running process blocks

  lemma BlockedStructure(s: Kernel, a: int)
    requires Structure(s) && Running(s) && s.current != NIL && a in s.mem
    ensures Structure(Blocked(s, a).(current := NIL))
  {
    hide NoDup, Tagged, Family;
    var t, p := Blocked(s, a).(current := NIL), s.current;
    StructureApart(s);
    QueueApart(s, a);
    BlockedTags(s, a);
    FamilySame(s, t);
    assert Addressed(t);
    forall c, x {:trigger x in t.blocked[c]} | c in t.blocked && x in t.blocked[c]
      ensures x !in t.free
    {
      assert c != a ==> c in s.blocked && x in s.blocked[c];
      assert c == a ==> x == p || x in QueueAt(s.blocked, a);
    }
    forall x | Live(t, x) && t.semAdd[x] != NULL_ADDR
      ensures t.semAdd[x] in t.blocked && x in t.blocked[t.semAdd[x]]
    {
      if x != p {
        assert Live(s, x) && x in s.blocked[s.semAdd[x]];
      }
    }
    forall x | x in t.ready
      ensures t.semAdd[x] == NULL_ADDR
    {
      WithinAt(s.ready, |s.parent|, x);
      assert s.semAdd[x] == NULL_ADDR && x != p;
    }
  }

  lemma BlockedTags(s: Kernel, a: int)
    requires Structure(s) && Running(s) && s.current != NIL && a in s.mem
    ensures Tagged(Blocked(s, a).semAdd, Blocked(s, a).blocked)
    ensures NoDup(QueueAt(s.blocked, a) + [s.current]) && Inner(a)
  {
    hide Within, Family;
    var t, p := Blocked(s, a), s.current;
    TaggedAt(s.semAdd, s.blocked, a);
    forall c, x {:trigger x in t.blocked[c]} | c in t.blocked && x in t.blocked[c]
      ensures 0 <= x < |t.semAdd| && t.semAdd[x] == c
    {
      assert c != a ==> c in s.blocked && x in s.blocked[c];
      assert c == a ==> x == p || x in QueueAt(s.blocked, a);
    }
  }

  lemma BlockedCounts(s: Kernel, a: int)
    requires Structure(s) && Running(s) && s.current != NIL && a in s.mem
    ensures var t := Blocked(s, a).(current := NIL);
      && Sized(t) && |QueueAt(t.blocked, a)| == |QueueAt(s.blocked, a)| + 1
      && (forall c :: c != a ==> QueueAt(t.blocked, c) == QueueAt(s.blocked, c))
      && SoftBlocked(t) == (if InSem(s.base, a) then SoftBlocked(s) + {s.current} else SoftBlocked(s))
      && s.current !in SoftBlocked(s)
  {
    hide Within, Family, NoDup, Tagged;
    assert !InSem(s.base, NULL_ADDR);
  }

  lemma BlockedPlaced(s: Kernel, a: int)
    requires Placed(s) && s.current != NIL && a in s.mem
    ensures Placed(Blocked(s, a).(current := NIL))
  {
    BlockedStructure(s, a);
  }

  // SYS4 when it blocks, SYS7 and SYS8 likewise with the soft count raised.
  lemma BlockedInv(s: Kernel, a: int)
    requires Inv(s) && s.current != NIL && a in s.mem && s.mem[a] - 1 < 0
    ensures IdleInv(if InSem(s.base, a) then Soft(Blocked(Added(s, a, -1), a), 1) else Blocked(Added(s, a, -1), a))
  {
    hide Structure, Accounted, Everywhere, Rooted, Running, Blocked;
    var t := Added(s, a, -1);
    var b := Blocked(t, a).(current := NIL);
    SizedLike(s);
    InCreditAt(s, a);
    AddedPlaced(s, a, -1);
    BlockedPlaced(t, a);
    BlockedCounts(t, a);
    BlockedRest(t, a);
    SizedLike(b);
    SoftPlaced(b, 1);
    var u := if InSem(s.base, a) then Soft(b, 1) else b;
    assert u == (if InSem(s.base, a) then Soft(Blocked(t, a), 1) else Blocked(t, a)).(current := NIL);
    AccountedBut(s, u, a);
  }

  lemma BlockedRest(s: Kernel, a: int)
    ensures var t := Blocked(s, a);
      && t.mem == s.mem && t.base == s.base && t.processCount == s.processCount && t.softBlockCount == s.softBlockCount
      && t.free == s.free && |t.parent| == |s.parent|
  {
  }

  // A blocking SYS4 on a semaphore of sem leaves softBlockCount one short.
  lemma BlockedUnsafe(s: Kernel, a: int)
    requires Inv(s) && s.current != NIL && a in s.mem && InSem(s.base, a)
    ensures var u := Blocked(Added(s, a, -1), a); Sized(u) && !Counted(u)
  {
    hide Structure, Accounted, Everywhere, Rooted, Running, Blocked;
    var t := Added(s, a, -1);
    SizedLike(s);
    AddedPlaced(s, a, -1);
    BlockedCounts(t, a);
    BlockedRest(t, a);
    var u := Blocked(t, a);
    assert SoftBlocked(u.(current := NIL)) == SoftBlocked(u);
  }

  // A blocking SYS8 outside sem leaves it one too high.
  lemma IoUnsafe(s: Kernel, a: int)
    requires Inv(s) && s.current != NIL && a in s.mem && !InSem(s.base, a)
    ensures var u := Soft(Blocked(Added(s, a, -1), a), 1); Sized(u) && !Counted(u)
  {
    hide Structure, Accounted, Everywhere, Rooted, Running, Blocked;
    var t := Added(s, a, -1);
    SizedLike(s);
    AddedPlaced(s, a, -1);
    BlockedCounts(t, a);
    BlockedRest(t, a);
    var u := Blocked(t, a);
    assert SoftBlocked(u.(current := NIL)) == SoftBlocked(u) == SoftBlocked(Soft(u, 1));
  }

  // scheduler() mends no count and no account.
  lemma ScheduledCounts(s: Kernel, tk: Ticks)
    requires Sized(s)
    ensures var t := Scheduled(s, tk);
      Sized(t) && (Counted(t) <==> Counted(s)) && (Accounted(t) <==> Accounted(s))
  {
    assert SoftBlocked(Scheduled(s, tk)) == SoftBlocked(s);
  }

  // A P that does not block.
  lemma AddedInv(s: Kernel, a: int)
    requires Inv(s) && a in s.mem && s.mem[a] - 1 >= 0
    ensures Inv(Added(s, a, -1))
  {
    hide Structure, Accounted, Everywhere, Rooted, Running;
    SizedLike(s);
    InCreditAt(s, a);
    AddedPlaced(s, a, -1);
    AccountedBut(s, Added(s, a, -1), a);
  }

  lemma WokenRest(s: Kernel, a: int)
    ensures var t := Woken(s, a);
      && t.mem == s.mem && t.base == s.base && t.processCount == s.processCount && t.softBlockCount == s.softBlockCount
      && t.free == s.free && |t.parent| == |s.parent|
  {
    hide Minus;
  }

  // ------------------------------------------------- kill

  // No victim waits at the address just behind sem, which the test of the kill takes in.
  ghost predicate NobodyBehind(s: Kernel, v: set<int>) {
    forall x :: x in v ==> AddrOf(s, x) != SemAddr(s.base, TOTALSEM)
  }

  lemma WaitingAt(s: Kernel, v: set<int>, a: int)
    requires Structure(s) && a in s.mem && forall x :: x in v ==> Live(s, x)
    ensures WaitingIn(s.semAdd, v, a) == Elems(QueueAt(s.blocked, a)) * v
    ensures NoDup(QueueAt(s.blocked, a))
  {
    hide Within, Family;
    var q := QueueAt(s.blocked, a);
    forall x
      ensures x in WaitingIn(s.semAdd, v, a) <==> x in Elems(q) * v
    {
      if x in v && s.semAdd[x] == a {
        assert a in s.blocked && x in s.blocked[a];
      }
      if x in q {
        assert a in s.blocked && x in s.blocked[a];
      }
    }
  }

  lemma PurgedQueueAt(b: Queues, v: set<int>, a: int)
    ensures QueueAt(PurgedQueues(b, v), a) == Minus(QueueAt(b, a), v)
  {
  }

  lemma PurgedAccounted(s: Kernel, o: seq<int>)
    requires Structure(s) && Accounted(s) && Closed(s, Elems(o)) && NobodyBehind(s, Elems(o))
    ensures Accounted(Purged(s, o))
  {
    hide Minus, Structure, PurgedQueues, PurgedKids, Accounted;
    SizedLike(s);
    var v, t := Elems(o), Purged(s, o);
    forall a | a in t.mem
      ensures InCredit(t.base, a, t.mem[a], |QueueAt(t.blocked, a)|)
    {
      InCreditAt(s, a);
      PurgedQueueAt(s.blocked, v, a);
      WaitingAt(s, v, a);
      MinusCard(QueueAt(s.blocked, a), v);
      BehindAt(s, v, a);
      MinusElems(QueueAt(s.blocked, a), v);
      var k := |Elems(QueueAt(s.blocked, a)) * v|;
      ElemsCard(QueueAt(s.blocked, a));
      SubsetCard(Elems(QueueAt(s.blocked, a)) * v, Elems(QueueAt(s.blocked, a)));
      assert t.mem[a] == s.mem[a] + if InSem(s.base, a) then 0 else k;
    }
    CreditedAccounts(t);
  }

  lemma CreditedAccounts(s: Kernel)
    requires forall a {:trigger s.mem[a]} :: a in s.mem ==> InCredit(s.base, a, s.mem[a], |QueueAt(s.blocked, a)|)
    ensures Accounted(s)
  {
  }

  // Where the coded test is wrong, nobody is credited, and nobody has to be.
  lemma BehindAt(s: Kernel, v: set<int>, a: int)
    requires Structure(s) && NobodyBehind(s, v) && a in s.mem
    ensures CodedInSem(s.base, a) && !InSem(s.base, a) ==> WaitingIn(s.semAdd, v, a) == {}
  {
  }

  lemma PurgedCounted(s: Kernel, o: seq<int>)
    requires Structure(s) && Counted(s) && Closed(s, Elems(o)) && NoDup(o) && NobodyBehind(s, Elems(o))
    ensures Sized(Purged(s, o)) && Counted(Purged(s, o))
  {
    hide Minus, PurgedQueues, PurgedKids, Credited, NoDup, Within, Family;
    var v, t := Elems(o), Purged(s, o);
    PurgedFields(s, o);
    var dead := CodedSoftIn(s.base, s.semAdd, v);
    assert dead <= SoftBlocked(s);
    assert SoftBlocked(t) == SoftBlocked(s) - dead by { PurgedSoft(s, o); }
  }

  // A victim that waits just behind sem is taken off softBlockCount, in which it never was.
  lemma PurgedUnsafe(s: Kernel, o: seq<int>)
    requires Inv(s) && Closed(s, Elems(o)) && NoDup(o) && !NobodyBehind(s, Elems(o))
    ensures Sized(Purged(s, o)) && !Counted(Purged(s, o))
  {
    hide Minus, PurgedQueues, PurgedKids, Credited, NoDup, Within, Family, Accounted, Tagged;
    var v, t := Elems(o), Purged(s, o);
    PurgedFields(s, o);
    PurgedSoft(s, o);
    var dead, soft := CodedSoftIn(s.base, s.semAdd, v), SoftBlocked(s);
    var x :| x in v && AddrOf(s, x) == SemAddr(s.base, TOTALSEM);
    assert x in dead && x !in soft && dead * soft <= dead - {x};
    SubsetCard(dead * soft, dead - {x});
    assert SoftBlocked(t) == soft - dead * soft;
  }

  lemma PurgedSoft(s: Kernel, o: seq<int>)
    requires Structure(s) && Closed(s, Elems(o))
    ensures Sized(Purged(s, o)) && SoftBlocked(Purged(s, o)) == SoftBlocked(s) - CodedSoftIn(s.base, s.semAdd, Elems(o))
  {
    hide Minus, Purged, NoDup, Within, Tagged, Family;
    PurgedFields(s, o);
  }

  // SYS2: the rest of the system is as it should be.
  lemma PurgedInv(s: Kernel, o: seq<int>)
    requires Inv(s) && Closed(s, Elems(o)) && NoDup(o) && s.current in o && NobodyBehind(s, Elems(o))
    ensures IdleInv(Purged(s, o))
  {
    hide Minus, Structure, Accounted, Counted, Purged, NoDup;
    SizedLike(s);
    var v, t := Elems(o), Purged(s, o);
    var i := t.(current := NIL);
    PurgeStructure(s, o);
    PurgedCounted(s, o);
    PurgedAccounted(s, o);
    PurgedFields(s, o);
    PurgedReady(s, o);
    IdleStructure(t);
    AccountedSame(t, i);
    CountedSame(t, i);
    assert Everywhere(i);
  }

  lemma PurgedReady(s: Kernel, o: seq<int>)
    ensures forall x :: x in Purged(s, o).ready <==> x in s.ready && x !in Elems(o)
    ensures Purged(s, o).first == s.first
  {
    hide Minus;
    MinusElems(s.ready, Elems(o));
  }

  lemma IdleStructure(s: Kernel)
    requires Structure(s)
    ensures Structure(s.(current := NIL))
  {
  }

  // ------------------------------------------------- interrupts

  lemma FinishInv(s: Kernel, tk: Ticks)
    requires Inv(s)
    ensures IdleInv(FinishStep(s, tk))
  {
    hide Tagged, Family, Addressed, Accounted, NoDup, Within;
    var t := FinishStep(s, tk);
    var i := t.(current := NIL);
    AccountedSame(s, i);
    AddressedSame(s, i);
    FamilySame(s, i);
    CountedSame(s, i);
    if s.current != NIL {
      PushedLists(s, s.current);
      WithinAt(s.ready, |s.parent|, s.current);
    }
    assert Located(i);
    assert Everywhere(i);
  }

  lemma WokenByClockInv(s: Kernel, tk: Ticks, k: nat)
    requires Inv(s)
    ensures Inv(WokenByClock(s, tk, k))
  {
    hide Structure, Woken, Accounted, Everywhere, Rooted, Running;
    var a := SemAddr(s.base, CLOCK);
    var t, u := Woken(s, a), WokenByClock(s, tk, k);
    if QueueAt(s.blocked, a) != [] {
      SizedLike(s);
      SemInMem(s, CLOCK);
      InCreditAt(s, a);
      WokenPlaced(s, a);
      WokenCounts(s, a);
      WokenRest(s, a);
      WokenElsewhere(s, a);
      SoftPlaced(t, -1);
      TimePlaced(Soft(t, -1), u.time);
      SizedLike(u);
      AccountedBut(s, u, a);
    }
  }

  lemma TimePlaced(s: Kernel, time: seq<int>)
    requires Placed(s) && |time| == |s.time|
    ensures Placed(s.(time := time)) && SoftBlocked(s.(time := time)) == SoftBlocked(s)
  {
    TimeStructure(s, time);
  }

  lemma {:induction false} DrainedInv(s: Kernel, tk: Ticks, k: nat)
    requires Inv(s)
    ensures var t := Drained(s, tk, k);
      Inv(t) && t.base == s.base && t.mem == s.mem && QueueAt(t.blocked, SemAddr(t.base, CLOCK)) == []
    decreases |QueueAt(s.blocked, SemAddr(s.base, CLOCK))|
  {
    hide Inv, WokenByClock;
    if QueueAt(s.blocked, SemAddr(s.base, CLOCK)) != [] {
      DrainedStep(s, tk, k);
      WokenByClockInv(s, tk, k);
      WokenByClockRest(s, tk, k);
      DrainedInv(WokenByClock(s, tk, k), tk, k + 1);
    }
  }

  lemma WokenByClockRest(s: Kernel, tk: Ticks, k: nat)
    ensures WokenByClock(s, tk, k).base == s.base && WokenByClock(s, tk, k).mem == s.mem
  {
    hide Minus;
  }

  lemma TickDoneInv(s: Kernel, tk: Ticks)
    requires Inv(s)
    ensures Inv(TickDone(s, tk))
  {
    hide Structure, Drained, Accounted, Everywhere, Rooted, Running;
    DrainedInv(s, tk, 0);
    var t, u := Drained(s, tk, 0), TickDone(s, tk);
    var a := SemAddr(s.base, CLOCK);
    SizedLike(t);
    SemInMem(t, CLOCK);
    AddedPlaced(t, a, 0 - Value(t, a));
    AccountedBut(t, u, a);
  }
}
