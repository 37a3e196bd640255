// The invariant of the nucleus between steps.
module KernelInvs {
  import opened Lists
  import opened Links
  import opened AslLists
  import opened Kernels

  ghost predicate Sized(s: Kernel) {
    && |s.semAdd| == |s.time| == |s.kids| == |s.birth| == |s.parent|
    && 0 < s.base && SemAddr(s.base, TOTALSEM) < MAXINT
  }

  // Every semaphore has a value. Those in sem are whole elements of the array.
  ghost predicate Addressed(s: Kernel) {
    && (forall a :: a in s.blocked ==> a in s.mem && Inner(a) && s.blocked[a] != [] && NoDup(s.blocked[a]))
    && (forall a :: a in s.mem ==> Inner(a))
    && (forall i :: 0 <= i < TOTALSEM ==> SemAddr(s.base, i) in s.mem)
    && (forall a :: a in s.mem && InSem(s.base, a) ==> (a - s.base) % WORDLEN == 0)
  }

  // No block is in two places.
  ghost predicate Located(s: Kernel)
    requires Sized(s)
  {
    && Within(s.free, |s.parent|) && NoDup(s.free)
    && Within(s.ready, |s.parent|) && NoDup(s.ready)
    && (forall x :: x in s.free ==> x !in s.ready)
    && (forall x :: x in s.ready ==> s.semAdd[x] == NULL_ADDR)
    && Tagged(s.semAdd, s.blocked)
    && (forall a, x {:trigger x in s.blocked[a]} :: a in s.blocked && x in s.blocked[a] ==> x !in s.free)
    && (forall x {:trigger s.semAdd[x]} :: Live(s, x) && s.semAdd[x] != NULL_ADDR ==>
          s.semAdd[x] in s.blocked && x in s.blocked[s.semAdd[x]])
  }

  ghost predicate Running(s: Kernel) {
    s.current != NIL ==> Live(s, s.current) && s.current !in s.ready && AddrOf(s, s.current) == NULL_ADDR
  }

  // No block is nowhere.
  ghost predicate Everywhere(s: Kernel)
    requires Sized(s)
  {
    forall x {:trigger s.semAdd[x]} :: Live(s, x) ==>
      x in s.ready || x == s.current || s.semAdd[x] != NULL_ADDR
  }

  ghost predicate Family(s: Kernel)
    requires Sized(s)
  {
    && (forall p :: Live(s, p) ==> Within(s.kids[p], |s.parent|) && NoDup(s.kids[p]))
    && (forall p, c {:trigger c in s.kids[p]} :: Live(s, p) && c in s.kids[p] ==> Live(s, c) && s.parent[c] == p)
    && (forall c {:trigger s.parent[c]} :: Live(s, c) && s.parent[c] != NIL ==>
          Live(s, s.parent[c]) && c in s.kids[s.parent[c]] && s.birth[s.parent[c]] < s.birth[c])
    && (forall x {:trigger s.kids[x]} :: Block?(s, x) && x in s.free ==> s.kids[x] == [])
    && (forall c {:trigger s.birth[c]} :: Live(s, c) ==> 0 <= s.birth[c] < s.births)
  }

  // Only the first process has no parent.
  ghost predicate Rooted(s: Kernel) {
    forall x {:trigger s.parent[x]} :: Live(s, x) ==> (s.parent[x] == NIL <==> x == s.first)
  }

  ghost function SoftBlocked(s: Kernel): set<int>
    requires Sized(s)
  {
    set x | 0 <= x < |s.parent| && Live(s, x) && InSem(s.base, s.semAdd[x])
  }

  ghost predicate Counted(s: Kernel)
    requires Sized(s)
  {
    && s.processCount == |s.parent| - |s.free|
    && s.softBlockCount == |SoftBlocked(s)|
  }

  ghost function Debt(v: int): nat {
    if v < 0 then -v else 0
  }

  // A user semaphore blocks exactly as many processes as its value says; a device or
  // the clock at most as many, and the clock's value is never positive.
  ghost predicate Accounted(s: Kernel) {
    forall a {:trigger s.mem[a]} :: a in s.mem ==>
      && |QueueAt(s.blocked, a)| <= Debt(s.mem[a])
      && (!InSem(s.base, a) ==> |QueueAt(s.blocked, a)| == Debt(s.mem[a]))
      && (a == SemAddr(s.base, CLOCK) ==> s.mem[a] <= 0)
  }

  // What holds even in the middle of a kill.
  ghost predicate Structure(s: Kernel) {
    Sized(s) && Addressed(s) && Located(s) && Family(s)
  }

  ghost predicate Inv(s: Kernel) {
    Structure(s) && Running(s) && Everywhere(s) && Rooted(s) && Counted(s) && Accounted(s)
  }

  // No block is in two queues, nor in a queue and free.
  ghost predicate Apart(s: Kernel) {
    && (forall a, x {:trigger x in s.blocked[a]} :: a in s.blocked && x in s.blocked[a] ==>
          x !in s.ready && x !in s.free)
    && (forall x :: x in s.ready ==> x !in s.free)
  }

  lemma StructureApart(s: Kernel)
    requires Structure(s)
    ensures Apart(s)
    ensures forall a, x {:trigger x in s.blocked[a]} :: a in s.blocked && x in s.blocked[a] ==>
      Live(s, x) && s.semAdd[x] == a && a != NULL_ADDR
    ensures forall a :: a in s.blocked ==> s.blocked[a] != []
  {
    hide NoDup, Family;
  }

  lemma QueueApart(s: Kernel, a: int)
    requires Apart(s)
    ensures forall x :: x in QueueAt(s.blocked, a) ==> x !in s.ready && x !in s.free
    ensures a in s.blocked ==> QueueAt(s.blocked, a) == s.blocked[a]
  {
    assert a in s.blocked ==> forall x :: x in QueueAt(s.blocked, a) ==> x in s.blocked[a];
  }

  // A live process that carries an address is in the queue of that address.
  lemma CarriesItsQueue(s: Kernel, p: int)
    requires Structure(s) && Live(s, p) && s.semAdd[p] != NULL_ADDR
    ensures s.semAdd[p] in s.blocked && p in s.blocked[s.semAdd[p]] && s.semAdd[p] in s.mem && Inner(s.semAdd[p])
  {
    hide NoDup, Within, Family;
  }

  lemma SizedLike(s: Kernel)
    requires Structure(s)
    ensures Sized(s)
  {
  }

  // A free block is in nobody's family, and on top of the stack only once.
  lemma FreeApart(s: Kernel)
    requires Structure(s)
    ensures forall p, c {:trigger c in s.kids[p]} ::
      0 <= p < |s.kids| && p !in s.free && c in s.kids[p] ==> c !in s.free
    ensures s.free != [] ==> Block?(s, s.free[0]) && s.free[0] in s.free && s.free[0] !in s.free[1..]
    ensures s.free != [] ==> forall x :: x in s.free[1..] ==> x in s.free
    ensures forall x :: x in s.free ==> x !in s.ready
    ensures forall a, x {:trigger x in s.blocked[a]} :: a in s.blocked && x in s.blocked[a] ==> x !in s.free
  {
    forall p, c {:trigger c in s.kids[p]} | 0 <= p < |s.kids| && p !in s.free && c in s.kids[p]
      ensures c !in s.free
    {
      assert Live(s, p);
    }
  }

  lemma CarriesItsQueueIfAny(s: Kernel, p: int)
    requires Structure(s) && Live(s, p)
    ensures s.semAdd[p] == NULL_ADDR || (s.semAdd[p] in s.mem && Inner(s.semAdd[p]))
  {
    if s.semAdd[p] != NULL_ADDR {
      CarriesItsQueue(s, p);
    }
  }

  lemma ApartSame(s: Kernel, t: Kernel)
    requires Apart(s) && t.blocked == s.blocked && t.ready == s.ready && t.free == s.free
    ensures Apart(t)
  {
  }

  lemma SemInMem(s: Kernel, i: int)
    requires Structure(s) && 0 <= i < TOTALSEM
    ensures SemAddr(s.base, i) in s.mem && Inner(SemAddr(s.base, i))
  {
  }

  // Nothing structural depends on the value of a semaphore.
  lemma AddedStructure(s: Kernel, a: int, k: int)
    requires Structure(s) && a in s.mem
    ensures Structure(Added(s, a, k)) && Inner(a)
  {
    hide Tagged, NoDup, Within;
    var t := Added(s, a, k);
    assert t.mem.Keys == s.mem.Keys;
    assert forall c :: c in t.mem <==> c in s.mem;
    assert Located(t) && Family(t);
  }

  // The front of a queue that leaves it is in no queue.
  lemma WokenApart(s: Kernel, a: int)
    requires Structure(s) && QueueAt(s.blocked, a) != []
    ensures var p, b := s.blocked[a][0], Unblock(s.blocked, a, s.blocked[a][0]);
      && Live(s, p) && p !in s.ready
      && Apart(s.(blocked := b, semAdd := Put(s.semAdd, p, NULL_ADDR)))
      && (forall c, x {:trigger x in b[c]} :: c in b && x in b[c] ==> x != p)
  {
    hide Minus, NoDup, Within, Family;
    var p, b := s.blocked[a][0], Unblock(s.blocked, a, s.blocked[a][0]);
    StructureApart(s);
    assert p in s.blocked[a];
    MinusElems(s.blocked[a], {p});
    forall c, x {:trigger x in b[c]} | c in b && x in b[c]
      ensures x != p && x !in s.ready && x !in s.free
    {
      assert c in s.blocked && x in s.blocked[c];
    }
  }

  // The running process that blocks is in no other queue.
  lemma BlockedApart(s: Kernel, a: int)
    requires Structure(s) && Running(s) && s.current != NIL
    ensures Apart(Blocked(s, a)) && Block?(Blocked(s, a), s.current)
  {
    hide NoDup, Within, Family;
    var t := Blocked(s, a);
    StructureApart(s);
    QueueApart(s, a);
    forall c, x {:trigger x in t.blocked[c]} | c in t.blocked && x in t.blocked[c]
      ensures x !in t.ready && x !in t.free
    {
      assert c != a ==> c in s.blocked && x in s.blocked[c];
      assert c == a ==> x == s.current || x in QueueAt(s.blocked, a);
    }
  }

  lemma BilledSame(s: Kernel, tk: Ticks)
    ensures Apart(s) ==> Apart(Billed(s, tk).(now := tk.start))
    ensures var t := Billed(s, tk);
      t.ready == s.ready && t.processCount == s.processCount && t.softBlockCount == s.softBlockCount
  {
  }

  ghost function Below(n: nat): (r: set<int>)
    ensures |r| == n && forall x :: x in r <==> 0 <= x < n
  {
    if n == 0 then {} else Below(n - 1) + {n - 1}
  }

  // While a process runs, fewer semaphores than blocks have a queue.
  lemma QueuesCount(s: Kernel)
    requires Structure(s) && Running(s) && s.current != NIL
    ensures |s.blocked.Keys| < |s.parent|
  {
    hide NoDup, Family;
    var all := Below(|s.parent|);
    var w := Carriers(s.semAdd, s.blocked.Keys);
    KeysCount(s.semAdd, s.blocked, s.blocked.Keys);
    assert w <= all - {s.current};
    SubsetCard(w, all - {s.current});
  }

  // ------------------------------------------------- ancestors and subtrees

  lemma {:induction false} AncTrans(s: Kernel, p: int, q: int, x: int)
    requires Sized(s)
    requires Anc(s.parent, s.birth, p, q) && Anc(s.parent, s.birth, q, x)
    ensures Anc(s.parent, s.birth, p, x)
    decreases if 0 <= x < |s.birth| then s.birth[x] else 0
  {
    if x != q {
      AncTrans(s, p, q, s.parent[x]);
    }
  }

  lemma {:induction false} AncOlder(s: Kernel, p: int, x: int)
    requires Sized(s) && Anc(s.parent, s.birth, p, x)
    ensures Block?(s, p) && Block?(s, x) && (x != p ==> s.birth[p] < s.birth[x])
    decreases if 0 <= x < |s.birth| then s.birth[x] else 0
  {
    if x != p {
      AncOlder(s, p, s.parent[x]);
    }
  }

  lemma DescSelf(s: Kernel, p: int)
    requires Structure(s) && Live(s, p)
    ensures p in Desc(s, p)
  {
  }

  lemma DescKid(s: Kernel, p: int, x: int, c: int)
    requires Structure(s) && Live(s, p) && x in Desc(s, p) && c in s.kids[x]
    ensures c in Desc(s, p) && c != p
  {
    assert Live(s, c) && s.parent[c] == x;
    AncOlder(s, p, x);
  }

  // A process without children is all of its subtree.
  lemma {:induction false} DescLeaf(s: Kernel, p: int, x: int)
    requires Structure(s) && Live(s, p) && s.kids[p] == [] && x in Desc(s, p)
    ensures x == p
    decreases if 0 <= x < |s.birth| then s.birth[x] else 0
  {
    if x != p {
      var y := s.parent[x];
      assert Live(s, y) && x in s.kids[y];
      DescLeaf(s, p, y);
    }
  }

  // The processes of v take all their children with them.
  ghost predicate Closed(s: Kernel, v: set<int>)
    requires |s.kids| == |s.parent|
  {
    && (forall x :: x in v ==> Live(s, x))
    && (forall x, c {:trigger c in s.kids[x]} :: x in v && c in s.kids[x] ==> c in v)
  }

  lemma DescClosed(s: Kernel, p: int)
    requires Structure(s) && Live(s, p)
    ensures Closed(s, Desc(s, p))
  {
    forall x, c {:trigger c in s.kids[x]} | x in Desc(s, p) && c in s.kids[x]
      ensures c in Desc(s, p)
    {
      DescKid(s, p, x, c);
    }
  }

  // Removing whole subtrees does not change who descends from whom among the rest.
  lemma {:induction false} AncSurvives(s: Kernel, v: set<int>, p: int, x: int)
    requires Structure(s) && Closed(s, v) && Live(s, x) && x !in v
    ensures Anc(Cleared(s.parent, v, NIL), s.birth, p, x) <==> Anc(s.parent, s.birth, p, x)
    decreases s.birth[x]
  {
    var y := s.parent[x];
    if y != NIL {
      assert Live(s, y) && x in s.kids[y];
      assert y !in v;
      if x != p {
        AncSurvives(s, v, p, y);
      }
    }
  }

  // ------------------------------------------------- removing whole subtrees

  lemma PurgeFamily(s: Kernel, o: seq<int>)
    requires Structure(s) && Closed(s, Elems(o))
    ensures Family(Purged(s, o))
  {
    hide Minus, Purged;
    var v, t := Elems(o), Purged(s, o);
    PurgedFields(s, o);
    forall p | Live(t, p)
      ensures Live(s, p) && p !in v && t.kids[p] == Minus(s.kids[p], v)
      ensures Within(t.kids[p], |t.parent|) && NoDup(t.kids[p])
    {
      MinusNoDup(s.kids[p], v);
      MinusWithin(s.kids[p], v, |s.parent|);
    }
    forall x | Block?(t, x) && x in t.free
      ensures t.kids[x] == []
    {
      assert Minus([], v) == [] by { MinusNone([], v); }
    }
    forall p, c {:trigger c in t.kids[p]} | Live(t, p) && c in t.kids[p]
      ensures Live(t, c) && t.parent[c] == p
    {
      MinusElems(s.kids[p], v);
    }
    forall c | Live(t, c) && t.parent[c] != NIL
      ensures Live(t, t.parent[c]) && c in t.kids[t.parent[c]] && t.birth[t.parent[c]] < t.birth[c]
    {
      var p := s.parent[c];
      assert Live(s, c) && Live(s, p) && c in s.kids[p];
      assert p !in v;
      MinusElems(s.kids[p], v);
    }
  }

  // The fields of a purged state, one by one.
  lemma PurgedFields(s: Kernel, o: seq<int>)
    requires Sized(s)
    ensures var t, v := Purged(s, o), Elems(o);
      && Sized(t) && |t.parent| == |s.parent| && t.free == o + s.free
      && t.birth == s.birth && t.births == s.births && t.base == s.base && t.current == s.current
      && t.mem.Keys == s.mem.Keys
      && (forall x {:trigger t.parent[x]} :: Block?(s, x) ==> t.parent[x] == if x in v then NIL else s.parent[x])
      && (forall x {:trigger t.semAdd[x]} :: Block?(s, x) ==> t.semAdd[x] == if x in v then NULL_ADDR else s.semAdd[x])
      && (forall x {:trigger t.kids[x]} :: Block?(s, x) ==> t.kids[x] == if x in v then [] else Minus(s.kids[x], v))
      && (forall x :: Live(t, x) <==> Live(s, x) && x !in v)
  {
    hide Minus;
  }

  lemma PurgedAt(s: Kernel, o: seq<int>, a: int)
    requires Structure(s) && a in Purged(s, o).blocked
    ensures a in s.blocked
    ensures var q := Purged(s, o).blocked[a];
      q == Minus(s.blocked[a], Elems(o)) && q != [] && NoDup(q)
      && forall x :: x in q <==> x in s.blocked[a] && x !in Elems(o)
  {
    hide Minus;
    MinusNoDup(s.blocked[a], Elems(o));
    MinusElems(s.blocked[a], Elems(o));
  }

  lemma PurgeAddressed(s: Kernel, o: seq<int>)
    requires Structure(s)
    ensures Addressed(Purged(s, o))
  {
    hide Minus, Purged, NoDup, Tagged, Family;
    var t := Purged(s, o);
    PurgedFields(s, o);
    forall a | a in t.blocked
      ensures a in t.mem && Inner(a) && t.blocked[a] != [] && NoDup(t.blocked[a])
    {
      PurgedAt(s, o, a);
    }
    assert forall a :: a in t.mem <==> a in s.mem;
  }

  lemma PurgeLists(s: Kernel, o: seq<int>)
    requires Structure(s) && Closed(s, Elems(o)) && NoDup(o)
    ensures var t := Purged(s, o);
      && Within(t.free, |s.parent|) && NoDup(t.free) && Within(t.ready, |s.parent|) && NoDup(t.ready)
      && (forall x :: x in t.ready <==> x in s.ready && x !in Elems(o))
  {
    hide Minus, Tagged;
    MinusWithin(s.ready, Elems(o), |s.parent|);
    MinusElems(s.ready, Elems(o));
    MinusNoDup(s.ready, Elems(o));
    forall i | 0 <= i < |o|
      ensures Live(s, o[i])
    {
      assert o[i] in Elems(o);
    }
  }

  lemma PurgeTagged(s: Kernel, o: seq<int>)
    requires Structure(s)
    ensures Tagged(Purged(s, o).semAdd, Purged(s, o).blocked)
  {
    hide Minus, Purged, NoDup, Within, Family;
    var t := Purged(s, o);
    PurgedFields(s, o);
    forall a, x {:trigger x in t.blocked[a]} | a in t.blocked && x in t.blocked[a]
      ensures 0 <= x < |t.semAdd| && t.semAdd[x] == a
    {
      PurgedAt(s, o, a);
      assert x in s.blocked[a];
    }
  }

  lemma PurgeLocated(s: Kernel, o: seq<int>)
    requires Structure(s) && Closed(s, Elems(o)) && NoDup(o)
    ensures Located(Purged(s, o))
  {
    hide Minus, Purged, NoDup, Within, Family, Addressed, Tagged;
    var v, t := Elems(o), Purged(s, o);
    PurgeLists(s, o);
    PurgedFields(s, o);
    PurgeTagged(s, o);
    forall a, x {:trigger x in t.blocked[a]} | a in t.blocked && x in t.blocked[a]
      ensures x !in t.free
    {
      PurgedAt(s, o, a);
      assert x in s.blocked[a] && (x in o ==> x in v);
    }
    forall x | Live(t, x) && t.semAdd[x] != NULL_ADDR
      ensures t.semAdd[x] in t.blocked && x in t.blocked[t.semAdd[x]]
    {
      PurgedKeeps(s, o, s.semAdd[x], x);
    }
    forall x | x in t.free || x in t.ready
      ensures Block?(s, x) && (x in t.ready ==> x !in t.free && t.semAdd[x] == NULL_ADDR)
    {
      WithinAt(s.free, |s.parent|, x);
      WithinAt(s.ready, |s.parent|, x);
      assert x in o ==> x in v;
    }
  }

  lemma PurgedKeeps(s: Kernel, o: seq<int>, a: int, x: int)
    requires a in s.blocked && x in s.blocked[a] && x !in Elems(o)
    ensures a in Purged(s, o).blocked && x in Purged(s, o).blocked[a]
  {
    hide Minus;
    MinusElems(s.blocked[a], Elems(o));
  }

  lemma PurgeStructure(s: Kernel, o: seq<int>)
    requires Structure(s) && Closed(s, Elems(o)) && NoDup(o)
    ensures Structure(Purged(s, o))
  {
    PurgedFields(s, o);
    PurgeFamily(s, o);
    PurgeAddressed(s, o);
    PurgeLocated(s, o);
  }

  lemma DescPurged(s: Kernel, o: seq<int>, p: int)
    requires Structure(s) && Closed(s, Elems(o)) && NoDup(o)
    ensures Desc(Purged(s, o), p) == Desc(s, p) - Elems(o)
  {
    hide Minus, Anc, Tagged, NoDup, Within;
    var t := Purged(s, o);
    PurgedFields(s, o);
    forall x | Live(t, x)
      ensures Anc(t.parent, t.birth, p, x) <==> Anc(s.parent, s.birth, p, x)
    {
      AncSurvives(s, Elems(o), p, x);
    }
  }

  // ---------------------------------------- one purge after another

  lemma ElemsConcat(a: seq<int>, b: seq<int>)
    ensures Elems(a + b) == Elems(a) + Elems(b)
  {
  }

  lemma PurgedQueuesTwice(b: Queues, v: set<int>, w: set<int>)
    ensures PurgedQueues(PurgedQueues(b, v), w) == PurgedQueues(b, v + w)
  {
    hide Minus;
    forall a | a in b
      ensures Minus(Minus(b[a], v), w) == Minus(b[a], v + w)
      ensures Minus(b[a], v) == [] ==> Minus(b[a], v + w) == []
    {
      MinusMinus(b[a], v, w);
      if Minus(b[a], v) == [] {
        MinusElems([], w);
      }
    }
  }

  lemma PurgedKidsTwice(kids: seq<seq<int>>, v: set<int>, w: set<int>)
    ensures PurgedKids(PurgedKids(kids, v), w) == PurgedKids(kids, v + w)
  {
    hide Minus;
    forall i | 0 <= i < |kids|
      ensures PurgedKids(PurgedKids(kids, v), w)[i] == PurgedKids(kids, v + w)[i]
    {
      MinusMinus(kids[i], v, w);
      MinusElems([], w);
    }
  }

  lemma CreditedTwice(s: Kernel, v: set<int>, w: set<int>)
    requires v !! w
    ensures Credited(s.(mem := Credited(s, v), semAdd := Cleared(s.semAdd, v, NULL_ADDR)), w) == Credited(s, v + w)
  {
    forall a | a in s.mem
      ensures |WaitingIn(s.semAdd, v + w, a)|
           == |WaitingIn(s.semAdd, v, a)| + |WaitingIn(Cleared(s.semAdd, v, NULL_ADDR), w, a)|
    {
      var x, y := WaitingIn(s.semAdd, v, a), WaitingIn(Cleared(s.semAdd, v, NULL_ADDR), w, a);
      assert WaitingIn(s.semAdd, v + w, a) == x + y;
      assert x !! y;
    }
  }

  lemma CodedSoftTwice(base: int, semAdd: seq<int>, v: set<int>, w: set<int>)
    requires v !! w
    ensures |CodedSoftIn(base, semAdd, v + w)|
         == |CodedSoftIn(base, semAdd, v)| + |CodedSoftIn(base, Cleared(semAdd, v, NULL_ADDR), w)|
  {
    var x, y := CodedSoftIn(base, semAdd, v), CodedSoftIn(base, Cleared(semAdd, v, NULL_ADDR), w);
    assert CodedSoftIn(base, semAdd, v + w) == x + y;
    assert x !! y;
  }

  // Killing o and then o2 is killing both.
  lemma PurgedTwice(s: Kernel, o: seq<int>, o2: seq<int>)
    requires forall x :: x in o ==> x !in o2
    ensures Purged(Purged(s, o), o2) == Purged(s, o2 + o)
  {
    hide Minus, PurgedQueues, PurgedKids, Credited, CodedSoftIn;
    var v, w := Elems(o), Elems(o2);
    ElemsConcat(o2, o);
    assert forall x :: x in v ==> x in o && x !in w;
    assert Elems(o2 + o) == v + w && v !! w;
    MinusMinus(s.ready, v, w);
    PurgedQueuesTwice(s.blocked, v, w);
    PurgedKidsTwice(s.kids, v, w);
    CreditedTwice(s, v, w);
    CreditedAgain(s, o, w);
    CodedSoftTwice(s.base, s.semAdd, v, w);
    assert o2 + (o + s.free) == (o2 + o) + s.free;
    assert Cleared(Cleared(s.parent, v, NIL), w, NIL) == Cleared(s.parent, v + w, NIL);
    assert Cleared(Cleared(s.semAdd, v, NULL_ADDR), w, NULL_ADDR) == Cleared(s.semAdd, v + w, NULL_ADDR);
  }

  // Credits depend on nothing but the semaphores and the addresses carried.
  lemma CreditedAgain(s: Kernel, o: seq<int>, w: set<int>)
    ensures Credited(Purged(s, o), w)
         == Credited(s.(mem := Credited(s, Elems(o)), semAdd := Cleared(s.semAdd, Elems(o), NULL_ADDR)), w)
  {
    hide Minus;
  }

  // ------------------------------------------------- steps keep the structure

  lemma PushedLists(s: Kernel, p: int)
    requires Within(s.ready, |s.parent|) && NoDup(s.ready) && 0 <= p < |s.parent| && p !in s.ready
    ensures Within(s.ready + [p], |s.parent|) && NoDup(s.ready + [p])
  {
  }

  lemma WokenStructure(s: Kernel, a: int)
    requires Structure(s)
    ensures Structure(Woken(s, a))
  {
    hide Minus, NoDup, Within, Tagged;
    if QueueAt(s.blocked, a) != [] {
      var p, t := s.blocked[a][0], Woken(s, a);
      WokenApart(s, a);
      PushedLists(s, p);
      WokenQueues(s, a);
      assert Family(t);
      assert Located(t);
    }
  }

  lemma WokenQueues(s: Kernel, a: int)
    requires Structure(s) && QueueAt(s.blocked, a) != []
    ensures Tagged(Woken(s, a).semAdd, Woken(s, a).blocked) && Addressed(Woken(s, a))
    ensures forall x {:trigger s.semAdd[x]} :: Live(s, x) && s.semAdd[x] != NULL_ADDR && x != s.blocked[a][0] ==>
      s.semAdd[x] in Woken(s, a).blocked && x in Woken(s, a).blocked[s.semAdd[x]]
  {
    hide Minus, NoDup, Within, Family;
    var p, t := s.blocked[a][0], Woken(s, a);
    WokenApart(s, a);
    MinusElems(s.blocked[a], {p});
    MinusNoDup(s.blocked[a], {p});
    forall c, x {:trigger x in t.blocked[c]} | c in t.blocked && x in t.blocked[c]
      ensures 0 <= x < |t.semAdd| && t.semAdd[x] == c
    {
      assert c in s.blocked && x in s.blocked[c];
    }
  }

  lemma FinishApart(s: Kernel, tk: Ticks)
    requires Structure(s) && Running(s)
    ensures Apart(s) && Apart(FinishStep(s, tk))
    ensures s.current != NIL ==> Live(s, s.current) && s.current !in s.ready
    ensures s.current != NIL ==>
      forall a, x {:trigger x in s.blocked[a]} :: a in s.blocked && x in s.blocked[a] ==> x != s.current
  {
    hide NoDup, Within, Family;
    StructureApart(s);
  }

  // A wake-up does not touch the running process.
  lemma WokenRunning(s: Kernel, a: int)
    requires Structure(s) && Running(s)
    ensures Sized(Woken(s, a)) && Running(Woken(s, a))
  {
    hide Minus, NoDup, Within, Family;
    if QueueAt(s.blocked, a) != [] {
      StructureApart(s);
      assert s.blocked[a][0] in s.blocked[a];
    }
  }

  lemma SoftStructure(s: Kernel, k: int)
    requires Structure(s)
    ensures Structure(Soft(s, k))
    ensures Running(s) ==> Running(Soft(s, k))
  {
    hide NoDup, Within, Tagged;
    assert Family(Soft(s, k)) && Located(Soft(s, k));
  }

  lemma WokenNone(s: Kernel, a: int)
    requires QueueAt(s.blocked, a) == []
    ensures Woken(s, a) == s
  {
  }

  lemma IoDoneStructure(s: Kernel, i: int)
    requires Structure(s) && Running(s) && 0 <= i < TOTALSEM
    ensures Structure(IoDone(s, i)) && Running(IoDone(s, i))
  {
    hide Structure, Running, Woken, Soft;
    var a := SemAddr(s.base, i);
    SemInMem(s, i);
    AddedStructure(s, a, 1);
    AddedRunning(s, a, 1);
    var t := Added(s, a, 1);
    WokenStructure(t, a);
    WokenRunning(t, a);
    SoftStructure(Woken(t, a), -1);
  }

  lemma AddedRunning(s: Kernel, a: int, k: int)
    requires Structure(s) && Running(s)
    ensures Sized(Added(s, a, k)) && Running(Added(s, a, k))
  {
  }

  // ------------------------------------------------- the interval timer

  lemma WokenByClockStructure(s: Kernel, tk: Ticks, k: nat)
    requires Structure(s) && Running(s)
    ensures Structure(WokenByClock(s, tk, k)) && Running(WokenByClock(s, tk, k))
    ensures var t := WokenByClock(s, tk, k);
      t.base == s.base && t.mem == s.mem && t.current == s.current
      && forall c :: c != SemAddr(s.base, CLOCK) ==> (c in t.blocked <==> c in s.blocked)
  {
    hide Structure, Running, Woken, Soft;
    var a := SemAddr(s.base, CLOCK);
    WokenStructure(s, a);
    WokenRunning(s, a);
    var t := Woken(s, a);
    SoftStructure(t, -1);
    WokenElsewhere(s, a);
    if QueueAt(s.blocked, a) != [] {
      var p := s.blocked[a][0];
      TimeStructure(Soft(t, -1), Put(s.time, p, TimeOf(s, p) + (EndOf(tk, k) - tk.stop)));
    }
  }

  lemma WokenElsewhere(s: Kernel, a: int)
    ensures var t, u := Woken(s, a), Soft(Woken(s, a), -1);
      && t.base == u.base == s.base && t.mem == u.mem == s.mem && t.current == u.current == s.current
      && t.time == u.time == s.time && t.blocked == u.blocked
      && forall c :: c != a ==> (c in t.blocked <==> c in s.blocked)
  {
    hide Minus;
  }

  lemma TimeStructure(s: Kernel, time: seq<int>)
    requires Structure(s) && |time| == |s.time|
    ensures Structure(s.(time := time)) && (Running(s) ==> Running(s.(time := time)))
  {
    hide NoDup, Within, Tagged;
    assert Family(s.(time := time)) && Located(s.(time := time));
  }

  // One more round of the drain loop.
  lemma DrainedStep(s: Kernel, tk: Ticks, k: nat)
    requires QueueAt(s.blocked, SemAddr(s.base, CLOCK)) != []
    ensures Drained(s, tk, k) == Drained(WokenByClock(s, tk, k), tk, k + 1)
    ensures var c := SemAddr(s.base, CLOCK); |QueueAt(WokenByClock(s, tk, k).blocked, c)| < |QueueAt(s.blocked, c)|
  {
    hide Minus;
    DrainShrinks(s.blocked, SemAddr(s.base, CLOCK));
  }

  lemma DrainedNone(s: Kernel, tk: Ticks, k: nat)
    requires QueueAt(s.blocked, SemAddr(s.base, CLOCK)) == []
    ensures Drained(s, tk, k) == s && WokenByClock(s, tk, k) == s
  {
  }

  lemma EmptyQueueGone(s: Kernel, a: int)
    requires Structure(s) && QueueAt(s.blocked, a) == []
    ensures a !in s.blocked
  {
  }

  // After k rounds of the drain loop that started in s.
  ghost predicate Draining(s: Kernel, t: Kernel, tk: Ticks, k: nat) {
    && Structure(t) && Running(t) && t.base == s.base && t.mem == s.mem
    && Drained(t, tk, k) == Drained(s, tk, 0)
    && forall c :: c != SemAddr(s.base, CLOCK) ==> (c in t.blocked <==> c in s.blocked)
  }

  lemma DrainRound(s: Kernel, t: Kernel, tk: Ticks, k: nat)
    requires Draining(s, t, tk, k)
    ensures var a, w := SemAddr(s.base, CLOCK), WokenByClock(t, tk, k);
      && Structure(t) && t.base == s.base && a in t.mem && Inner(a)
      && if QueueAt(t.blocked, a) == [] then w == t == Drained(s, tk, 0) && a !in t.blocked
         else Draining(s, w, tk, k + 1) && |QueueAt(w.blocked, a)| < |QueueAt(t.blocked, a)|
  {
    hide Structure, Running, WokenByClock, Drained;
    SemInMem(t, CLOCK);
    WokenByClockStructure(t, tk, k);
    if QueueAt(t.blocked, SemAddr(s.base, CLOCK)) == [] {
      DrainedNone(t, tk, k);
      EmptyQueueGone(t, SemAddr(s.base, CLOCK));
    } else {
      DrainedStep(t, tk, k);
    }
  }

  lemma DrainStart(s: Kernel, tk: Ticks)
    requires Structure(s) && Running(s)
    ensures Draining(s, s, tk, 0)
  {
  }

  lemma DrainEnd(s: Kernel, t: Kernel, tk: Ticks, k: nat)
    requires Draining(s, t, tk, k) && t == Drained(s, tk, 0) && QueueAt(t.blocked, SemAddr(s.base, CLOCK)) == []
    ensures Draining(s, t, tk, 0)
  {
    hide Structure, Running, Drained;
    DrainedNone(t, tk, 0);
  }

  // Whether the loop ends can be seen before it starts.
  lemma DrainEndsOrNot(s: Kernel, t: Kernel, tk: Ticks)
    requires Draining(s, t, tk, 0)
    ensures DrainEnds(s) <==> !exists a :: a in t.blocked && a > SemAddr(s.base, CLOCK)
    ensures Structure(t) && Running(t) && SemAddr(s.base, CLOCK) in t.mem && t.base == s.base && t.mem == s.mem
  {
    hide Structure, Running, Drained;
    SemInMem(t, CLOCK);
  }

  lemma SetStructure(s: Kernel, a: int, v: int)
    requires Structure(s) && Running(s) && a in s.mem
    ensures Structure(s.(mem := s.mem[a := v])) && Running(s.(mem := s.mem[a := v]))
  {
    hide Structure, Running;
    AddedStructure(s, a, v - Value(s, a));
    AddedRunning(s, a, v - Value(s, a));
  }

  // ------------------------------------------------- the initial state

  // main() once it has set the semaphores, before it allocates a process.
  ghost function Zeroed(s: Kernel): Kernel {
    s.(mem := s.mem + SemArray(s.base, TOTALSEM))
  }

  // main() with its process allocated but in no queue yet.
  ghost function Booting(s: Kernel): Kernel {
    var z := Allocated(Zeroed(s));
    z.(current := Head(s.free), first := Head(s.free), processCount := z.processCount + 1)
  }

  ghost function Booted(s: Kernel): Kernel {
    Pushed(Booting(s), Head(s.free)).(current := NIL)
  }

  lemma SemArrayAt(base: int, k: nat, a: int)
    ensures a in SemArray(base, k) ==> base <= a < SemAddr(base, k) && (a - base) % WORDLEN == 0
    ensures forall i :: 0 <= i < k ==> SemAddr(base, i) in SemArray(base, k)
  {
  }

  lemma SemArrayNext(m: map<int, int>, base: int, k: nat)
    ensures m + SemArray(base, k + 1) == (m + SemArray(base, k))[SemAddr(base, k) := 0]
    ensures m + SemArray(base, 0) == m
  {
    assert forall a :: a in SemArray(base, k + 1) <==> a in SemArray(base, k) || a == SemAddr(base, k);
  }

  lemma ZeroedStructure(s: Kernel)
    requires Blank(s)
    ensures Structure(Zeroed(s))
  {
    hide NoDup, Within, Tagged, SemArray, Located, Family;
    BlankLists(s);
    ZeroedLists(s);
    ZeroedAddresses(s);
  }

  lemma ZeroedLists(s: Kernel)
    requires Sized(s) && Located(s) && Family(s)
    ensures Sized(Zeroed(s)) && Located(Zeroed(s)) && Family(Zeroed(s))
  {
    hide NoDup, Within, Tagged, SemArray;
  }

  lemma ZeroedAddresses(s: Kernel)
    requires Blank(s)
    ensures Addressed(Zeroed(s))
  {
    hide NoDup, Within;
    var t := Zeroed(s);
    SemArrayAt(s.base, TOTALSEM, 0);
    assert forall i :: 0 <= i < TOTALSEM ==> SemAddr(t.base, i) in t.mem;
    forall a | a in t.mem
      ensures Inner(a) && (InSem(t.base, a) ==> (a - t.base) % WORDLEN == 0)
    {
      SemArrayAt(s.base, TOTALSEM, a);
    }
  }

  lemma ZeroedFields(s: Kernel)
    ensures var z := Zeroed(s); z.free == s.free && z.current == s.current && z.processCount == s.processCount
  {
  }

  lemma BootedFields(s: Kernel)
    ensures var t := Booted(s);
      && t.mem == s.mem + SemArray(s.base, TOTALSEM) && t.base == s.base && |t.parent| == |s.parent|
      && t.current == NIL && t.time == s.time
  {
  }

  lemma BlankLists(s: Kernel)
    requires Blank(s)
    ensures s.free != [] && Located(s) && Family(s)
  {
    assert 0 in s.free;
  }

  lemma BootState(s: Kernel)
    requires Blank(s)
    ensures s.free != [] && Apart(Booted(s))
    ensures var t := Booting(s);
      t.current == Head(s.free) && Apart(t) && Live(t, t.current) && t.current !in t.ready && t.blocked == map[]
  {
    assert 0 in s.free && s.free == [s.free[0]] + s.free[1..];
  }

  lemma BootInitial(s: Kernel)
    requires Blank(s)
    ensures Initial(Booted(s))
  {
    hide SemArray, NoDup, Within;
    BootFree(s);
    BootMem(s);
    BootFields(s);
  }

  // The first process is the top of the free stack, and the rest stays free.
  lemma BootFree(s: Kernel)
    requires Blank(s)
    ensures var t := Booted(s);
      && 0 <= t.first < |s.parent| && t.ready == [t.first] && Within(t.free, |s.parent|) && NoDup(t.free)
      && forall x :: 0 <= x < |s.parent| ==> (x in t.free <==> x != t.first)
  {
    assert 0 in s.free;
    TopOff(s.free, |s.parent|);
  }

  // Without its top the stack of all blocks holds all others.
  lemma TopOff(free: seq<int>, n: nat)
    requires free != [] && Within(free, n) && NoDup(free) && forall x :: 0 <= x < n ==> x in free
    ensures Within(free[1..], n) && NoDup(free[1..]) && 0 <= free[0] < n
    ensures forall x :: 0 <= x < n ==> (x in free[1..] <==> x != free[0])
  {
    assert free == [free[0]] + free[1..];
    assert free[0] in free;
    forall x | 0 <= x < n
      ensures x in free[1..] <==> x != free[0]
    {
      assert x in free;
    }
  }

  lemma BootMem(s: Kernel)
    requires Blank(s)
    ensures var t := Booted(s);
      && (forall a :: a in t.mem ==> Inner(a) && 0 <= t.mem[a])
      && (forall a :: a in t.mem && InSem(s.base, a) ==> a in SemArray(s.base, TOTALSEM) && t.mem[a] == 0)
      && forall a :: a in SemArray(s.base, TOTALSEM) ==> a in t.mem
  {
    var t := Booted(s);
    forall a | a in t.mem
      ensures Inner(a) && 0 <= t.mem[a]
      ensures InSem(t.base, a) ==> a in SemArray(t.base, TOTALSEM) && t.mem[a] == 0
    {
      SemArrayAt(s.base, TOTALSEM, a);
    }
  }

  lemma BootFields(s: Kernel)
    requires Blank(s)
    ensures var t := Booted(s);
      && |t.semAdd| == |t.time| == |t.kids| == |t.birth| == |t.parent| == |s.parent| && t.base == s.base
      && (forall x {:trigger t.kids[x]} :: 0 <= x < |t.kids| ==> t.kids[x] == [])
      && t.blocked == map[] && t.current == NIL
      && 0 <= t.first < |s.parent| && t.parent[t.first] == NIL && t.semAdd[t.first] == NULL_ADDR
      && t.birth[t.first] == 0 && t.births == 1 && t.processCount == 1 && t.softBlockCount == 0
  {
    hide SemArray, NoDup;
    assert 0 in s.free && s.free[0] in s.free;
  }
}
