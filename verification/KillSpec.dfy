// The recursive kill: removing children first, in any order of the recursion, removes
// exactly the subtree.
module KillSpecs {
  import opened Lists
  import opened Links
  import opened AslLists
  import opened Kernels
  import opened KernelInvs

  lemma DetachedStructure(s: Kernel, c: int)
    requires Structure(s) && Live(s, c) && s.parent[c] != NIL
    ensures Structure(Detached(s, c))
  {
    hide Minus, Tagged;
    var p, t := s.parent[c], Detached(s, c);
    assert Live(s, p) && c in s.kids[p];
    MinusElems(s.kids[p], {c});
    MinusNoDup(s.kids[p], {c});
    MinusWithin(s.kids[p], {c}, |s.parent|);
    assert Located(t) && Addressed(t);
    forall q, x {:trigger x in t.kids[q]} | Live(t, q) && x in t.kids[q]
      ensures Live(t, x) && t.parent[x] == q
    {
      assert Live(s, q) && x in s.kids[q];
    }
    forall x | Live(t, x) && t.parent[x] != NIL
      ensures Live(t, t.parent[x]) && x in t.kids[t.parent[x]] && t.birth[t.parent[x]] < t.birth[x]
    {
      assert Live(s, x) && s.parent[x] == t.parent[x];
    }
  }

  lemma {:induction false} AncDetached(s: Kernel, c: int, x: int)
    requires Sized(s) && Block?(s, c)
    ensures Anc(Put(s.parent, c, NIL), s.birth, c, x) <==> Anc(s.parent, s.birth, c, x)
    decreases if 0 <= x < |s.birth| then s.birth[x] else 0
  {
    if x != c && 0 <= x < |s.parent| && 0 <= s.parent[x] < |s.parent| && 0 <= s.birth[s.parent[x]] < s.birth[x] {
      AncDetached(s, c, s.parent[x]);
    }
  }

  lemma DescDetached(s: Kernel, c: int)
    requires Sized(s) && Block?(s, c)
    ensures Desc(Detached(s, c), c) == Desc(s, c)
  {
    hide Minus, Anc;
    var t := Detached(s, c);
    forall x | 0 <= x < |s.parent|
      ensures Anc(t.parent, t.birth, c, x) <==> Anc(s.parent, s.birth, c, x)
    {
      AncDetached(s, c, x);
    }
  }

  lemma PurgeDetached(s: Kernel, c: int, o: seq<int>)
    requires Sized(s) && Block?(s, c) && c in o
    ensures Purged(Detached(s, c), o) == Purged(s, o)
  {
    hide Minus, PurgedQueues, Credited, CodedSoftIn;
    var v, t := Elems(o), Detached(s, c);
    var p := ParentOf(s, c);
    assert {c} + v == v;
    MinusMinus(KidsOf(s, p), {c}, v);
    assert PurgedKids(t.kids, v) == PurgedKids(s.kids, v);
    assert Cleared(t.parent, v, NIL) == Cleared(s.parent, v, NIL);
    CreditedSame(s, t, v);
  }

  lemma CreditedSame(s: Kernel, t: Kernel, v: set<int>)
    requires s.mem == t.mem && s.base == t.base && s.semAdd == t.semAdd
    ensures Credited(s, v) == Credited(t, v)
  {
  }

  // What the loop over the children of p has done so far: o are dead, whole subtrees
  // below p.
  ghost predicate Killing(s: Kernel, p: int, o: seq<int>)
    requires Sized(s)
  {
    && NoDup(o) && Closed(s, Elems(o)) && p !in o
    && (forall x :: x in o ==> x in Desc(s, p))
  }

  lemma DescTrans(s: Kernel, p: int, c: int, x: int)
    requires Sized(s) && c in Desc(s, p) && x in Desc(s, c)
    ensures x in Desc(s, p)
  {
    AncTrans(s, p, c, x);
  }

  // Two lots of whole subtrees are one lot.
  lemma ClosedTwice(s: Kernel, o: seq<int>, o2: seq<int>)
    requires Structure(s) && Closed(s, Elems(o)) && NoDup(o) && Closed(Purged(s, o), Elems(o2))
    ensures Closed(s, Elems(o2 + o))
  {
    hide Minus, Anc, Purged, Tagged, NoDup;
    PurgedFields(s, o);
    ElemsConcat(o2, o);
    var v, w := Elems(o), Elems(o2);
    forall x, c {:trigger c in s.kids[x]} | x in v + w && c in s.kids[x]
      ensures c in v + w
    {
      if x !in v {
        MinusElems(s.kids[x], v);
        assert c in v || c in Purged(s, o).kids[x];
      }
    }
  }

  // One more child c of p dies with everything below it.
  lemma KillStep(s: Kernel, p: int, o: seq<int>, c: int, o2: seq<int>)
    requires Structure(s) && Live(s, p) && Killing(s, p, o)
    requires Structure(Purged(s, o)) && c in Purged(s, o).kids[p]
    requires Elems(o2) == Desc(Detached(Purged(s, o), c), c) && NoDup(o2)
    ensures Purged(Detached(Purged(s, o), c), o2) == Purged(s, o2 + o)
    ensures Killing(s, p, o2 + o) && Structure(Purged(s, o2 + o)) && Live(Purged(s, o2 + o), p)
    ensures |KidsOf(Purged(s, o2 + o), p)| < |KidsOf(Purged(s, o), p)|
  {
    hide Minus, Anc, Purged, Detached, Tagged, NoDup, Desc, Family, Closed;
    var t := Purged(s, o);
    PurgedFields(s, o);
    KidBelow(t, p, c);
    DescDetached(t, c);
    DescClosed(t, c);
    DescSelf(t, c);
    PurgeDetached(t, c, o2);
    DescPurged(s, o, p);
    DescPurged(s, o, c);
    forall x | x in o2
      ensures x !in o && x in Desc(s, p) && x != p
    {
      BelowKid(t, p, c, x);
    }
    PurgedTwice(s, o, o2);
    ClosedTwice(s, o, o2);
    NoDupConcat(o2, o);
    PurgeStructure(s, o2 + o);
    PurgedFields(s, o2 + o);
    FewerKids(s, p, o, c, o2);
  }

  lemma KidBelow(s: Kernel, p: int, c: int)
    requires Structure(s) && Live(s, p) && c in s.kids[p]
    ensures Live(s, c) && s.parent[c] == p
  {
  }

  lemma KidsDistinct(s: Kernel, p: int)
    requires Structure(s) && Live(s, p)
    ensures NoDup(s.kids[p])
  {
  }

  lemma ParentLive(s: Kernel, p: int)
    requires Structure(s) && Live(s, p) && s.parent[p] != NIL
    ensures Live(s, s.parent[p]) && p in s.kids[s.parent[p]]
  {
  }

  lemma BelowKid(s: Kernel, p: int, c: int, x: int)
    requires Structure(s) && Live(s, p) && c in s.kids[p] && x in Desc(s, c)
    ensures x in Desc(s, p) && x != p && Live(s, x)
  {
    DescSelf(s, p);
    DescKid(s, p, p, c);
    DescTrans(s, p, c, x);
    AncOlder(s, c, x);
    assert s.birth[p] < s.birth[c];
  }

  lemma NoDupConcat(a: seq<int>, b: seq<int>)
    requires NoDup(a) && NoDup(b) && forall x :: x in a ==> x !in b
    ensures NoDup(a + b)
  {
    forall i, j | 0 <= i < |a| && 0 <= j < |b|
      ensures a[i] != b[j]
    {
      assert a[i] in a && b[j] in b;
    }
  }

  // Once p has no children left, everything below it is dead.
  lemma KillDone(s: Kernel, p: int, o: seq<int>)
    requires Structure(s) && Live(s, p) && Killing(s, p, o)
    requires Structure(Purged(s, o)) && Purged(s, o).kids[p] == []
    ensures Elems([p] + o) == Desc(s, p) && NoDup([p] + o) && Closed(s, Elems([p] + o))
    ensures Purged(Purged(s, o), [p]) == Purged(s, [p] + o)
  {
    hide Minus, Anc, Purged, Tagged, Desc, Family;
    var t := Purged(s, o);
    PurgedFields(s, o);
    DescPurged(s, o, p);
    DescSelf(s, p);
    ElemsConcat([p], o);
    forall x
      ensures x in Elems([p] + o) <==> x in Desc(s, p)
    {
      if x in Desc(s, p) && x !in Elems(o) {
        DescLeaf(t, p, x);
      }
    }
    PurgedTwice(s, o, [p]);
    DescClosed(s, p);
    assert Elems([p] + o) == Desc(s, p);
  }

  // ---------------------------------------- the last victim of a kill

  lemma PurgedQueuesOne(b: Queues, a: int, p: int)
    requires forall c :: c in b ==> b[c] != []
    requires forall c, x {:trigger x in b[c]} :: c in b && x in b[c] && x == p ==> c == a
    ensures PurgedQueues(b, {p}) == if a in b && p in b[a] then Unblock(b, a, p) else b
  {
    hide Minus;
    forall c | c in b && (c != a || p !in b[c])
      ensures Minus(b[c], {p}) == b[c]
    {
      MinusNone(b[c], {p});
    }
  }

  lemma CreditedOne(s: Kernel, p: int)
    requires Structure(s) && Live(s, p)
    ensures s.semAdd[p] != NULL_ADDR && !CodedInSem(s.base, s.semAdd[p]) ==>
      s.semAdd[p] in s.mem && Credited(s, {p}) == s.mem[s.semAdd[p] := s.mem[s.semAdd[p]] + 1]
    ensures s.semAdd[p] == NULL_ADDR || CodedInSem(s.base, s.semAdd[p]) ==> Credited(s, {p}) == s.mem
  {
    hide Tagged, NoDup, Within, Family;
    forall a | a in s.mem
      ensures WaitingIn(s.semAdd, {p}, a) == if s.semAdd[p] == a then {p} else {}
    {
    }
  }

  lemma CodedSoftOne(s: Kernel, p: int)
    requires Sized(s) && Block?(s, p)
    ensures CodedSoftIn(s.base, s.semAdd, {p}) == if CodedInSem(s.base, s.semAdd[p]) then {p} else {}
    ensures s.semAdd[p] == NULL_ADDR ==> !CodedInSem(s.base, s.semAdd[p])
  {
  }

  lemma PurgedKidsOne(s: Kernel, p: int)
    requires Structure(s) && Live(s, p) && s.kids[p] == []
    ensures PurgedKids(s.kids, {p}) ==
      if s.parent[p] == NIL then s.kids else Put(s.kids, s.parent[p], Minus(KidsOf(s, s.parent[p]), {p}))
  {
    hide Minus, Tagged, NoDup, Within;
    forall q | Block?(s, q) && q != p && q != s.parent[p]
      ensures Minus(s.kids[q], {p}) == s.kids[q]
    {
      if q !in s.free {
        assert Live(s, q);
      }
      MinusNone(s.kids[q], {p});
    }
  }

  lemma QueuedOnce(s: Kernel, p: int)
    requires Structure(s) && Live(s, p)
    ensures forall c :: c in s.blocked ==> s.blocked[c] != []
    ensures forall c, x {:trigger x in s.blocked[c]} ::
      c in s.blocked && x in s.blocked[c] && x == p ==> c == s.semAdd[p]
    ensures s.semAdd[p] != NULL_ADDR ==> s.semAdd[p] in s.blocked && p in s.blocked[s.semAdd[p]] && p !in s.ready
    ensures s.semAdd[p] == NULL_ADDR ==> NULL_ADDR !in s.blocked
  {
    hide NoDup, Within, Family;
  }

  // The last steps of a kill remove just p.
  lemma BuriedIsPurged(s: Kernel, p: int)
    requires Structure(s) && Live(s, p) && s.kids[p] == []
    ensures Buried(s, p) == Purged(s, [p])
  {
    hide Minus, Structure, PurgedQueues, PurgedKids, Credited, CodedSoftIn;
    SizedLike(s);
    assert Elems([p]) == {p};
    QueuedOnce(s, p);
    PurgedQueuesOne(s.blocked, s.semAdd[p], p);
    CreditedOne(s, p);
    CodedSoftOne(s, p);
    PurgedKidsOne(s, p);
    assert Cleared(s.parent, {p}, NIL) == Put(s.parent, p, NIL);
    assert Cleared(s.semAdd, {p}, NULL_ADDR) == Put(s.semAdd, p, NULL_ADDR);
    if s.semAdd[p] != NULL_ADDR {
      MinusNone(s.ready, {p});
    }
  }

  lemma OrphanStructure(s: Kernel, p: int)
    requires Structure(s) && Live(s, p)
    ensures s.parent[p] != NIL ==> Structure(Detached(s, p)) && Live(Detached(s, p), p)
  {
    if s.parent[p] != NIL {
      DetachedStructure(s, p);
    }
  }

  // In the middle of a kill p is still there, with the children it has left.
  lemma KidToKill(s: Kernel, p: int, o: seq<int>)
    requires Structure(s) && Live(s, p) && Killing(s, p, o) && Structure(Purged(s, o))
    ensures var t := Purged(s, o);
      && Sized(t) && Live(t, p) && (t.parent[p] == NIL <== s.parent[p] == NIL) && t.current == s.current
      && t.births == s.births && t.birth == s.birth && KidsOf(t, p) == t.kids[p]
      && (t.kids[p] != [] ==>
        var c := t.kids[p][0];
        && Structure(Detached(t, c)) && Live(Detached(t, c), c) && Detached(t, c).parent[c] == NIL
        && t.birth[p] < t.birth[c] < t.births)
  {
    hide Minus, Purged, Desc, Detached, Tagged;
    var t := Purged(s, o);
    PurgedFields(s, o);
    if t.kids[p] != [] {
      var c := t.kids[p][0];
      assert c in t.kids[p];
      KidBelow(t, p, c);
      DetachedStructure(t, c);
      DetachedLive(t, c);
    }
  }

  lemma DetachedLive(s: Kernel, c: int)
    requires Sized(s) && Live(s, c)
    ensures Live(Detached(s, c), c) && Detached(s, c).parent[c] == NIL
  {
  }

  // A dead child no longer counts.
  lemma FewerKids(s: Kernel, p: int, o: seq<int>, c: int, o2: seq<int>)
    requires Sized(s) && Block?(s, p) && p !in o && p !in o2 && c in o2 && c in KidsOf(Purged(s, o), p)
    ensures |KidsOf(Purged(s, o2 + o), p)| < |KidsOf(Purged(s, o), p)|
  {
    hide Minus, Purged;
    PurgedFields(s, o);
    PurgedFields(s, o2 + o);
    var q := s.kids[p];
    ElemsConcat(o2, o);
    assert Elems(o) + Elems(o2) == Elems(o2 + o);
    MinusMinus(q, Elems(o), Elems(o2));
    MinusShorter(Minus(q, Elems(o)), Elems(o2), c);
  }

  lemma KillStart(s: Kernel, p: int)
    requires Structure(s) && Live(s, p)
    ensures Sized(s) && Killing(s, p, []) && Purged(s, []) == s
  {
    hide Minus;
    PurgedNothing(s);
  }

  lemma PurgedNothing(s: Kernel)
    requires Structure(s)
    ensures Purged(s, []) == s
  {
    hide Minus;
    assert Elems([]) == {};
    MinusNone(s.ready, {});
    forall a | a in s.blocked
      ensures Minus(s.blocked[a], {}) == s.blocked[a] != []
    {
      MinusNone(s.blocked[a], {});
    }
    forall i | 0 <= i < |s.kids|
      ensures Minus(s.kids[i], {}) == s.kids[i]
    {
      MinusNone(s.kids[i], {});
    }
    assert PurgedKids(s.kids, {}) == s.kids;
    assert Cleared(s.parent, {}, NIL) == s.parent;
    assert Cleared(s.semAdd, {}, NULL_ADDR) == s.semAdd;
    forall a | a in s.mem
      ensures WaitingIn(s.semAdd, {}, a) == {}
    {
    }
    assert CodedSoftIn(s.base, s.semAdd, {}) == {};
  }

  // Once p has withdrawn it is in no queue.
  lemma WithdrawnApart(s: Kernel, p: int)
    requires Structure(s) && Live(s, p)
    ensures Apart(Withdrawn(s, p)) && Live(Withdrawn(s, p), p) && p !in Withdrawn(s, p).ready
    ensures var b := Withdrawn(s, p).blocked;
      forall a, x {:trigger x in b[a]} :: a in b && x in b[a] ==> x != p
  {
    hide Minus, NoDup, Within, Family;
    var t := Withdrawn(s, p);
    QueuedOnce(s, p);
    MinusElems(s.ready, {p});
    MinusElems(QueueAt(s.blocked, s.semAdd[p]), {p});
    forall a, x {:trigger x in t.blocked[a]} | a in t.blocked && x in t.blocked[a]
      ensures x != p && x !in t.ready && x !in t.free
    {
      assert a in s.blocked && x in s.blocked[a];
    }
  }

  lemma PurgedSame(s: Kernel, o: seq<int>)
    ensures Purged(s, o).current == s.current && |Purged(s, o).parent| == |s.parent|
  {
    hide Minus;
  }
}
