// What it means for link fields to thread a queue, a free stack or a family.
// A link field is the sequence of its values over all blocks; -1 is the null pointer.
module Links {
  import opened Lists

  const NIL: int := -1

  // The null pointer as a semaphore address, and the closing sentinel's address (h/const.h).
  const NULL_ADDR: int := 0xFFFF_FFFF
  const MAXINT: int := 0xEFFF_FFFF

  ghost predicate Within(q: seq<int>, n: nat) {
    forall i {:trigger q[i]} :: 0 <= i < |q| ==> 0 <= q[i] < n
  }

  lemma WithinAt(q: seq<int>, n: nat, x: int)
    requires Within(q, n)
    ensures x in q ==> 0 <= x < n
  {
  }

  lemma MinusWithin(q: seq<int>, v: set<int>, n: nat)
    requires Within(q, n)
    ensures Within(Minus(q, v), n)
  {
    hide Minus;
    MinusElems(q, v);
    var r := Minus(q, v);
    forall i | 0 <= i < |r|
      ensures 0 <= r[i] < n
    {
      var x := r[i];
      assert x in r;
    }
  }

  // Following link runs through q in order and from its end back to its front.
  ghost predicate Ring(link: seq<int>, q: seq<int>) {
    && Within(q, |link|) && NoDup(q)
    && (q != [] ==> link[q[|q| - 1]] == q[0])
    && (forall i {:trigger link[q[i]]} :: 0 <= i < |q| - 1 ==> link[q[i]] == q[i + 1])
  }

  // Following link runs through q backwards and from its front to its end.
  ghost predicate BackRing(link: seq<int>, q: seq<int>) {
    && Within(q, |link|) && NoDup(q)
    && (q != [] ==> link[q[0]] == q[|q| - 1])
    && (forall i {:trigger link[q[i]]} :: 1 <= i < |q| ==> link[q[i]] == q[i - 1])
  }

  // tp is the tail pointer of the circular doubly linked queue q, front first.
  ghost predicate IsProcQ(next: seq<int>, prev: seq<int>, tp: int, q: seq<int>) {
    && |next| == |prev| && Ring(next, q) && BackRing(prev, q)
    && tp == if q == [] then NIL else q[|q| - 1]
  }

  lemma TailOf(next: seq<int>, prev: seq<int>, tp: int, q: seq<int>)
    requires IsProcQ(next, prev, tp, q)
    ensures tp == NIL <==> q == []
  {
  }

  lemma FrontOf(next: seq<int>, prev: seq<int>, tp: int, q: seq<int>)
    requires IsProcQ(next, prev, tp, q) && q != []
    ensures 0 <= q[0] < |next|
  {
  }

  // A queue only depends on the links of its own blocks.
  lemma ProcQFrame(next: seq<int>, prev: seq<int>, next': seq<int>, prev': seq<int>, tp: int, q: seq<int>, s: set<int>)
    requires IsProcQ(next, prev, tp, q) && SameBut(next, next', s) && SameBut(prev, prev', s)
    requires forall x :: x in q ==> x !in s
    ensures IsProcQ(next', prev', tp, q)
  {
  }

  ghost function After(q: seq<int>, k: nat): int
    requires k < |q|
  {
    q[if k == |q| - 1 then 0 else k + 1]
  }

  ghost function Before(q: seq<int>, k: nat): int
    requires k < |q|
  {
    q[if k == 0 then |q| - 1 else k - 1]
  }

  lemma NeighboursAt(next: seq<int>, prev: seq<int>, tp: int, q: seq<int>, k: nat)
    requires IsProcQ(next, prev, tp, q) && k < |q|
    ensures next[q[k]] == After(q, k) && prev[q[k]] == Before(q, k)
  {
  }

  lemma RingCut(next: seq<int>, q: seq<int>, k: nat, r: seq<int>)
    requires Ring(next, q) && |q| > 1 && Skips(q, k, r)
    ensures Ring(next[Before(q, k) := After(q, k)], r)
  {
    var next' := next[Before(q, k) := After(q, k)];
    forall i | 0 <= i < |r| - 1
      ensures next'[r[i]] == r[i + 1]
    {
      assert next[q[if i < k then i else i + 1]] == q[if i < k then i + 1 else i + 2];
    }
  }

  lemma BackRingCut(prev: seq<int>, q: seq<int>, k: nat, r: seq<int>)
    requires BackRing(prev, q) && |q| > 1 && Skips(q, k, r)
    ensures BackRing(prev[After(q, k) := Before(q, k)], r)
  {
    var prev' := prev[After(q, k) := Before(q, k)];
    forall i | 1 <= i < |r|
      ensures prev'[r[i]] == r[i - 1]
    {
      assert prev[q[if i < k then i else i + 1]] == q[if i < k then i - 1 else i];
    }
  }

  // Linking q[k]'s neighbours to each other takes q[k] out of the queue.
  lemma ProcQCut(next: seq<int>, prev: seq<int>, tp: int, q: seq<int>, k: nat)
    requires IsProcQ(next, prev, tp, q) && |q| > 1 && k < |q|
    ensures IsProcQ(next[Before(q, k) := After(q, k)], prev[After(q, k) := Before(q, k)],
                    if k == |q| - 1 then Before(q, k) else tp, Minus(q, {q[k]}))
  {
    hide Minus;
    MinusSkips(q, k);
    var r := Minus(q, {q[k]});
    RingCut(next, q, k, r);
    BackRingCut(prev, q, k, r);
  }

  // Following link runs through s in order and ends at the null pointer.
  ghost predicate Chain(link: seq<int>, s: seq<int>) {
    && Within(s, |link|) && NoDup(s)
    && (s != [] ==> link[s[|s| - 1]] == NIL)
    && (forall i {:trigger link[s[i]]} :: 0 <= i < |s| - 1 ==> link[s[i]] == s[i + 1])
  }

  // Following link runs through s backwards and ends at the null pointer.
  ghost predicate BackChain(link: seq<int>, s: seq<int>) {
    && Within(s, |link|) && NoDup(s)
    && (s != [] ==> link[s[0]] == NIL)
    && (forall i {:trigger link[s[i]]} :: 1 <= i < |s| ==> link[s[i]] == s[i - 1])
  }

  ghost function Head(s: seq<int>): int {
    if s == [] then NIL else s[0]
  }

  // h heads the null-terminated stack s.
  ghost predicate IsStack(next: seq<int>, h: int, s: seq<int>) {
    Chain(next, s) && h == Head(s)
  }

  lemma StackRange(next: seq<int>, h: int, s: seq<int>)
    requires IsStack(next, h, s)
    ensures forall x :: x in s ==> 0 <= x < |next|
    ensures h == NIL <==> s == []
    ensures s != [] ==> 0 <= s[0] < |next| && forall x :: x in s[1..] ==> x in s && x != s[0]
  {
  }

  lemma SameAsSelf(a: seq<int>, s: set<int>)
    ensures SameBut(a, a, s)
  {
  }

  lemma StackFrame(next: seq<int>, next': seq<int>, h: int, s: seq<int>, v: set<int>)
    requires IsStack(next, h, s) && SameBut(next, next', v)
    requires forall x :: x in s ==> x !in v
    ensures IsStack(next', h, s)
  {
  }

  // The links of one generation of a process tree.
  datatype Kin = Kin(child: seq<int>, parent: seq<int>, prevSib: seq<int>, nextSib: seq<int>)

  // ks are the children of prnt, newest first.
  ghost predicate IsFamily(t: Kin, prnt: int, ks: seq<int>) {
    && |t.child| == |t.parent| == |t.prevSib| == |t.nextSib|
    && 0 <= prnt < |t.child| && t.child[prnt] == Head(ks)
    && Chain(t.nextSib, ks) && BackChain(t.prevSib, ks)
    && (forall i {:trigger t.parent[ks[i]]} :: 0 <= i < |ks| ==> t.parent[ks[i]] == prnt)
  }

  // t' differs from t only in the child field of p, the parent field of c
  // and the sibling fields of v.
  ghost predicate SameKin(t: Kin, t': Kin, p: int, c: int, v: set<int>) {
    && SameBut(t.child, t'.child, {p}) && SameBut(t.parent, t'.parent, {c})
    && SameBut(t.prevSib, t'.prevSib, v) && SameBut(t.nextSib, t'.nextSib, v)
  }

  lemma FamilyFrame(t: Kin, t': Kin, p: int, c: int, v: set<int>, prnt: int, ks: seq<int>)
    requires IsFamily(t, prnt, ks) && SameKin(t, t', p, c, v)
    requires prnt != p && c !in ks && forall x :: x in ks ==> x !in v
    ensures IsFamily(t', prnt, ks)
  {
  }

  ghost function AfterOrNil(s: seq<int>, k: nat): int
    requires k < |s|
  {
    if k == |s| - 1 then NIL else s[k + 1]
  }

  ghost function BeforeOrNil(s: seq<int>, k: nat): int
    requires k < |s|
  {
    if k == 0 then NIL else s[k - 1]
  }

  lemma SiblingsAt(t: Kin, prnt: int, ks: seq<int>, k: nat)
    requires IsFamily(t, prnt, ks) && k < |ks|
    ensures t.nextSib[ks[k]] == AfterOrNil(ks, k) && t.prevSib[ks[k]] == BeforeOrNil(ks, k)
    ensures t.child[prnt] == ks[k] <==> k == 0
  {
  }

  lemma ChainCut(link: seq<int>, link': seq<int>, s: seq<int>, k: nat, r: seq<int>)
    requires Chain(link, s) && Skips(s, k, r) && |link'| == |link|
    requires link' == if k == 0 then link else link[s[k - 1] := AfterOrNil(s, k)]
    ensures Chain(link', r)
  {
    forall i | 0 <= i < |r| - 1
      ensures link'[r[i]] == r[i + 1]
    {
      assert link[s[if i < k then i else i + 1]] == s[if i < k then i + 1 else i + 2];
    }
  }

  lemma BackChainCut(link: seq<int>, link': seq<int>, s: seq<int>, k: nat, r: seq<int>)
    requires BackChain(link, s) && Skips(s, k, r) && |link'| == |link|
    requires link' == if k == |s| - 1 then link else link[s[k + 1] := BeforeOrNil(s, k)]
    ensures BackChain(link', r)
  {
    forall i | 1 <= i < |r|
      ensures link'[r[i]] == r[i - 1]
    {
      assert link[s[if i < k then i else i + 1]] == s[if i < k then i - 1 else i];
    }
  }

  // Bypassing ks[k] on both sides takes it out of the family.
  lemma FamilyCut(t: Kin, t': Kin, prnt: int, ks: seq<int>, k: nat)
    requires IsFamily(t, prnt, ks) && k < |ks|
    requires t'.nextSib == if k == 0 then t.nextSib else t.nextSib[ks[k - 1] := AfterOrNil(ks, k)]
    requires t'.prevSib == if k == |ks| - 1 then t.prevSib else t.prevSib[ks[k + 1] := BeforeOrNil(ks, k)]
    requires t'.child == if k == 0 then t.child[prnt := AfterOrNil(ks, 0)] else t.child
    requires t'.parent == t.parent[ks[k] := NIL]
    ensures IsFamily(t', prnt, Minus(ks, {ks[k]}))
  {
    hide Minus;
    MinusSkips(ks, k);
    var r := Minus(ks, {ks[k]});
    ChainCut(t.nextSib, t'.nextSib, ks, k, r);
    BackChainCut(t.prevSib, t'.prevSib, ks, k, r);
  }
}
