// The sibling lists of all live blocks at once.
module Families {
  import opened Lists
  import opened Links

  ghost predicate AllFamilies(t: Kin, kids: seq<seq<int>>, free: seq<int>) {
    |kids| == |t.child| == |t.parent| == |t.prevSib| == |t.nextSib|
    && forall p {:trigger kids[p]} :: 0 <= p < |kids| && p !in free ==> IsFamily(t, p, kids[p])
  }

  // A block in a family has that family's parent.
  lemma ParentOf(t: Kin, prnt: int, ks: seq<int>, c: int)
    requires IsFamily(t, prnt, ks) && c in ks
    ensures 0 <= c < |t.parent| && t.parent[c] == prnt
  {
    var i :| 0 <= i < |ks| && ks[i] == c;
  }

  // Changing the family of prnt alone, and the parent field of c, changes no other family.
  lemma OtherFamilies(t: Kin, t': Kin, kids: seq<seq<int>>, free: seq<int>, prnt: int, c: int, v: set<int>)
    requires AllFamilies(t, kids, free) && 0 <= prnt < |kids| && prnt !in free && SameKin(t, t', prnt, c, v)
    requires forall x :: x in v ==> x in kids[prnt] || x == c
    requires forall p {:trigger kids[p]} :: 0 <= p < |kids| && p !in free && p != prnt ==> c !in kids[p]
    ensures forall p {:trigger kids[p]} :: 0 <= p < |kids| && p !in free && p != prnt ==> IsFamily(t', p, kids[p])
  {
    forall p | 0 <= p < |kids| && p !in free && p != prnt
      ensures IsFamily(t', p, kids[p])
    {
      forall x | x in kids[p]
        ensures x !in v
      {
        ParentOf(t, p, kids[p], x);
        if x in kids[prnt] {
          ParentOf(t, prnt, kids[prnt], x);
        }
      }
      FamilyFrame(t, t', prnt, c, v, p, kids[p]);
    }
  }

  lemma FewerFamilies(t: Kin, kids: seq<seq<int>>, free: seq<int>, free': seq<int>)
    requires AllFamilies(t, kids, free) && forall x :: x in free ==> x in free'
    ensures AllFamilies(t, kids, free')
  {
  }

  // A free block p gets no children and cleared sibling links.
  lemma FamiliesAlloc(t: Kin, t': Kin, kids: seq<seq<int>>, free: seq<int>)
    requires AllFamilies(t, kids, free) && free != [] && 0 <= free[0] < |kids| && free[0] !in free[1..]
    requires forall p, c {:trigger c in kids[p]} :: 0 <= p < |kids| && p !in free && c in kids[p] ==> c !in free
    requires t'.child == t.child[free[0] := NIL] && t'.parent == t.parent
    requires t'.prevSib == t.prevSib[free[0] := NIL] && t'.nextSib == t.nextSib[free[0] := NIL]
    ensures AllFamilies(t', kids[free[0] := []], free[1..])
  {
    var q := free[0];
    forall p | 0 <= p < |kids| && p !in free[1..] && p != q
      ensures IsFamily(t', p, kids[p])
    {
      assert p !in free;
      FamilyFrame(t, t', q, NIL, {q}, p, kids[p]);
    }
    assert IsFamily(t', q, []);
  }

  lemma FamiliesInsert(t: Kin, t': Kin, kids: seq<seq<int>>, free: seq<int>, prnt: int, p: int)
    requires AllFamilies(t, kids, free) && 0 <= prnt < |kids| && prnt !in free
    requires IsFamily(t', prnt, [p] + kids[prnt]) && SameKin(t, t', prnt, p, Elems(kids[prnt]) + {p})
    requires forall q {:trigger kids[q]} :: 0 <= q < |kids| && q !in free ==> p !in kids[q]
    ensures AllFamilies(t', kids[prnt := [p] + kids[prnt]], free)
  {
    OtherFamilies(t, t', kids, free, prnt, p, Elems(kids[prnt]) + {p});
  }

  lemma FamiliesRemove(t: Kin, t': Kin, kids: seq<seq<int>>, free: seq<int>, prnt: int, c: int)
    requires AllFamilies(t, kids, free) && 0 <= prnt < |kids| && prnt !in free && c in kids[prnt]
    requires IsFamily(t', prnt, Minus(kids[prnt], {c})) && SameKin(t, t', prnt, c, Elems(kids[prnt]))
    ensures AllFamilies(t', kids[prnt := Minus(kids[prnt], {c})], free)
  {
    hide Minus;
    forall p | 0 <= p < |kids| && p !in free && p != prnt
      ensures c !in kids[p]
    {
      ParentOf(t, prnt, kids[prnt], c);
      if c in kids[p] {
        ParentOf(t, p, kids[p], c);
      }
    }
    OtherFamilies(t, t', kids, free, prnt, c, Elems(kids[prnt]));
  }
}
