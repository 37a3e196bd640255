// The process control blocks of phase1/pcb.c: the free stack, the circular
// process queues held by a tail pointer, and the sibling lists of process trees.
module PcbTables {
  import opened Lists
  import opened Links

  class PcbTable {
    const next: array<int>
    const prev: array<int>
    const child: array<int>
    const parent: array<int>
    const prevSib: array<int>
    const nextSib: array<int>
    const semAdd: array<int>
    const time: array<int>

    var freeHead: int
    ghost var free: seq<int>

    ghost predicate Separate() {
      && next.Length == prev.Length == child.Length == parent.Length == prevSib.Length
                     == nextSib.Length == semAdd.Length == time.Length
      && next != prev && next != child && next != parent && next != prevSib && next != nextSib
      && next != semAdd && next != time
      && prev != child && prev != parent && prev != prevSib && prev != nextSib
      && prev != semAdd && prev != time
      && child != parent && child != prevSib && child != nextSib && child != semAdd && child != time
      && parent != prevSib && parent != nextSib && parent != semAdd && parent != time
      && prevSib != nextSib && prevSib != semAdd && prevSib != time
      && nextSib != semAdd && nextSib != time && semAdd != time
    }

    // The static table of phase1/pcb.c: nothing is known of its blocks but that none has a
    // parent or a bill.
    constructor (n: nat)
      ensures Separate() && next.Length == n && freeHead == NIL && free == []
      ensures forall i :: 0 <= i < n ==> parent[i] == NIL && time[i] == 0
      ensures fresh(next) && fresh(prev) && fresh(child) && fresh(parent)
      ensures fresh(prevSib) && fresh(nextSib) && fresh(semAdd) && fresh(time)
    {
      next := new int[n];
      prev := new int[n];
      child := new int[n];
      parent := new int[n](_ => NIL);
      prevSib := new int[n];
      nextSib := new int[n];
      semAdd := new int[n];
      time := new int[n](_ => 0);
      freeHead := NIL;
      free := [];
    }

    method InsertProcQ(tp: int, p: int, ghost q: seq<int>) returns (tail: int)
      requires Separate() && IsProcQ(next[..], prev[..], tp, q)
      requires 0 <= p < next.Length && p !in q
      modifies next, prev
      ensures IsProcQ(next[..], prev[..], tail, q + [p])
      ensures SameBut(old(next[..]), next[..], Elems(q) + {p}) && SameBut(old(prev[..]), prev[..], Elems(q) + {p})
    {
      if tp == NIL {
        prev[p] := p;
        next[p] := p;
      } else {
        prev[p] := tp;
        next[p] := next[tp];
        next[tp] := p;
        prev[next[p]] := p;
      }
      tail := p;
    }

    method HeadProcQ(tp: int, ghost q: seq<int>) returns (h: int)
      requires Separate() && IsProcQ(next[..], prev[..], tp, q)
      ensures h == if q == [] then NIL else q[0]
    {
      if tp == NIL {
        return NIL;
      } else {
        return next[tp];
      }
    }

    method OutProcQ(tp: int, p: int, ghost q: seq<int>) returns (tail: int, out: int)
      requires Separate() && IsProcQ(next[..], prev[..], tp, q)
      modifies next, prev
      ensures p in q ==> out == p && IsProcQ(next[..], prev[..], tail, Minus(q, {p}))
      ensures SameBut(old(next[..]), next[..], Elems(q)) && SameBut(old(prev[..]), prev[..], Elems(q))
      ensures p !in q ==> out == NIL && tail == tp && next[..] == old(next[..]) && prev[..] == old(prev[..])
    {
      hide Minus;
      tail := tp;
      if tp == NIL {
        return tail, NIL;
      }
      if tp == p {
        if next[tp] == tp {
          MinusAt(q, 0);
          tail := NIL;
        } else {
          NeighboursAt(next[..], prev[..], tp, q, |q| - 1);
          ProcQCut(next[..], prev[..], tp, q, |q| - 1);
          next[prev[tp]] := next[tp];
          prev[next[tp]] := prev[tp];
          tail := prev[tp];
        }
        return tail, p;
      }
      var searching := HeadProcQ(tp, q);
      ghost var k := 0;
      while searching != tp && searching != p
        invariant 0 <= k < |q| && searching == q[k]
        invariant forall i :: 0 <= i < k ==> q[i] != p
        decreases |q| - k
      {
        searching := next[searching];
        k := k + 1;
      }
      if searching == tp {
        return tail, NIL;
      }
      NeighboursAt(next[..], prev[..], tp, q, k);
      ProcQCut(next[..], prev[..], tp, q, k);
      next[prev[p]] := next[p];
      prev[next[p]] := prev[p];
      return tail, p;
    }

    method RemoveProcQ(tp: int, ghost q: seq<int>) returns (tail: int, out: int)
      requires Separate() && IsProcQ(next[..], prev[..], tp, q)
      modifies next, prev
      ensures q == [] ==> out == NIL && tail == NIL && IsProcQ(next[..], prev[..], tail, [])
      ensures q != [] ==> out == q[0] && IsProcQ(next[..], prev[..], tail, q[1..])
      ensures SameBut(old(next[..]), next[..], Elems(q)) && SameBut(old(prev[..]), prev[..], Elems(q))
    {
      hide Minus;
      if q != [] {
        MinusFirst(q);
        assert q[0] in q;
      }
      var h := HeadProcQ(tp, q);
      tail, out := OutProcQ(tp, h, q);
    }

    // ------------------------------------------------------ the free stack

    method FreePcb(p: int)
      requires Separate() && IsStack(next[..], freeHead, free)
      requires 0 <= p < next.Length && p !in free
      modifies `freeHead, `free, next
      ensures IsStack(next[..], freeHead, free) && free == [p] + old(free)
      ensures SameBut(old(next[..]), next[..], {p})
    {
      next[p] := freeHead;
      freeHead := p;
      free := [p] + free;
    }

    // Clears every link of the new block except parent, and not its time.
    method AllocPcb() returns (p: int)
      requires Separate() && IsStack(next[..], freeHead, free)
      modifies `freeHead, `free, next, prev, child, prevSib, nextSib, semAdd
      ensures old(free) == [] ==> p == NIL && free == []
      ensures old(free) != [] ==> p == old(free)[0] && free == old(free)[1..]
      ensures IsStack(next[..], freeHead, free)
      ensures SameBut(old(next[..]), next[..], {p}) && SameBut(old(prev[..]), prev[..], {p})
      ensures old(free) == [] ==>
        next[..] == old(next[..]) && prev[..] == old(prev[..]) && child[..] == old(child[..])
        && prevSib[..] == old(prevSib[..]) && nextSib[..] == old(nextSib[..]) && semAdd[..] == old(semAdd[..])
      ensures old(free) != [] ==>
        child[..] == old(child[..])[p := NIL] && prevSib[..] == old(prevSib[..])[p := NIL] &&
        nextSib[..] == old(nextSib[..])[p := NIL] && semAdd[..] == old(semAdd[..])[p := NULL_ADDR]
    {
      if freeHead == NIL {
        return NIL;
      }
      p := freeHead;
      freeHead := next[freeHead];
      free := free[1..];
      next[p] := NIL;
      prev[p] := NIL;
      child[p] := NIL;
      prevSib[p] := NIL;
      nextSib[p] := NIL;
      semAdd[p] := NULL_ADDR;
    }

    // Pushes every block; the last one pushed is the first to be allocated.
    method InitPcbs()
      requires Separate()
      modifies `freeHead, `free, next
      ensures IsStack(next[..], freeHead, free)
      ensures forall x :: x in free <==> 0 <= x < next.Length
    {
      freeHead := NIL;
      free := [];
      for it := 0 to next.Length
        invariant IsStack(next[..], freeHead, free)
        invariant forall x :: x in free <==> 0 <= x < it
      {
        FreePcb(it);
      }
    }

    // ------------------------------------------------------ sibling lists

    ghost function Kinship(): Kin
      reads child, parent, prevSib, nextSib
    {
      Kin(child[..], parent[..], prevSib[..], nextSib[..])
    }

    predicate EmptyChild(p: int)
      requires 0 <= p < child.Length
      reads child
    {
      child[p] == NIL
    }

    method InsertChild(prnt: int, p: int, ghost ks: seq<int>)
      requires Separate() && IsFamily(Kinship(), prnt, ks)
      requires 0 <= p < child.Length && p !in ks
      modifies child, parent, prevSib, nextSib
      ensures IsFamily(Kinship(), prnt, [p] + ks)
      ensures SameKin(old(Kinship()), Kinship(), prnt, p, Elems(ks) + {p})
      ensures parent[p] == prnt
    {
      if EmptyChild(prnt) {
        child[prnt] := p;
        parent[p] := prnt;
        nextSib[p] := NIL;
        prevSib[p] := NIL;
      } else {
        prevSib[child[prnt]] := p;
        nextSib[p] := child[prnt];
        parent[p] := prnt;
        child[prnt] := p;
        prevSib[p] := NIL;
      }
    }

    // The four cases on a proper child cover every position; the last branch is dead.
    method OutChild(c: int, ghost ks: seq<int>) returns (out: int)
      requires Separate()
      requires c != NIL ==> 0 <= c < parent.Length
      requires c != NIL && parent[c] != NIL ==> IsFamily(Kinship(), parent[c], ks) && c in ks
      modifies child, parent, prevSib, nextSib
      ensures c == NIL || old(parent[c]) == NIL ==> out == NIL && Kinship() == old(Kinship())
      ensures c != NIL && old(parent[c]) != NIL ==>
        && out == c && parent[c] == NIL
        && IsFamily(Kinship(), old(parent[c]), Minus(ks, {c}))
        && SameKin(old(Kinship()), Kinship(), old(parent[c]), c, Elems(ks))
    {
      hide Minus;
      if c == NIL || parent[c] == NIL {
        return NIL;
      }
      ghost var t, prnt := Kinship(), parent[c];
      ghost var k :| 0 <= k < |ks| && ks[k] == c;
      SiblingsAt(t, prnt, ks, k);
      if nextSib[c] == NIL && prevSib[c] == NIL && c == child[parent[c]] {
        child[parent[c]] := NIL;
        parent[c] := NIL;
        out := c;
      } else if c == child[parent[c]] {
        prevSib[nextSib[c]] := NIL;
        child[parent[c]] := nextSib[c];
        parent[c] := NIL;
        out := c;
      } else if nextSib[c] != NIL && prevSib[c] != NIL {
        nextSib[prevSib[c]] := nextSib[c];
        prevSib[nextSib[c]] := prevSib[c];
        parent[c] := NIL;
        out := c;
      } else if nextSib[c] == NIL && prevSib[c] != NIL {
        nextSib[prevSib[c]] := NIL;
        parent[c] := NIL;
        out := c;
      } else {
        assert false;
        out := NIL;
      }
      FamilyCut(t, Kinship(), prnt, ks, k);
    }

    method RemoveChild(prnt: int, ghost ks: seq<int>) returns (out: int)
      requires Separate() && IsFamily(Kinship(), prnt, ks)
      modifies child, parent, prevSib, nextSib
      ensures ks == [] ==> out == NIL && Kinship() == old(Kinship())
      ensures ks != [] ==>
        && out == ks[0] && parent[out] == NIL
        && IsFamily(Kinship(), prnt, ks[1..])
        && SameKin(old(Kinship()), Kinship(), prnt, out, Elems(ks))
    {
      hide Minus;
      if ks != [] {
        MinusFirst(ks);
        assert ks[0] in ks;
      }
      out := OutChild(child[prnt], ks);
    }
  }
}
