// The Active Semaphore List of phase1/asl.c over a table of semaphore descriptors.
module Asls {
  import opened Lists
  import opened Links
  import opened AslLists
  import opened PcbTables

  class Asl {
    const pcbs: PcbTable
    const sNext: array<int>
    const sSemAdd: array<int>
    const sProcQ: array<int>
    var semdFree: int
    var semdActive: int
    ghost var nodes: seq<int>     // the active list, sentinels included
    ghost var free: seq<int>      // the free stack
    ghost var blocked: Queues     // the queue of every active address

    ghost predicate Separate() {
      && pcbs.Separate()
      && sNext.Length == sSemAdd.Length == sProcQ.Length >= 2
      && sNext != sSemAdd && sNext != sProcQ && sSemAdd != sProcQ
      && Apart(sNext) && Apart(sSemAdd) && Apart(sProcQ)
    }

    ghost predicate Apart(a: array<int>) {
      && a != pcbs.next && a != pcbs.prev && a != pcbs.child && a != pcbs.parent
      && a != pcbs.prevSib && a != pcbs.nextSib && a != pcbs.semAdd && a != pcbs.time
    }

    ghost predicate Queued()
      reads `nodes, `blocked, sSemAdd, sProcQ, pcbs.next, pcbs.prev, pcbs.semAdd
    {
      && Owns(pcbs.next[..], pcbs.prev[..], sProcQ[..], sSemAdd[..], nodes, blocked)
      && Tagged(pcbs.semAdd[..], blocked)
    }

    ghost predicate ValidBut(one: int)
      reads `nodes, `free, `blocked, `semdFree, `semdActive
      reads sNext, sSemAdd, sProcQ, pcbs.next, pcbs.prev, pcbs.semAdd
    {
      && Separate()
      && IsStack(sNext[..], semdFree, free)
      && IsActive(sNext[..], sSemAdd[..], semdActive, nodes)
      && Keyed(sSemAdd[..], nodes, blocked)
      && NonEmptyBut(sSemAdd[..], nodes, blocked, one)
      && Queued()
      && (forall d :: d in free ==> d !in nodes)
      && |nodes| + |free| == sNext.Length
    }

    ghost predicate Valid()
      reads `nodes, `free, `blocked, `semdFree, `semdActive
      reads sNext, sSemAdd, sProcQ, pcbs.next, pcbs.prev, pcbs.semAdd
    {
      ValidBut(NIL)
    }

    // initASL: all but the last two descriptors are free, those two are the sentinels.
    constructor (pcbs: PcbTable)
      requires pcbs.Separate()
      ensures Valid() && blocked == map[] && this.pcbs == pcbs && sNext.Length == pcbs.next.Length + 2
      ensures fresh(sNext) && fresh(sSemAdd) && fresh(sProcQ)
    {
      var maxproc := pcbs.next.Length;
      this.pcbs := pcbs;
      sNext := new int[maxproc + 2];
      sSemAdd := new int[maxproc + 2];
      sProcQ := new int[maxproc + 2];
      semdFree := NIL;
      semdActive := NIL;
      nodes, free, blocked := [], [], map[];
      new;
      FreeAll(maxproc);
      Sentinels();
    }

    method FreeAll(maxproc: nat)
      requires Separate() && semdFree == NIL && free == [] && maxproc <= sNext.Length
      modifies `semdFree, `free, sNext
      ensures IsStack(sNext[..], semdFree, free) && |free| == maxproc
      ensures forall d :: d in free ==> 0 <= d < maxproc
    {
      for i := 0 to maxproc
        invariant IsStack(sNext[..], semdFree, free)
        invariant |free| == i && forall d :: d in free ==> 0 <= d < i
      {
        FreeSemd(i);
      }
    }

    method Sentinels()
      requires Separate() && blocked == map[]
      requires IsStack(sNext[..], semdFree, free) && |free| == sNext.Length - 2
      requires forall d :: d in free ==> 0 <= d < sNext.Length - 2
      modifies `semdActive, `nodes, sNext, sSemAdd, sProcQ
      ensures Valid()
    {
      hide IsStack;
      var semdZero, semdMax := sNext.Length - 2, sNext.Length - 1;
      sSemAdd[semdZero] := 0;
      sSemAdd[semdMax] := MAXINT;
      sProcQ[semdZero] := NIL;
      sProcQ[semdMax] := NIL;
      ghost var before := sNext[..];
      sNext[semdZero] := semdMax;
      semdActive := semdZero;
      nodes := [semdZero, semdMax];
      StackFrame(before, sNext[..], semdFree, free, {semdZero});
    }

    method AllocSemd() returns (d: int)
      requires Separate() && IsStack(sNext[..], semdFree, free)
      modifies `semdFree, `free, sNext, sSemAdd, sProcQ
      ensures old(free) == [] ==>
        d == NIL && free == [] && semdFree == old(semdFree) && sNext[..] == old(sNext[..])
        && sSemAdd[..] == old(sSemAdd[..]) && sProcQ[..] == old(sProcQ[..])
      ensures old(free) != [] ==>
        && d == old(free)[0] && free == old(free)[1..] && IsStack(sNext[..], semdFree, free)
        && sNext[..] == old(sNext[..])[d := NIL] && sSemAdd[..] == old(sSemAdd[..])[d := NULL_ADDR]
        && sProcQ[..] == old(sProcQ[..])[d := NIL]
    {
      if semdFree == NIL {
        return NIL;
      }
      d := semdFree;
      semdFree := sNext[semdFree];
      sNext[d] := NIL;
      sSemAdd[d] := NULL_ADDR;
      sProcQ[d] := NIL;
      free := free[1..];
    }

    method FreeSemd(removing: int)
      requires Separate() && IsStack(sNext[..], semdFree, free)
      requires 0 <= removing < sNext.Length && removing !in free
      modifies `semdFree, `free, sNext
      ensures IsStack(sNext[..], semdFree, free) && free == [removing] + old(free)
      ensures sNext[..] == old(sNext[..])[removing := old(semdFree)]
    {
      sNext[removing] := semdFree;
      semdFree := removing;
      free := [removing] + free;
    }

    // The descriptor before the first one whose address is not below semAdd.
    method SearchASL(semAdd: int) returns (q: int, ghost k: nat)
      requires Separate() && IsActive(sNext[..], sSemAdd[..], semdActive, nodes)
      requires semAdd == NULL_ADDR || 0 < semAdd <= MAXINT
      ensures k < |nodes| - 1 && q == nodes[k] && sNext[q] == nodes[k + 1]
      ensures var key := if semAdd == NULL_ADDR then MAXINT else semAdd;
        sSemAdd[nodes[k]] < key <= sSemAdd[nodes[k + 1]]
      ensures 0 <= q < sNext.Length && 0 <= sNext[q] < sNext.Length
      ensures var key := if semAdd == NULL_ADDR then MAXINT else semAdd;
        sSemAdd[q] < key <= sSemAdd[sNext[q]]
    {
      var key := if semAdd == NULL_ADDR then MAXINT else semAdd;
      q, k := semdActive, 0;
      assert sNext[nodes[0]] == nodes[1];
      while sSemAdd[sNext[q]] < key
        invariant k < |nodes| - 1 && q == nodes[k] && sNext[q] == nodes[k + 1] && sSemAdd[q] < key
        decreases |nodes| - k
      {
        q := sNext[q];
        k := k + 1;
        assert k < |nodes| - 1 && sNext[nodes[k]] == nodes[k + 1];
      }
    }

    // Appends p to the queue of an active descriptor.
    method Enlist(d: int, p: int)
      requires d in nodes && ValidBut(d) && Inner(sSemAdd[d])
      requires 0 <= p < pcbs.semAdd.Length && pcbs.semAdd[p] == NULL_ADDR
      modifies `blocked, sProcQ, pcbs.next, pcbs.prev, pcbs.semAdd
      ensures Valid() && blocked == Block(old(blocked), sSemAdd[d], p)
      ensures pcbs.semAdd[..] == old(pcbs.semAdd[..])[p := sSemAdd[d]]
      ensures SameBut(old(pcbs.next[..]), pcbs.next[..], Elems(QueueAt(old(blocked), sSemAdd[d])) + {p})
      ensures SameBut(old(pcbs.prev[..]), pcbs.prev[..], Elems(QueueAt(old(blocked), sSemAdd[d])) + {p})
    {
      hide IsProcQ, IsStack, IsActive, SameBut, Keyed, Tagged, NonEmptyBut, Block, QueueAt;
      assert forall c :: c in blocked ==> Inner(c) by { KeyedInner(sSemAdd[..], nodes, blocked); }
      ghost var a := sSemAdd[d];
      ghost var q := QueueAt(blocked, a);
      TaggedAt(pcbs.semAdd[..], blocked, a);
      OwnAddress(sNext[..], sSemAdd[..], semdActive, nodes, d);
      pcbs.semAdd[p] := sSemAdd[d];
      sProcQ[d] := pcbs.InsertProcQ(sProcQ[d], p, q);
      BlockKeeps(sSemAdd[..], nodes, old(pcbs.semAdd[..]), blocked, a, p, d);
      blocked := Block(blocked, a, p);
      OwnsOthers(old(pcbs.next[..]), old(pcbs.prev[..]), pcbs.next[..], pcbs.prev[..], old(pcbs.semAdd[..]),
                 old(sProcQ[..]), sProcQ[..], sSemAdd[..], nodes, old(blocked), blocked, a, Elems(q) + {p});
    }

    // Removes p, if it is there, from the queue of an active descriptor.
    method Delist(d: int, p: int) returns (out: int)
      requires d in nodes && Valid() && Inner(sSemAdd[d])
      modifies `blocked, sProcQ, pcbs.next, pcbs.prev
      ensures ValidBut(d)
      ensures p in QueueAt(old(blocked), sSemAdd[d]) ==> out == p && blocked == Unblock(old(blocked), sSemAdd[d], p)
      ensures p !in QueueAt(old(blocked), sSemAdd[d]) ==> out == NIL && blocked == old(blocked) && Valid()
      ensures p !in QueueAt(blocked, sSemAdd[d])
      ensures SameBut(old(pcbs.next[..]), pcbs.next[..], Elems(QueueAt(old(blocked), sSemAdd[d])))
      ensures SameBut(old(pcbs.prev[..]), pcbs.prev[..], Elems(QueueAt(old(blocked), sSemAdd[d])))
    {
      hide IsProcQ, IsStack, IsActive, SameBut, Keyed, Tagged, NonEmptyBut, Minus, Unblock, QueueAt;
      assert forall c :: c in blocked ==> Inner(c) by { KeyedInner(sSemAdd[..], nodes, blocked); }
      ghost var a := sSemAdd[d];
      ghost var q := QueueAt(blocked, a);
      TaggedAt(pcbs.semAdd[..], blocked, a);
      OwnAddress(sNext[..], sSemAdd[..], semdActive, nodes, d);
      MinusElems(q, {p});
      sProcQ[d], out := pcbs.OutProcQ(sProcQ[d], p, q);
      NonEmptyWeaker(sSemAdd[..], nodes, blocked, d);
      if p in q {
        UnblockKeeps(sSemAdd[..], nodes, pcbs.semAdd[..], blocked, a, p, d);
        blocked := Unblock(blocked, a, p);
      }
      OwnsOthers(old(pcbs.next[..]), old(pcbs.prev[..]), pcbs.next[..], pcbs.prev[..], old(pcbs.semAdd[..]),
                 old(sProcQ[..]), sProcQ[..], sSemAdd[..], nodes, old(blocked), blocked, a, Elems(q));
    }

    // Takes a free descriptor and links it behind q = nodes[k] for the address semAdd.
    method AddDescriptor(q: int, semAdd: int, ghost k: nat) returns (d: int)
      requires Valid() && k < |nodes| - 1 && q == nodes[k] && semAdd !in blocked
      requires sSemAdd[nodes[k]] < semAdd < sSemAdd[nodes[k + 1]]
      modifies `semdFree, `free, `nodes, sNext, sSemAdd, sProcQ
      ensures old(free) == [] ==> d == NIL && Valid() && nodes == old(nodes) && free == []
      ensures old(free) == [] ==> semdFree == old(semdFree) && sNext[..] == old(sNext[..])
      ensures old(free) == [] ==> sSemAdd[..] == old(sSemAdd[..]) && sProcQ[..] == old(sProcQ[..])
      ensures old(free) != [] ==> d in nodes && ValidBut(d) && sSemAdd[d] == semAdd
    {
      hide IsProcQ, Keyed, Tagged, NonEmptyBut, QueueAt, IsActive, IsStack, Owns;
      ghost var next0, addr0, procQ0 := sNext[..], sSemAdd[..], sProcQ[..];
      NextAt(next0, addr0, semdActive, nodes, k);
      StackRange(next0, semdFree, free);
      assert addr0[nodes[k]] < semAdd < addr0[nodes[k + 1]];
      assert q in nodes && (free != [] ==> free[0] in free);
      d := AllocSemd();
      if d == NIL {
        return;
      }
      ghost var next1 := sNext[..];
      sNext[d] := sNext[q];
      sNext[q] := d;
      sSemAdd[d] := semAdd;
      StackFrame(next1, sNext[..], semdFree, free, {d, q});
      ghost var r := Spliced(nodes, k, d);
      ActiveSplice(next0, addr0, semdActive, nodes, k, d, semAdd);
      assert sNext[..] == next0[d := nodes[k + 1]][nodes[k] := d];
      SpliceKeeps(pcbs.next[..], pcbs.prev[..], procQ0, addr0, nodes, blocked, d, semAdd, k, r);
      assert sSemAdd[..] == addr0[d := semAdd];
      nodes := r;
    }

    // Fails, changing nothing, exactly when a new descriptor is needed and none is free.
    method InsertBlocked(semAdd: int, p: int) returns (full: bool)
      requires Valid() && Inner(semAdd)
      requires 0 <= p < pcbs.semAdd.Length && pcbs.semAdd[p] == NULL_ADDR
      modifies `semdFree, `free, `nodes, `blocked, sNext, sSemAdd, sProcQ, pcbs.next, pcbs.prev, pcbs.semAdd
      ensures Valid()
      ensures full <==> semAdd !in old(blocked) && old(free) == []
      ensures full ==> blocked == old(blocked) && nodes == old(nodes) && free == [] && semdFree == old(semdFree)
      ensures full ==> sNext[..] == old(sNext[..]) && sSemAdd[..] == old(sSemAdd[..]) && sProcQ[..] == old(sProcQ[..])
      ensures full ==>
        && pcbs.next[..] == old(pcbs.next[..]) && pcbs.prev[..] == old(pcbs.prev[..])
        && pcbs.semAdd[..] == old(pcbs.semAdd[..])
      ensures !full ==> blocked == Block(old(blocked), semAdd, p)
      ensures !full ==> pcbs.semAdd[..] == old(pcbs.semAdd[..])[p := semAdd]
      ensures SameBut(old(pcbs.next[..]), pcbs.next[..], Elems(QueueAt(old(blocked), semAdd)) + {p})
      ensures SameBut(old(pcbs.prev[..]), pcbs.prev[..], Elems(QueueAt(old(blocked), semAdd)) + {p})
    {
      hide IsProcQ, Keyed, Tagged, IsActive, IsStack, Owns, Block;
      var q, k := SearchASL(semAdd);
      SearchFinds(sNext[..], sSemAdd[..], semdActive, nodes, blocked, semAdd, k);
      var d;
      if sSemAdd[sNext[q]] == semAdd {
        NonEmptyWeaker(sSemAdd[..], nodes, blocked, sNext[q]);
        Enlist(sNext[q], p);
        return false;
      }
      d := AddDescriptor(q, semAdd, k);
      if d == NIL {
        return true;
      }
      Enlist(d, p);
      return false;
    }

    // Unlinks and frees the descriptor after prev = nodes[k] if its queue is empty.
    method DropIfEmpty(prev: int, ghost k: nat)
      requires k < |nodes| - 2 && prev == nodes[k] && ValidBut(nodes[k + 1])
      modifies `semdFree, `free, `nodes, sNext, sSemAdd
      ensures Valid()
    {
      hide IsProcQ, Keyed, Tagged, NonEmptyBut, QueueAt, IsActive, IsStack;
      ghost var next0, addr0 := sNext[..], sSemAdd[..];
      NextAt(next0, addr0, semdActive, nodes, k);
      NextAt(next0, addr0, semdActive, nodes, k + 1);
      AddressRange(next0, addr0, semdActive, nodes, k + 1);
      StackRange(next0, semdFree, free);
      ghost var r := nodes[..k + 1] + nodes[k + 2..];
      var removing := sNext[prev];
      OwnsNil(pcbs.next[..], pcbs.prev[..], sProcQ[..], addr0, nodes, blocked, k + 1);
      if sProcQ[sNext[prev]] == NIL {
        ActiveCut(next0, addr0, semdActive, nodes, k);
        CutKeeps(pcbs.next[..], pcbs.prev[..], sProcQ[..], addr0, nodes, blocked, k, r);
        sNext[prev] := sNext[removing];
        assert sNext[..] == next0[nodes[k] := nodes[k + 2]];
        StackFrame(next0, sNext[..], semdFree, free, {prev});
        nodes := r;
        FreeSemd(removing);
        sSemAdd[removing] := NULL_ADDR;
        ActiveFrame(next0[prev := r[k + 1]], addr0, sNext[..], sSemAdd[..], semdActive, r, removing);
      } else {
        NonEmptyFull(addr0, nodes, blocked, k + 1);
      }
    }

    // The front of the queue of semAdd, which goes back to no queue; NIL if there is none.
    method RemoveBlocked(semAdd: int) returns (p: int)
      requires Valid() && Inner(semAdd)
      modifies `semdFree, `free, `nodes, `blocked, sNext, sSemAdd, sProcQ, pcbs.next, pcbs.prev, pcbs.semAdd
      ensures Valid()
      ensures semAdd !in old(blocked) ==>
        p == NIL && blocked == old(blocked) && pcbs.semAdd[..] == old(pcbs.semAdd[..])
      ensures semAdd in old(blocked) ==>
        && p == old(blocked)[semAdd][0] && 0 <= p < pcbs.semAdd.Length
        && blocked == Unblock(old(blocked), semAdd, p)
        && pcbs.semAdd[..] == old(pcbs.semAdd[..])[p := NULL_ADDR]
      ensures SameBut(old(pcbs.next[..]), pcbs.next[..], Elems(QueueAt(old(blocked), semAdd)))
      ensures SameBut(old(pcbs.prev[..]), pcbs.prev[..], Elems(QueueAt(old(blocked), semAdd)))
    {
      hide IsProcQ, Tagged, IsActive, IsStack, Owns, Unblock, Minus;
      var prev, k := SearchASL(semAdd);
      SearchFinds(sNext[..], sSemAdd[..], semdActive, nodes, blocked, semAdd, k);
      if sSemAdd[sNext[prev]] != semAdd {
        return NIL;
      }
      TaggedAt(pcbs.semAdd[..], blocked, semAdd);
      OwnsAt(pcbs.next[..], pcbs.prev[..], sProcQ[..], sSemAdd[..], nodes, blocked, k + 1);
      var h := pcbs.HeadProcQ(sProcQ[sNext[prev]], QueueAt(blocked, semAdd));
      assert h in QueueAt(blocked, semAdd);
      p := Delist(sNext[prev], h);
      DropIfEmpty(prev, k);
      assert p != NIL;
      Untag(semAdd, p);
    }

    // The last step of taking p out: p carries no address any more.
    method Untag(ghost a: int, p: int)
      requires Valid() && 0 <= p < pcbs.semAdd.Length && pcbs.semAdd[p] == a && p !in QueueAt(blocked, a)
      modifies pcbs.semAdd
      ensures Valid() && pcbs.semAdd[..] == old(pcbs.semAdd[..])[p := NULL_ADDR]
    {
      hide IsProcQ, Keyed, NonEmptyBut, IsActive, IsStack;
      UntagKeeps(pcbs.semAdd[..], blocked, a, p);
      pcbs.semAdd[p] := NULL_ADDR;
    }

    // p leaves the queue of the address it carries. A process that carries an active
    // address is in its queue, or the source would follow a null pointer.
    method OutBlocked(p: int) returns (out: int)
      requires Valid() && 0 <= p < pcbs.semAdd.Length
      requires pcbs.semAdd[p] == NULL_ADDR || Inner(pcbs.semAdd[p])
      requires pcbs.semAdd[p] in blocked ==> p in blocked[pcbs.semAdd[p]]
      modifies `semdFree, `free, `nodes, `blocked, sNext, sSemAdd, sProcQ, pcbs.next, pcbs.prev, pcbs.semAdd
      ensures Valid()
      ensures old(pcbs.semAdd[p] !in blocked) ==>
        out == NIL && blocked == old(blocked) && pcbs.semAdd[..] == old(pcbs.semAdd[..])
      ensures old(pcbs.semAdd[p] in blocked) ==>
        && out == p && blocked == Unblock(old(blocked), old(pcbs.semAdd[p]), p)
        && pcbs.semAdd[..] == old(pcbs.semAdd[..])[p := NULL_ADDR]
      ensures SameBut(old(pcbs.next[..]), pcbs.next[..], Elems(QueueAt(old(blocked), old(pcbs.semAdd[p]))))
      ensures SameBut(old(pcbs.prev[..]), pcbs.prev[..], Elems(QueueAt(old(blocked), old(pcbs.semAdd[p]))))
    {
      hide IsProcQ, Tagged, IsActive, IsStack, Owns, Unblock, Minus;
      var prev, k := SearchASL(pcbs.semAdd[p]);
      AddressRange(sNext[..], sSemAdd[..], semdActive, nodes, k + 1);
      if Inner(pcbs.semAdd[p]) {
        SearchFinds(sNext[..], sSemAdd[..], semdActive, nodes, blocked, pcbs.semAdd[p], k);
      }
      if sSemAdd[sNext[prev]] != pcbs.semAdd[p] {
        return NIL;
      }
      out := Delist(sNext[prev], p);
      DropIfEmpty(prev, k);
      Untag(pcbs.semAdd[p], p);
    }

    // The front of the queue of the least active address not below semAdd: the address
    // found is never compared with semAdd.
    method HeadBlocked(semAdd: int) returns (h: int)
      requires Valid() && Inner(semAdd)
      ensures HeadFound(blocked, semAdd, h)
    {
      hide IsProcQ, Tagged, IsStack;
      var prev, k := SearchASL(semAdd);
      OwnsAt(pcbs.next[..], pcbs.prev[..], sProcQ[..], sSemAdd[..], nodes, blocked, k + 1);
      LeastFrom(sNext[..], sSemAdd[..], semdActive, nodes, blocked, semAdd, k);
      h := pcbs.HeadProcQ(sProcQ[sNext[prev]], QueueAt(blocked, sSemAdd[sNext[prev]]));
      if sSemAdd[sNext[prev]] in blocked {
        TaggedHead(pcbs.semAdd[..], blocked, sSemAdd[sNext[prev]]);
      }
    }
  }
}
