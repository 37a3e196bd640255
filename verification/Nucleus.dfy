// The kernel of phase 2 over the linked tables of phase 1: exceptions.c, interrupts.c,
// scheduler.c and initial.c. A step ends in a Verdict, since scheduler() never returns
// to its caller; clock readings are parameters.
module Nuclei {
  import opened Lists
  import opened Links
  import opened AslLists
  import opened PcbTables
  import opened Asls
  import opened Families
  import opened Kernels
  import opened KernelInvs
  import opened KillSpecs

  class Nucleus {
    const pcbs: PcbTable
    const asl: Asl
    const base: int               // the address of sem[0]
    var readyQueue: int
    var currentProcess: int
    var processCount: int
    var softBlockCount: int
    var mem: map<int, int>        // the words used as semaphores, sem[] among them
    var TODStarted: int
    ghost var ready: seq<int>
    ghost var kids: seq<seq<int>>
    ghost var first: int
    ghost var birth: seq<int>
    ghost var births: int
    ghost var now: int

    ghost function View(): Kernel
      reads this, pcbs`free, asl`blocked, pcbs.parent, pcbs.semAdd, pcbs.time
    {
      Kernel(base, pcbs.free, ready, asl.blocked, currentProcess, pcbs.parent[..], pcbs.semAdd[..], pcbs.time[..],
             kids, mem, processCount, softBlockCount, TODStarted, first, birth, births, now)
    }

    // The tables hold the stack, the queues and the families that View() shows.
    ghost predicate Linked()
      reads `readyQueue, `ready, `kids, pcbs`free, pcbs`freeHead
      reads pcbs.next, pcbs.prev, pcbs.child, pcbs.parent, pcbs.prevSib, pcbs.nextSib
      reads asl`nodes, asl`free, asl`blocked, asl`semdFree, asl`semdActive
      reads asl.sNext, asl.sSemAdd, asl.sProcQ, asl.pcbs.next, asl.pcbs.prev, asl.pcbs.semAdd
    {
      && asl.pcbs == pcbs && asl.Valid() && asl.sNext.Length == pcbs.next.Length + 2
      && IsStack(pcbs.next[..], pcbs.freeHead, pcbs.free)
      && IsProcQ(pcbs.next[..], pcbs.prev[..], readyQueue, ready)
      && AllFamilies(pcbs.Kinship(), kids, pcbs.free)
    }

    // The static tables and globals, with initPcbs() and initASL() done. The user
    // semaphores lie outside sem and start at no negative value.
    constructor (maxproc: nat, base: int, users: map<int, int>)
      requires 0 < maxproc && 0 < base && SemAddr(base, TOTALSEM) < MAXINT
      requires forall a :: a in users ==> Inner(a) && !InSem(base, a) && 0 <= users[a]
      ensures Linked() && Blank(View()) && this.base == base && mem == users && |View().parent| == maxproc
      ensures forall p :: TimeOf(View(), p) == 0
    {
      var table := new PcbTable(maxproc);
      table.InitPcbs();
      var list := new Asl(table);
      this.base := base;
      pcbs, asl := table, list;
      readyQueue, currentProcess := NIL, NIL;
      processCount, softBlockCount := 0, 0;
      TODStarted := 0;
      mem := users;
      ready, births, now := [], 0, 0;
      kids, birth := seq(maxproc, _ => []), seq(maxproc, _ => 0);
      first := NIL;
    }

    // main(): the semaphores of sem are cleared and the first process is made ready.
    method Boot(tk: Ticks) returns (v: Verdict, ghost t: Kernel)
      requires Linked() && Blank(View())
      modifies this, pcbs`freeHead, pcbs`free, pcbs.next, pcbs.prev, pcbs.child, pcbs.prevSib, pcbs.nextSib
      modifies pcbs.semAdd, pcbs.time
      ensures Linked() && Initial(t) && t.base == base && |t.parent| == |old(View()).parent|
      ensures t.mem == old(mem) + SemArray(base, TOTALSEM) && t.time == old(pcbs.time[..])
      ensures View() == Scheduled(t, tk) && v == VerdictOf(t)
    {
      hide Linked, Scheduled, Blank, Initial, SemArray, Apart, Booted;
      ghost var s := View();
      BootState(s);
      BootInitial(s);
      BootedFields(s);
      FirstProcess();
      t := View();
      v := Scheduler(tk);
    }

    method FirstProcess()
      requires Linked() && Blank(View())
      modifies this, pcbs`freeHead, pcbs`free, pcbs.next, pcbs.prev, pcbs.child, pcbs.prevSib, pcbs.nextSib, pcbs.semAdd
      ensures Linked() && View() == Booted(old(View()))
    {
      hide Linked, Blank, Booting, Apart;
      BootState(View());
      AllocFirst();
      PushReady(currentProcess);
      currentProcess := NIL;
    }

    // main() up to its insertProcQ.
    method AllocFirst()
      requires Linked() && Blank(View())
      modifies this, pcbs`freeHead, pcbs`free, pcbs.next, pcbs.prev, pcbs.child, pcbs.prevSib, pcbs.nextSib, pcbs.semAdd
      ensures Linked() && View() == Booting(old(View()))
    {
      hide Linked, Structure, Blank, SemArray, Apart, Zeroed;
      ghost var s := View();
      BootState(s);
      ZeroedStructure(s);
      ZeroedFields(s);
      ClearSemaphores();
      currentProcess := Alloc();
      processCount := processCount + 1;
      first := currentProcess;
    }

    method ClearSemaphores()
      requires Linked()
      modifies `mem
      ensures Linked() && View() == Zeroed(old(View()))
    {
      hide Linked, SemArray;
      SemArrayNext(mem, base, 0);
      for temp := 0 to TOTALSEM
        invariant mem == old(mem) + SemArray(base, temp)
      {
        SemArrayNext(old(mem), base, temp);
        mem := mem[SemAddr(base, temp) := 0];
      }
    }

    // insertProcQ(&readyQueue, p) for p in no queue.
    method PushReady(p: int)
      requires Linked() && Apart(View()) && Live(View(), p) && p !in ready
      requires forall a, x {:trigger x in asl.blocked[a]} :: a in asl.blocked && x in asl.blocked[a] ==> x != p
      modifies `readyQueue, `ready, pcbs.next, pcbs.prev
      ensures Linked() && View() == Pushed(old(View()), p)
    {
      hide IsProcQ, IsStack, AllFamilies, Owns, Tagged, IsActive, Keyed, NonEmptyBut, SameBut;
      ghost var v := Elems(ready) + {p};
      ghost var n0, p0 := pcbs.next[..], pcbs.prev[..];
      readyQueue := pcbs.InsertProcQ(readyQueue, p, ready);
      ready := ready + [p];
      StackFrame(n0, pcbs.next[..], pcbs.freeHead, pcbs.free, v);
      OwnsFrame(n0, p0, pcbs.next[..], pcbs.prev[..], asl.sProcQ[..], asl.sSemAdd[..], asl.nodes, asl.blocked, v);
    }

    // outProcQ(&readyQueue, p), whether p is ready or not.
    method OutReady(p: int)
      requires Linked() && Apart(View())
      modifies `readyQueue, `ready, pcbs.next, pcbs.prev
      ensures Linked() && View() == old(View()).(ready := Minus(old(ready), {p}))
    {
      hide IsProcQ, IsStack, AllFamilies, Owns, Tagged, IsActive, Keyed, NonEmptyBut, SameBut, Minus;
      ghost var v := Elems(ready);
      ghost var n0, p0 := pcbs.next[..], pcbs.prev[..];
      var out;
      readyQueue, out := pcbs.OutProcQ(readyQueue, p, ready);
      if p !in ready {
        MinusNone(ready, {p});
      }
      ready := Minus(ready, {p});
      StackFrame(n0, pcbs.next[..], pcbs.freeHead, pcbs.free, v);
      OwnsFrame(n0, p0, pcbs.next[..], pcbs.prev[..], asl.sProcQ[..], asl.sSemAdd[..], asl.nodes, asl.blocked, v);
    }

    // removeProcQ(&readyQueue).
    method PopReady() returns (p: int)
      requires Linked() && Apart(View())
      modifies `readyQueue, `ready, pcbs.next, pcbs.prev
      ensures Linked()
      ensures old(ready) == [] ==> p == NIL && View() == old(View())
      ensures old(ready) != [] ==> p == old(ready)[0] && p != NIL && View() == old(View()).(ready := old(ready)[1..])
    {
      hide IsProcQ, IsStack, AllFamilies, Owns, Tagged, IsActive, Keyed, NonEmptyBut, SameBut;
      ghost var v := Elems(ready);
      ghost var n0, p0 := pcbs.next[..], pcbs.prev[..];
      readyQueue, p := pcbs.RemoveProcQ(readyQueue, ready);
      if ready != [] {
        FrontOf(n0, p0, old(readyQueue), ready);
        ready := ready[1..];
      }
      StackFrame(n0, pcbs.next[..], pcbs.freeHead, pcbs.free, v);
      OwnsFrame(n0, p0, pcbs.next[..], pcbs.prev[..], asl.sProcQ[..], asl.sSemAdd[..], asl.nodes, asl.blocked, v);
    }

    // freePcb(p) for p in no queue.
    method Release(p: int)
      requires Linked() && Apart(View()) && Live(View(), p) && p !in ready
      requires forall a, x {:trigger x in asl.blocked[a]} :: a in asl.blocked && x in asl.blocked[a] ==> x != p
      modifies pcbs`freeHead, pcbs`free, pcbs.next
      ensures Linked() && View() == old(View()).(free := [p] + old(pcbs.free))
    {
      hide IsProcQ, IsStack, AllFamilies, Owns, Tagged, IsActive, Keyed, NonEmptyBut, SameBut;
      ghost var n0, f0 := pcbs.next[..], pcbs.free;
      pcbs.FreePcb(p);
      SameAsSelf(pcbs.prev[..], {p});
      ProcQFrame(n0, pcbs.prev[..], pcbs.next[..], pcbs.prev[..], readyQueue, ready, {p});
      OwnsFrame(n0, pcbs.prev[..], pcbs.next[..], pcbs.prev[..], asl.sProcQ[..], asl.sSemAdd[..],
                asl.nodes, asl.blocked, {p});
      FewerFamilies(pcbs.Kinship(), kids, f0, pcbs.free);
    }

    // insertBlocked(a, currentProcess), which cannot fail while that process runs.
    method BlockCurrent(a: int)
      requires Linked() && Structure(View()) && Running(View()) && currentProcess != NIL && Inner(a)
      modifies asl`semdFree, asl`free, asl`nodes, asl`blocked, asl.sNext, asl.sSemAdd, asl.sProcQ
      modifies pcbs.next, pcbs.prev, pcbs.semAdd
      ensures Linked() && View() == Blocked(old(View()), a)
    {
      hide IsProcQ, IsStack, AllFamilies, Owns, Tagged, IsActive, Keyed, NonEmptyBut, SameBut, Structure, Block;
      StructureApart(View());
      QueuesCount(View());
      NodesCount(asl.sNext[..], asl.sSemAdd[..], asl.semdActive, asl.nodes, asl.blocked);
      ghost var v := Elems(QueueAt(asl.blocked, a)) + {currentProcess};
      ghost var n0, p0 := pcbs.next[..], pcbs.prev[..];
      QueueApart(View(), a);
      var full := asl.InsertBlocked(a, currentProcess);
      ProcQFrame(n0, p0, pcbs.next[..], pcbs.prev[..], readyQueue, ready, v);
      StackFrame(n0, pcbs.next[..], pcbs.freeHead, pcbs.free, v);
    }

    // removeBlocked(a).
    method Unblock1(a: int) returns (p: int)
      requires Linked() && Structure(View()) && Inner(a)
      modifies asl`semdFree, asl`free, asl`nodes, asl`blocked, asl.sNext, asl.sSemAdd, asl.sProcQ
      modifies pcbs.next, pcbs.prev, pcbs.semAdd
      ensures Linked()
      ensures a !in old(asl.blocked) ==> p == NIL && View() == old(View())
      ensures a in old(asl.blocked) ==>
        && old(asl.blocked[a]) != [] && p == old(asl.blocked[a][0]) && 0 <= p < pcbs.semAdd.Length
        && View() == old(View()).(blocked := Unblock(old(asl.blocked), a, p),
                                  semAdd := old(pcbs.semAdd[..])[p := NULL_ADDR])
    {
      hide IsProcQ, IsStack, AllFamilies, Owns, Tagged, IsActive, Keyed, NonEmptyBut, SameBut, Structure, Unblock;
      StructureApart(View());
      ghost var v := Elems(QueueAt(asl.blocked, a));
      ghost var n0, p0 := pcbs.next[..], pcbs.prev[..];
      QueueApart(View(), a);
      p := asl.RemoveBlocked(a);
      ProcQFrame(n0, p0, pcbs.next[..], pcbs.prev[..], readyQueue, ready, v);
      StackFrame(n0, pcbs.next[..], pcbs.freeHead, pcbs.free, v);
    }

    // outBlocked(p) for a process that carries an address.
    method LeaveSemaphore(p: int)
      requires Linked() && Structure(View()) && Live(View(), p) && pcbs.semAdd[p] != NULL_ADDR
      modifies asl`semdFree, asl`free, asl`nodes, asl`blocked, asl.sNext, asl.sSemAdd, asl.sProcQ
      modifies pcbs.next, pcbs.prev, pcbs.semAdd
      ensures Linked()
      ensures View() == old(View()).(blocked := Unblock(old(asl.blocked), old(pcbs.semAdd[p]), p),
                                     semAdd := old(pcbs.semAdd[..])[p := NULL_ADDR])
    {
      hide IsProcQ, IsStack, AllFamilies, Owns, Tagged, IsActive, Keyed, NonEmptyBut, SameBut, Structure, Unblock;
      StructureApart(View());
      CarriesItsQueue(View(), p);
      ghost var v := Elems(QueueAt(asl.blocked, pcbs.semAdd[p]));
      ghost var n0, p0 := pcbs.next[..], pcbs.prev[..];
      QueueApart(View(), pcbs.semAdd[p]);
      var out := asl.OutBlocked(p);
      ProcQFrame(n0, p0, pcbs.next[..], pcbs.prev[..], readyQueue, ready, v);
      StackFrame(n0, pcbs.next[..], pcbs.freeHead, pcbs.free, v);
    }

    // allocPcb(), with the new block's birth noted.
    method Alloc() returns (p: int)
      requires Linked() && Structure(View())
      modifies pcbs`freeHead, pcbs`free, pcbs.next, pcbs.prev, pcbs.child, pcbs.prevSib, pcbs.nextSib, pcbs.semAdd
      modifies `kids, `birth, `births
      ensures Linked()
      ensures old(pcbs.free) == [] ==> p == NIL
      ensures old(pcbs.free) != [] ==> p == old(pcbs.free[0]) && 0 <= p < pcbs.semAdd.Length
      ensures View() == Allocated(old(View()))
    {
      hide IsProcQ, IsStack, AllFamilies, Owns, Tagged, IsActive, Keyed, NonEmptyBut, SameBut, Structure;
      FreeApart(View());
      SizedLike(View());
      ghost var n0, p0, t0, f0, a0 := pcbs.next[..], pcbs.prev[..], pcbs.Kinship(), pcbs.free, pcbs.semAdd[..];
      p := pcbs.AllocPcb();
      if p != NIL {
        ProcQFrame(n0, p0, pcbs.next[..], pcbs.prev[..], readyQueue, ready, {p});
        OwnsFrame(n0, p0, pcbs.next[..], pcbs.prev[..], asl.sProcQ[..], asl.sSemAdd[..], asl.nodes, asl.blocked, {p});
        FamiliesAlloc(t0, pcbs.Kinship(), kids, f0);
        TaggedElsewhere(a0, asl.blocked, p);
        kids := kids[p := []];
        birth := birth[p := births];
        births := births + 1;
      }
    }

    // insertChild(currentProcess, p).
    method Adopt(p: int)
      requires Linked() && Live(View(), currentProcess) && 0 <= p < pcbs.parent.Length
      requires forall q {:trigger kids[q]} :: 0 <= q < |kids| && q !in pcbs.free ==> p !in kids[q]
      modifies pcbs.child, pcbs.parent, pcbs.prevSib, pcbs.nextSib, `kids
      ensures Linked()
      ensures View() == Adopted(old(View()), p)
    {
      hide IsProcQ, IsStack, Owns, Tagged, IsActive, Keyed, NonEmptyBut, IsFamily;
      ghost var t0 := pcbs.Kinship();
      pcbs.InsertChild(currentProcess, p, kids[currentProcess]);
      FamiliesInsert(t0, pcbs.Kinship(), kids, pcbs.free, currentProcess, p);
      kids := kids[currentProcess := [p] + kids[currentProcess]];
    }

    // SYS1.
    method SysCreate() returns (v0: int)
      requires Linked() && Inv(View()) && currentProcess != NIL
      modifies this, pcbs`freeHead, pcbs`free
      modifies pcbs.next, pcbs.prev, pcbs.child, pcbs.parent, pcbs.prevSib, pcbs.nextSib, pcbs.semAdd
      ensures Linked() && View() == Created(old(View()))
      ensures v0 == if old(pcbs.free) == [] then -1 else 0
      ensures v0 == 0 ==>
        var p := old(pcbs.free)[0];
        && 0 <= p < pcbs.parent.Length && pcbs.parent[p] == currentProcess
        && kids == old(kids)[p := []][currentProcess := [p] + old(kids)[currentProcess]]
    {
      hide Linked, Structure, Counted, Accounted, Everywhere, Rooted, Created;
      FreeApart(View());
      SizedLike(View());
      StructureApart(View());
      ghost var s := View();
      var newProcess := Alloc();
      if newProcess != NIL {
        CreatedBySteps(s);
        processCount := processCount + 1;
        Adopt(newProcess);
        PushReady(newProcess);
        v0 := 0;
      } else {
        CreatedNone(s);
        v0 := -1;
      }
    }

    // removeChild(p) for a process with children.
    method RemoveKid(p: int) returns (c: int)
      requires Linked() && Structure(View()) && Live(View(), p) && kids[p] != []
      modifies pcbs.child, pcbs.parent, pcbs.prevSib, pcbs.nextSib, `kids
      ensures Linked() && c == old(kids[p][0]) && View() == Detached(old(View()), c)
    {
      hide IsProcQ, IsStack, Owns, Tagged, IsActive, Keyed, NonEmptyBut, IsFamily, Structure, Minus;
      SizedLike(View());
      KidBelow(View(), p, kids[p][0]);
      KidsDistinct(View(), p);
      MinusFirst(kids[p]);
      ghost var t0 := pcbs.Kinship();
      c := pcbs.RemoveChild(p, kids[p]);
      FamiliesRemove(t0, pcbs.Kinship(), kids, pcbs.free, p, c);
      kids := kids[p := Minus(kids[p], {c})];
    }

    // outChild(p).
    method Orphan(p: int)
      requires Linked() && Structure(View()) && Live(View(), p)
      modifies pcbs.child, pcbs.parent, pcbs.prevSib, pcbs.nextSib, `kids
      ensures Linked() && View() == if old(pcbs.parent[p]) == NIL then old(View()) else Detached(old(View()), p)
    {
      hide IsProcQ, IsStack, Owns, Tagged, IsActive, Keyed, NonEmptyBut, IsFamily, Structure, Minus;
      SizedLike(View());
      ghost var prnt := pcbs.parent[p];
      if prnt != NIL {
        ParentLive(View(), p);
      }
      ghost var t0 := pcbs.Kinship();
      var out := pcbs.OutChild(p, if prnt == NIL then [] else kids[prnt]);
      if prnt != NIL {
        FamiliesRemove(t0, pcbs.Kinship(), kids, pcbs.free, prnt, p);
        kids := kids[prnt := Minus(kids[prnt], {p})];
      }
    }

    // What executeOrderSixtySix does about the queues p may be in.
    method Withdraw(p: int)
      requires Linked() && Structure(View()) && Live(View(), p)
      modifies `readyQueue, `ready, `softBlockCount, `mem
      modifies asl`semdFree, asl`free, asl`nodes, asl`blocked, asl.sNext, asl.sSemAdd, asl.sProcQ
      modifies pcbs.next, pcbs.prev, pcbs.semAdd
      ensures Linked() && View() == Withdrawn(old(View()), p)
    {
      hide Linked, Structure, Minus, Unblock;
      SizedLike(View());
      StructureApart(View());
      CarriesItsQueueIfAny(View(), p);
      if pcbs.semAdd[p] == NULL_ADDR {
        OutReady(p);
      } else {
        var semAdd := pcbs.semAdd[p];
        LeaveSemaphore(p);
        if semAdd >= SemAddr(base, 0) && semAdd <= SemAddr(base, TOTALSEM) {
          softBlockCount := softBlockCount - 1;
        } else {
          mem := mem[semAdd := mem[semAdd] + 1];
        }
      }
    }

    // The end of executeOrderSixtySix, for a process that has no children (left).
    method Bury(p: int)
      requires Linked() && Structure(View()) && Live(View(), p) && kids[p] == []
      requires p == currentProcess || pcbs.parent[p] == NIL
      modifies this, pcbs`freeHead, pcbs`free, pcbs.child, pcbs.parent, pcbs.prevSib, pcbs.nextSib
      modifies asl`semdFree, asl`free, asl`nodes, asl`blocked, asl.sNext, asl.sSemAdd, asl.sProcQ
      modifies pcbs.next, pcbs.prev, pcbs.semAdd
      ensures Linked() && View() == Buried(old(View()), p)
      ensures currentProcess == old(currentProcess)
    {
      hide Linked, Structure, Withdrawn, Detached;
      ghost var s := View();
      SizedLike(s);
      OrphanStructure(s, p);
      if currentProcess == p {
        Orphan(p);
      }
      WithdrawnApart(View(), p);
      Withdraw(p);
      Release(p);
      processCount := processCount - 1;
    }

    // executeOrderSixtySix: proc and everything below it.
    method ExecuteOrderSixtySix(proc: int) returns (ghost order: seq<int>)
      requires Linked() && Structure(View()) && Live(View(), proc)
      requires proc == currentProcess || pcbs.parent[proc] == NIL
      modifies this, pcbs`freeHead, pcbs`free, pcbs.child, pcbs.parent, pcbs.prevSib, pcbs.nextSib
      modifies asl`semdFree, asl`free, asl`nodes, asl`blocked, asl.sNext, asl.sSemAdd, asl.sProcQ
      modifies pcbs.next, pcbs.prev, pcbs.semAdd
      ensures Linked() && Structure(View())
      ensures Sized(old(View())) && Elems(order) == Desc(old(View()), proc) && NoDup(order)
      ensures View() == Purged(old(View()), order)
      decreases births - (if 0 <= proc < |birth| then birth[proc] else 0)
    {
      hide Linked, Structure, Purged, Buried, Detached, Desc, Minus, Killing, NoDup, Elems;
      order := [];
      ghost var s := View();
      KillStart(s, proc);
      var childless := Childless(proc);
      while !childless
        invariant Linked() && Structure(s) && Live(s, proc) && Structure(View())
        invariant View() == Purged(s, order) && Killing(s, proc, order)
        invariant childless <==> KidsOf(View(), proc) == []
        decreases |KidsOf(View(), proc)|
      {
        KidToKill(s, proc, order);
        var child := RemoveKid(proc);
        ghost var o := ExecuteOrderSixtySix(child);
        KillStep(s, proc, order, child, o);
        order := o + order;
        childless := Childless(proc);
      }
      KidToKill(s, proc, order);
      KillDone(s, proc, order);
      BuriedIsPurged(View(), proc);
      Bury(proc);
      order := [proc] + order;
      PurgeStructure(s, order);
    }

    // emptyChild(p).
    method Childless(p: int) returns (b: bool)
      requires Linked() && Live(View(), p)
      ensures b <==> KidsOf(View(), p) == []
    {
      b := pcbs.EmptyChild(p);
    }

    // The first lines of scheduler().
    method Bill(tk: Ticks)
      requires Linked() && (currentProcess == NIL || Block?(View(), currentProcess))
      modifies `now, pcbs.time
      ensures Linked() && View() == Billed(old(View()), tk).(now := tk.start)
    {
      hide IsProcQ, IsStack, AllFamilies, Owns, Tagged, IsActive, Keyed, NonEmptyBut;
      if currentProcess != NIL {
        pcbs.time[currentProcess] := pcbs.time[currentProcess] + (tk.bill - TODStarted);
      }
      now := tk.start;
    }

    // scheduler().
    method Scheduler(tk: Ticks) returns (v: Verdict)
      requires Linked() && Apart(View()) && (currentProcess == NIL || Block?(View(), currentProcess))
      modifies `readyQueue, `ready, `currentProcess, `TODStarted, `now, pcbs.next, pcbs.prev, pcbs.time
      ensures Linked() && View() == Scheduled(old(View()), tk)
      ensures v == VerdictOf(old(View()))
    {
      hide Linked, Apart, Billed;
      Bill(tk);
      BilledSame(old(View()), tk);
      var newProc := PopReady();
      if newProc == NIL {
        currentProcess := NIL;
        if processCount == 0 {
          v := Halt;
        } else if processCount > 0 {
          if softBlockCount == 0 {
            v := Panic;
          } else if softBlockCount > 0 {
            v := Wait;
          } else {
            v := Fall;
          }
        } else {
          v := Fall;
        }
      } else {
        currentProcess := newProc;
        TODStarted := tk.start;
        v := Dispatch;
      }
    }

    // SYS2.
    method SysSendToNorthKorea(tk: Ticks) returns (v: Verdict, ghost order: seq<int>)
      requires Linked() && Inv(View()) && currentProcess != NIL
      modifies this, pcbs`freeHead, pcbs`free, pcbs.child, pcbs.parent, pcbs.prevSib, pcbs.nextSib
      modifies asl`semdFree, asl`free, asl`nodes, asl`blocked, asl.sNext, asl.sSemAdd, asl.sProcQ
      modifies pcbs.next, pcbs.prev, pcbs.semAdd, pcbs.time
      ensures Linked()
      ensures Sized(old(View())) && NoDup(order) && Elems(order) == Desc(old(View()), old(currentProcess))
      ensures View() == Scheduled(Purged(old(View()), order), tk)
      ensures v == VerdictOf(Purged(old(View()), order))
    {
      hide Linked, Structure, Everywhere, Rooted, Counted, Accounted, Purged, Desc, Scheduled, VerdictOf, NoDup,
        Elems;
      ghost var s := View();
      order := ExecuteOrderSixtySix(currentProcess);
      PurgedSame(s, order);
      StructureApart(View());
      v := Scheduler(tk);
    }

    // SYS3, on any word of mem.
    method SysSignal(mutex: int)
      requires Linked() && Inv(View()) && mutex in mem
      modifies `mem, `readyQueue, `ready
      modifies asl`semdFree, asl`free, asl`nodes, asl`blocked, asl.sNext, asl.sSemAdd, asl.sProcQ
      modifies pcbs.next, pcbs.prev, pcbs.semAdd
      ensures Linked() && View() == Signalled(old(View()), mutex)
      ensures mem == old(mem)[mutex := old(mem[mutex]) + 1]
    {
      hide Linked, Structure, Everywhere, Rooted, Counted, Accounted, Unblock, Apart;
      AddedStructure(View(), mutex, 1);
      mem := mem[mutex := mem[mutex] + 1];
      if mem[mutex] <= 0 {
        var process := Wake(mutex);
      }
    }

    // removeBlocked(a), and insertProcQ of the process it finds, if any.
    method Wake(a: int) returns (p: int)
      requires Linked() && Structure(View()) && Inner(a)
      modifies `readyQueue, `ready
      modifies asl`semdFree, asl`free, asl`nodes, asl`blocked, asl.sNext, asl.sSemAdd, asl.sProcQ
      modifies pcbs.next, pcbs.prev, pcbs.semAdd
      ensures Linked() && View() == Woken(old(View()), a)
      ensures p == if QueueAt(old(asl.blocked), a) == [] then NIL else old(asl.blocked)[a][0]
      ensures p != NIL ==> 0 <= p < pcbs.time.Length
      ensures p == NIL <==> QueueAt(old(asl.blocked), a) == []
    {
      hide Linked, Structure, Unblock, Apart;
      SizedLike(View());
      if QueueAt(asl.blocked, a) != [] {
        WokenApart(View(), a);
      }
      p := Unblock1(a);
      if p != NIL {
        PushReady(p);
      }
    }

    // SYS4, on any word of mem.
    method SysWait(mutex: int, tk: Ticks) returns (v: Verdict)
      requires Linked() && Inv(View()) && currentProcess != NIL && mutex in mem
      modifies `mem, `readyQueue, `ready, `currentProcess, `TODStarted, `now
      modifies asl`semdFree, asl`free, asl`nodes, asl`blocked, asl.sNext, asl.sSemAdd, asl.sProcQ
      modifies pcbs.next, pcbs.prev, pcbs.semAdd, pcbs.time
      ensures Linked() && View() == Waited(old(View()), mutex, tk)
      ensures mem == old(mem)[mutex := old(mem[mutex]) - 1]
      ensures v == if old(mem[mutex]) - 1 < 0 then VerdictOf(Blocked(Added(old(View()), mutex, -1), mutex)) else Resume
    {
      hide Linked, Structure, Everywhere, Rooted, Counted, Accounted, Blocked, Scheduled, VerdictOf, Apart;
      AddedStructure(View(), mutex, -1);
      mem := mem[mutex := mem[mutex] - 1];
      if mem[mutex] < 0 {
        BlockedApart(View(), mutex);
        BlockCurrent(mutex);
        v := Scheduler(tk);
      } else {
        v := Resume;
      }
    }

    // SYS6.
    method SysGetCPUTime(tk: Ticks) returns (v0: int)
      requires Linked() && Inv(View()) && currentProcess != NIL
      modifies `TODStarted, `now, pcbs.time
      ensures Linked() && View() == Timed(old(View()), tk)
      ensures v0 == TimeOf(View(), currentProcess)
    {
      hide Linked, Structure, Everywhere, Rooted, Counted, Accounted;
      SizedLike(View());
      Bill(tk);
      v0 := pcbs.time[currentProcess];
      TODStarted := tk.start;
    }

    // SYS7.
    method SysWaitForClock(tk: Ticks) returns (v: Verdict)
      requires Linked() && Inv(View()) && currentProcess != NIL
      modifies `mem, `softBlockCount, `readyQueue, `ready, `currentProcess, `TODStarted, `now
      modifies asl`semdFree, asl`free, asl`nodes, asl`blocked, asl.sNext, asl.sSemAdd, asl.sProcQ
      modifies pcbs.next, pcbs.prev, pcbs.semAdd, pcbs.time
      ensures Linked() && View() == WaitedClock(old(View()), tk)
      ensures var a := SemAddr(base, CLOCK); a in old(mem) && mem == old(mem)[a := old(mem)[a] - 1]
      ensures v == VerdictOf(ClockStep(old(View())))
    {
      hide Linked, Structure, Everywhere, Rooted, Counted, Accounted, Blocked, Scheduled, VerdictOf, Apart;
      ghost var s := View();
      SemInMem(View(), CLOCK);
      var semAdd := SemAddr(base, CLOCK);
      AddedStructure(View(), semAdd, -1);
      mem := mem[semAdd := mem[semAdd] - 1];
      StructureApart(View());
      SizedLike(View());
      if mem[semAdd] < 0 {
        BlockedApart(View(), semAdd);
        ghost var t := Blocked(View(), semAdd);
        BlockCurrent(semAdd);
        softBlockCount := softBlockCount + 1;
        ApartSame(t, View());
      }
      assert View() == ClockStep(s);
      v := Scheduler(tk);
    }

    // SYS8, if the index it computes is that of a word used as a semaphore.
    method SysGoPowerRangers(interruptNumber: int, deviceNumber: int, isWrite: int, tk: Ticks) returns (v: Verdict)
      requires Linked() && Inv(View()) && currentProcess != NIL
      requires SemAddr(base, DeviceIndex(interruptNumber, deviceNumber, isWrite)) in mem
      modifies `mem, `softBlockCount, `readyQueue, `ready, `currentProcess, `TODStarted, `now
      modifies asl`semdFree, asl`free, asl`nodes, asl`blocked, asl.sNext, asl.sSemAdd, asl.sProcQ
      modifies pcbs.next, pcbs.prev, pcbs.semAdd, pcbs.time
      ensures Linked()
      ensures var i := DeviceIndex(interruptNumber, deviceNumber, isWrite);
        && View() == WaitedIo(old(View()), i, tk)
        && v == if Value(old(View()), SemAddr(base, i)) - 1 < 0 then VerdictOf(IoStep(old(View()), i)) else Resume
      ensures var a := SemAddr(base, (interruptNumber - DEVNOSEM + isWrite) * DEVPERINT + deviceNumber);
        && a in old(mem) && mem == old(mem)[a := old(mem)[a] - 1]
    {
      hide Linked, Structure, Everywhere, Rooted, Counted, Accounted, Blocked, Scheduled, VerdictOf, Apart;
      var deviceIndex := interruptNumber - DEVNOSEM + isWrite;
      deviceIndex := deviceIndex * DEVPERINT;
      deviceIndex := deviceIndex + deviceNumber;
      var mutex := SemAddr(base, deviceIndex);
      AddedStructure(View(), mutex, -1);
      mem := mem[mutex := mem[mutex] - 1];
      if mem[mutex] < 0 {
        BlockedApart(View(), mutex);
        ghost var t := Blocked(View(), mutex);
        BlockCurrent(mutex);
        softBlockCount := softBlockCount + 1;
        ApartSame(t, View());
        v := Scheduler(tk);
      } else {
        v := Resume;
      }
    }

    // finish().
    method Finish(tk: Ticks) returns (v: Verdict)
      requires Linked() && Structure(View()) && Running(View())
      modifies `readyQueue, `ready, `currentProcess, `TODStarted, `now, pcbs.next, pcbs.prev, pcbs.time
      ensures Linked() && View() == Finished(old(View()), tk)
      ensures v == VerdictOf(FinishStep(old(View()), tk))
    {
      hide Linked, Structure, Scheduled, VerdictOf, Apart;
      ghost var s := View();
      SizedLike(s);
      FinishApart(s, tk);
      if currentProcess != NIL {
        TODStarted := TODStarted + (tk.end - tk.stop);
        ApartSame(s, View());
        PushReady(currentProcess);
      }
      assert View() == FinishStep(s, tk);
      v := Scheduler(tk);
    }

    method GetDeviceNumber(bitMap: bv32) returns (deviceNum: int)
      ensures deviceNum == CodedDevice(bitMap)
    {
      deviceNum := 0;
      var checkingDevice: bv32 := 1;
      while deviceNum < DEVPERINT
        invariant 0 <= deviceNum <= DEVPERINT && checkingDevice == 1
        invariant deviceNum != 0 ==> bitMap & 1 != 1
      {
        if bitMap & checkingDevice == checkingDevice {
          break;
        }
        deviceNum := deviceNum + 1;
      }
    }

    // ioTrapHandler for a device on lines 3 to 7.
    method IoTrap(interruptNum: int, bitMap: bv32, receiving: bool, tk: Ticks) returns (v: Verdict)
      requires Linked() && Inv(View()) && DEVNOSEM <= interruptNum <= TERMINT
      modifies `mem, `softBlockCount, `readyQueue, `ready, `currentProcess, `TODStarted, `now
      modifies asl`semdFree, asl`free, asl`nodes, asl`blocked, asl.sNext, asl.sSemAdd, asl.sProcQ
      modifies pcbs.next, pcbs.prev, pcbs.semAdd, pcbs.time
      ensures Linked() && View() == Interrupted(old(View()), CodedIndex(interruptNum, bitMap, receiving), tk)
      ensures v == VerdictOf(FinishStep(IoDone(old(View()), CodedIndex(interruptNum, bitMap, receiving)), tk))
    {
      hide Linked, Structure, Running, Everywhere, Rooted, Counted, Accounted, IoDone, Finished, FinishStep,
        VerdictOf;
      var deviceNum := GetDeviceNumber(bitMap);
      var i := DEVPERINT * (interruptNum - DEVNOSEM) + deviceNum;
      if interruptNum == TERMINT && receiving {
        i := i + DEVPERINT;
      }
      SizedLike(View());
      IoDoneStructure(View(), i);
      DeviceDone(i);
      v := Finish(tk);
    }

    // The V of ioTrapHandler on sem[i].
    method DeviceDone(i: int)
      requires Linked() && Structure(View()) && 0 <= i < TOTALSEM
      modifies `mem, `softBlockCount, `readyQueue, `ready
      modifies asl`semdFree, asl`free, asl`nodes, asl`blocked, asl.sNext, asl.sSemAdd, asl.sProcQ
      modifies pcbs.next, pcbs.prev, pcbs.semAdd
      ensures Linked() && View() == IoDone(old(View()), i)
      ensures var a := SemAddr(base, i); a in old(mem) && mem == old(mem)[a := old(mem)[a] + 1]
    {
      hide Linked, Structure, Woken;
      SemInMem(View(), i);
      var semAdd := SemAddr(base, i);
      AddedStructure(View(), semAdd, 1);
      mem := mem[semAdd := mem[semAdd] + 1];
      if mem[semAdd] <= 0 {
        ghost var t := View();
        if QueueAt(asl.blocked, semAdd) == [] {
          WokenNone(t, semAdd);
        }
        var temp := Wake(semAdd);
        if temp != NIL {
          softBlockCount := softBlockCount - 1;
        }
      }
    }

    // ioTrapHandler for the process timer.
    method Quantum(tk: Ticks) returns (v: Verdict)
      requires Linked() && Inv(View())
      modifies `readyQueue, `ready, `currentProcess, `TODStarted, `now, pcbs.next, pcbs.prev, pcbs.time
      ensures Linked() && View() == Finished(old(View()), tk)
      ensures v == VerdictOf(FinishStep(old(View()), tk))
    {
      v := Finish(tk);
    }

    // One round of the drain loop, once headBlocked has found somebody.
    method WakeByClock(tk: Ticks, k: nat) returns (temp: int)
      requires Linked() && Structure(View())
      modifies `softBlockCount, `readyQueue, `ready
      modifies asl`semdFree, asl`free, asl`nodes, asl`blocked, asl.sNext, asl.sSemAdd, asl.sProcQ
      modifies pcbs.next, pcbs.prev, pcbs.semAdd, pcbs.time
      ensures Linked() && View() == WokenByClock(old(View()), tk, k)
      ensures temp == NIL <==> QueueAt(old(asl.blocked), SemAddr(base, CLOCK)) == []
    {
      hide Structure, IsProcQ, IsStack, AllFamilies, Owns, Tagged, IsActive, Keyed, NonEmptyBut, Unblock;
      SemInMem(View(), CLOCK);
      temp := Wake(SemAddr(base, CLOCK));
      if temp != NIL {
        pcbs.time[temp] := pcbs.time[temp] + (EndOf(tk, k) - tk.stop);
        softBlockCount := softBlockCount - 1;
      }
    }

    // ioTrapHandler for the interval timer.
    method IntervalTimer(tk: Ticks) returns (v: Verdict)
      requires Linked() && Inv(View())
      modifies `mem, `softBlockCount, `readyQueue, `ready, `currentProcess, `TODStarted, `now
      modifies asl`semdFree, asl`free, asl`nodes, asl`blocked, asl.sNext, asl.sSemAdd, asl.sProcQ
      modifies pcbs.next, pcbs.prev, pcbs.semAdd, pcbs.time
      ensures Linked()
      ensures DrainEnds(old(View())) ==>
        View() == Ticked(old(View()), tk) && v == VerdictOf(FinishStep(TickDone(old(View()), tk), tk))
      ensures !DrainEnds(old(View())) ==> View() == Drained(old(View()), tk, 0) && v == Hang
      ensures v != Hang ==> mem == old(mem)[SemAddr(base, CLOCK) := 0]
    {
      hide Linked, Structure, Running, Everywhere, Rooted, Counted, Accounted, Drained, Finished, FinishStep,
        VerdictOf, DrainEnds;
      ghost var s := View();
      var semAdd := SemAddr(base, CLOCK);
      SemInMem(s, CLOCK);
      var stuck := Drain(tk);
      DrainEndsOrNot(s, View(), tk);
      if stuck {
        return Hang;
      }
      SetStructure(View(), semAdd, 0);
      mem := mem[semAdd := 0];
      v := Finish(tk);
    }

    // The drain loop. A round that wakes nobody changes nothing, so from there on it
    // never ends.
    method Drain(tk: Ticks) returns (stuck: bool)
      requires Linked() && Structure(View()) && Running(View())
      modifies `softBlockCount, `readyQueue, `ready
      modifies asl`semdFree, asl`free, asl`nodes, asl`blocked, asl.sNext, asl.sSemAdd, asl.sProcQ
      modifies pcbs.next, pcbs.prev, pcbs.semAdd, pcbs.time
      ensures Linked() && Draining(old(View()), View(), tk, 0) && View() == Drained(old(View()), tk, 0)
      ensures stuck <==> exists a :: a in asl.blocked && a > SemAddr(base, CLOCK)
    {
      hide Linked, Structure, Running, WokenByClock, Drained, Draining;
      ghost var s := View();
      var k: nat := 0;
      DrainStart(s, tk);
      DrainRound(s, s, tk, 0);
      var h := FrontBlocked(SemAddr(base, CLOCK));
      var temp := h;
      while h != NIL
        invariant Linked() && Draining(s, View(), tk, k)
        invariant h == NIL <==> forall a :: a in asl.blocked ==> a < SemAddr(base, CLOCK)
        decreases |QueueAt(asl.blocked, SemAddr(base, CLOCK))|
      {
        temp, h := Round(tk, k, s);
        if temp == NIL {
          return true;
        }
        k := k + 1;
      }
      DrainRound(s, View(), tk, k);
      DrainEnd(s, View(), tk, k);
      stuck := false;
    }

    // A round of the drain loop with the loop's next test.
    method Round(tk: Ticks, k: nat, ghost s: Kernel) returns (temp: int, h: int)
      requires Linked() && Draining(s, View(), tk, k) && exists a :: a in asl.blocked && a >= SemAddr(base, CLOCK)
      modifies `softBlockCount, `readyQueue, `ready
      modifies asl`semdFree, asl`free, asl`nodes, asl`blocked, asl.sNext, asl.sSemAdd, asl.sProcQ
      modifies pcbs.next, pcbs.prev, pcbs.semAdd, pcbs.time
      ensures Linked() && (h == NIL <==> forall a :: a in asl.blocked ==> a < SemAddr(base, CLOCK))
      ensures temp == NIL ==>
        && Draining(s, View(), tk, 0) && View() == Drained(s, tk, 0)
        && exists a :: a in asl.blocked && a > SemAddr(base, CLOCK)
      ensures temp != NIL ==>
        && Draining(s, View(), tk, k + 1)
        && |QueueAt(asl.blocked, SemAddr(base, CLOCK))| < |QueueAt(old(asl.blocked), SemAddr(base, CLOCK))|
    {
      hide Linked, Structure, Running, WokenByClock, Drained, Draining;
      DrainRound(s, View(), tk, k);
      temp := WakeByClock(tk, k);
      if temp == NIL {
        DrainEnd(s, View(), tk, k);
      }
      h := FrontBlocked(SemAddr(base, CLOCK));
    }

    // headBlocked(a).
    method FrontBlocked(a: int) returns (h: int)
      requires Linked() && Inner(a)
      ensures h == NIL <==> forall c :: c in asl.blocked ==> c < a
    {
      h := asl.HeadBlocked(a);
    }
  }
}
