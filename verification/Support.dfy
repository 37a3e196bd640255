// The support level of phase 3 as it runs: initProc.c and vmIOsupport.c. A method is
// what one process does from one SYSCALL to the next; the hardware is in it where the
// code depends on it.
module Supports {
  import opened Lists
  import opened Pagers
  import opened PagerInvs
  import opened PagerMemory
  import opened PagerBoot

  // h/const.h
  const TLBL := 2
  const TLBS := 3
  const SEG2 := 0x80000000
  const DISK_READBLK := 3
  const DISK_WRITEBLK := 4

  datatype DiskCall = Killed | Panicked | Waiting

  class Support {
    const repaired: bool
    const tapes: seq<seq<Page>>
    const swapPool: array<Slot>
    const pte: array<Entry>          // pteTable of all processes
    const ram: array<Page>
    const procs: array<Proc>
    var tapeAt: map<int, int>
    var buf: map<int, Page>
    var disk: map<(int, int), Page>
    var arm: int
    var next: int
    var tlb: map<int, Entry>
    var swap: int                    // the holders of the mutexes
    var disk0: int
    var devices: map<int, int>

    ghost function View(): Pager
      reads this, swapPool, pte, ram, procs
    {
      Pager(repaired, tapes, tapeAt, procs[..], swapPool[..], pte[..], ram[..], buf, disk, arm, next, tlb, swap, disk0,
            devices)
    }

    // test(): the tables of n processes and the pool.
    constructor (n: nat, swapSize: nat, tapes: seq<seq<Page>>, repaired: bool)
      requires n <= DEVPERINT && swapSize > 0 && |tapes| == n && forall i :: 0 <= i < n ==> tapes[i] != []
      ensures Started(View()) && this.repaired == repaired && this.tapes == tapes && swapPool.Length == swapSize
      ensures fresh(swapPool) && fresh(pte) && fresh(ram) && fresh(procs)
    {
      this.repaired, this.tapes := repaired, tapes;
      swapPool, pte := new Slot[swapSize](_ => Slot(0, 0, 0)), new Entry[n * KUSEGSIZE](_ => Entry(true, false, 0));
      ram, procs := new Page[swapSize](_ => map[]), new Proc[n](_ => Proc(TapeWait, 0));
      tapeAt, buf, disk, tlb, devices := map[], map[], map[], map[], map[];
      arm, next, swap, disk0 := 0, 0, NOBODY, NOBODY;
      new;
      for i := 0 to swapSize
        modifies swapPool
        invariant forall f :: 0 <= f < i ==> swapPool[f].asid == NOASID
      {
        swapPool[i] := swapPool[i].(asid := NOASID);
      }
      for i := 1 to n + 1
        modifies pte
        invariant forall g :: 0 <= g < (i - 1) * KUSEGSIZE ==> pte[g] == Entry(false, true, 0)
      {
        for j := 0 to KUSEGSIZE
          modifies pte
          invariant forall g :: 0 <= g < EntryNo(i, j) ==> pte[g] == Entry(false, true, 0)
        {
          pte[EntryNo(i, j)] := Entry(false, true, 0);
        }
      }
    }

    // ------------------------------------------------- vmMemHandler

    // A load from user memory, and vmMemHandler up to its P on swap if it traps.
    method LoadWord(asid: int, vpn: int, w: int) returns (hit: bool, value: int)
      requires PInv(View()) && Enabled(View(), Load(asid, vpn, w))
      modifies `tlb, procs
      ensures View() == Next(old(View()), Load(asid, vpn, w))
      ensures hit <==> Hits(old(View()), asid, vpn)
      ensures hit ==> value == Loaded(old(View()), asid, vpn, w)
    {
      hide PInv, Next, Enabled, EntryNo, Cached, Hits, Loaded, Word, PageOf;
      NextLoad(View(), asid, vpn, w);
      var entry := Translate(EntryNo(asid, PageOf(vpn)));
      value, hit := 0, entry.valid;
      if !hit {
        VmMemTrap(asid, TLBL, vpn);
      } else {
        value := Word(ram[entry.frame], w);
      }
    }

    // A store to user memory, likewise.
    method StoreWord(asid: int, vpn: int, w: int, v: int) returns (hit: bool)
      requires PInv(View()) && Enabled(View(), Store(asid, vpn, w, v))
      modifies `tlb, ram, procs
      ensures View() == Next(old(View()), Store(asid, vpn, w, v))
      ensures hit <==> Hits(old(View()), asid, vpn)
    {
      hide PInv, Next, Enabled, EntryNo, Cached, Hits, Loaded, Word, PageOf;
      NextStore(View(), asid, vpn, w, v);
      var entry := Translate(EntryNo(asid, PageOf(vpn)));
      hit := entry.valid;
      if !hit {
        VmMemTrap(asid, TLBS, vpn);
      } else {
        ram[entry.frame] := ram[entry.frame][w := v];
      }
    }

    // The entry for page g, from the cache if it is there.
    method Translate(g: int) returns (entry: Entry)
      requires 0 <= g < pte.Length && (g in tlb ==> tlb[g] == pte[g])
      modifies `tlb
      ensures tlb == old(tlb)[g := pte[g]] && entry == pte[g]
    {
      if g !in tlb {
        tlb := tlb[g := pte[g]];
      }
      entry := tlb[g];
    }

    // vmMemHandler up to its P on swap.
    method VmMemTrap(asid: int, cause: int, vpn: int)
      requires 1 <= asid <= procs.Length
      modifies procs
      ensures procs[..] == Put(old(procs[..]), asid - 1,
        old(procs[asid - 1]).(pc := if cause != TLBL && cause != TLBS then DieWait else SwapWait(PageOf(vpn))))
    {
      if cause != TLBL && cause != TLBS {
        procs[asid - 1] := procs[asid - 1].(pc := DieWait);
        return;
      }
      var missingPage := vpn;
      if missingPage >= KUSEGSIZE {
        missingPage := KUSEGSIZE - 1;
      }
      procs[asid - 1] := procs[asid - 1].(pc := SwapWait(missingPage));
    }

    // spinTheBottle().
    method SpinTheBottle() returns (newFrame: int)
      requires 0 <= next < swapPool.Length
      modifies `next
      ensures newFrame == next && 0 <= next < swapPool.Length
      ensures next == if old(next) == swapPool.Length - 1 then 0 else old(next) + 1
    {
      next := (next + 1) % swapPool.Length;
      newFrame := next;
    }

    // The next frame. The page in it, if any, is made invalid and the cache cleared, with
    // interrupts off.
    method TakeFrame() returns (newFrame: int)
      requires 0 <= next < swapPool.Length
      requires forall f :: 0 <= f < swapPool.Length && swapPool[f].asid != NOASID ==> 0 <= swapPool[f].pte < pte.Length
      modifies `next, `tlb, pte
      ensures newFrame == next && next == if old(next) == swapPool.Length - 1 then 0 else old(next) + 1
      ensures 0 <= newFrame < swapPool.Length && pte[..] == Vacated(old(pte[..]), swapPool[newFrame])
      ensures tlb == if swapPool[newFrame].asid != NOASID then map[] else old(tlb)
    {
      newFrame := SpinTheBottle();
      if swapPool[newFrame].asid != NOASID {
        pte[swapPool[newFrame].pte] := AndNVALID(pte[swapPool[newFrame].pte]);
        tlb := map[];
      }
    }

    // vmMemHandler from its P on swap to the first block it moves.
    method PickFrame(asid: int)
      requires PInv(View()) && Enabled(View(), Pick(asid))
      modifies `next, `tlb, pte, procs
      ensures View() == Next(old(View()), Pick(asid))
    {
      hide PInv, Next, Enabled, Chosen, Vacated;
      NextPick(View(), asid);
      var missingPage := procs[asid - 1].pc.page;
      var newFrame := TakeFrame();
      var victim := swapPool[newFrame];
      var pc := Fetching(missingPage, newFrame, Queued);
      if victim.asid != NOASID {
        pc := Evicting(missingPage, newFrame, victim.page, victim.asid, Queued);
      }
      procs[asid - 1] := procs[asid - 1].(pc := pc);
    }

    // vmMemHandler once the page is in its frame.
    method CommitPage(asid: int)
      requires PInv(View()) && Enabled(View(), Commit(asid))
      modifies `tlb, swapPool, pte, procs
      ensures View() == Next(old(View()), Commit(asid))
    {
      hide PInv, Next, Enabled, EntryNo;
      NextCommit(View(), asid);
      var pc := procs[asid - 1].pc;
      swapPool[pc.f] := Slot(asid, pc.page, EntryNo(asid, pc.page));
      pte[swapPool[pc.f].pte] := Entry(true, true, pc.f);
      tlb := map[];
      procs[asid - 1] := procs[asid - 1].(pc := Serviced);
    }

    // ------------------------------------------------- readWriteBacking, uProcInit

    // P on disk 0's mutex, and the seek command.
    method SeekCylinder(asid: int)
      requires Enabled(View(), TakeDisk(asid))
      modifies `disk0, procs
      ensures View() == Next(old(View()), TakeDisk(asid))
    {
      disk0 := asid;
      procs[asid - 1] := procs[asid - 1].(pc := Onto(procs[asid - 1].pc, Seeking));
    }

    // The arm arrives.
    method ArmArrives(asid: int)
      requires Enabled(View(), SeekDone(asid))
      modifies `arm, procs
      ensures View() == Next(old(View()), SeekDone(asid))
    {
      arm := CylinderOf(procs[asid - 1].pc);
      procs[asid - 1] := procs[asid - 1].(pc := Onto(procs[asid - 1].pc, Sought));
    }

    // The read or write command, carried out where the arm is.
    method MoveBlock(asid: int)
      requires PInv(View()) && Enabled(View(), Transfer(asid))
      modifies `disk, ram, procs
      ensures View() == Next(old(View()), Transfer(asid))
    {
      hide PInv, Next, Enabled, SectorOf, Onto, Block, DiskAfter, RamAfter;
      NextTransfer(View(), asid);
      var pc := procs[asid - 1].pc;
      if pc.Fetching? {
        ReadBlock(asid, pc);
      } else {
        WriteBlock(asid, pc);
      }
      procs[asid - 1] := procs[asid - 1].(pc := Onto(pc, Moved));
    }

    method ReadBlock(asid: int, pc: Pc)
      requires pc.Fetching? && 0 <= pc.f < ram.Length && pc == PcOf(View(), asid)
      modifies ram
      ensures ram[..] == RamAfter(old(View()), Transfer(asid)) && disk == DiskAfter(old(View()), Transfer(asid))
    {
      hide SectorOf, Block;
      ram[pc.f] := Block(disk, (arm, SectorOf(asid, pc)));
    }

    method WriteBlock(asid: int, pc: Pc)
      requires pc.Loading? || (pc.Evicting? && 0 <= pc.f < ram.Length)
      requires pc == PcOf(View(), asid)
      modifies `disk
      ensures ram[..] == RamAfter(old(View()), Transfer(asid)) && disk == DiskAfter(old(View()), Transfer(asid))
    {
      hide SectorOf, Block;
      if pc.Loading? {
        disk := disk[(arm, SectorOf(asid, pc)) := if TapeBuffer(asid) in buf then buf[TapeBuffer(asid)] else map[]];
      } else {
        disk := disk[(arm, SectorOf(asid, pc)) := ram[pc.f]];
      }
    }

    // V on disk 0's mutex.
    method LeaveBacking(asid: int)
      requires Enabled(View(), LeaveDisk(asid)) && PInv(View())
      modifies `disk0, procs
      ensures View() == Next(old(View()), LeaveDisk(asid))
    {
      disk0 := NOBODY;
      var block := if asid in tapeAt then tapeAt[asid] else 0;
      procs[asid - 1] := procs[asid - 1].(pc := OffDisk(procs[asid - 1].pc, block < |tapes[asid - 1]|));
    }

    // readWriteBacking, with nobody in its way.
    method ReadWriteBacking(asid: int)
      requires MInv(View()) && Enabled(View(), TakeDisk(asid)) && !PcOf(View(), asid).Loading?
      modifies `disk0, `arm, `disk, ram, procs
      ensures MInv(View()) && Preserves(old(View()), View()) && disk0 == NOBODY
      ensures PcOf(View(), asid) == OffDisk(PcOf(old(View()), asid), false)
    {
      hide MInv, Next, Enabled, Preserves;
      DiskStages(View(), asid);
      SeekCylinder(asid);
      ArmArrives(asid);
      MoveBlock(asid);
      LeaveBacking(asid);
    }

    // uProcInit: the next block of the tape goes to its buffer.
    method ReadTapeBlock(asid: int)
      requires Enabled(View(), ReadTape(asid)) && PInv(View())
      modifies `buf, `tapeAt, procs
      ensures View() == Next(old(View()), ReadTape(asid))
    {
      hide PInv, Next, Enabled;
      NextReadTape(View(), asid);
      var block := if asid in tapeAt then tapeAt[asid] else 0;
      if 0 <= block < |tapes[asid - 1]| {
        buf := buf[TapeBuffer(asid) := tapes[asid - 1][block]];
      }
      tapeAt := tapeAt[asid := block + 1];
      procs[asid - 1] := procs[asid - 1].(pc := Loading(procs[asid - 1].pc.k, Queued));
    }

    // The loop of uProcInit for one block, with nobody in its way.
    method LoadBlock(asid: int)
      requires MInv(View()) && BootedTo(View(), asid) && 1 <= asid <= procs.Length
      requires PcOf(View(), asid).TapeRead? && disk0 == NOBODY
      modifies `buf, `tapeAt, `disk0, `arm, `disk, ram, procs
      ensures MInv(View()) && BootedTo(View(), asid) && disk0 == NOBODY
      ensures var k := PcOf(old(View()), asid).k;
        && 0 <= k < |tapes[asid - 1]|
        && PcOf(View(), asid) == if k + 1 < |tapes[asid - 1]| then TapeRead(k + 1) else TapeDone
    {
      hide PInv, Fetched, BootedTo, Next, Enabled;
      BootStages(View(), asid);
      ReadTapeBlock(asid);
      SeekCylinder(asid);
      ArmArrives(asid);
      MoveBlock(asid);
      LeaveBacking(asid);
    }

    // uProcInit from its P on the tape's mutex, with nobody in its way: afterwards the
    // process sees its tape.
    method UProcInit(asid: int)
      requires MInv(View()) && BootedTo(View(), asid) && Enabled(View(), TakeTape(asid)) && disk0 == NOBODY
      modifies `buf, `tapeAt, `disk0, `arm, `disk, `devices, ram, procs
      ensures MInv(View()) && BootedTo(View(), asid) && PcOf(View(), asid) == User && disk0 == NOBODY
      ensures forall k :: 0 <= k < |tapes[asid - 1]| && k < KUSEGSIZE ==>
        Contents(View(), EntryNo(asid, k)) == tapes[asid - 1][k]
    {
      hide MInv, PInv, Fetched, BootedTo, Next, Enabled, Contents, EntryNo, OfLiving;
      BootStarts(View(), asid);
      PTape(asid);
      var currentBlock, finished := 0, false;
      while !finished
        modifies `buf, `tapeAt, `disk0, `arm, `disk, ram, procs
        invariant MInv(View()) && BootedTo(View(), asid) && disk0 == NOBODY
        invariant PcOf(View(), asid) == if finished then TapeDone else TapeRead(currentBlock)
        decreases if finished then 0 else 1, |tapes[asid - 1]| - currentBlock
      {
        LoadBlock(asid);
        if currentBlock + 1 >= |tapes[asid - 1]| {
          finished := true;
        }
        currentBlock := currentBlock + 1;
      }
      BootEnds(View(), asid);
      VDevice(asid);
    }

    // ------------------------------------------------- the mutexes

    method PTape(asid: int)
      requires Enabled(View(), TakeTape(asid))
      modifies `devices, procs
      ensures View() == Next(old(View()), TakeTape(asid))
    {
      devices := devices[TapeOf(asid) := asid];
      procs[asid - 1] := Proc(TapeRead(0), TapeOf(asid));
    }

    method VDevice(asid: int)
      requires Enabled(View(), LeaveDevice(asid))
      modifies `devices, procs
      ensures View() == Next(old(View()), LeaveDevice(asid))
    {
      devices := devices - {procs[asid - 1].held};
      procs[asid - 1] := Proc(User, 0);
    }

    method PSwap(asid: int)
      requires Enabled(View(), TakeSwap(asid))
      modifies `swap, procs
      ensures View() == Next(old(View()), TakeSwap(asid))
    {
      swap := asid;
      var pc := procs[asid - 1].pc;
      procs[asid - 1] := procs[asid - 1].(pc := if pc.SwapWait? then Picking(pc.page) else Reaping);
    }

    method VSwap(asid: int)
      requires Enabled(View(), LeaveSwap(asid))
      modifies `swap, procs
      ensures View() == Next(old(View()), LeaveSwap(asid))
    {
      hide Next, Enabled;
      NextLeaveSwap(View(), asid);
      swap := NOBODY;
      procs[asid - 1] := procs[asid - 1].(pc := if procs[asid - 1].pc == Reaped then Dead else User);
    }

    // vmMemHandler as a whole, with nobody in its way: afterwards the page is there, and
    // no page of a living process has changed.
    method VmMemHandler(asid: int)
      requires MInv(View()) && 1 <= asid <= procs.Length && PcOf(View(), asid).SwapWait?
      requires swap == NOBODY && disk0 == NOBODY
      modifies `swap, `next, `tlb, `disk0, `arm, `disk, swapPool, pte, ram, procs
      ensures MInv(View()) && PcOf(View(), asid) == User && swap == NOBODY && disk0 == NOBODY
      ensures EntryAt(View(), EntryNo(asid, PcOf(old(View()), asid).page)) == Entry(true, true, next)
      ensures Preserves(old(View()), View())
    {
      hide MInv, Next, Enabled, Preserves;
      ghost var s := View();
      HandlerStarts(s, asid);
      PSwap(asid);
      ghost var t := View();
      BringIn(asid);
      ghost var y := View();
      HandlerEnds(y, asid);
      CommitPage(asid);
      VSwap(asid);
      AllPreserve(s, t, y, View());
    }

    // vmMemHandler between its P and V on swap, up to the tables.
    method BringIn(asid: int)
      requires MInv(View()) && 1 <= asid <= procs.Length && PcOf(View(), asid).Picking? && disk0 == NOBODY
      modifies `next, `tlb, `disk0, `arm, `disk, pte, ram, procs
      ensures MInv(View()) && disk0 == NOBODY && Preserves(old(View()), View())
      ensures PcOf(View(), asid) == Committing(PcOf(old(View()), asid).page, next)
    {
      hide MInv, Next, Enabled, Preserves, PInv;
      ghost var t := View();
      HandlerPicks(t, asid);
      PickFrame(asid);
      ghost var u := View();
      SelfPreserves(u);
      if procs[asid - 1].pc.Evicting? {
        ReadWriteBacking(asid);
        DiskFree(View(), asid);
      }
      ghost var x := View();
      ReadWriteBacking(asid);
      AllPreserve(t, u, x, View());
    }

    // ------------------------------------------------- meIRL, diskIO

    // meIRL between its P and V on swap.
    method MeIRL(asid: int)
      requires PInv(View()) && Enabled(View(), Reap(asid))
      modifies `tlb, swapPool, pte, procs
      ensures View() == Next(old(View()), Reap(asid))
    {
      hide PInv, Next, Enabled, Freed;
      ghost var s := View();
      NextReap(s, asid);
      var kill := false;
      for index := 0 to swapPool.Length
        modifies swapPool, pte
        invariant forall f :: 0 <= f < swapPool.Length ==>
          swapPool[f] == if f < index then FreedSlot(s.pool[f], asid) else s.pool[f]
        invariant pte[..] == s.pte
        invariant kill <==> exists f :: 0 <= f < index && s.pool[f].asid == asid
      {
        if swapPool[index].asid == asid {
          KeepEntry(swapPool[index].pte);
          swapPool[index] := swapPool[index].(asid := NOASID);
          kill := true;
        }
      }
      assert swapPool[..] == Freed(s.pool, asid);
      if kill {
        tlb := map[];
      }
      procs[asid - 1] := procs[asid - 1].(pc := Reaped);
    }

    // meIRL: | nVALID on an entry.
    method KeepEntry(g: int)
      requires 0 <= g < pte.Length
      modifies pte
      ensures pte[..] == old(pte[..])
    {
      pte[g] := OrNVALID(pte[g]);
    }

    // diskIO up to its P on the device's mutex.
    method DiskIO(asid: int, blockAddr: int, diskNo: int, readWrite: int) returns (r: DiskCall)
      requires 1 <= asid <= procs.Length && PcOf(View(), asid) == User && ProcOf(View(), asid).held == 0
      requires diskNo < TOTALMUTEX
      modifies procs
      ensures r == Killed <==> diskNo <= 0 || blockAddr < SEG2
      ensures r == Panicked <==>
        diskNo > 0 && blockAddr >= SEG2 && (repaired ==> readWrite != DISK_READBLK && readWrite != DISK_WRITEBLK)
      ensures r == Killed ==> Enabled(old(View()), Quit(asid)) && View() == Next(old(View()), Quit(asid))
      ensures r == Waiting ==>
        Enabled(old(View()), AskDisk(asid, diskNo)) && View() == Next(old(View()), AskDisk(asid, diskNo))
      ensures r == Panicked ==> View() == old(View())
    {
      if diskNo <= 0 || blockAddr < SEG2 {
        procs[asid - 1] := procs[asid - 1].(pc := DieWait);
        return Killed;
      }
      var bad := readWrite != DISK_WRITEBLK || readWrite != DISK_READBLK;
      if repaired {
        bad := readWrite != DISK_WRITEBLK && readWrite != DISK_READBLK;
      }
      if bad {
        return Panicked;
      }
      procs[asid - 1] := procs[asid - 1].(pc := DeviceWait(diskNo));
      r := Waiting;
    }
  }

  // ------------------------------------------------- undisturbed boots

  lemma BootStarts(s: Pager, a: int)
    requires MInv(s) && BootedTo(s, a) && Enabled(s, TakeTape(a)) && s.disk0 == NOBODY
    ensures var t := Next(s, TakeTape(a));
      MInv(t) && BootedTo(t, a) && PcOf(t, a) == TapeRead(0) && t.disk0 == NOBODY && 1 <= a <= |s.procs| == |s.tapes|
  {
    hide PInv, BootedTo, Fetched, Next, Enabled;
    StepStage(s, TakeTape(a));
    MInvKept(s, TakeTape(a));
    BootExact(s, TakeTape(a), a);
    MInvSizes(s);
  }

  lemma BootStages(s: Pager, a: int)
    requires MInv(s) && BootedTo(s, a) && 1 <= a <= |s.procs| && PcOf(s, a).TapeRead? && s.disk0 == NOBODY
    ensures PInv(s) && Enabled(s, ReadTape(a)) && |s.tapes| == |s.procs| && 0 <= PcOf(s, a).k < |s.tapes[a - 1]|
    ensures var r := Next(s, ReadTape(a));
      var t := Next(r, TakeDisk(a));
      var u := Next(t, SeekDone(a));
      var v := Next(u, Transfer(a));
      var w := Next(v, LeaveDisk(a));
      && Enabled(r, TakeDisk(a)) && Enabled(t, SeekDone(a)) && PInv(u) && Enabled(u, Transfer(a)) && PInv(v)
      && Enabled(v, LeaveDisk(a)) && MInv(w) && BootedTo(w, a) && w.disk0 == NOBODY
      && PcOf(w, a) == OffDisk(Loading(PcOf(s, a).k, Moved), PcOf(s, a).k + 1 < |s.tapes[a - 1]|)
  {
    hide PInv, Next, Fetched, BootedTo;
    var r := Next(s, ReadTape(a));
    var t := Next(r, TakeDisk(a));
    var u := Next(t, SeekDone(a));
    var v := Next(u, Transfer(a));
    MInvSizes(s);
    BootBlockInRange(s, a);
    BothKept(s, ReadTape(a));
    BothKept(r, TakeDisk(a));
    BothKept(t, SeekDone(a));
    BothKept(u, Transfer(a));
    BootBlockInRange(v, a);
    BothKept(v, LeaveDisk(a));
  }

  lemma BothKept(s: Pager, e: Step)
    requires MInv(s) && BootedTo(s, e.a) && Enabled(s, e)
    ensures var t := Next(s, e);
      && MInv(t) && BootedTo(t, e.a) && PcOf(t, e.a) == PcAfter(s, e) && |t.procs| == |s.procs| && 1 <= e.a <= |s.procs|
      && t.tapes == s.tapes && t.disk0 == Disk0After(s, e)
  {
    hide PInv, BootedTo, Fetched, Next, Enabled, PcAfter;
    StepStage(s, e);
    MInvKept(s, e);
    BootExact(s, e, e.a);
  }

  lemma BootBlockInRange(s: Pager, a: int)
    requires BootedTo(s, a) && 1 <= a <= |s.procs|
    ensures PcOf(s, a).TapeRead? ==> 0 <= PcOf(s, a).k < |Tape(s, a)|
    ensures PcOf(s, a).Loading? ==> TapeAt(s, a) == PcOf(s, a).k + 1
  {
  }

  lemma BootEnds(s: Pager, a: int)
    requires MInv(s) && BootedTo(s, a) && 1 <= a <= |s.procs| == |s.tapes| && PcOf(s, a) == TapeDone
    ensures Enabled(s, LeaveDevice(a))
    ensures var t := Next(s, LeaveDevice(a));
      && MInv(t) && BootedTo(t, a) && PcOf(t, a) == User && t.disk0 == s.disk0
      && forall k :: 0 <= k < |s.tapes[a - 1]| && k < KUSEGSIZE ==> Contents(t, EntryNo(a, k)) == s.tapes[a - 1][k]
  {
    hide PInv, BootedTo, Fetched, Next, Contents, OpOf, EntryNo, OfLiving, Applied;
    BothKept(s, LeaveDevice(a));
    StepStage(s, LeaveDevice(a));
    forall k | 0 <= k < |s.tapes[a - 1]| && k < KUSEGSIZE
      ensures Contents(Next(s, LeaveDevice(a)), EntryNo(a, k)) == s.tapes[a - 1][k]
    {
      TapeInPlace(s, a, k);
      ContentsKept(s, LeaveDevice(a), EntryNo(a, k));
      NothingApplied(Contents(s, EntryNo(a, k)), EntryNo(a, k));
    }
  }

  lemma NothingApplied(p: Page, g: int)
    ensures Applied(p, g, Nothing) == p
  {
  }

  // ------------------------------------------------- undisturbed handlers

  // No page of a process that still lives has changed.
  ghost predicate Preserves(s: Pager, t: Pager) {
    forall g :: OfLiving(t, g) ==> OfLiving(s, g) && Contents(t, g) == Contents(s, g)
  }

  lemma StepPreserves(s: Pager, e: Step)
    requires MInv(s) && Enabled(s, e) && OpOf(s, e) == Nothing
    ensures MInv(Next(s, e)) && PInv(s) && PInv(Next(s, e)) && Preserves(s, Next(s, e))
  {
    hide PInv, Fetched, Next, Enabled, OfLiving, Contents, OpOf;
    MInvKept(s, e);
    MInvSizes(s);
    forall g | OfLiving(Next(s, e), g)
      ensures OfLiving(s, g) && Contents(Next(s, e), g) == Contents(s, g)
    {
      LivingBefore(s, e, g);
      ContentsKept(s, e, g);
    }
  }

  lemma AllPreserve(s: Pager, t: Pager, u: Pager, v: Pager)
    requires Preserves(s, t) && Preserves(t, u) && Preserves(u, v)
    ensures Preserves(s, v)
  {
    hide OfLiving, Contents;
  }

  lemma SelfPreserves(s: Pager)
    ensures Preserves(s, s)
  {
  }

  // What a step of process a alone means for its next.
  lemma StepStage(s: Pager, e: Step)
    requires Enabled(s, e)
    ensures var t := Next(s, e);
      && PcOf(t, e.a) == PcAfter(s, e) && |t.procs| == |s.procs| && 1 <= e.a <= |s.procs| && t.tapes == s.tapes
      && t.disk0 == Disk0After(s, e) && t.swap == SwapAfter(s, e) && (!e.Pick? ==> t.next == s.next)
      && (!e.Store? && !e.Transfer? ==> OpOf(s, e) == Nothing)
  {
    hide PcAfter, PoolAfter, PteAfter, TlbAfter, RamAfter, DiskAfter, BufAfter, DevicesAfter, HeldAfter,
      Disk0After, SwapAfter;
    EnabledActor(s, e);
    NextProcs(s, e);
  }

  lemma DiskFree(s: Pager, a: int)
    requires 1 <= a <= |s.procs| && AtDisk(PcOf(s, a)) && PcOf(s, a).io == Queued && s.disk0 == NOBODY
    ensures Enabled(s, TakeDisk(a))
  {
  }

  lemma DiskStages(s: Pager, a: int)
    requires MInv(s) && Enabled(s, TakeDisk(a)) && !PcOf(s, a).Loading?
    ensures PInv(s) && 1 <= a <= |s.procs|
    ensures var t := Next(s, TakeDisk(a));
      var u := Next(t, SeekDone(a));
      var v := Next(u, Transfer(a));
      var w := Next(v, LeaveDisk(a));
      && Enabled(t, SeekDone(a)) && PInv(u) && Enabled(u, Transfer(a)) && PInv(v) && Enabled(v, LeaveDisk(a))
      && MInv(w) && Preserves(s, w) && w.disk0 == NOBODY && |w.procs| == |s.procs|
      && PcOf(w, a) == OffDisk(PcOf(s, a), false)
  {
    hide MInv, PInv, Next, Preserves;
    var t := Next(s, TakeDisk(a));
    var u := Next(t, SeekDone(a));
    var v := Next(u, Transfer(a));
    StepStage(s, TakeDisk(a));
    StepPreserves(s, TakeDisk(a));
    StepStage(t, SeekDone(a));
    StepPreserves(t, SeekDone(a));
    StepStage(u, Transfer(a));
    StepPreserves(u, Transfer(a));
    StepStage(v, LeaveDisk(a));
    StepPreserves(v, LeaveDisk(a));
    AllPreserve(s, t, u, v);
    SelfPreserves(s);
    AllPreserve(s, s, v, Next(v, LeaveDisk(a)));
  }

  lemma HandlerStarts(s: Pager, a: int)
    requires MInv(s) && 1 <= a <= |s.procs| && PcOf(s, a).SwapWait? && s.swap == NOBODY && s.disk0 == NOBODY
    ensures Enabled(s, TakeSwap(a))
    ensures var t := Next(s, TakeSwap(a));
      MInv(t) && Preserves(s, t) && PcOf(t, a) == Picking(PcOf(s, a).page) && t.disk0 == NOBODY && 1 <= a <= |t.procs|
  {
    hide MInv, Next, Preserves;
    StepStage(s, TakeSwap(a));
    StepPreserves(s, TakeSwap(a));
  }

  lemma HandlerPicks(t: Pager, a: int)
    requires MInv(t) && 1 <= a <= |t.procs| && PcOf(t, a).Picking? && t.disk0 == NOBODY
    ensures PInv(t) && Enabled(t, Pick(a))
    ensures var u := Next(t, Pick(a));
      && MInv(u) && Preserves(t, u) && Enabled(u, TakeDisk(a)) && 1 <= a <= |u.procs|
      && FaultOf(PcOf(u, a)) == PcOf(t, a).page && TransitOf(PcOf(u, a)) == u.next
      && (PcOf(u, a).Evicting? || PcOf(u, a).Fetching?)
  {
    hide MInv, PInv, Preserves, PoolAfter, PteAfter, TlbAfter, RamAfter, DiskAfter, BufAfter, DevicesAfter;
    StepStage(t, Pick(a));
    StepPreserves(t, Pick(a));
  }

  lemma HandlerEnds(y: Pager, a: int)
    requires MInv(y) && 1 <= a <= |y.procs| && PcOf(y, a).Committing? && y.disk0 == NOBODY
    ensures PInv(y) && Enabled(y, Commit(a)) && Enabled(Next(y, Commit(a)), LeaveSwap(a))
    ensures var z := Next(Next(y, Commit(a)), LeaveSwap(a));
      && MInv(z) && Preserves(y, z) && PcOf(z, a) == User && z.swap == NOBODY && z.disk0 == NOBODY
      && EntryAt(z, EntryNo(a, PcOf(y, a).page)) == Entry(true, true, PcOf(y, a).f)
  {
    hide MInv, PInv, Preserves, PoolAfter, TlbAfter, RamAfter, DiskAfter, BufAfter, DevicesAfter, EntryNo;
    var x := Next(y, Commit(a));
    StepStage(y, Commit(a));
    StepPreserves(y, Commit(a));
    StepStage(x, LeaveSwap(a));
    StepPreserves(x, LeaveSwap(a));
    SelfPreserves(y);
    var z := Next(x, LeaveSwap(a));
    AllPreserve(y, y, x, z);
    CommitterPage(y, a);
    assert z.pte == x.pte && x.pte == PteAfter(y, Commit(a));
  }

  lemma CommitterPage(s: Pager, a: int)
    requires MInv(s) && 1 <= a <= |s.procs| && PcOf(s, a).Committing?
    ensures 0 <= EntryNo(a, PcOf(s, a).page) < |s.pte|
  {
    hide Guarded, DevicesHeld, DevicesFirst, Victim, PoolOf, TablesOf, CacheTrue, ArmThere;
    EntryNoExact(|s.procs|, a, PcOf(s, a).page);
  }

  // ------------------------------------------------- the steps, row by row

  function ProcsAt(s: Pager, a: int, pc: Pc): seq<Proc>
    requires 1 <= a <= |s.procs|
  {
    s.procs[a - 1 := s.procs[a - 1].(pc := pc)]
  }

  lemma EntryOf(s: Pager, a: int, vpn: int)
    requires PInv(s) && 1 <= a <= |s.procs| && Mapped(vpn) && PcOf(s, a) == User
    ensures var g := EntryNo(a, PageOf(vpn));
      && 0 <= g < |s.pte| && Cached(s, g) == s.pte[g] && (g in s.tlb ==> s.tlb[g] == s.pte[g])
      && (s.pte[g].valid ==> 0 <= s.pte[g].frame < |s.ram|)
  {
    hide PInv, EntryNo, PageOf;
    PInvParts(s);
    CachedIsEntry(s, a, vpn);
    if s.pte[EntryNo(a, PageOf(vpn))].valid {
      FrameIsOwn(s, EntryNo(a, PageOf(vpn)));
    }
  }

  lemma NextLoad(s: Pager, a: int, vpn: int, w: int)
    requires PInv(s) && Enabled(s, Load(a, vpn, w))
    ensures 1 <= a <= |s.procs| && vpn >= 0
    ensures var g := EntryNo(a, PageOf(vpn));
      && 0 <= g < |s.pte| && (g in s.tlb ==> s.tlb[g] == s.pte[g])
      && (s.pte[g].valid ==> 0 <= s.pte[g].frame < |s.ram|) && (Hits(s, a, vpn) <==> s.pte[g].valid)
      && (s.pte[g].valid ==> Loaded(s, a, vpn, w) == Word(s.ram[s.pte[g].frame], w))
      && Next(s, Load(a, vpn, w)) ==
        if !s.pte[g].valid then s.(tlb := s.tlb[g := s.pte[g]], procs := ProcsAt(s, a, SwapWait(PageOf(vpn))))
        else s.(tlb := s.tlb[g := s.pte[g]])
  {
    hide PInv, EntryNo, PageOf;
    EntryOf(s, a, vpn);
    assert s.procs[a - 1] == Proc(User, s.procs[a - 1].held);
  }

  lemma NextStore(s: Pager, a: int, vpn: int, w: int, v: int)
    requires PInv(s) && Enabled(s, Store(a, vpn, w, v))
    ensures 1 <= a <= |s.procs| && vpn >= 0
    ensures var g := EntryNo(a, PageOf(vpn));
      && 0 <= g < |s.pte| && (g in s.tlb ==> s.tlb[g] == s.pte[g])
      && (s.pte[g].valid ==> 0 <= s.pte[g].frame < |s.ram|) && (Hits(s, a, vpn) <==> s.pte[g].valid)
      && Next(s, Store(a, vpn, w, v)) ==
        if !s.pte[g].valid then s.(tlb := s.tlb[g := s.pte[g]], procs := ProcsAt(s, a, SwapWait(PageOf(vpn))))
        else s.(tlb := s.tlb[g := s.pte[g]], ram := s.ram[s.pte[g].frame := s.ram[s.pte[g].frame][w := v]])
  {
    hide PInv, EntryNo, PageOf;
    EntryOf(s, a, vpn);
    assert s.procs[a - 1] == Proc(User, s.procs[a - 1].held);
  }

  function Vacated(table: seq<Entry>, v: Slot): seq<Entry>
    requires v.asid != NOASID ==> 0 <= v.pte < |table|
  {
    if v.asid != NOASID then table[v.pte := AndNVALID(table[v.pte])] else table
  }

  lemma NextPick(s: Pager, a: int)
    requires PInv(s) && Enabled(s, Pick(a))
    ensures 1 <= a <= |s.procs| && s.procs[a - 1].pc.Picking? && 0 <= s.next < |s.pool|
    ensures var f := if s.next == |s.pool| - 1 then 0 else s.next + 1;
      var v, p := s.pool[f], s.procs[a - 1].pc.page;
      && (forall g :: 0 <= g < |s.pool| && s.pool[g].asid != NOASID ==> 0 <= s.pool[g].pte < |s.pte|)
      && Next(s, Pick(a)) ==
        s.(next := f, tlb := if v.asid != NOASID then map[] else s.tlb, pte := Vacated(s.pte, v),
           procs := ProcsAt(s, a, if v.asid != NOASID then Evicting(p, f, v.page, v.asid, Queued)
                                  else Fetching(p, f, Queued)))
  {
    hide Guarded, DevicesHeld, DevicesFirst, Faults, Victim, TablesOf, CacheTrue, ArmThere, Spin;
    SpinIs(s);
  }

  lemma NextCommit(s: Pager, a: int)
    requires PInv(s) && Enabled(s, Commit(a))
    ensures 1 <= a <= |s.procs| && s.procs[a - 1].pc.Committing?
    ensures var p, f := s.procs[a - 1].pc.page, s.procs[a - 1].pc.f;
      var g := EntryNo(a, p);
      && 0 <= f < |s.pool| && 0 <= g < |s.pte|
      && Next(s, Commit(a)) ==
        s.(pool := s.pool[f := Slot(a, p, g)], pte := s.pte[g := Entry(true, true, f)], tlb := map[],
           procs := ProcsAt(s, a, Serviced))
  {
    hide DevicesHeld, DevicesFirst, PoolOf, TablesOf, CacheTrue, ArmThere;
    assert HoldsSwap(PcOf(s, a));
    EntryNoExact(|s.procs|, a, s.procs[a - 1].pc.page);
  }

  lemma NextReadTape(s: Pager, a: int)
    requires PInv(s) && Enabled(s, ReadTape(a))
    ensures 1 <= a <= |s.procs| && |s.tapes| == |s.procs| && s.procs[a - 1].pc.TapeRead?
    ensures var k := if a in s.tapeAt then s.tapeAt[a] else 0;
      Next(s, ReadTape(a)) ==
      s.(buf := if 0 <= k < |s.tapes[a - 1]| then s.buf[TapeBuffer(a) := s.tapes[a - 1][k]] else s.buf,
         tapeAt := s.tapeAt[a := k + 1], procs := ProcsAt(s, a, Loading(s.procs[a - 1].pc.k, Queued)))
  {
    hide Guarded, DevicesHeld, DevicesFirst, PoolOf, TablesOf, CacheTrue, ArmThere, Faults, Victim;
  }

  lemma NextLeaveSwap(s: Pager, a: int)
    requires Enabled(s, LeaveSwap(a))
    ensures 1 <= a <= |s.procs|
    ensures Next(s, LeaveSwap(a)) ==
      s.(swap := NOBODY, procs := ProcsAt(s, a, if s.procs[a - 1].pc == Reaped then Dead else User))
  {
  }

  lemma TransferStarts(s: Pager, a: int)
    requires PInv(s) && Enabled(s, Transfer(a))
    ensures 1 <= a <= |s.procs| && AtDisk(s.procs[a - 1].pc)
    ensures var pc := s.procs[a - 1].pc; pc.Evicting? || pc.Fetching? ==> 0 <= pc.f < |s.ram|
    ensures var pc := s.procs[a - 1].pc; pc.Loading? || pc.Evicting? || pc.Fetching?
  {
    hide DevicesHeld, DevicesFirst, PoolOf, TablesOf, CacheTrue, ArmThere, Faults;
    assert !s.procs[a - 1].pc.Loading? ==> HoldsSwap(PcOf(s, a));
  }

  lemma NextTransfer(s: Pager, a: int)
    requires PInv(s) && Enabled(s, Transfer(a))
    ensures 1 <= a <= |s.procs| && PcOf(s, a) == s.procs[a - 1].pc
    ensures var pc := s.procs[a - 1].pc; pc.Loading? || ((pc.Evicting? || pc.Fetching?) && 0 <= pc.f < |s.ram|)
    ensures Next(s, Transfer(a)) ==
      s.(procs := ProcsAt(s, a, Onto(s.procs[a - 1].pc, Moved)), disk := DiskAfter(s, Transfer(a)),
         ram := RamAfter(s, Transfer(a)))
  {
    hide PInv, Enabled, SectorOf, Block, DiskAfter, RamAfter;
    TransferStarts(s, a);
  }

  lemma NextReap(s: Pager, a: int)
    requires PInv(s) && Enabled(s, Reap(a))
    ensures 1 <= a <= |s.procs|
    ensures forall f :: 0 <= f < |s.pool| && s.pool[f].asid == a ==> 0 <= s.pool[f].pte < |s.pte|
    ensures Next(s, Reap(a)) == s.(pool := Freed(s.pool, a), tlb := if Resident(s.pool, a) then map[] else s.tlb,
                                   procs := ProcsAt(s, a, Reaped))
  {
    hide Guarded, DevicesHeld, DevicesFirst, Faults, Victim, TablesOf, CacheTrue, ArmThere;
  }

  lemma SpinIs(s: Pager)
    requires Sizes(s)
    ensures Chosen(s) == if s.next == |s.pool| - 1 then 0 else s.next + 1
  {
    if s.next + 1 < |s.pool| {
      assert (s.next + 1) % |s.pool| == s.next + 1;
    }
  }
}
