// Runs from test() on which the code, or its repair, falls short.
module PagerWitness {
  import opened Pagers
  import opened PagerInvs
  import opened PagerMemory
  import opened PagerLocks

  // n processes with one block each on their tapes, and one frame.
  ghost function Fresh(n: nat, repaired: bool): Pager {
    Pager(repaired, seq(n, _ => [map[0 := 7]]), map[], seq(n, _ => Proc(TapeWait, 0)), [Slot(NOASID, 0, 0)],
          seq(n * KUSEGSIZE, _ => Entry(false, true, 0)), [map[]], map[], map[], 0, 0, map[], NOBODY, NOBODY, map[])
  }

  ghost predicate Reached(t: Pager) {
    exists s, es :: Started(s) && IsRunOf(s, es) && t == RunOf(s, es)
  }

  lemma FreshReached(n: nat, repaired: bool)
    requires n <= DEVPERINT
    ensures Reached(Fresh(n, repaired)) && Started(Fresh(n, repaired))
  {
    var s := Fresh(n, repaired);
    assert Started(s) && IsRunOf(s, []) && RunOf(s, []) == s;
  }

  lemma ReachedMore(t: Pager, e: Step)
    requires Reached(t) && Enabled(t, e)
    ensures Reached(Next(t, e)) && PInv(t) && PInv(Next(t, e))
  {
    hide Started, Next, Enabled, PInv;
    var s, es :| Started(s) && IsRunOf(s, es) && t == RunOf(s, es);
    assert (es + [e])[..|es|] == es;
    assert IsRunOf(s, es + [e]) && RunOf(s, es + [e]) == Next(t, e);
    StartedInv(s);
    RunPInv(s, es);
    PInvKept(t, e);
  }

  // One more step, and what it says of the processes and the mutexes.
  lemma Onward(t: Pager, e: Step) returns (u: Pager)
    requires Reached(t) && Enabled(t, e)
    ensures u == Next(t, e) && Reached(u) && PInv(t) && PInv(u)
    ensures |u.procs| == |t.procs| && u.repaired == t.repaired && u.tapes == t.tapes
    ensures ProcOf(u, e.a) == Proc(PcAfter(t, e), HeldAfter(t, e)) && PcOf(u, e.a) == PcAfter(t, e)
    ensures forall b :: b != e.a ==> ProcOf(u, b) == ProcOf(t, b) && PcOf(u, b) == PcOf(t, b)
    ensures u.swap == SwapAfter(t, e) && u.disk0 == Disk0After(t, e) && u.devices == DevicesAfter(t, e)
  {
    hide Reached, PInv, Enabled, PcAfter, HeldAfter, SwapAfter, Disk0After, DevicesAfter, PoolAfter, PteAfter, TlbAfter,
      RamAfter, DiskAfter, BufAfter, TapesAfter;
    ReachedMore(t, e);
    EnabledActor(t, e);
    NextProcs(t, e);
    u := Next(t, e);
  }

  // Two states that differ in the processes, disk 0 and the tape at most.
  ghost predicate SameTables(t: Pager, u: Pager) {
    && u.pool == t.pool && u.pte == t.pte && u.tlb == t.tlb && u.next == t.next && u.swap == t.swap
    && u.repaired == t.repaired && u.tapes == t.tapes && |u.procs| == |t.procs|
  }

  // A transfer from beginning to end.
  lemma UseDisk(t: Pager, a: int) returns (u: Pager)
    requires Reached(t) && 1 <= a <= |t.procs| && AtDisk(PcOf(t, a)) && PcOf(t, a).io == Queued && t.disk0 == NOBODY
    ensures Reached(u) && SameTables(t, u) && u.disk0 == NOBODY && u.devices == t.devices
    ensures u.buf == t.buf && u.tapeAt == t.tapeAt
    ensures ProcOf(u, a) == Proc(OffDisk(PcOf(t, a), TapeAt(t, a) < |Tape(t, a)|), ProcOf(t, a).held)
    ensures forall b :: b != a ==> ProcOf(u, b) == ProcOf(t, b)
    ensures PcOf(t, a).Loading? ==> u.disk == t.disk[(PcOf(t, a).k, a - 1) := Buffer(t, TapeBuffer(a))]
  {
    hide Reached, PInv;
    var pc := PcOf(t, a);
    var x := Onward(t, TakeDisk(a));
    var y := Onward(x, SeekDone(a));
    var z := Onward(y, Transfer(a));
    u := Onward(z, LeaveDisk(a));
  }

  // The boot of a process whose tape has one block and has not moved.
  lemma ReadIn(t: Pager, a: int) returns (u: Pager)
    requires Reached(t) && 1 <= a <= |t.procs| && PcOf(t, a) == TapeWait && TapeOf(a) !in t.devices
    requires TapeAt(t, a) == 0 && |Tape(t, a)| == 1
    ensures Reached(u) && SameTables(t, u) && u.disk0 == t.disk0 && u.devices == t.devices[TapeOf(a) := a]
    ensures ProcOf(u, a) == Proc(Loading(0, Queued), TapeOf(a)) && TapeAt(u, a) == 1
    ensures forall b :: b != a ==> ProcOf(u, b) == ProcOf(t, b) && TapeAt(u, b) == TapeAt(t, b)
    ensures forall i :: i != TapeBuffer(a) ==> Buffer(u, i) == Buffer(t, i)
    ensures Buffer(u, TapeBuffer(a)) == Tape(t, a)[0]
  {
    hide Reached, PInv;
    var x := Onward(t, TakeTape(a));
    u := Onward(x, ReadTape(a));
  }

  lemma Boot(t: Pager, a: int) returns (u: Pager)
    requires Reached(t) && 1 <= a <= |t.procs| && PcOf(t, a) == TapeWait && TapeOf(a) !in t.devices
    requires TapeAt(t, a) == 0 && |Tape(t, a)| == 1 && t.disk0 == NOBODY
    ensures Reached(u) && SameTables(t, u) && u.disk0 == NOBODY && u.devices == t.devices
    ensures ProcOf(u, a) == Proc(User, 0)
    ensures forall b :: b != a ==> ProcOf(u, b) == ProcOf(t, b) && TapeAt(u, b) == TapeAt(t, b)
    ensures forall i :: i != TapeBuffer(a) ==> Buffer(u, i) == Buffer(t, i)
  {
    hide Reached, PInv;
    var x := ReadIn(t, a);
    var y := UseDisk(x, a);
    u := Onward(y, LeaveDevice(a));
  }

  // A process gives up and is reaped, whatever it holds.
  lemma Die(t: Pager, a: int) returns (u: Pager)
    requires Reached(t) && 1 <= a <= |t.procs| && PcOf(t, a) == User && t.swap == NOBODY
    ensures Reached(u) && u.pte == t.pte && u.devices == t.devices && u.repaired == t.repaired && |u.procs| == |t.procs|
    ensures ProcOf(u, a) == Proc(Dead, ProcOf(t, a).held) && u.disk0 == t.disk0 && u.tapes == t.tapes
    ensures forall b :: b != a ==> ProcOf(u, b) == ProcOf(t, b) && TapeAt(u, b) == TapeAt(t, b)
  {
    hide Reached, PInv, Freed;
    var x := Onward(t, Quit(a));
    var y := Onward(x, TakeSwap(a));
    var z := Onward(y, Reap(a));
    u := Onward(z, LeaveSwap(a));
  }

  // A page fault on a page that is not there, with the one frame free.
  lemma PageIn(t: Pager, a: int) returns (u: Pager)
    requires Reached(t) && 1 <= a <= |t.procs| && PcOf(t, a) == User && t.swap == NOBODY && t.disk0 == NOBODY
    requires |t.pool| == 1 && t.pool[0].asid == NOASID && t.tlb == map[] && !EntryAt(t, EntryNo(a, 0)).valid
    requires 0 <= EntryNo(a, 0) < |t.pte|
    ensures Reached(u) && PcOf(u, a) == User && u.swap == NOBODY && u.repaired == t.repaired && |u.procs| == |t.procs|
    ensures EntryAt(u, EntryNo(a, 0)).valid && |u.pte| == |t.pte|
  {
    hide Reached, PInv, Freed;
    var x := FaultIn(t, a);
    var y := UseDisk(x, a);
    var z := Onward(y, Commit(a));
    u := Onward(z, LeaveSwap(a));
  }

  lemma FaultIn(t: Pager, a: int) returns (u: Pager)
    requires Reached(t) && 1 <= a <= |t.procs| && PcOf(t, a) == User && t.swap == NOBODY && t.disk0 == NOBODY
    requires |t.pool| == 1 && t.pool[0].asid == NOASID && t.tlb == map[] && !EntryAt(t, EntryNo(a, 0)).valid
    ensures Reached(u) && PcOf(u, a) == Fetching(0, 0, Queued) && u.disk0 == NOBODY && u.swap == a
    ensures u.pte == t.pte && u.repaired == t.repaired && |u.procs| == |t.procs|
  {
    hide Reached, PInv, Freed;
    var x := Onward(t, Load(a, 0, 0));
    var y := Onward(x, TakeSwap(a));
    OneFrame(y);
    u := Onward(y, Pick(a));
  }

  lemma OneFrame(s: Pager)
    requires |s.pool| == 1
    ensures Chosen(s) == 0
  {
  }

  // As coded a process that has had a page dies with its entry valid.
  lemma DeadEntryStays() returns (t: Pager)
    ensures Reached(t) && !t.repaired && PcOf(t, 1) == Dead && EntryAt(t, EntryNo(1, 0)).valid
  {
    hide Reached, PInv, Next, Enabled;
    var s := Fresh(1, false);
    FreshReached(1, false);
    var a := Boot(s, 1);
    var b := PageIn(a, 1);
    t := Die(b, 1);
  }

  // As coded a process can die with its printer.
  lemma DeadHolder() returns (t: Pager)
    ensures Reached(t) && !t.repaired && PcOf(t, 1) == Dead && PRINTDEV in t.devices && t.devices[PRINTDEV] == 1
  {
    hide Reached, PInv;
    var s := Fresh(1, false);
    FreshReached(1, false);
    var a := Boot(s, 1);
    var b := Acquire(a, AskDevice(1, PRINTDEV));
    t := Die(b, 1);
  }

  // A process locks a mutex that is free.
  lemma Acquire(t: Pager, ask: Step) returns (u: Pager)
    requires Reached(t) && Enabled(t, ask) && (ask.AskDevice? || ask.AskDisk?) && ask.d !in t.devices
    ensures Reached(u) && SameTables(t, u) && u.disk0 == t.disk0 && u.devices == t.devices[ask.d := ask.a]
    ensures u.buf == t.buf && u.tapeAt == t.tapeAt && ProcOf(u, ask.a) == Proc(User, ask.d)
    ensures forall b :: b != ask.a ==> ProcOf(u, b) == ProcOf(t, b)
  {
    hide Reached, PInv;
    var x := Onward(t, ask);
    u := Onward(x, TakeDevice(ask.a));
  }

  // With the check repaired, process 1 is in diskIO with the mutex of d while process 2
  // has not begun.
  lemma InDiskIO(d: int) returns (t: Pager)
    requires 0 < d < TOTALMUTEX
    ensures Reached(t) && t.repaired && |t.procs| == 2 && t.disk0 == NOBODY && ProcOf(t, 1) == Proc(User, d)
    ensures t.devices == map[d := 1] && ProcOf(t, 2) == Proc(TapeWait, 0) && TapeAt(t, 2) == 0 && Buffer(t, 1) == map[]
    ensures Tape(t, 2) == [map[0 := 7]]
  {
    hide Reached, PInv, Next;
    var s := Fresh(2, true);
    FreshReached(2, true);
    var a := Boot(s, 1);
    assert Buffer(a, 1) == Buffer(s, 1);
    t := Acquire(a, AskDisk(1, d));
  }

  // Or it dies there, and process 2 waits for disk 1 for ever.
  lemma StuckBehindDead() returns (t: Pager)
    ensures Reached(t) && t.repaired && PcOf(t, 1) == Dead && PcOf(t, 2) == DeviceWait(1)
    ensures forall es :: IsRunOf(t, es) ==> PcOf(RunOf(t, es), 2) == DeviceWait(1)
  {
    hide Reached, PInv, IsRunOf, RunOf;
    var c := InDiskIO(1);
    SwapFree(c);
    var d := Die(c, 1);
    t := SecondAsks(d);
    forall es | IsRunOf(t, es)
      ensures PcOf(RunOf(t, es), 2) == DeviceWait(1)
    {
      WaitsForEver(t, es, 1, 2);
    }
  }

  // Nobody holds swap unless it is inside the section.
  lemma SwapFree(t: Pager)
    requires Reached(t) && |t.procs| == 2 && PcOf(t, 1) == User && PcOf(t, 2) == TapeWait
    ensures t.swap == NOBODY
  {
    hide Reached;
    ReachedInv(t);
  }

  lemma SecondAsks(d: Pager) returns (t: Pager)
    requires Reached(d) && d.repaired && |d.procs| == 2 && d.disk0 == NOBODY && ProcOf(d, 1) == Proc(Dead, 1)
    requires d.devices == map[1 := 1] && ProcOf(d, 2) == Proc(TapeWait, 0) && TapeAt(d, 2) == 0 && |Tape(d, 2)| == 1
    ensures Reached(t) && PInv(t) && t.repaired && |t.procs| == 2 && ProcOf(t, 1) == Proc(Dead, 1)
    ensures PcOf(t, 2) == DeviceWait(1)
  {
    hide Reached, PInv;
    var e := Boot(d, 2);
    t := Onward(e, AskDisk(2, 1));
  }

  // Whoever waits for a device of a dead process waits for ever.
  lemma {:induction false} WaitsForEver(s: Pager, es: seq<Step>, a: int, b: int)
    requires PInv(s) && IsRunOf(s, es) && 1 <= a <= |s.procs| && PcOf(s, a) == Dead && ProcOf(s, a).held != 0
    requires PcOf(s, b) == DeviceWait(ProcOf(s, a).held)
    ensures PcOf(RunOf(s, es), b) == PcOf(s, b)
  {
    hide PInv, Next;
    if es != [] {
      var f, e := es[..|es| - 1], es[|es| - 1];
      WaitsForEver(s, f, a, b);
      DeadKeepDevices(s, f, a);
      EnabledActor(RunOf(s, f), e);
      NextProcs(RunOf(s, f), e);
    }
  }

  // Or it puts something on disk 1 while process 2 boots, and process 2 finds that on its
  // first page.
  lemma FirstPageLost() returns (t: Pager)
    ensures Reached(t) && t.repaired && PcOf(t, 2) == TapeDone && |Tape(t, 2)| == 1
    ensures Contents(t, EntryNo(2, 0)) != Tape(t, 2)[0]
  {
    hide Reached, PInv, Contents;
    var c := InDiskIO(1);
    var d := ReadIn(c, 2);
    var e := Onward(d, FillBuffer(1, map[0 := 9]));
    t := UseDisk(e, 2);
    OnDiskIsSeen(t, 2);
    assert map[0 := 9][0] != map[0 := 7][0];
  }

  // Or it calls diskIO with the number of process 2's tape, which moves on before process
  // 2 boots.
  lemma FirstBlockSkipped() returns (t: Pager)
    ensures Reached(t) && t.repaired && PcOf(t, 2) == TapeDone && |Tape(t, 2)| == 1
    ensures Contents(t, EntryNo(2, 0)) != Tape(t, 2)[0]
  {
    hide Reached, PInv, Contents;
    var g := ReadPastEnd();
    t := UseDisk(g, 2);
    OnDiskIsSeen(t, 2);
    assert 0 in map[0 := 7];
  }

  lemma ReadPastEnd() returns (t: Pager)
    ensures Reached(t) && t.repaired && |t.procs| == 2 && t.disk0 == NOBODY && PcOf(t, 2) == Loading(0, Queued)
    ensures TapeAt(t, 2) == 2 && Buffer(t, 1) == map[] && Tape(t, 2) == [map[0 := 7]]
  {
    hide Reached, PInv;
    var c := InDiskIO(TapeOf(2));
    var d := Onward(c, WindTape(1, 1));
    var e := Onward(d, LeaveDevice(1));
    var f := Onward(e, TakeTape(2));
    t := Onward(f, ReadTape(2));
  }

  // What a booting process has on disk is what it will see.
  lemma OnDiskIsSeen(t: Pager, a: int)
    requires Reached(t) && 1 <= a <= |t.procs| && PcOf(t, a) == TapeDone
    ensures Contents(t, EntryNo(a, 0)) == Block(t.disk, (0, a - 1))
  {
    hide PInv, Reached;
    ReachedInv(t);
    var g := EntryNo(a, 0);
    PInvParts(t);
    EntryNoExact(|t.procs|, a, 0);
    if t.pte[g].valid {
      FrameIsOwn(t, g);
    }
    if Pending(t) != -1 {
      PendingIsTransit(t);
    }
  }

  lemma ReachedInv(t: Pager)
    requires Reached(t)
    ensures PInv(t)
  {
    hide PInv, Started;
    var s, es :| Started(s) && IsRunOf(s, es) && t == RunOf(s, es);
    StartedInv(s);
    RunPInv(s, es);
  }
}
