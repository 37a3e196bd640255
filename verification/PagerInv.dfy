// What every step of the pager keeps.
module PagerInvs {
  import opened Pagers

  // ------------------------------------------------- the mutexes

  predicate HoldsSwap(pc: Pc) {
    pc.Picking? || pc.Evicting? || pc.Fetching? || pc.Committing? || pc.Serviced? || pc.Reaping? || pc.Reaped?
  }

  predicate HoldsDisk(pc: Pc) {
    AtDisk(pc) && pc.io != Queued
  }

  predicate Booting(pc: Pc) {
    pc.TapeWait? || pc.TapeRead? || pc.Loading? || pc.TapeDone?
  }

  // Out of meIRL's loop: the process has given up its frames.
  predicate Gone(pc: Pc) {
    pc.Reaped? || pc.Dead?
  }

  ghost predicate Sizes(s: Pager) {
    && |s.tapes| == |s.procs| && |s.pte| == |s.procs| * KUSEGSIZE && |s.ram| == |s.pool| > 0
    && 0 <= s.next < |s.pool| && forall i :: 0 <= i < |s.tapes| ==> s.tapes[i] != []
  }

  // The holder of swap and of disk 0 is the one process inside the section it guards.
  ghost predicate Guarded(s: Pager) {
    && (s.swap != NOBODY ==> HoldsSwap(PcOf(s, s.swap)))
    && (s.disk0 != NOBODY ==> HoldsDisk(PcOf(s, s.disk0)))
    && forall a {:trigger PcOf(s, a)} ::
         (HoldsSwap(PcOf(s, a)) ==> s.swap == a) && (HoldsDisk(PcOf(s, a)) ==> s.disk0 == a)
  }

  ghost predicate DevicesHeld(s: Pager) {
    && (forall d :: d in s.devices ==> d != 0 && 1 <= s.devices[d] <= |s.procs| && ProcOf(s, s.devices[d]).held == d)
    && (forall a {:trigger ProcOf(s, a)} :: var h := ProcOf(s, a).held; h != 0 ==> h in s.devices && s.devices[h] == a)
  }

  // Nobody waits for a device while it holds one; a booting process holds its tape.
  ghost predicate DevicesFirst(s: Pager) {
    forall a {:trigger ProcOf(s, a)} :: 1 <= a <= |s.procs| ==>
      var p := ProcOf(s, a);
      && (p.pc.TapeWait? || p.pc.DeviceWait? ==> p.held == 0)
      && (p.pc.DeviceWait? ==> p.pc.d != 0)
      && (p.pc.TapeRead? || p.pc.Loading? || p.pc.TapeDone? ==> p.held == TapeOf(a))
  }

  // ------------------------------------------------- the tables

  // The page a process has faulted on, or -1.
  function FaultOf(pc: Pc): int {
    match pc {
      case SwapWait(p) => p
      case Picking(p) => p
      case Evicting(p, _, _, _, _) => p
      case Fetching(p, _, _) => p
      case Committing(p, _) => p
      case _ => -1
    }
  }

  // The frame a page fault is about to fill, or -1.
  function TransitOf(pc: Pc): int {
    match pc {
      case Evicting(_, f, _, _, _) => f
      case Fetching(_, f, _) => f
      case Committing(_, f) => f
      case _ => -1
    }
  }

  function InTransit(s: Pager): int {
    TransitOf(PcOf(s, s.swap))
  }

  predicate Faulting(pc: Pc) {
    pc.SwapWait? || pc.Picking? || pc.Evicting? || pc.Fetching? || pc.Committing?
  }

  ghost predicate Faults(s: Pager) {
    forall a {:trigger PcOf(s, a)} :: Faulting(PcOf(s, a)) ==>
      0 <= FaultOf(PcOf(s, a)) < KUSEGSIZE && !EntryAt(s, EntryNo(a, FaultOf(PcOf(s, a)))).valid
  }

  ghost predicate Victim(s: Pager) {
    var pc := PcOf(s, s.swap);
    && (TransitOf(pc) != -1 || pc.Evicting? || pc.Fetching? || pc.Committing? ==> TransitOf(pc) == s.next)
    && (pc.Evicting? ==> SlotAt(s, pc.f).asid == pc.asid && SlotAt(s, pc.f).page == pc.cyl && pc.asid != NOASID)
  }

  // Pool and page tables are inverses of each other, but for the frame in transit,
  // whose old page is invalid already. Dead processes are in neither.
  ghost predicate PoolOf(s: Pager) {
    forall f {:trigger s.pool[f]} :: 0 <= f < |s.pool| && s.pool[f].asid != NOASID ==>
      var g := s.pool[f].pte;
      && 0 <= g < |s.pte| && s.pool[f] == SlotFor(g)
      && !Booting(PcOf(s, Owner(g))) && !Gone(PcOf(s, Owner(g)))
      && (f != InTransit(s) ==> s.pte[g] == Entry(true, true, f))
      && (f == InTransit(s) ==> !s.pte[g].valid)
  }

  ghost predicate TablesOf(s: Pager) {
    forall g {:trigger s.pte[g]} :: 0 <= g < |s.pte| && s.pte[g].valid && !Gone(PcOf(s, Owner(g))) ==>
      0 <= s.pte[g].frame < |s.pool| && s.pool[s.pte[g].frame] == SlotFor(g)
  }

  ghost predicate CacheTrue(s: Pager) {
    forall g {:trigger s.tlb[g]} :: g in s.tlb ==> 0 <= g < |s.pte| && s.tlb[g] == s.pte[g]
  }

  ghost predicate ArmThere(s: Pager) {
    var pc := PcOf(s, s.disk0);
    AtDisk(pc) && (pc.io == Sought || pc.io == Moved) ==> s.arm == CylinderOf(pc)
  }

  ghost predicate PInv(s: Pager) {
    && Sizes(s) && Guarded(s) && DevicesHeld(s) && DevicesFirst(s)
    && Faults(s) && Victim(s) && PoolOf(s) && TablesOf(s) && CacheTrue(s) && ArmThere(s)
  }

  lemma EntryNoExact(n: int, a: int, p: int)
    requires 1 <= a <= n && 0 <= p < KUSEGSIZE
    ensures 0 <= EntryNo(a, p) < n * KUSEGSIZE && Owner(EntryNo(a, p)) == a && PageNo(EntryNo(a, p)) == p
  {
  }

  lemma EntryNoOf(n: int, g: int)
    requires 0 <= g < n * KUSEGSIZE
    ensures 1 <= Owner(g) <= n && 0 <= PageNo(g) < KUSEGSIZE && EntryNo(Owner(g), PageNo(g)) == g
  {
  }

  // ------------------------------------------------- every step keeps it

  lemma StartedInv(s: Pager)
    requires Started(s)
    ensures PInv(s)
  {
  }

  // Only the actor moves.
  lemma NextProcs(s: Pager, e: Step)
    requires 1 <= e.a <= |s.procs|
    ensures |Next(s, e).procs| == |s.procs|
    ensures forall b {:trigger ProcOf(Next(s, e), b)} ::
      ProcOf(Next(s, e), b) == if b == e.a then Proc(PcAfter(s, e), HeldAfter(s, e)) else ProcOf(s, b)
    ensures forall b {:trigger PcOf(Next(s, e), b)} ::
      PcOf(Next(s, e), b) == if b == e.a then PcAfter(s, e) else PcOf(s, b)
  {
    hide PcAfter, HeldAfter;
  }

  lemma EnabledActor(s: Pager, e: Step)
    requires Enabled(s, e)
    ensures 1 <= e.a <= |s.procs|
  {
  }

  lemma SizesKept(s: Pager, e: Step)
    requires Sizes(s) && Enabled(s, e)
    ensures Sizes(Next(s, e))
  {
    hide Enabled, PcAfter, TlbAfter, DiskAfter, DevicesAfter;
    EnabledActor(s, e);
  }

  // A process is inside a section from the step that takes its mutex to the one that
  // releases it.
  lemma SectionsKept(s: Pager, e: Step)
    requires Enabled(s, e)
    ensures HoldsSwap(PcAfter(s, e)) <==> e.TakeSwap? || (!e.LeaveSwap? && HoldsSwap(PcOf(s, e.a)))
    ensures HoldsDisk(PcAfter(s, e)) <==> e.TakeDisk? || (!e.LeaveDisk? && HoldsDisk(PcOf(s, e.a)))
    ensures e.TakeSwap? ==> s.swap == NOBODY
    ensures e.LeaveSwap? ==> HoldsSwap(PcOf(s, e.a))
    ensures e.TakeDisk? ==> s.disk0 == NOBODY
    ensures e.LeaveDisk? ==> HoldsDisk(PcOf(s, e.a))
  {
    hide Hits, Chosen, PageOf;
  }

  lemma GuardedKept(s: Pager, e: Step)
    requires Guarded(s) && Enabled(s, e)
    ensures Guarded(Next(s, e))
  {
    hide PcAfter, PoolAfter, PteAfter, TlbAfter, RamAfter, DiskAfter, BufAfter, DevicesAfter, HeldAfter, Enabled,
      HoldsSwap, HoldsDisk;
    SectionsKept(s, e);
    EnabledActor(s, e);
    NextProcs(s, e);
    NobodyHolds(s);
  }

  lemma NobodyHolds(s: Pager)
    ensures !HoldsSwap(PcOf(s, NOBODY)) && !HoldsDisk(PcOf(s, NOBODY))
  {
  }

  lemma DevicesHeldKept(s: Pager, e: Step)
    requires Sizes(s) && DevicesHeld(s) && DevicesFirst(s) && Enabled(s, e)
    ensures DevicesHeld(Next(s, e))
  {
    hide PcAfter, PoolAfter, PteAfter, TlbAfter, RamAfter, DiskAfter, BufAfter, Chosen;
    NextProcs(s, e);
  }

  lemma DevicesFirstKept(s: Pager, e: Step)
    requires DevicesFirst(s) && Enabled(s, e)
    ensures DevicesFirst(Next(s, e))
  {
    hide Next, Chosen, Hits;
    NextProcs(s, e);
  }

  lemma FaultsKept(s: Pager, e: Step)
    requires PInv(s) && Enabled(s, e)
    ensures Faults(Next(s, e))
  {
    hide PoolAfter, TlbAfter, RamAfter, DiskAfter, BufAfter, DevicesAfter, HeldAfter, Chosen, DevicesHeld,
      DevicesFirst, ArmThere, TablesOf, PoolOf, Victim, Guarded;
    NextProcs(s, e);
  }

  lemma VictimKept(s: Pager, e: Step)
    requires Guarded(s) && Sizes(s) && Victim(s) && Enabled(s, e)
    ensures Victim(Next(s, e))
  {
    hide PteAfter, TlbAfter, RamAfter, DiskAfter, BufAfter, Spin, Hits;
    NextProcs(s, e);
  }

  // The stages of a process that the tables depend on change at few steps only.
  lemma StagesKept(s: Pager, e: Step)
    requires Enabled(s, e)
    ensures Booting(PcAfter(s, e)) ==> Booting(PcOf(s, e.a))
    ensures Gone(PcAfter(s, e)) <==> Gone(PcOf(s, e.a)) || e.Reap?
    ensures !e.Pick? && !e.Commit? ==> TransitOf(PcAfter(s, e)) == TransitOf(PcOf(s, e.a))
    ensures e.TakeSwap? || e.LeaveSwap? ==> TransitOf(PcOf(s, e.a)) == -1
    ensures e.TakeSwap? ==> s.swap == NOBODY
    ensures e.LeaveSwap? || e.Pick? || e.Commit? || e.Reap? ==> HoldsSwap(PcOf(s, e.a))
  {
    hide Hits, Chosen, PageOf;
  }

  lemma TransitKept(s: Pager, e: Step)
    requires Guarded(s) && Enabled(s, e) && !e.Pick? && !e.Commit?
    ensures InTransit(Next(s, e)) == InTransit(s)
  {
    hide PcAfter, PoolAfter, PteAfter, TlbAfter, RamAfter, DiskAfter, BufAfter, DevicesAfter, HeldAfter, Enabled,
      HoldsDisk;
    StagesKept(s, e);
    EnabledActor(s, e);
    NextProcs(s, e);
  }

  lemma PoolKept(s: Pager, e: Step)
    requires PInv(s) && Enabled(s, e)
    ensures PoolOf(Next(s, e))
  {
    hide PcAfter, TlbAfter, RamAfter, DiskAfter, BufAfter, DevicesAfter, HeldAfter, DevicesHeld, DevicesFirst,
      ArmThere, CacheTrue, Enabled, Spin, Gone, Booting, InTransit;
    if e.Pick? {
      PickPool(s, e.a);
    } else if e.Commit? {
      CommitPool(s, e.a);
    } else {
      StagesKept(s, e);
      EnabledActor(s, e);
      NextProcs(s, e);
      TransitKept(s, e);
    }
  }

  lemma PickPool(s: Pager, a: int)
    requires PInv(s) && Enabled(s, Pick(a))
    ensures PoolOf(Next(s, Pick(a)))
  {
    hide TlbAfter, RamAfter, DiskAfter, BufAfter, DevicesAfter, HeldAfter, DevicesHeld, DevicesFirst, ArmThere,
      CacheTrue, Faults;
    NextProcs(s, Pick(a));
  }

  lemma CommitPool(s: Pager, a: int)
    requires PInv(s) && Enabled(s, Commit(a))
    ensures PoolOf(Next(s, Commit(a)))
  {
    hide TlbAfter, RamAfter, DiskAfter, BufAfter, DevicesAfter, HeldAfter, DevicesHeld, DevicesFirst, ArmThere,
      CacheTrue;
    NextProcs(s, Commit(a));
  }

  lemma TablesKept(s: Pager, e: Step)
    requires PInv(s) && Enabled(s, e)
    ensures TablesOf(Next(s, e))
  {
    hide PcAfter, TlbAfter, RamAfter, DiskAfter, BufAfter, DevicesAfter, HeldAfter, DevicesHeld, DevicesFirst,
      ArmThere, CacheTrue, Enabled, Spin, Gone, Booting, Faults, Guarded;
    if e.Commit? {
      CommitTables(s, e.a);
    } else {
      StagesKept(s, e);
      EnabledActor(s, e);
      NextProcs(s, e);
    }
  }

  lemma CommitTables(s: Pager, a: int)
    requires PInv(s) && Enabled(s, Commit(a))
    ensures TablesOf(Next(s, Commit(a)))
  {
    hide TlbAfter, RamAfter, DiskAfter, BufAfter, DevicesAfter, HeldAfter, DevicesHeld, DevicesFirst, ArmThere,
      CacheTrue;
    NextProcs(s, Commit(a));
  }

  lemma CacheKept(s: Pager, e: Step)
    requires Sizes(s) && CacheTrue(s) && Enabled(s, e)
    ensures CacheTrue(Next(s, e))
  {
    hide PcAfter, RamAfter, DiskAfter, BufAfter, Spin, Hits;
  }

  lemma ArmKept(s: Pager, e: Step)
    requires Guarded(s) && ArmThere(s) && Enabled(s, e)
    ensures ArmThere(Next(s, e))
  {
    hide PoolAfter, PteAfter, TlbAfter, RamAfter, DiskAfter, BufAfter, Chosen, Hits;
    NextProcs(s, e);
  }

  lemma PInvKept(s: Pager, e: Step)
    requires PInv(s) && Enabled(s, e)
    ensures PInv(Next(s, e))
  {
    hide Next, Enabled, Sizes, Guarded, DevicesHeld, DevicesFirst, Faults, Victim, PoolOf, TablesOf, CacheTrue,
      ArmThere;
    SizesKept(s, e);
    GuardedKept(s, e);
    DevicesHeldKept(s, e);
    DevicesFirstKept(s, e);
    FaultsKept(s, e);
    VictimKept(s, e);
    PoolKept(s, e);
    TablesKept(s, e);
    CacheKept(s, e);
    ArmKept(s, e);
  }

  lemma {:induction false} RunPInv(s: Pager, es: seq<Step>)
    requires PInv(s) && IsRunOf(s, es)
    ensures PInv(RunOf(s, es))
  {
    hide PInv, Next, Enabled;
    if es != [] {
      RunPInv(s, es[..|es| - 1]);
      PInvKept(RunOf(s, es[..|es| - 1]), es[|es| - 1]);
    }
  }
}
