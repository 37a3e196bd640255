// Paging is invisible: private memory behaves as if every page always stayed in place.
module PagerMemory {
  import opened Lists
  import opened Pagers
  import opened PagerInvs

  // The frame whose contents are on their way out, or -1.
  ghost function Pending(s: Pager): int {
    var pc := PcOf(s, s.swap);
    if pc.Evicting? && pc.io != Moved then pc.f else -1
  }

  // What page g holds as its owner sees it, wherever that is.
  ghost function Contents(s: Pager, g: int): Page {
    if EntryAt(s, g).valid then Frame(s, EntryAt(s, g).frame)
    else if Pending(s) != -1 && SlotAt(s, Pending(s)).pte == g then Frame(s, Pending(s))
    else Block(s.disk, BlockOf(g))
  }

  // What a step does to private memory: a store that finds its page writes a word, the
  // boot loop fills a page from the tape's buffer, and nothing else does anything.
  datatype MemOp = Nothing | Write(g: int, w: int, v: int) | Fill(g: int, data: Page)

  ghost function OpOf(s: Pager, e: Step): MemOp {
    if e.Store? && Hits(s, e.a, e.vpn) then Write(EntryNo(e.a, PageOf(e.vpn)), e.w, e.v)
    else if e.Transfer? && PcOf(s, e.a).Loading? && 0 <= PcOf(s, e.a).k < KUSEGSIZE
    then Fill(EntryNo(e.a, PcOf(s, e.a).k), Buffer(s, TapeBuffer(e.a)))
    else Nothing
  }

  ghost function Applied(p: Page, g: int, op: MemOp): Page {
    match op {
      case Nothing => p
      case Write(h, w, v) => if h == g then p[w := v] else p
      case Fill(h, data) => if h == g then data else p
    }
  }

  // The page read in is the one behind the block.
  ghost predicate Fetched(s: Pager) {
    var pc := PcOf(s, s.swap);
    && (pc.Fetching? && pc.io == Moved ==> Frame(s, pc.f) == Block(s.disk, (pc.page, s.swap - 1)))
    && (pc.Committing? ==> Frame(s, pc.f) == Block(s.disk, (pc.page, s.swap - 1)))
  }

  ghost predicate MInv(s: Pager) {
    PInv(s) && Fetched(s)
  }

  ghost predicate OfLiving(s: Pager, g: int) {
    0 <= g < |s.pte| && !Gone(PcOf(s, Owner(g)))
  }

  // ------------------------------------------------- where things are

  // A valid page of a living process is alone in its frame, and not in transit.
  lemma FrameIsOwn(s: Pager, g: int)
    requires PInv(s) && OfLiving(s, g) && s.pte[g].valid
    ensures 0 <= s.pte[g].frame < |s.ram| && s.pool[s.pte[g].frame] == SlotFor(g) && s.pte[g].frame != InTransit(s)
    ensures !Booting(PcOf(s, Owner(g)))
    ensures s.pte[g] == Entry(true, true, s.pte[g].frame)
  {
    hide Guarded, DevicesHeld, DevicesFirst, Faults, Victim, CacheTrue, ArmThere;
    assert s.pool[s.pte[g].frame].asid != NOASID;
  }

  lemma PendingIsTransit(s: Pager)
    requires PInv(s) && Pending(s) != -1
    ensures Pending(s) == InTransit(s) && 0 <= Pending(s) < |s.pool| == |s.ram|
    ensures var v := SlotAt(s, Pending(s));
      0 <= v.pte < |s.pte| && v == SlotFor(v.pte) && OfLiving(s, v.pte) && !s.pte[v.pte].valid
    ensures !Booting(PcOf(s, Owner(SlotAt(s, Pending(s)).pte)))
  {
    hide Guarded, DevicesHeld, DevicesFirst, Faults, TablesOf, CacheTrue, ArmThere;
    assert s.pool[Pending(s)].asid != NOASID;
  }

  lemma BlocksDiffer(g: int, h: int)
    requires 0 <= g && 0 <= h
    ensures BlockOf(g) == BlockOf(h) ==> g == h
  {
  }

  // Every transfer is at the cylinder that its own process sought, on the block of the
  // page it is about.
  lemma TransferOnTarget(s: Pager, a: int)
    requires PInv(s) && Enabled(s, Transfer(a))
    ensures var pc := PcOf(s, a);
      && s.disk0 == a && s.arm == CylinderOf(pc)
      && (pc.Loading? && 0 <= pc.k < KUSEGSIZE ==> (s.arm, SectorOf(a, pc)) == BlockOf(EntryNo(a, pc.k)))
      && (pc.Fetching? ==> s.swap == a && (s.arm, SectorOf(a, pc)) == BlockOf(EntryNo(a, pc.page)))
      && (pc.Evicting? ==>
            s.swap == a && Pending(s) == pc.f && (s.arm, SectorOf(a, pc)) == BlockOf(SlotAt(s, pc.f).pte))
  {
    hide DevicesHeld, DevicesFirst, TablesOf, CacheTrue, PoolOf;
    var pc := PcOf(s, a);
    assert HoldsDisk(pc) && (!pc.Loading? ==> HoldsSwap(pc));
    if pc.Evicting? {
      PendingIsTransit(s);
    }
  }

  // ------------------------------------------------- one step

  lemma PendingKept(s: Pager, e: Step)
    requires Guarded(s) && Enabled(s, e) && !e.Pick? && !e.Transfer?
    ensures Pending(Next(s, e)) == Pending(s)
  {
    hide PoolAfter, PteAfter, TlbAfter, RamAfter, DiskAfter, BufAfter, DevicesAfter, HeldAfter, Hits, Chosen;
    NextProcs(s, e);
  }

  lemma QuietContents(s: Pager, e: Step, g: int)
    requires Guarded(s) && Enabled(s, e) && !e.Store? && !e.Transfer? && !e.Pick? && !e.Commit?
    ensures Contents(Next(s, e), g) == Contents(s, g) && OpOf(s, e) == Nothing
  {
    hide PcAfter, TlbAfter, BufAfter, DevicesAfter, HeldAfter, Hits, Chosen, Pending, Enabled;
    PendingKept(s, e);
    if e.Reap? {
      assert forall f :: SlotAt(Next(s, e), f).pte == SlotAt(s, f).pte;
    }
  }

  lemma CachedIsEntry(s: Pager, a: int, vpn: int)
    requires PInv(s) && 1 <= a <= |s.procs| && Mapped(vpn)
    ensures var g := EntryNo(a, PageOf(vpn)); 0 <= g < |s.pte| && Owner(g) == a && Cached(s, g) == s.pte[g]
  {
    hide Guarded, DevicesHeld, DevicesFirst, Faults, Victim, PoolOf, TablesOf, ArmThere;
    EntryNoExact(|s.procs|, a, PageOf(vpn));
  }

  lemma StoreContents(s: Pager, e: Step, g: int)
    requires PInv(s) && Enabled(s, e) && e.Store? && OfLiving(s, g)
    ensures Contents(Next(s, e), g) == Applied(Contents(s, g), g, OpOf(s, e))
  {
    hide PInv, PcAfter, PoolAfter, PteAfter, TlbAfter, DiskAfter, BufAfter, DevicesAfter, HeldAfter, Chosen,
      Pending, EntryNo, PageOf, Gone;
    PInvParts(s);
    var h := EntryNo(e.a, PageOf(e.vpn));
    CachedIsEntry(s, e.a, e.vpn);
    PendingKept(s, e);
    if Pending(s) != -1 {
      PendingIsTransit(s);
    }
    if s.pte[h].valid {
      StorerLives(s, e);
      FrameIsOwn(s, h);
    }
    if s.pte[g].valid {
      FrameIsOwn(s, g);
    }
    TablesStay(s, e);
  }

  lemma PInvParts(s: Pager)
    requires PInv(s)
    ensures Sizes(s) && Guarded(s)
  {
  }

  lemma StorerLives(s: Pager, e: Step)
    requires Enabled(s, e) && e.Store?
    ensures !Gone(PcOf(s, e.a))
  {
  }

  lemma TablesStay(s: Pager, e: Step)
    requires !e.Commit? && !e.Reap? && !e.Pick?
    ensures Next(s, e).pool == s.pool && Next(s, e).pte == s.pte
    ensures !e.Transfer? ==> Next(s, e).disk == s.disk
  {
  }

  lemma PickContents(s: Pager, a: int, g: int)
    requires PInv(s) && Enabled(s, Pick(a)) && OfLiving(s, g)
    ensures Contents(Next(s, Pick(a)), g) == Contents(s, g)
  {
    hide TlbAfter, BufAfter, DevicesAfter, HeldAfter, Spin, DevicesHeld, DevicesFirst, Faults, Victim, CacheTrue,
      ArmThere;
    NextProcs(s, Pick(a));
    PickerHolds(s, a);
    var v := SlotAt(s, Chosen(s));
    if s.pte[g].valid {
      FrameIsOwn(s, g);
    }
  }

  lemma PickerHolds(s: Pager, a: int)
    requires Guarded(s) && Enabled(s, Pick(a))
    ensures s.swap == a && Pending(s) == -1 && InTransit(s) == -1
  {
    assert HoldsSwap(PcOf(s, a));
  }

  lemma CommitContents(s: Pager, a: int, g: int)
    requires MInv(s) && Enabled(s, Commit(a)) && OfLiving(s, g)
    ensures Contents(Next(s, Commit(a)), g) == Contents(s, g)
  {
    hide TlbAfter, BufAfter, DevicesAfter, HeldAfter, DevicesHeld, DevicesFirst, CacheTrue, ArmThere;
    NextProcs(s, Commit(a));
    var pc := PcOf(s, a);
    assert HoldsSwap(pc) && s.swap == a;
    EntryNoExact(|s.procs|, a, pc.page);
  }

  // Which side of a transfer changes, and how Pending follows.
  lemma TransferFields(s: Pager, e: Step)
    requires PInv(s) && Enabled(s, e) && e.Transfer?
    ensures var t, pc := Next(s, e), PcOf(s, e.a);
      && t.pool == s.pool && t.pte == s.pte
      && Pending(t) == (if pc.Evicting? then -1 else Pending(s))
      && t.ram == (if pc.Fetching? then Put(s.ram, pc.f, Block(s.disk, (s.arm, SectorOf(e.a, pc)))) else s.ram)
      && t.disk == (if pc.Loading? then s.disk[(s.arm, SectorOf(e.a, pc)) := Buffer(s, TapeBuffer(e.a))]
                    else if pc.Evicting? then s.disk[(s.arm, SectorOf(e.a, pc)) := Frame(s, pc.f)] else s.disk)
      && (pc.Fetching? ==> Pending(s) == -1 && InTransit(s) == pc.f)
      && (pc.Evicting? ==> Pending(s) != -1)
      && (AtDisk(pc) && Booting(pc) <==> pc.Loading?)
  {
    hide DevicesHeld, DevicesFirst, TablesOf, PoolOf, Faults, CacheTrue, TlbAfter, BufAfter, DevicesAfter;
    NextProcs(s, e);
    var pc := PcOf(s, e.a);
    assert !pc.Loading? ==> HoldsSwap(pc) && s.swap == e.a;
  }

  lemma LoadingContents(s: Pager, e: Step, g: int)
    requires PInv(s) && Enabled(s, e) && e.Transfer? && OfLiving(s, g) && PcOf(s, e.a).Loading?
    ensures Contents(Next(s, e), g) == Applied(Contents(s, g), g, OpOf(s, e))
  {
    hide PInv, Next, Pending;
    PInvParts(s);
    TransferOnTarget(s, e.a);
    TransferFields(s, e);
    if s.pte[g].valid {
      FrameIsOwn(s, g);
    }
    if Pending(s) != -1 {
      PendingIsTransit(s);
    }
  }

  lemma EvictingContents(s: Pager, e: Step, g: int)
    requires PInv(s) && Enabled(s, e) && e.Transfer? && OfLiving(s, g) && PcOf(s, e.a).Evicting?
    ensures Contents(Next(s, e), g) == Contents(s, g) && OpOf(s, e) == Nothing
  {
    hide PInv, Next, Pending;
    PInvParts(s);
    TransferOnTarget(s, e.a);
    TransferFields(s, e);
    PendingIsTransit(s);
    BlocksDiffer(g, SlotAt(s, Pending(s)).pte);
  }

  lemma FetchingContents(s: Pager, e: Step, g: int)
    requires PInv(s) && Enabled(s, e) && e.Transfer? && OfLiving(s, g) && PcOf(s, e.a).Fetching?
    ensures Contents(Next(s, e), g) == Contents(s, g) && OpOf(s, e) == Nothing
  {
    hide PInv, Next, Pending;
    TransferFields(s, e);
    if s.pte[g].valid {
      FrameIsOwn(s, g);
    }
  }

  lemma TransferOf(s: Pager, e: Step)
    requires Enabled(s, e) && e.Transfer?
    ensures AtDisk(PcOf(s, e.a))
  {
  }

  // A step changes a page of a living process only as its own stores and its own tape
  // say. The victim of a page fault is invalid before it is written back, so nothing
  // is lost on the way.
  lemma ContentsKept(s: Pager, e: Step, g: int)
    requires MInv(s) && Enabled(s, e) && OfLiving(s, g)
    ensures Contents(Next(s, e), g) == Applied(Contents(s, g), g, OpOf(s, e))
  {
    hide PInv, Enabled, Contents, Next, OfLiving;
    PInvParts(s);
    if e.Store? {
      StoreContents(s, e, g);
    } else if e.Transfer? {
      TransferOf(s, e);
      if PcOf(s, e.a).Loading? {
        LoadingContents(s, e, g);
      } else if PcOf(s, e.a).Evicting? {
        EvictingContents(s, e, g);
      } else {
        FetchingContents(s, e, g);
      }
    } else if e.Pick? {
      PickContents(s, e.a, g);
    } else if e.Commit? {
      CommitContents(s, e.a, g);
    } else {
      QuietContents(s, e, g);
    }
  }

  lemma FetchedStore(s: Pager, e: Step)
    requires MInv(s) && Enabled(s, e) && e.Store?
    ensures Fetched(Next(s, e))
  {
    hide PInv, PoolAfter, PteAfter, TlbAfter, BufAfter, DevicesAfter, HeldAfter, Chosen, EntryNo, PageOf, Gone;
    PInvParts(s);
    EnabledActor(s, e);
    NextProcs(s, e);
    var h := EntryNo(e.a, PageOf(e.vpn));
    CachedIsEntry(s, e.a, e.vpn);
    StorerLives(s, e);
    if s.pte[h].valid {
      FrameIsOwn(s, h);
    }
  }

  lemma FetchedTransfer(s: Pager, e: Step)
    requires MInv(s) && Enabled(s, e) && e.Transfer?
    ensures Fetched(Next(s, e))
  {
    hide PInv, PoolAfter, PteAfter, TlbAfter, BufAfter, DevicesAfter, HeldAfter;
    PInvParts(s);
    EnabledActor(s, e);
    NextProcs(s, e);
    TransferOnTarget(s, e.a);
    TransferFields(s, e);
    TransitInRange(s);
  }

  lemma TransitInRange(s: Pager)
    requires PInv(s)
    ensures PcOf(s, s.swap).Fetching? || PcOf(s, s.swap).Committing? ==> 0 <= InTransit(s) < |s.ram|
  {
  }

  lemma FetchedKept(s: Pager, e: Step)
    requires MInv(s) && Enabled(s, e)
    ensures Fetched(Next(s, e))
  {
    hide PInv, PoolAfter, PteAfter, TlbAfter, BufAfter, DevicesAfter, HeldAfter, Chosen, Hits;
    if e.Store? {
      FetchedStore(s, e);
    } else if e.Transfer? {
      FetchedTransfer(s, e);
    } else {
      PInvParts(s);
      EnabledActor(s, e);
      NextProcs(s, e);
    }
  }

  lemma StartedMInv(s: Pager)
    requires Started(s)
    ensures MInv(s)
  {
    StartedInv(s);
  }

  lemma MInvKept(s: Pager, e: Step)
    requires MInv(s) && Enabled(s, e)
    ensures MInv(Next(s, e))
  {
    hide PInv, Fetched, Next, Enabled;
    PInvKept(s, e);
    FetchedKept(s, e);
  }

  // ------------------------------------------------- whole runs

  // The value that word w of page g was last given in a run, by a store or by the boot
  // loop, or else had at its start.
  ghost function LastWord(s: Pager, es: seq<Step>, g: int, w: int): int {
    if es == [] then Word(Contents(s, g), w)
    else
      var f := es[..|es| - 1];
      match OpOf(RunOf(s, f), es[|es| - 1]) {
        case Nothing => LastWord(s, f, g, w)
        case Write(h, x, v) => if h == g && x == w then v else LastWord(s, f, g, w)
        case Fill(h, data) => if h == g then Word(data, w) else LastWord(s, f, g, w)
      }
  }

  lemma LivingBefore(s: Pager, e: Step, g: int)
    requires Sizes(s) && Enabled(s, e) && OfLiving(Next(s, e), g)
    ensures OfLiving(s, g)
  {
    hide PoolAfter, PteAfter, TlbAfter, BufAfter, DevicesAfter, HeldAfter, RamAfter, DiskAfter, Hits, Chosen,
      Owner, PcAfter, Enabled;
    SizesKept(s, e);
    StagesKept(s, e);
    EnabledActor(s, e);
    NextProcs(s, e);
    assert |Next(s, e).pte| == |s.pte|;
  }

  // In every run, whatever the other processes do and however often pages come and go,
  // a page of a living process holds what its owner last put there.
  lemma {:induction false} RunContents(s: Pager, es: seq<Step>, g: int, w: int)
    requires MInv(s) && IsRunOf(s, es) && OfLiving(RunOf(s, es), g)
    ensures MInv(RunOf(s, es)) && Word(Contents(RunOf(s, es), g), w) == LastWord(s, es, g, w)
  {
    hide PInv, MInv, Next, Enabled, Contents, OpOf, OfLiving;
    if es != [] {
      var f := es[..|es| - 1];
      var e := es[|es| - 1];
      RunMInv(s, f);
      LivingBefore(RunOf(s, f), e, g);
      RunContents(s, f, g, w);
      ContentsKept(RunOf(s, f), e, g);
      MInvKept(RunOf(s, f), e);
    }
  }

  lemma {:induction false} RunMInv(s: Pager, es: seq<Step>)
    requires MInv(s) && IsRunOf(s, es)
    ensures MInv(RunOf(s, es)) && Sizes(RunOf(s, es))
  {
    hide MInv, Next, Enabled, Sizes;
    if es != [] {
      RunMInv(s, es[..|es| - 1]);
      MInvKept(RunOf(s, es[..|es| - 1]), es[|es| - 1]);
    }
    MInvSizes(RunOf(s, es));
  }

  lemma MInvSizes(s: Pager)
    requires MInv(s)
    ensures Sizes(s)
  {
  }

  // A load that finds its page gets the last value stored.
  lemma LoadsLastStore(s: Pager, es: seq<Step>, a: int, vpn: int, w: int)
    requires MInv(s) && IsRunOf(s, es) && Enabled(RunOf(s, es), Load(a, vpn, w)) && Hits(RunOf(s, es), a, vpn)
    ensures Loaded(RunOf(s, es), a, vpn, w) == LastWord(s, es, EntryNo(a, PageOf(vpn)), w)
  {
    hide PInv, Next, EntryNo, PageOf, LastWord, RunOf, IsRunOf;
    var t := RunOf(s, es);
    RunMInv(s, es);
    CachedIsEntry(t, a, vpn);
    RunContents(s, es, EntryNo(a, PageOf(vpn)), w);
  }
}
