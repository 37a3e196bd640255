// What uProcInit puts on disk 0 is what the process first sees.
module PagerBoot {
  import opened Pagers
  import opened PagerInvs
  import opened PagerMemory

  // How many blocks of its tape a booting process has on disk.
  function Written(pc: Pc, blocks: nat): int {
    match pc {
      case TapeRead(k) => k
      case Loading(k, io) => if io == Moved then k + 1 else k
      case TapeDone => blocks
      case _ => 0
    }
  }

  ghost function BootBlock(s: Pager, a: int, j: int): Page {
    Block(s.disk, (j, a - 1))
  }

  // The first k blocks of the tape are on disk.
  ghost predicate OnDisk(s: Pager, a: int, k: int) {
    forall j :: 0 <= j < k && j < |Tape(s, a)| ==> BootBlock(s, a, j) == Tape(s, a)[j]
  }

  // The tape is where the boot loop has got to, the blocks written so far are right, and
  // so is the one in the buffer.
  ghost predicate BootedTo(s: Pager, a: int) {
    var pc := PcOf(s, a);
    var tape := Tape(s, a);
    && (pc.TapeWait? ==> TapeAt(s, a) == 0)
    && (pc.TapeRead? ==> 0 <= pc.k < |tape| && TapeAt(s, a) == pc.k)
    && (pc.Loading? ==> 0 <= pc.k < |tape| && TapeAt(s, a) == pc.k + 1)
    && (pc.Loading? && pc.io != Moved ==> Buffer(s, TapeBuffer(a)) == tape[pc.k])
    && (Booting(pc) ==> OnDisk(s, a, Written(pc, |tape|)))
  }

  // The steps of others that spoil the boot of b. Disk b - 1 is read and written through
  // the page that b's tape is; and diskIO can be called with the number of a tape.
  ghost predicate Spoils(s: Pager, e: Step, b: int) {
    match e {
      case FillBuffer(a, data) =>
        && DiskBuffer(ProcOf(s, a).held) == TapeBuffer(b)
        && PcOf(s, b).Loading? && PcOf(s, b).io != Moved && data != Buffer(s, TapeBuffer(b))
      case WindTape(a, j) => ProcOf(s, a).held == TapeOf(b) && PcOf(s, b) == TapeWait && j != 0
      case _ => false
    }
  }

  // The sector of a booting process is its own.
  lemma SectorsApart(s: Pager, e: Step, b: int)
    requires PInv(s) && Enabled(s, e) && e.Transfer? && Booting(PcOf(s, b)) && b != e.a && !PcOf(s, e.a).Fetching?
    ensures SectorOf(e.a, PcOf(s, e.a)) != b - 1
  {
    hide DevicesHeld, DevicesFirst, TablesOf, CacheTrue, Faults, PoolOf;
    if PcOf(s, e.a).Evicting? {
      TransferOnTarget(s, e.a);
      PendingIsTransit(s);
    }
  }

  // A transfer writes no block of any other booting process.
  lemma DiskElsewhere(s: Pager, e: Step, b: int)
    requires PInv(s) && Enabled(s, e) && Booting(PcOf(s, b)) && (e.Transfer? ==> b != e.a)
    ensures forall j :: BootBlock(Next(s, e), b, j) == BootBlock(s, b, j)
  {
    hide PInv, PcAfter, PoolAfter, PteAfter, TlbAfter, RamAfter, BufAfter, DevicesAfter, HeldAfter, SectorOf;
    if e.Transfer? && !PcOf(s, e.a).Fetching? {
      SectorsApart(s, e, b);
    }
  }

  // The block that a booting process transfers is the one it has sought.
  lemma DiskHere(s: Pager, e: Step)
    requires PInv(s) && Enabled(s, e) && e.Transfer? && PcOf(s, e.a).Loading?
    ensures var t, k := Next(s, e), PcOf(s, e.a).k;
      forall j :: BootBlock(t, e.a, j) == if j == k then Buffer(s, TapeBuffer(e.a)) else BootBlock(s, e.a, j)
  {
    hide PInv, PcAfter, PoolAfter, PteAfter, TlbAfter, RamAfter, BufAfter, DevicesAfter, HeldAfter;
    TransferOnTarget(s, e.a);
  }

  // A booting process goes on as it should.
  lemma ActorBoots(s: Pager, e: Step)
    requires PInv(s) && BootedTo(s, e.a) && Enabled(s, e)
    ensures BootedTo(Next(s, e), e.a)
  {
    hide PInv, PoolAfter, PteAfter, TlbAfter, RamAfter, DiskAfter, DevicesAfter, HeldAfter, Hits, Chosen, BootBlock;
    EnabledActor(s, e);
    NextProcs(s, e);
    ActorTape(s, e.a);
    if Booting(PcOf(s, e.a)) {
      if e.Transfer? {
        DiskHere(s, e);
      } else {
        DiskElsewhere(s, e, e.a);
      }
    }
  }

  lemma ActorTape(s: Pager, a: int)
    requires PInv(s) && 1 <= a <= |s.procs|
    ensures |Tape(s, a)| > 0
  {
  }

  // While a process has its tape's mutex nobody else moves the tape.
  lemma TapeStays(s: Pager, e: Step, b: int)
    requires PInv(s) && Enabled(s, e) && Booting(PcOf(s, b))
    requires PcOf(s, b) != TapeWait && b != e.a && 1 <= b <= |s.procs|
    ensures TapeAt(Next(s, e), b) == TapeAt(s, b)
  {
    hide Faults, Victim, PoolOf, TablesOf, CacheTrue, ArmThere, Sizes, Guarded;
    assert ProcOf(s, b).held == TapeOf(b);
    assert ProcOf(s, e.a).held != 0 ==> s.devices[ProcOf(s, e.a).held] == e.a;
  }

  // Another process's step keeps the boot of b right exactly if it does not spoil it.
  lemma OthersBoot(s: Pager, e: Step, b: int)
    requires PInv(s) && BootedTo(s, b) && Enabled(s, e) && 1 <= b <= |s.procs| && b != e.a
    ensures BootedTo(Next(s, e), b) <==> !Spoils(s, e, b)
  {
    hide PInv, PcAfter, PoolAfter, PteAfter, TlbAfter, RamAfter, DiskAfter, DevicesAfter, HeldAfter, Written,
      BootBlock;
    EnabledActor(s, e);
    NextProcs(s, e);
    SameTapes(s, e);
    if Booting(PcOf(s, b)) {
      DiskElsewhere(s, e, b);
      if PcOf(s, b) != TapeWait {
        TapeStays(s, e, b);
      }
    }
  }

  // Whatever step is taken, the boot of b stays right exactly if it is b's own or does not
  // spoil it.
  lemma BootExact(s: Pager, e: Step, b: int)
    requires PInv(s) && BootedTo(s, b) && Enabled(s, e) && 1 <= b <= |s.procs|
    ensures BootedTo(Next(s, e), b) <==> b == e.a || !Spoils(s, e, b)
  {
    hide PInv, BootedTo, Next, Enabled, Spoils;
    if b == e.a {
      ActorBoots(s, e);
    } else {
      OthersBoot(s, e, b);
    }
  }

  // As coded nobody spoils a boot.
  lemma AsCodedNoSpoil(s: Pager, e: Step, b: int)
    requires Enabled(s, e) && !s.repaired
    ensures !Spoils(s, e, b)
  {
  }

  lemma SameTapes(s: Pager, e: Step)
    ensures Next(s, e).repaired == s.repaired && Next(s, e).tapes == s.tapes
  {
  }

  // No other process's step of the run spoils the boot of a.
  ghost predicate Unspoilt(s: Pager, es: seq<Step>, a: int) {
    forall i :: 0 <= i < |es| ==> es[i].a == a || !Spoils(RunOf(s, es[..i]), es[i], a)
  }

  lemma {:induction false} RunBooted(s: Pager, es: seq<Step>, a: int)
    requires MInv(s) && BootedTo(s, a) && 1 <= a <= |s.procs| && IsRunOf(s, es) && Unspoilt(s, es, a)
    ensures MInv(RunOf(s, es)) && BootedTo(RunOf(s, es), a)
    ensures RunOf(s, es).tapes == s.tapes && |RunOf(s, es).procs| == |s.procs| && RunOf(s, es).repaired == s.repaired
  {
    hide PInv, Fetched, BootedTo, Spoils, Next, Enabled;
    if es != [] {
      var f, e := es[..|es| - 1], es[|es| - 1];
      forall i | 0 <= i < |f|
        ensures f[i].a == a || !Spoils(RunOf(s, f[..i]), f[i], a)
      {
        assert f[..i] == es[..i];
      }
      RunBooted(s, f, a);
      assert e.a == a || !Spoils(RunOf(s, f), e, a);
      BootExact(RunOf(s, f), e, a);
      MInvKept(RunOf(s, f), e);
      SameTapes(RunOf(s, f), e);
      EnabledActor(RunOf(s, f), e);
      NextProcs(RunOf(s, f), e);
    }
  }

  lemma {:induction false} AsCodedUnspoilt(s: Pager, es: seq<Step>, a: int)
    requires IsRunOf(s, es) && !s.repaired
    ensures Unspoilt(s, es, a) && !RunOf(s, es).repaired
  {
    hide Spoils, Next, Enabled;
    if es != [] {
      var f, e := es[..|es| - 1], es[|es| - 1];
      AsCodedUnspoilt(s, f, a);
      AsCodedNoSpoil(RunOf(s, f), e, a);
      SameTapes(RunOf(s, f), e);
      forall i | 0 <= i < |es|
        ensures es[i].a == a || !Spoils(RunOf(s, es[..i]), es[i], a)
      {
        if i < |f| {
          assert f[..i] == es[..i] && f[i] == es[i];
        }
      }
    }
  }

  // When a process is about to leave uProcInit, every page that its tape has a block for
  // holds that block.
  lemma TapeInPlace(s: Pager, a: int, k: int)
    requires PInv(s) && BootedTo(s, a) && 1 <= a <= |s.procs| && PcOf(s, a) == TapeDone
    requires 0 <= k < |Tape(s, a)| && k < KUSEGSIZE
    ensures OfLiving(s, EntryNo(a, k)) && Contents(s, EntryNo(a, k)) == Tape(s, a)[k]
  {
    hide PInv;
    var g := EntryNo(a, k);
    EntryNoExact(|s.procs|, a, k);
    PInvParts(s);
    if s.pte[g].valid {
      FrameIsOwn(s, g);
    }
    if Pending(s) != -1 {
      PendingIsTransit(s);
    }
    assert BootBlock(s, a, k) == Tape(s, a)[k];
  }

  // From test() on, for the code and for its intent: after a boot that no other process
  // has spoilt, a page holds its block of the tape, with the words that were stored since.
  lemma FirstTouch(s: Pager, es: seq<Step>, fs: seq<Step>, a: int, k: int, w: int)
    requires Started(s) && IsRunOf(s, es) && 1 <= a <= |s.procs| && (s.repaired ==> Unspoilt(s, es, a))
    requires PcOf(RunOf(s, es), a) == TapeDone && 0 <= k < |Tape(s, a)| && k < KUSEGSIZE
    requires IsRunOf(RunOf(s, es), fs) && OfLiving(RunOf(RunOf(s, es), fs), EntryNo(a, k))
    requires forall i :: 0 <= i < |fs| ==> !Touches(RunOf(RunOf(s, es), fs[..i]), fs[i], EntryNo(a, k), w)
    ensures Word(Contents(RunOf(RunOf(s, es), fs), EntryNo(a, k)), w) == Word(Tape(s, a)[k], w)
  {
    hide PInv, BootedTo, Started, IsRunOf, RunOf, Contents, OpOf, Touches, EntryNo, OfLiving, LastWord, Unspoilt;
    var t := RunOf(s, es);
    StartedMInv(s);
    StartedBooted(s, a);
    if !s.repaired {
      AsCodedUnspoilt(s, es, a);
    }
    RunBooted(s, es, a);
    TapeInPlace(t, a, k);
    RunContents(t, fs, EntryNo(a, k), w);
    Untouched(t, fs, EntryNo(a, k), w);
  }

  // The step stores to word w of page g or fills the page.
  ghost predicate Touches(s: Pager, e: Step, g: int, w: int) {
    match OpOf(s, e) {
      case Nothing => false
      case Write(h, x, _) => h == g && x == w
      case Fill(h, _) => h == g
    }
  }

  lemma {:induction false} Untouched(s: Pager, es: seq<Step>, g: int, w: int)
    requires forall i :: 0 <= i < |es| ==> !Touches(RunOf(s, es[..i]), es[i], g, w)
    ensures LastWord(s, es, g, w) == Word(Contents(s, g), w)
  {
    hide Contents, OpOf, Next;
    if es != [] {
      var f := es[..|es| - 1];
      forall i | 0 <= i < |f|
        ensures !Touches(RunOf(s, f[..i]), f[i], g, w)
      {
        assert f[..i] == es[..i];
      }
      Untouched(s, f, g, w);
      assert !Touches(RunOf(s, es[..|es| - 1]), es[|es| - 1], g, w);
    }
  }

  lemma StartedBooted(s: Pager, a: int)
    requires Started(s) && 1 <= a <= |s.procs|
    ensures BootedTo(s, a)
  {
    assert PcOf(s, a) == TapeWait;
  }

  // ------------------------------------------------- shared buffers

  // How far a boot has come.
  function BootStage(pc: Pc): int {
    match pc {
      case TapeWait => -5
      case TapeRead(k) => 5 * k
      case Loading(k, Queued) => 5 * k + 1
      case Loading(k, Seeking) => 5 * k + 2
      case Loading(k, Sought) => 5 * k + 3
      case Loading(k, Moved) => 5 * k + 4
      case _ => 0
    }
  }

  // A boot only goes forward.
  lemma BootAdvances(s: Pager, e: Step, a: int)
    requires Enabled(s, e)
    ensures var pc, qc := PcOf(s, a), PcOf(Next(s, e), a);
      qc.TapeRead? || qc.Loading? ==> pc == TapeWait || pc.TapeRead? || pc.Loading?
    ensures var pc, qc := PcOf(s, a), PcOf(Next(s, e), a);
      (qc.TapeRead? || qc.Loading?) && pc != TapeWait ==> BootStage(pc) <= BootStage(qc)
  {
    hide PoolAfter, PteAfter, TlbAfter, RamAfter, DiskAfter, BufAfter, DevicesAfter, HeldAfter, Hits, Chosen;
    EnabledActor(s, e);
    NextProcs(s, e);
  }

  // Disk d and the tape of process d + 1 share a page of buffer.
  ghost predicate Refills(s: Pager, e: Step, a: int) {
    e.FillBuffer? && DiskBuffer(ProcOf(s, e.a).held) == TapeBuffer(a)
  }

  // What is in the buffer when it is last filled, however long before the transfer, is
  // what goes to disk: with the check repaired the block of the tape is lost exactly if
  // that is something else.
  lemma {:induction false} BufferGoesOut(s: Pager, es: seq<Step>, a: int, k: int)
    requires MInv(s) && IsRunOf(s, es) && PcOf(s, a).Loading? && PcOf(s, a).k == k && PcOf(s, a).io != Moved
    requires PcOf(RunOf(s, es), a).Loading? && PcOf(RunOf(s, es), a).k == k
    requires forall i :: 0 <= i < |es| ==> !Refills(RunOf(s, es[..i]), es[i], a)
    ensures MInv(RunOf(s, es))
    ensures if PcOf(RunOf(s, es), a).io == Moved then BootBlock(RunOf(s, es), a, k) == Buffer(s, TapeBuffer(a))
            else Buffer(RunOf(s, es), TapeBuffer(a)) == Buffer(s, TapeBuffer(a))
  {
    hide PInv, Fetched, Next, Enabled, BootBlock, Refills;
    if es != [] {
      var f, e := es[..|es| - 1], es[|es| - 1];
      var t := RunOf(s, f);
      forall i | 0 <= i < |f|
        ensures !Refills(RunOf(s, f[..i]), f[i], a)
      {
        assert f[..i] == es[..i] && f[i] == es[i];
      }
      assert !Refills(t, e, a) by {
        assert es[..|es| - 1] == f && !Refills(RunOf(s, es[..|es| - 1]), es[|es| - 1], a);
      }
      RunBoots(s, f, a);
      BootAdvances(t, e, a);
      RunMInv(s, f);
      MInvKept(t, e);
      LoadingBefore(t, e, a);
      BufferGoesOut(s, f, a, k);
      BufferStays(t, e, a);
    }
  }

  // Between reading a block and the next one a process is at its disk operation.
  lemma LoadingBefore(s: Pager, e: Step, a: int)
    requires Enabled(s, e) && PcOf(Next(s, e), a).Loading?
    ensures var pc, qc := PcOf(s, a), PcOf(Next(s, e), a);
      (pc.TapeRead? && pc.k == qc.k) || (pc.Loading? && pc.k == qc.k)
  {
    hide PoolAfter, PteAfter, TlbAfter, RamAfter, DiskAfter, BufAfter, DevicesAfter, HeldAfter, Hits, Chosen;
    EnabledActor(s, e);
    NextProcs(s, e);
  }

  lemma BufferStays(s: Pager, e: Step, a: int)
    requires MInv(s) && Enabled(s, e) && PcOf(s, a).Loading? && PcOf(Next(s, e), a).Loading? && !Refills(s, e, a)
    ensures var t := Next(s, e);
      && Buffer(t, TapeBuffer(a)) == Buffer(s, TapeBuffer(a))
      && (PcOf(s, a).io == Moved ==> PcOf(t, a).io == Moved)
      && (PcOf(s, a).io == Moved ==> forall j :: BootBlock(t, a, j) == BootBlock(s, a, j))
      && (PcOf(s, a).io != Moved && PcOf(t, a).io == Moved ==>
            BootBlock(t, a, PcOf(s, a).k) == Buffer(s, TapeBuffer(a)))
  {
    hide PInv, Fetched, PoolAfter, PteAfter, TlbAfter, RamAfter, DiskAfter, DevicesAfter, HeldAfter, Hits, Chosen,
      BootBlock;
    EnabledActor(s, e);
    NextProcs(s, e);
    if e.Transfer? && e.a == a {
      DiskHere(s, e);
    } else {
      DiskElsewhere(s, e, a);
    }
  }

  lemma {:induction false} RunBoots(s: Pager, es: seq<Step>, a: int)
    requires IsRunOf(s, es) && PcOf(s, a) != TapeWait
    ensures var pc, qc := PcOf(s, a), PcOf(RunOf(s, es), a);
      && qc != TapeWait
      && (qc.TapeRead? || qc.Loading? ==> (pc.TapeRead? || pc.Loading?) && BootStage(pc) <= BootStage(qc))
  {
    hide Next, Enabled;
    if es != [] {
      var f, e := es[..|es| - 1], es[|es| - 1];
      RunBoots(s, f, a);
      BootAdvances(RunOf(s, f), e, a);
      NeverBack(RunOf(s, f), e, a);
    }
  }

  lemma NeverBack(s: Pager, e: Step, a: int)
    requires Enabled(s, e) && PcOf(s, a) != TapeWait
    ensures PcOf(Next(s, e), a) != TapeWait
  {
    hide PoolAfter, PteAfter, TlbAfter, RamAfter, DiskAfter, BufAfter, DevicesAfter, HeldAfter, Hits, Chosen;
    EnabledActor(s, e);
    NextProcs(s, e);
  }
}
