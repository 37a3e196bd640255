// Round-robin replacement: how long a page stays.
module PagerRotation {
  import opened Pagers
  import opened PagerInvs
  import opened PagerMemory

  // How many frames have been chosen in a run.
  ghost function Faults?(es: seq<Step>): nat {
    if es == [] then 0 else Faults?(es[..|es| - 1]) + if es[|es| - 1].Pick? then 1 else 0
  }

  // j frames on from f, j at most a full round.
  function Around(f: int, j: int, frames: int): int {
    if f + j < frames then f + j else f + j - frames
  }

  lemma SpinAround(f: int, j: int, frames: int)
    requires 0 <= f < frames && 0 <= j < frames
    ensures Spin(Around(f, j, frames), frames) == Around(f, j + 1, frames)
    ensures Around(f, j, frames) == f <==> j == 0
  {
    var n := Around(f, j, frames);
    if n + 1 == frames {
      assert (n + 1) % frames == 0;
    } else {
      assert (n + 1) % frames == n + 1;
    }
  }

  // g is in frame f.
  ghost predicate In(s: Pager, g: int, f: int) {
    0 <= g < |s.pte| && s.pte[g] == Entry(true, true, f)
  }

  lemma StepRotates(s: Pager, e: Step, g: int, f: int)
    requires MInv(s) && Enabled(s, e) && In(s, g, f) && OfLiving(Next(s, e), g)
    requires e.Pick? ==> Chosen(s) != f
    ensures In(Next(s, e), g, f)
  {
    hide PInv, PoolAfter, TlbAfter, RamAfter, DiskAfter, BufAfter, DevicesAfter, HeldAfter, Chosen, PcAfter,
      Enabled, OfLiving;
    MInvSizes(s);
    LivingBefore(s, e, g);
    FrameIsOwn(s, g);
    if e.Pick? {
      OthersStay(s, e.a, g);
    } else if e.Commit? {
      CommitElsewhere(s, e.a, g);
    }
  }

  lemma OthersStay(s: Pager, a: int, g: int)
    requires PInv(s) && Enabled(s, Pick(a)) && OfLiving(s, g) && s.pte[g].valid && s.pte[g].frame != Chosen(s)
    ensures SlotAt(s, Chosen(s)).asid == NOASID || SlotAt(s, Chosen(s)).pte != g
  {
    hide DevicesHeld, DevicesFirst, Faults, TablesOf, CacheTrue, ArmThere;
    assert HoldsSwap(PcOf(s, a));
  }

  lemma CommitElsewhere(s: Pager, a: int, g: int)
    requires PInv(s) && Enabled(s, Commit(a)) && 0 <= g < |s.pte| && s.pte[g].valid
    ensures PcOf(s, a).Committing? && EntryNo(a, PcOf(s, a).page) != g
  {
    hide DevicesHeld, DevicesFirst, TablesOf, CacheTrue, ArmThere, PoolOf, Victim, Guarded;
  }

  // A page in the frame chosen last stays there through the next faults of anybody, one
  // fewer than there are frames, as long as its owner lives.
  lemma {:induction false} StaysThrough(s: Pager, es: seq<Step>, g: int)
    requires MInv(s) && IsRunOf(s, es) && In(s, g, s.next) && OfLiving(RunOf(s, es), g) && Faults?(es) < |s.pool|
    ensures var t := RunOf(s, es);
      MInv(t) && In(t, g, s.next) && |t.pool| == |s.pool| && t.next == Around(s.next, Faults?(es), |s.pool|)
  {
    hide MInv, Next, Enabled, OfLiving;
    MInvSizes(s);
    if es != [] {
      var f, e := es[..|es| - 1], es[|es| - 1];
      RunMInv(s, f);
      LivingBefore(RunOf(s, f), e, g);
      StaysThrough(s, f, g);
      NextFrame(RunOf(s, f), e);
      SpinAround(s.next, Faults?(f), |s.pool|);
      if e.Pick? {
        SpinAround(s.next, Faults?(es), |s.pool|);
      }
      StepRotates(RunOf(s, f), e, g, s.next);
      MInvKept(RunOf(s, f), e);
    }
  }

  lemma NextFrame(s: Pager, e: Step)
    requires Sizes(s)
    ensures |Next(s, e).pool| == |s.pool|
    ensures Next(s, e).next == if e.Pick? then Spin(s.next, |s.pool|) else s.next
    ensures Chosen(s) == Spin(s.next, |s.pool|)
  {
    hide PcAfter, PteAfter, TlbAfter, RamAfter, DiskAfter, BufAfter, DevicesAfter, HeldAfter, Spin;
  }

  // The fault after those takes the frame, so the page goes out.
  lemma ThenGoesOut(s: Pager, es: seq<Step>, g: int, a: int)
    requires MInv(s) && IsRunOf(s, es) && In(s, g, s.next) && OfLiving(RunOf(s, es), g) && Faults?(es) == |s.pool| - 1
    requires Enabled(RunOf(s, es), Pick(a))
    ensures Chosen(RunOf(s, es)) == s.next && !EntryAt(Next(RunOf(s, es), Pick(a)), g).valid
  {
    hide MInv, Next, Enabled, OfLiving;
    var t := RunOf(s, es);
    MInvSizes(s);
    StaysThrough(s, es, g);
    MInvSizes(t);
    SpinAround(s.next, |s.pool| - 1, |s.pool|);
    NextFrame(t, Pick(a));
    EvictedBy(t, a, g);
  }

  lemma EvictedBy(s: Pager, a: int, g: int)
    requires MInv(s) && OfLiving(s, g) && In(s, g, Chosen(s))
    ensures !EntryAt(Next(s, Pick(a)), g).valid
  {
    hide PInv, PcAfter, PoolAfter, TlbAfter, RamAfter, DiskAfter, BufAfter, DevicesAfter, HeldAfter, Chosen;
    MInvSizes(s);
    FrameIsOwn(s, g);
  }

  // A page that has just been brought in is in the frame chosen last.
  lemma JustLoaded(s: Pager, a: int)
    requires MInv(s) && Enabled(s, Commit(a))
    ensures var t := Next(s, Commit(a)); In(t, EntryNo(a, PcOf(s, a).page), t.next)
  {
    hide DevicesHeld, DevicesFirst, TablesOf, CacheTrue, ArmThere, PoolOf, TlbAfter, RamAfter, DiskAfter,
      BufAfter, DevicesAfter;
    assert HoldsSwap(PcOf(s, a));
    EntryNoExact(|s.procs|, a, PcOf(s, a).page);
  }
}
