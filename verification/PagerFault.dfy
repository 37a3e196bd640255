// A page fault over whole runs: whatever the others do meanwhile, the page that was
// missing is there when its process goes on.
module PagerFault {
  import opened Pagers
  import opened PagerInvs
  import opened PagerMemory

  // It is on its way, or the page is in and swap not yet released.
  ghost predicate Servicing(s: Pager, a: int, p: int) {
    FaultOf(PcOf(s, a)) == p || (PcOf(s, a) == Serviced && EntryAt(s, EntryNo(a, p)).valid)
  }

  // An access that does not find its page starts the way to just that page.
  lemma MissStarts(s: Pager, e: Step)
    requires PInv(s) && Enabled(s, e) && (e.Load? || e.Store?) && !Hits(s, e.a, e.vpn)
    ensures Servicing(Next(s, e), e.a, PageOf(e.vpn))
  {
    hide PInv, PoolAfter, PteAfter, TlbAfter, RamAfter, DiskAfter, BufAfter, DevicesAfter, HeldAfter, Hits, PageOf;
    EnabledActor(s, e);
    NextProcs(s, e);
  }

  // A step of its own takes it on, unless it is the V on swap.
  lemma OwnServicing(s: Pager, e: Step, p: int)
    requires PInv(s) && Enabled(s, e) && Servicing(s, e.a, p) && 0 <= p < KUSEGSIZE && !e.LeaveSwap?
    ensures Servicing(Next(s, e), e.a, p)
  {
    hide PInv, PoolAfter, TlbAfter, RamAfter, DiskAfter, BufAfter, DevicesAfter, HeldAfter, Hits, PageOf, EntryNo;
    EnabledActor(s, e);
    NextProcs(s, e);
    PInvParts(s);
    if e.Commit? {
      EntryNoExact(|s.procs|, e.a, p);
    }
  }

  // A step of another leaves it alone.
  lemma OthersServicing(s: Pager, e: Step, a: int, p: int)
    requires PInv(s) && Enabled(s, e) && Servicing(s, a, p) && e.a != a
    ensures Servicing(Next(s, e), a, p)
  {
    hide PInv, PoolAfter, TlbAfter, RamAfter, DiskAfter, BufAfter, DevicesAfter, HeldAfter, Hits, PageOf, EntryNo;
    EnabledActor(s, e);
    NextProcs(s, e);
    PInvParts(s);
    if PcOf(s, a) == Serviced {
      assert s.swap == a;
      assert HoldsSwap(PcOf(s, e.a)) ==> s.swap == e.a;
    }
  }

  lemma {:induction false} StaysServicing(s: Pager, es: seq<Step>, a: int, p: int)
    requires PInv(s) && IsRunOf(s, es) && Servicing(s, a, p) && 0 <= p < KUSEGSIZE
    requires forall k :: 0 <= k < |es| ==> es[k] != LeaveSwap(a)
    ensures PInv(RunOf(s, es)) && Servicing(RunOf(s, es), a, p)
  {
    hide PInv, Next, Enabled, Servicing;
    if es != [] {
      var f, e := es[..|es| - 1], es[|es| - 1];
      assert forall k :: 0 <= k < |f| ==> f[k] == es[k];
      StaysServicing(s, f, a, p);
      PInvKept(RunOf(s, f), e);
      if e.a == a {
        assert e != LeaveSwap(a);
        OwnServicing(RunOf(s, f), e, p);
      } else {
        OthersServicing(RunOf(s, f), e, a, p);
      }
    }
  }

  // In every interleaving: an access misses, any steps of anybody follow, and when the
  // process leaves its handler the same access goes through.
  lemma FaultResolved(s: Pager, e: Step, es: seq<Step>)
    requires PInv(s) && Enabled(s, e) && (e.Load? || e.Store?) && !Hits(s, e.a, e.vpn)
    requires IsRunOf(Next(s, e), es) && (forall k :: 0 <= k < |es| ==> es[k] != LeaveSwap(e.a))
    requires Enabled(RunOf(Next(s, e), es), LeaveSwap(e.a))
    ensures var t := Next(RunOf(Next(s, e), es), LeaveSwap(e.a));
      PcOf(t, e.a) == User && Hits(t, e.a, e.vpn)
  {
    hide PInv, Next, Servicing, IsRunOf, RunOf, PageOf, Hits;
    MissStarts(s, e);
    PInvKept(s, e);
    PageInRange(s, e);
    var u := RunOf(Next(s, e), es);
    StaysServicing(Next(s, e), es, e.a, PageOf(e.vpn));
    LeavesWithPage(u, e.a, e.vpn);
  }

  lemma PageInRange(s: Pager, e: Step)
    requires Enabled(s, e) && (e.Load? || e.Store?)
    ensures 0 <= PageOf(e.vpn) < KUSEGSIZE && Mapped(e.vpn)
  {
  }

  lemma LeavesWithPage(u: Pager, a: int, vpn: int)
    requires PInv(u) && Enabled(u, LeaveSwap(a)) && Servicing(u, a, PageOf(vpn)) && Mapped(vpn) && 0 <= PageOf(vpn)
    ensures var t := Next(u, LeaveSwap(a)); PcOf(t, a) == User && Hits(t, a, vpn)
  {
    hide PInv, PoolAfter, RamAfter, DiskAfter, BufAfter, DevicesAfter, HeldAfter, PageOf, EntryNo, Mapped;
    NextProcs(u, LeaveSwap(a));
    CachedIsEntry(u, a, vpn);
  }
}
