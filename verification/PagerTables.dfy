// The swap pool and the page tables, and what a death leaves in them.
module PagerTables {
  import opened Pagers
  import opened PagerInvs
  import opened PagerMemory

  // A frame records a page exactly when the page's entry is valid and names the frame.
  lemma Inverse(s: Pager, f: int, g: int)
    requires PInv(s) && OfLiving(s, g) && 0 <= f < |s.pool| && f != InTransit(s)
    ensures s.pool[f] == SlotFor(g) <==> s.pte[g].valid && s.pte[g].frame == f
  {
    hide Guarded, DevicesHeld, DevicesFirst, Faults, Victim, CacheTrue, ArmThere;
    EntryNoOf(|s.procs|, g);
  }

  lemma NoSharedFrame(s: Pager, g: int, h: int)
    requires PInv(s) && OfLiving(s, g) && OfLiving(s, h) && g != h && s.pte[g].valid && s.pte[h].valid
    ensures s.pte[g].frame != s.pte[h].frame
  {
    hide PInv;
    FrameIsOwn(s, g);
    FrameIsOwn(s, h);
  }

  // The translations in use are those of the tables, so nobody reads a frame that is
  // being refilled.
  lemma NobodySeesTransit(s: Pager, a: int, vpn: int)
    requires PInv(s) && 1 <= a <= |s.procs| && Mapped(vpn) && PcOf(s, a) == User && Hits(s, a, vpn)
    ensures Cached(s, EntryNo(a, PageOf(vpn))).frame != InTransit(s)
    ensures SlotAt(s, Cached(s, EntryNo(a, PageOf(vpn))).frame) == SlotFor(EntryNo(a, PageOf(vpn)))
  {
    hide PInv;
    PInvParts(s);
    CachedIsEntry(s, a, vpn);
    FrameIsOwn(s, EntryNo(a, PageOf(vpn)));
  }

  // An access goes through exactly if some frame records its page and is not being refilled.
  lemma HitsExact(s: Pager, a: int, vpn: int)
    requires PInv(s) && 1 <= a <= |s.procs| && Mapped(vpn) && PcOf(s, a) == User
    ensures Hits(s, a, vpn) <==>
      exists f :: 0 <= f < |s.pool| && f != InTransit(s) && s.pool[f] == SlotFor(EntryNo(a, PageOf(vpn)))
  {
    hide PInv, EntryNo, PageOf, InTransit;
    PInvParts(s);
    CachedIsEntry(s, a, vpn);
    var g := EntryNo(a, PageOf(vpn));
    if s.pte[g].valid {
      FrameIsOwn(s, g);
      assert s.pool[s.pte[g].frame] == SlotFor(g);
    }
    if f :| 0 <= f < |s.pool| && f != InTransit(s) && s.pool[f] == SlotFor(g) {
      Inverse(s, f, g);
    }
  }

  // The number under which page p is mapped.
  function VpnOf(p: int): int {
    if p == KUSEGSIZE - 1 then LASTVPN else p
  }

  // The page numbers under which a table has an entry name every page once.
  lemma PagesNamedOnce(v: int, u: int, p: int)
    requires Mapped(v) && Mapped(u)
    ensures 0 <= PageOf(v) < KUSEGSIZE && (PageOf(v) == PageOf(u) <==> v == u)
    ensures 0 <= p < KUSEGSIZE ==> Mapped(VpnOf(p)) && PageOf(VpnOf(p)) == p
  {
  }

  // The frames that process a holds.
  ghost predicate Holds(s: Pager, a: int, f: int) {
    0 <= f < |s.pool| && s.pool[f].asid == a
  }

  // After meIRL's loop no frame is the dead process's, and nobody else loses anything.
  lemma ReapedExact(s: Pager, a: int)
    requires PInv(s) && Enabled(s, Reap(a))
    ensures var t := Next(s, Reap(a));
      && (forall f :: !Holds(t, a, f))
      && (forall f, b :: b != a && b != NOASID ==>
            (Holds(t, b, f) <==> Holds(s, b, f)) && (Holds(s, b, f) ==> t.pool[f] == s.pool[f]))
      && t.pte == s.pte && t.ram == s.ram && t.disk == s.disk
  {
    hide PInv, TlbAfter;
    PInvParts(s);
    var t := Next(s, Reap(a));
    ReaperIsReal(s, a);
    forall f, b | b != a && b != NOASID
      ensures (Holds(t, b, f) <==> Holds(s, b, f)) && (Holds(s, b, f) ==> t.pool[f] == s.pool[f])
    {
      if 0 <= f < |s.pool| {
        assert t.pool[f] == if s.pool[f].asid == a then s.pool[f].(asid := NOASID) else s.pool[f];
      }
    }
  }

  lemma ReaperIsReal(s: Pager, a: int)
    requires Enabled(s, Reap(a))
    ensures a >= 1
  {
  }

  // The valid bits are meant to go too, but | nVALID leaves them: a dead process has a
  // valid entry exactly when it had a page in the pool.
  lemma ValidBitsStay(s: Pager, a: int)
    requires PInv(s) && Enabled(s, Reap(a))
    ensures (exists g :: 0 <= g < |s.pte| && Owner(g) == a && Next(s, Reap(a)).pte[g].valid) <==> Resident(s.pool, a)
  {
    hide PInv, TlbAfter;
    PInvParts(s);
    ReaperIsReal(s, a);
    if g :| 0 <= g < |s.pte| && Owner(g) == a && s.pte[g].valid {
      ReaperLives(s, a);
      FrameIsOwn(s, g);
      assert s.pool[s.pte[g].frame].asid == a;
    }
    if f :| 0 <= f < |s.pool| && s.pool[f].asid == a {
      HeldIsValid(s, a, f);
      assert Owner(s.pool[f].pte) == a && s.pte[s.pool[f].pte].valid;
    }
  }

  lemma ReaperLives(s: Pager, a: int)
    requires Enabled(s, Reap(a))
    ensures !Gone(PcOf(s, a))
  {
  }

  lemma HeldIsValid(s: Pager, a: int, f: int)
    requires PInv(s) && Enabled(s, Reap(a)) && Holds(s, a, f)
    ensures 0 <= s.pool[f].pte < |s.pte| && Owner(s.pool[f].pte) == a && s.pte[s.pool[f].pte].valid
  {
    hide DevicesHeld, DevicesFirst, Faults, TablesOf, CacheTrue, ArmThere;
    assert HoldsSwap(PcOf(s, a));
  }
}
