// A death over whole runs: whoever is to die dies, and leaves no frame behind.
module PagerDeath {
  import opened Pagers
  import opened PagerInvs
  import opened PagerTables

  // n steps of its own from death.
  predicate Doomed(pc: Pc, n: int) {
    match pc {
      case DieWait => n == 3
      case Reaping => n == 2
      case Reaped => n == 1
      case Dead => n == 0
      case _ => false
    }
  }

  ghost function OwnSteps(es: seq<Step>, a: int): nat {
    if es == [] then 0 else OwnSteps(es[..|es| - 1], a) + if es[|es| - 1].a == a then 1 else 0
  }

  lemma DoomedStep(s: Pager, e: Step, a: int, n: int)
    requires Enabled(s, e) && Doomed(PcOf(s, a), n)
    ensures Doomed(PcOf(Next(s, e), a), if e.a == a then n - 1 else n)
  {
    hide PoolAfter, PteAfter, TlbAfter, RamAfter, DiskAfter, BufAfter, DevicesAfter, HeldAfter, Hits;
    EnabledActor(s, e);
    NextProcs(s, e);
  }

  // In every interleaving: a process that quits takes exactly three more steps, P on swap,
  // the loop over the pool and V on swap. From the loop on no frame is its own.
  lemma {:induction false} QuitDies(s: Pager, es: seq<Step>, a: int)
    requires PInv(s) && Enabled(s, Quit(a)) && IsRunOf(Next(s, Quit(a)), es)
    ensures var t := RunOf(Next(s, Quit(a)), es);
      && PInv(t) && Doomed(PcOf(t, a), 3 - OwnSteps(es, a))
      && (OwnSteps(es, a) >= 2 ==> forall f :: !Holds(t, a, f))
  {
    hide PInv, Next, Enabled, Holds, Doomed;
    EnabledActor(s, Quit(a));
    PInvKept(s, Quit(a));
    if es == [] {
      QuitDooms(s, a);
    } else {
      var u, f, e := Next(s, Quit(a)), es[..|es| - 1], es[|es| - 1];
      QuitDies(s, f, a);
      PInvKept(RunOf(u, f), e);
      DoomedStep(RunOf(u, f), e, a, 3 - OwnSteps(f, a));
      DeadHoldNone(RunOf(u, es), a, 3 - OwnSteps(es, a));
    }
  }

  lemma QuitDooms(s: Pager, a: int)
    requires Enabled(s, Quit(a))
    ensures Doomed(PcOf(Next(s, Quit(a)), a), 3)
  {
    hide PoolAfter, PteAfter, TlbAfter, RamAfter, DiskAfter, BufAfter, DevicesAfter, HeldAfter;
    NextProcs(s, Quit(a));
  }

  lemma DeadHoldNone(s: Pager, a: int, n: int)
    requires PInv(s) && Doomed(PcOf(s, a), n) && a >= 1
    ensures n <= 1 ==> forall f :: !Holds(s, a, f)
  {
    hide Guarded, DevicesHeld, DevicesFirst, Faults, Victim, TablesOf, CacheTrue, ArmThere;
    assert forall f :: Holds(s, a, f) ==> s.pool[f] == SlotFor(s.pool[f].pte);
  }
}
