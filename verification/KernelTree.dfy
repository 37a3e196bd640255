// The process tree over whole runs: whose child a new process is, and for how long.
module KernelTree {
  import opened Lists
  import opened Links
  import opened AslLists
  import opened Kernels
  import opened KernelInvs
  import opened KernelSteps
  import opened KernelRuns
  import opened KernelTheorems

  // SYS1: the new process is the newest child of its creator, and nobody else's family
  // changes.
  lemma CreatedExact(s: Kernel)
    requires Inv(s) && s.current != NIL && s.free != []
    ensures var t, p := Created(s), s.free[0];
      && Live(t, p) && !Live(s, p) && (forall x :: Live(t, x) <==> Live(s, x) || x == p)
      && t.parent[p] == s.current && t.kids[s.current] == [p] + s.kids[s.current] && t.kids[p] == []
      && forall x :: Live(s, x) ==>
           && t.parent[x] == s.parent[x] && t.semAdd[x] == s.semAdd[x]
           && (x != s.current ==> t.kids[x] == s.kids[x])
  {
    hide Accounted, Counted, Addressed, Rooted, Everywhere, Tagged;
    assert s.free == [s.free[0]] + s.free[1..];
    assert s.free[0] in s.free;
  }

  // So a kill that comes later takes the new process exactly with its creator or with
  // whoever is above that.
  lemma CreatedDesc(s: Kernel, x: int)
    requires Inv(s) && s.current != NIL && s.free != [] && Live(s, x)
    ensures var t, p := Created(s), s.free[0];
      && |t.birth| == |t.parent| && (p in Desc(t, x) <==> s.current in Desc(s, x))
      && (forall y :: Live(s, y) ==> (y in Desc(t, x) <==> y in Desc(s, x)))
  {
    hide Inv, Desc, Created;
    var t, p := Created(s), s.free[0];
    CreatedInv(s);
    CreatedExact(s);
    InvSized(s);
    InvSized(t);
    RunningLive(s);
    DescParent(t, p, x);
    forall y | Live(s, y)
      ensures y in Desc(t, x) <==> y in Desc(s, x)
    {
      DescSame(s, y, x);
    }
  }

  lemma {:induction false} DescSame(s: Kernel, y: int, x: int)
    requires Inv(s) && s.current != NIL && s.free != [] && Live(s, y) && Live(s, x)
    ensures |Created(s).birth| == |Created(s).parent| && Sized(s)
    ensures y in Desc(Created(s), x) <==> y in Desc(s, x)
    decreases s.birth[y]
  {
    hide Inv, Desc, Created;
    CreatedInv(s);
    CreatedExact(s);
    InvSized(s);
    InvSized(Created(s));
    DescParent(s, y, x);
    DescParent(Created(s), y, x);
    if s.parent[y] != NIL {
      ParentOlder(s, y);
      DescSame(s, s.parent[y], x);
    }
  }

  lemma ParentOlder(s: Kernel, y: int)
    requires Structure(s) && Live(s, y) && s.parent[y] != NIL
    ensures Live(s, s.parent[y]) && 0 <= s.birth[s.parent[y]] < s.birth[y]
  {
    hide Addressed, Located;
  }

  // A process dies with whom its parent dies with, and alone.
  lemma DescParent(s: Kernel, y: int, x: int)
    requires Structure(s) && Live(s, y) && Live(s, x)
    ensures y in Desc(s, x) <==> y == x || (s.parent[y] != NIL && s.parent[y] in Desc(s, x))
  {
    hide Addressed, Located;
    if s.parent[y] != NIL {
      ParentOlder(s, y);
    }
  }

  // ------------------------------------------------- every entry, every run

  lemma {:induction false} DrainedTree(s: Kernel, tk: Ticks, k: nat)
    ensures var t := Drained(s, tk, k); t.parent == s.parent && t.kids == s.kids
    decreases |QueueAt(s.blocked, SemAddr(s.base, CLOCK))|
  {
    hide Minus, Unblock;
    if QueueAt(s.blocked, SemAddr(s.base, CLOCK)) != [] {
      DrainedStep(s, tk, k);
      DrainedTree(WokenByClock(s, tk, k), tk, k + 1);
    }
  }

  // Only SYS1 and kills touch the tree.
  lemma EntryTree(s: Kernel, e: Event)
    requires !e.call.Create? && !e.call.Terminate?
    ensures EntryOf(s, e).s.parent == s.parent && EntryOf(s, e).s.kids == s.kids
  {
    hide Minus, Unblock, Drained;
    if e.call.Interval? {
      DrainedTree(s, e.tk, 0);
    }
  }

  lemma ScheduledTree(s: Kernel, tk: Ticks)
    ensures var t := Scheduled(s, tk); t.parent == s.parent && t.kids == s.kids && t.free == s.free
  {
  }

  // No live process ever changes its parent.
  lemma StepParent(s: Kernel, e: Event, x: int)
    requires Inv(s) && Possible(s, e) && Live(s, x) && Live(StateAfter(s, e), x)
    ensures ParentOf(StateAfter(s, e), x) == ParentOf(s, x)
  {
    hide Inv, Possible, EntryOf, Scheduled, Created, Purged;
    var m := EntryOf(s, e).s;
    ScheduledTree(m, e.tk);
    if e.call.Create? {
      CreateEntry(s, e, x);
    } else if e.call.Terminate? {
      KillEntry(s, e, x);
    } else {
      EntryTree(s, e);
    }
  }

  lemma CreateEntry(s: Kernel, e: Event, x: int)
    requires Inv(s) && Possible(s, e) && e.call.Create? && Live(s, x)
    ensures ParentOf(EntryOf(s, e).s, x) == ParentOf(s, x)
  {
    hide Inv, Created;
    if s.free == [] {
      CreatedNone(s);
    } else {
      CreatedInv(s);
      InvSized(Created(s));
      CreatedExact(s);
    }
  }

  lemma KillEntry(s: Kernel, e: Event, x: int)
    requires Inv(s) && Possible(s, e) && e.call.Terminate? && Live(s, x) && Live(EntryOf(s, e).s, x)
    ensures ParentOf(EntryOf(s, e).s, x) == ParentOf(s, x)
  {
    hide Inv, Purged, Desc, NoDup, Elems, Live;
    TerminateEntry(s, e);
    KillExact(s, e.call.order, Elems(e.call.order));
    KillSpares(s, e.call.order, Elems(e.call.order));
    LiveBlock(s, x);
  }

  lemma LiveBlock(s: Kernel, x: int)
    requires Live(s, x)
    ensures Block?(s, x)
  {
  }

  // x lives all along.
  ghost predicate LivesOn(s: Kernel, es: seq<Event>, x: int) {
    forall k :: 0 <= k <= |es| ==> Live(Run(s, es[..k]), x)
  }

  lemma {:induction false} RunParent(s: Kernel, es: seq<Event>, x: int)
    requires Inv(s) && IsRun(s, es) && LivesOn(s, es, x)
    ensures ParentOf(Run(s, es), x) == ParentOf(s, x)
  {
    hide Inv, StateAfter, Goes, Live, ParentOf;
    if es != [] {
      var f, e := es[..|es| - 1], es[|es| - 1];
      forall k | 0 <= k <= |f|
        ensures Live(Run(s, f[..k]), x)
      {
        assert f[..k] == es[..k];
      }
      RunParent(s, f, x);
      RunInv(s, f);
      GoesEnabled(Run(s, f), e);
      assert f[..|f|] == f && es[..|es|] == es;
      assert Live(Run(s, f[..|f|]), x) && Live(Run(s, es[..|es|]), x);
      StepParent(Run(s, f), e, x);
    }
  }

  // In every run, as long as the process that SYS1 has made lives, so does its creator,
  // whose child it is; and whoever terminates takes it along exactly if it takes the
  // creator, or is the process itself.
  lemma DiesWithCreator(s: Kernel, e: Event, es: seq<Event>, y: int)
    requires Reachable(s) && Goes(s, e) && e.call.Create? && s.free != [] && IsRun(StateAfter(s, e), es)
    requires LivesOn(StateAfter(s, e), es, s.free[0]) && Live(Run(StateAfter(s, e), es), y)
    ensures var u, c, p := Run(StateAfter(s, e), es), s.current, s.free[0];
      && Live(u, c) && ParentOf(u, p) == c && |u.birth| == |u.parent|
      && (p in Desc(u, y) <==> y == p || c in Desc(u, y))
  {
    hide Inv, Reachable, Run, IsRun, Live, Desc, Created;
    ReachableInv(s);
    GoesEnabled(s, e);
    StepInv(s, e);
    var t, p := StateAfter(s, e), s.free[0];
    CreatedExact(s);
    CreatedSized(s);
    RunParent(t, es, p);
    RunInv(t, es);
    var u := Run(t, es);
    InvSized(u);
    assert es[..|es|] == es;
    assert Live(Run(t, es[..|es|]), p);
    LiveBlock(u, p);
    DescParent(u, p, y);
    ParentOlder(u, p);
  }

  lemma CreatedSized(s: Kernel)
    requires Inv(s) && s.current != NIL && s.free != []
    ensures ParentOf(Created(s), s.free[0]) == s.current
  {
    hide Inv, Created;
    CreatedExact(s);
    CreatedInv(s);
    InvSized(Created(s));
  }
}
