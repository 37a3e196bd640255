// Bounded waiting: a ready process is dispatched, or dies, before its turn is overdue.
module KernelFairness {
  import opened Lists
  import opened AslLists
  import opened Kernels
  import opened KernelInvs
  import opened KernelRuns

  // How many are ahead of x in q.
  ghost function Ahead(q: seq<int>, x: int): nat {
    if q == [] || q[0] == x then 0 else 1 + Ahead(q[1..], x)
  }

  lemma {:induction false} AheadConcat(q: seq<int>, r: seq<int>, x: int)
    requires x in q
    ensures Ahead(q + r, x) == Ahead(q, x)
  {
    if q[0] != x {
      assert (q + r)[1..] == q[1..] + r;
      AheadConcat(q[1..], r, x);
    }
  }

  lemma {:induction false} AheadMinus(q: seq<int>, v: set<int>, x: int)
    requires x in q && x !in v
    ensures x in Minus(q, v) && Ahead(Minus(q, v), x) <= Ahead(q, x)
  {
    if q[0] == x {
      assert Minus(q, v)[0] == x;
    } else {
      AheadMinus(q[1..], v, x);
      assert q[0] !in v ==> Minus(q, v)[1..] == Minus(q[1..], v);
    }
  }

  // Nobody in q loses a place in r, except the dead.
  ghost predicate NoPlaceLost(q: seq<int>, r: seq<int>, dead: set<int>) {
    forall x :: x in q && x !in dead ==> x in r && Ahead(r, x) <= Ahead(q, x)
  }

  lemma PrefixKeeps(q: seq<int>, r: seq<int>)
    requires q <= r
    ensures NoPlaceLost(q, r, {})
  {
    forall x | x in q
      ensures x in r && Ahead(r, x) <= Ahead(q, x)
    {
      assert r == q + r[|q|..];
      AheadConcat(q, r[|q|..], x);
    }
  }

  // ------------------------------------------------- the queue at an entry

  lemma WokenExtends(s: Kernel, a: int)
    ensures s.ready <= Woken(s, a).ready && s.ready <= Signalled(s, a).ready
  {
    hide Minus, Unblock;
  }

  lemma IoDoneExtends(s: Kernel, i: int)
    ensures s.ready <= IoDone(s, i).ready
  {
    hide Minus, Woken;
    WokenExtends(Added(s, SemAddr(s.base, i), 1), SemAddr(s.base, i));
  }

  lemma FinishExtends(s: Kernel, tk: Ticks)
    ensures s.ready <= FinishStep(s, tk).ready
  {
  }

  lemma {:induction false} DrainedExtends(s: Kernel, tk: Ticks, k: nat)
    ensures s.ready <= Drained(s, tk, k).ready
    decreases |QueueAt(s.blocked, SemAddr(s.base, CLOCK))|
  {
    hide Minus, Unblock;
    var a := SemAddr(s.base, CLOCK);
    if QueueAt(s.blocked, a) != [] {
      WokenExtends(s, a);
      DrainedStep(s, tk, k);
      DrainedExtends(WokenByClock(s, tk, k), tk, k + 1);
    }
  }

  lemma WaitKeeps(s: Kernel, a: int)
    ensures Blocked(Added(s, a, -1), a).ready == s.ready == Added(s, a, -1).ready
    ensures Soft(Blocked(Added(s, a, -1), a), 1).ready == s.ready
  {
  }

  // The processes that e kills.
  ghost function Victims(e: Event): set<int> {
    if e.call.Terminate? then Elems(e.call.order) else {}
  }

  lemma PurgedReadyQueue(s: Kernel, o: seq<int>)
    ensures Purged(s, o).ready == Minus(s.ready, Elems(o)) && Purged(s, o).free == o + s.free
    ensures |Purged(s, o).parent| == |s.parent|
  {
    hide Minus, PurgedQueues, PurgedKids, Credited;
  }

  // Until scheduler() is called nobody but the victims loses a place.
  lemma EntryKeepsPlaces(s: Kernel, e: Event)
    ensures NoPlaceLost(s.ready, EntryOf(s, e).s.ready, Victims(e))
  {
    hide Created, Purged, Signalled, Blocked, Added, Timed, IoDone, FinishStep, Drained, NoPlaceLost, Minus;
    match e.call {
      case Create => CreatedExtends(s);
      case Terminate(o) => PurgedReadyQueue(s, o); MinusKeeps(s.ready, Elems(o));
      case Signal(a) => WokenExtends(s, a);
      case WaitOn(a) => WaitKeeps(s, a);
      case Specify =>
      case CpuTime => TimedKeeps(s, e.tk);
      case WaitClock => WaitKeeps(s, SemAddr(s.base, CLOCK));
      case WaitIo(i) => WaitKeeps(s, SemAddr(s.base, i));
      case Device(i) => IoDoneExtends(s, i); FinishExtends(IoDone(s, i), e.tk);
      case Timer => FinishExtends(s, e.tk);
      case Interval => DrainedExtends(s, e.tk, 0); FinishExtends(TickDone(s, e.tk), e.tk);
    }
    if !e.call.Terminate? {
      PrefixKeeps(s.ready, EntryOf(s, e).s.ready);
    }
  }

  lemma CreatedExtends(s: Kernel)
    ensures s.ready <= Created(s).ready
  {
  }

  lemma TimedKeeps(s: Kernel, tk: Ticks)
    ensures Timed(s, tk).ready == s.ready
  {
  }

  lemma MinusKeeps(q: seq<int>, v: set<int>)
    ensures NoPlaceLost(q, Minus(q, v), v)
  {
    forall x | x in q && x !in v
      ensures x in Minus(q, v) && Ahead(Minus(q, v), x) <= Ahead(q, x)
    {
      AheadMinus(q, v, x);
    }
  }

  // ------------------------------------------------- one step

  ghost predicate Dispatches?(s: Kernel, e: Event, x: int) {
    VerdictAt(s, e) == Dispatch && StateAfter(s, e).current == x
  }

  // x gets its turn or is killed by e.
  ghost predicate Served(s: Kernel, e: Event, x: int) {
    Dispatches?(s, e, x) || !Live(StateAfter(s, e), x)
  }

  // A process that is passed over moves up one place with every dispatch, and never
  // falls back.
  lemma StepWaits(s: Kernel, e: Event, x: int)
    requires x in s.ready && !Served(s, e, x)
    ensures var t := StateAfter(s, e);
      x in t.ready && Ahead(t.ready, x) + (if VerdictAt(s, e) == Dispatch then 1 else 0) <= Ahead(s.ready, x)
  {
    hide EntryOf, Billed, Minus;
    EntryKeepsPlaces(s, e);
    VictimsDie(s, e, x);
    var m := EntryOf(s, e).s;
    assert x in m.ready;
    if EntryOf(s, e).Reschedule? {
      BilledReady(m, e.tk);
    }
  }

  lemma BilledReady(m: Kernel, tk: Ticks)
    ensures Billed(m, tk).ready == m.ready
  {
  }

  lemma VictimsDie(s: Kernel, e: Event, x: int)
    requires !Served(s, e, x)
    ensures x !in Victims(e)
  {
    hide Minus, Elems, Purged;
    if e.call.Terminate? {
      PurgedReadyQueue(s, e.call.order);
      assert x in Elems(e.call.order) ==> x in StateAfter(s, e).free by {
        assert StateAfter(s, e).free == e.call.order + s.free;
        ElemsIn(e.call.order, x);
      }
    }
  }

  lemma ElemsIn(o: seq<int>, x: int)
    ensures x in Elems(o) <==> x in o
  {
  }

  // ------------------------------------------------- whole runs

  ghost function DispatchCount(s: Kernel, es: seq<Event>): nat {
    if es == [] then 0
    else
      var f := es[..|es| - 1];
      DispatchCount(s, f) + if VerdictAt(Run(s, f), es[|es| - 1]) == Dispatch then 1 else 0
  }

  // x is served by the k-th entry of the run.
  ghost predicate ServedAt(s: Kernel, es: seq<Event>, k: int, x: int) {
    0 <= k < |es| && Served(Run(s, es[..k]), es[k], x)
  }

  lemma {:induction false} StillWaiting(s: Kernel, es: seq<Event>, x: int)
    requires x in s.ready && forall k :: 0 <= k < |es| ==> !ServedAt(s, es, k, x)
    ensures x in Run(s, es).ready && Ahead(Run(s, es).ready, x) + DispatchCount(s, es) <= Ahead(s.ready, x)
  {
    hide Served, VerdictAt, StateAfter, Ahead;
    if es != [] {
      var f := es[..|es| - 1];
      forall k | 0 <= k < |f|
        ensures !ServedAt(s, f, k, x)
      {
        assert f[..k] == es[..k] && !ServedAt(s, es, k, x);
      }
      StillWaiting(s, f, x);
      assert !ServedAt(s, es, |es| - 1, x);
      StepWaits(Run(s, f), es[|es| - 1], x);
    }
  }

  // With k processes ahead of it, a ready process is dispatched or killed no later than
  // by the (k + 1)-th dispatch.
  lemma BoundedWaiting(s: Kernel, es: seq<Event>, x: int)
    requires x in s.ready && DispatchCount(s, es) > Ahead(s.ready, x)
    ensures exists k :: ServedAt(s, es, k, x) && DispatchCount(s, es[..k]) <= Ahead(s.ready, x)
  {
    hide Served, VerdictAt, StateAfter, Ahead, DispatchCount;
    if forall k :: 0 <= k < |es| ==> !ServedAt(s, es, k, x) {
      StillWaiting(s, es, x);
    } else {
      var k := FirstServed(s, es, x, |es|);
      forall j | 0 <= j < |es[..k]|
        ensures !ServedAt(s, es[..k], j, x)
      {
        assert es[..k][..j] == es[..j] && !ServedAt(s, es, j, x);
      }
      StillWaiting(s, es[..k], x);
    }
  }

  lemma {:induction false} FirstServed(s: Kernel, es: seq<Event>, x: int, n: nat) returns (k: nat)
    requires n <= |es| && exists j :: 0 <= j < n && ServedAt(s, es, j, x)
    ensures k < n && ServedAt(s, es, k, x) && forall j :: 0 <= j < k ==> !ServedAt(s, es, j, x)
  {
    if exists j :: 0 <= j < n - 1 && ServedAt(s, es, j, x) {
      k := FirstServed(s, es, x, n - 1);
    } else {
      k := n - 1;
    }
  }
}
