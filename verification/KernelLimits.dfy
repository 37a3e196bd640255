// Where the code as written departs from its comments: for each such place, an input on
// which it does, and exactly when it does not.
module KernelLimits {
  import opened Lists
  import opened Links
  import opened AslLists
  import opened Kernels
  import opened KernelInvs
  import opened KernelSteps
  import opened KernelRuns

  // ------------------------------------------------- headBlocked

  // What the comment on headBlocked promises.
  function PromisedHead(b: Queues, a: int): int {
    if QueueAt(b, a) == [] then NIL else QueueAt(b, a)[0]
  }

  lemma HeadOfAnother()
    ensures var b: Queues := map[9 := [4]]; HeadFound(b, 5, 4) && PromisedHead(b, 5) == NIL
  {
    var b: Queues := map[9 := [4]];
    assert IsLeastFrom(b, 5, 9);
  }

  // It keeps the promise exactly when a is active or nothing above a is.
  lemma HeadExact(b: Queues, a: int, h: int)
    requires HeadFound(b, a, h) && forall c :: c in b ==> b[c] != [] && b[c][0] != NIL
    ensures h == PromisedHead(b, a) <==> a in b || forall c :: c in b ==> c < a
  {
    if a in b && h != NIL {
      var m :| IsLeastFrom(b, a, m) && h == b[m][0];
      assert m == a;
    }
  }

  // A process that blocks above the clock's address makes the next drain loop endless.
  lemma DrainHangs(s: Kernel, a: int)
    requires a in s.mem && s.mem[a] <= 0 && a > SemAddr(s.base, CLOCK)
    ensures !DrainEnds(Blocked(Added(s, a, -1), a))
  {
    assert a in Blocked(Added(s, a, -1), a).blocked;
  }

  // ------------------------------------------------- getDeviceNumber

  // The mask of device k (h/const.h).
  function Mask(k: nat): bv32 {
    if k == 0 then 1 else if k == 1 then 2 else if k == 2 then 4 else if k == 3 then 8
    else if k == 4 then 16 else if k == 5 then 32 else if k == 6 then 64 else 128
  }

  predicate Pending(bitMap: bv32, k: nat) {
    bitMap & Mask(k) == Mask(k)
  }

  // The lowest pending device from k on, or DEVPERINT.
  function LowestDevice(bitMap: bv32, k: nat): (r: int)
    requires k <= DEVPERINT
    ensures k <= r <= DEVPERINT
    ensures forall j :: k <= j < r ==> !Pending(bitMap, j)
    ensures r < DEVPERINT ==> Pending(bitMap, r)
    decreases DEVPERINT - k
  {
    if k == DEVPERINT || Pending(bitMap, k) then k else LowestDevice(bitMap, k + 1)
  }

  lemma SecondDeviceMissed()
    ensures LowestDevice(2, 0) == 1 && CodedDevice(2) == DEVPERINT
  {
  }

  // The device found is the right one exactly when device 0 is pending or none is.
  lemma DeviceExact(bitMap: bv32)
    ensures CodedDevice(bitMap) == LowestDevice(bitMap, 0) <==>
            Pending(bitMap, 0) || forall k: nat :: k < DEVPERINT ==> !Pending(bitMap, k)
  {
    assert Pending(bitMap, 0) <==> bitMap & 1 == 1;
  }

  // The V of an interrupt lands on the clock's semaphore exactly for a receiving
  // terminal other than the first; otherwise on a device's.
  lemma IndexExact(line: int, bitMap: bv32, receiving: bool)
    requires DEVNOSEM <= line <= TERMINT
    ensures 0 <= CodedIndex(line, bitMap, receiving) <= CLOCK
    ensures CodedIndex(line, bitMap, receiving) == CLOCK <==> line == TERMINT && receiving && !(bitMap & 1 == 1)
  {
  }

  // ------------------------------------------------- a clock semaphore above zero

  // SYS7 puts its caller somewhere exactly when the clock's value is not positive.
  lemma CallerExact(s: Kernel, tk: Ticks)
    requires Placed(s) && s.current != NIL && SemAddr(s.base, CLOCK) in s.mem
    ensures var t, p := WaitedClock(s, tk), s.current;
      && Live(t, p)
      && (p in t.ready || p == t.current || AddrOf(t, p) != NULL_ADDR <==> s.mem[SemAddr(s.base, CLOCK)] <= 0)
  {
    hide NoDup, Within, Family, Tagged;
    var a := SemAddr(s.base, CLOCK);
    assert a != NULL_ADDR;
    if s.ready != [] {
      assert s.ready[0] in s.ready && forall x :: x in s.ready[1..] ==> x in s.ready;
    }
  }

  // An interrupt charged to the clock breaks the invariant exactly when the clock owes
  // nobody anything.
  lemma ClockChargeExact(s: Kernel)
    requires Inv(s)
    ensures Inv(IoDone(s, CLOCK)) <==> Value(s, SemAddr(s.base, CLOCK)) < 0
  {
    hide Structure, Woken, Everywhere, Rooted, Running, Counted;
    if Value(s, SemAddr(s.base, CLOCK)) < 0 {
      IoDoneInv(s, CLOCK);
    } else {
      SizedLike(s);
      SemInMem(s, CLOCK);
      AddedPlaced(s, SemAddr(s.base, CLOCK), 1);
      assert IoDone(s, CLOCK).mem[SemAddr(s.base, CLOCK)] > 0;
    }
  }

  // After such an interrupt SYS7 loses its caller: it lives, but is in no queue and does
  // not run. So SYS7 never loses its caller in the runs whose interrupts are all safe, and
  // one interrupt with the clock at zero is enough to lose one.
  lemma CallerLost(s: Kernel, tk: Ticks)
    requires Inv(s) && s.current != NIL
    ensures var u := IoDone(s, CLOCK);
      var t, p := WaitedClock(u, tk), s.current;
      && u.current == p && Live(t, p)
      && (p !in t.ready && p != t.current && AddrOf(t, p) == NULL_ADDR <==> Value(s, SemAddr(s.base, CLOCK)) >= 0)
  {
    hide Structure, Everywhere, Rooted, Counted, Accounted, WaitedClock, Live, Running;
    var a := SemAddr(s.base, CLOCK);
    SizedLike(s);
    SemInMem(s, CLOCK);
    AddedPlaced(s, a, 1);
    IoDoneCurrent(s, CLOCK);
    if QueueAt(s.blocked, a) != [] && Value(s, a) < 0 {
      WokenPlaced(Added(s, a, 1), a);
      SoftPlaced(Woken(Added(s, a, 1), a), -1);
    }
    CallerExact(IoDone(s, CLOCK), tk);
  }

  lemma IoDoneCurrent(s: Kernel, i: int)
    ensures var u, a := IoDone(s, i), SemAddr(s.base, i);
      u.current == s.current && u.base == s.base && u.mem == s.mem[a := Value(s, a) + 1]
  {
    hide Minus;
  }

  // It happens right after main(): the first process is interrupted for a terminal other
  // than the first, runs on, waits for the clock and is lost, and the machine panics.
  lemma FirstProcessLost(t: Kernel, tk: Ticks, bitMap: bv32, e: Event, f: Event)
    requires Initial(t) && bitMap & 1 == 0
    requires e.call == Device(CodedIndex(TERMINT, bitMap, true)) && Monotone(tk.start, e.tk)
    requires f.call == WaitClock && Monotone(e.tk.start, f.tk)
    ensures var s := Scheduled(t, tk);
      var u := StateAfter(s, e);
      var w := StateAfter(u, f);
      && Possible(s, e) && VerdictAt(s, e) == Dispatch && u.current == t.first && Possible(u, f)
      && VerdictAt(u, f) == Panic && Live(w, t.first)
      && w.ready == [] && w.current == NIL && AddrOf(w, t.first) == NULL_ADDR
  {
    hide Monotone;
    var s := Scheduled(t, tk);
    SemArrayAt(t.base, TOTALSEM, SemAddr(t.base, CLOCK));
    assert t.mem[SemAddr(t.base, CLOCK)] == 0;
    assert EntryOf(s, e).s.ready == [t.first];
  }
}
