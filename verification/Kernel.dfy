// The nucleus as a value: what every kernel step of phase 2 does to the queues,
// the counters, the semaphores and the process tree.
module Kernels {
  import opened Lists
  import opened Links
  import opened AslLists

  // h/const.h: one semaphore a device and one for the clock, an int each.
  const TOTALSEM := 49
  const WORDLEN := 4
  const CLOCK := TOTALSEM - 1
  const DEVNOSEM := 3
  const DEVPERINT := 8
  const TERMINT := 7

  datatype Kernel = Kernel(
    base: int,              // the address of sem[0]
    free: seq<int>,         // the free stack
    ready: seq<int>,        // the ready queue
    blocked: Queues,        // the queue of every active semaphore
    current: int,           // the running process, or NIL
    parent: seq<int>,       // fields of the process control blocks
    semAdd: seq<int>,
    time: seq<int>,
    kids: seq<seq<int>>,    // the children of every block, newest first
    mem: map<int, int>,     // the value of every semaphore
    processCount: int,
    softBlockCount: int,
    todStarted: int,
    first: int,             // the process that main creates
    birth: seq<int>,        // when a block was last allocated, and
    births: int,            //   how many allocations there have been
    now: int)               // the last reading of the clock

  // How a kernel entry ends: it goes back to the running process, scheduler() dispatches,
  // halts, panics, waits or falls through its tests, or a loop never ends.
  datatype Verdict = Resume | Dispatch | Halt | Panic | Wait | Fall | Hang

  // The clock readings of one kernel entry, in the order they can be taken.
  datatype Ticks = Ticks(stop: int, ends: seq<int>, end: int, bill: int, start: int)

  ghost predicate Monotone(now: int, tk: Ticks) {
    && now <= tk.stop <= tk.end <= tk.bill <= tk.start
    && (forall i {:trigger tk.ends[i]} :: 0 <= i < |tk.ends| ==> tk.stop <= tk.ends[i] <= tk.end)
  }

  // ------------------------------------------------------- addresses

  function SemAddr(base: int, i: int): int {
    base + WORDLEN * i
  }

  // a lies in the array sem.
  predicate InSem(base: int, a: int) {
    base <= a < SemAddr(base, TOTALSEM)
  }

  // The test of executeOrderSixtySix, which takes in the address after the array.
  predicate CodedInSem(base: int, a: int) {
    base <= a <= SemAddr(base, TOTALSEM)
  }

  // The first k semaphores of sem, all zero.
  function SemArray(base: int, k: nat): map<int, int> {
    map i | 0 <= i < k :: SemAddr(base, i) := 0
  }

  // ------------------------------------------------------- the tree

  ghost predicate Block?(s: Kernel, x: int) {
    0 <= x < |s.parent|
  }

  ghost predicate Live(s: Kernel, x: int) {
    Block?(s, x) && x !in s.free
  }

  // p is x or an ancestor of x; every parent is older than its children.
  ghost predicate Anc(parent: seq<int>, birth: seq<int>, p: int, x: int)
    requires |birth| == |parent|
    decreases if 0 <= x < |birth| then birth[x] else 0
  {
    && 0 <= x < |parent|
    && (x == p || (
      && 0 <= parent[x] < |parent| && 0 <= birth[parent[x]] < birth[x]
      && Anc(parent, birth, p, parent[x])))
  }

  // p and everything below it.
  ghost function Desc(s: Kernel, p: int): set<int>
    requires |s.birth| == |s.parent|
  {
    set x | 0 <= x < |s.parent| && Live(s, x) && Anc(s.parent, s.birth, p, x)
  }

  // ------------------------------------------------------- the steps

  ghost function KidsOf(s: Kernel, p: int): seq<int> {
    if 0 <= p < |s.kids| then s.kids[p] else []
  }

  ghost function ParentOf(s: Kernel, p: int): int {
    if 0 <= p < |s.parent| then s.parent[p] else NIL
  }

  ghost function AddrOf(s: Kernel, p: int): int {
    if 0 <= p < |s.semAdd| then s.semAdd[p] else NULL_ADDR
  }

  // SYS1: the top of the free stack becomes the newest child of the running process.
  ghost function Created(s: Kernel): Kernel {
    if s.free == [] then s
    else
      var p := s.free[0];
      s.(free := s.free[1..],
         ready := s.ready + [p],
         parent := Put(s.parent, p, s.current),
         semAdd := Put(s.semAdd, p, NULL_ADDR),
         kids := Put(Put(s.kids, p, []), s.current, [p] + KidsOf(s, s.current)),
         processCount := s.processCount + 1,
         birth := Put(s.birth, p, s.births),
         births := s.births + 1)
  }

  // The steps of SYS1: allocation, adoption by the running process, a place in the queue.
  ghost function Allocated(s: Kernel): Kernel {
    if s.free == [] then s
    else
      var p := s.free[0];
      s.(free := s.free[1..], semAdd := Put(s.semAdd, p, NULL_ADDR), kids := Put(s.kids, p, []),
         birth := Put(s.birth, p, s.births), births := s.births + 1)
  }

  ghost function Adopted(s: Kernel, p: int): Kernel {
    s.(parent := Put(s.parent, p, s.current), kids := Put(s.kids, s.current, [p] + KidsOf(s, s.current)))
  }

  ghost function Pushed(s: Kernel, p: int): Kernel {
    s.(ready := s.ready + [p])
  }

  lemma CreatedNone(s: Kernel)
    requires s.free == []
    ensures Created(s) == s && Allocated(s) == s
  {
  }

  lemma CreatedBySteps(s: Kernel)
    requires s.free != [] && s.current != s.free[0]
    ensures Created(s) == Pushed(Adopted(Allocated(s).(processCount := s.processCount + 1), s.free[0]), s.free[0])
  {
  }

  // The running process joins the queue of semaphore a.
  ghost function Blocked(s: Kernel, a: int): Kernel {
    s.(blocked := Block(s.blocked, a, s.current), semAdd := Put(s.semAdd, s.current, a))
  }

  // The front of the queue of semaphore a, if there is one, becomes ready.
  ghost function Woken(s: Kernel, a: int): Kernel {
    if QueueAt(s.blocked, a) == [] then s
    else
      var p := s.blocked[a][0];
      s.(blocked := Unblock(s.blocked, a, p), semAdd := Put(s.semAdd, p, NULL_ADDR), ready := s.ready + [p])
  }

  // The value of semaphore a goes up by k.
  ghost function Added(s: Kernel, a: int, k: int): Kernel {
    s.(mem := s.mem[a := Value(s, a) + k])
  }

  ghost function Value(s: Kernel, a: int): int {
    if a in s.mem then s.mem[a] else 0
  }

  ghost function Soft(s: Kernel, k: int): Kernel {
    s.(softBlockCount := s.softBlockCount + k)
  }

  // The victims in v that wait for semaphore a.
  ghost function WaitingIn(semAdd: seq<int>, v: set<int>, a: int): set<int> {
    set x | x in v && 0 <= x < |semAdd| && semAdd[x] == a
  }

  // The victims in v whose address passes the coded device test.
  ghost function CodedSoftIn(base: int, semAdd: seq<int>, v: set<int>): set<int> {
    set x | x in v && 0 <= x < |semAdd| && CodedInSem(base, semAdd[x])
  }

  ghost function PurgedQueues(b: Queues, v: set<int>): Queues {
    map a | a in b && Minus(b[a], v) != [] :: Minus(b[a], v)
  }

  ghost function Cleared(f: seq<int>, v: set<int>, value: int): seq<int> {
    seq(|f|, i requires 0 <= i < |f| => if i in v then value else f[i])
  }

  ghost function PurgedKids(kids: seq<seq<int>>, v: set<int>): seq<seq<int>> {
    seq(|kids|, i requires 0 <= i < |kids| => if i in v then [] else Minus(kids[i], v))
  }

  ghost function Credited(s: Kernel, v: set<int>): map<int, int> {
    map a | a in s.mem :: s.mem[a] + if CodedInSem(s.base, a) then 0 else |WaitingIn(s.semAdd, v, a)|
  }

  // The outcome of a kill. Every process of o is gone; o is the order in which the free stack got them,
  // the last one first.
  ghost function Purged(s: Kernel, o: seq<int>): Kernel {
    var v := Elems(o);
    s.(free := o + s.free,
       ready := Minus(s.ready, v),
       blocked := PurgedQueues(s.blocked, v),
       parent := Cleared(s.parent, v, NIL),
       semAdd := Cleared(s.semAdd, v, NULL_ADDR),
       kids := PurgedKids(s.kids, v),
       mem := Credited(s, v),
       processCount := s.processCount - |o|,
       softBlockCount := s.softBlockCount - |CodedSoftIn(s.base, s.semAdd, v)|)
  }

  // removeChild before the recursive kill: c keeps its own subtree.
  ghost function Detached(s: Kernel, c: int): Kernel {
    var p := ParentOf(s, c);
    s.(parent := Put(s.parent, c, NIL), kids := Put(s.kids, p, Minus(KidsOf(s, p), {c})))
  }

  // p gives up its place in the ready queue or in a semaphore's.
  ghost function Withdrawn(s: Kernel, p: int): Kernel {
    var a := AddrOf(s, p);
    if a == NULL_ADDR then s.(ready := Minus(s.ready, {p}))
    else
      var w := s.(blocked := Unblock(s.blocked, a, p), semAdd := Put(s.semAdd, p, NULL_ADDR));
      if CodedInSem(s.base, a) then Soft(w, -1) else Added(w, a, 1)
  }

  // The last steps of executeOrderSixtySix, once p has no children.
  ghost function Buried(s: Kernel, p: int): Kernel {
    var w := Withdrawn(if ParentOf(s, p) == NIL then s else Detached(s, p), p);
    w.(free := [p] + w.free, processCount := w.processCount - 1)
  }

  // scheduler(): bills the process that was running, if any, and dispatches the next.
  ghost function Billed(s: Kernel, tk: Ticks): Kernel {
    s.(time := Put(s.time, s.current, TimeOf(s, s.current) + (tk.bill - s.todStarted)))
  }

  ghost function Scheduled(s: Kernel, tk: Ticks): Kernel {
    var b := Billed(s, tk).(now := tk.start);
    if b.ready == [] then b.(current := NIL)
    else b.(current := b.ready[0], ready := b.ready[1..], todStarted := tk.start)
  }

  ghost function VerdictOf(s: Kernel): Verdict {
    if s.ready != [] then Dispatch
    else if s.processCount == 0 then Halt
    else if s.processCount > 0 then
      if s.softBlockCount == 0 then Panic
      else if s.softBlockCount > 0 then Wait
      else Fall
    else Fall
  }

  // SYS3.
  ghost function Signalled(s: Kernel, a: int): Kernel {
    var t := Added(s, a, 1);
    if Value(t, a) <= 0 then Woken(t, a) else t
  }

  // SYS4.
  ghost function Waited(s: Kernel, a: int, tk: Ticks): Kernel {
    var t := Added(s, a, -1);
    if Value(t, a) < 0 then Scheduled(Blocked(t, a), tk) else t
  }

  // SYS6.
  ghost function Timed(s: Kernel, tk: Ticks): Kernel {
    Billed(s, tk).(todStarted := tk.start, now := tk.start)
  }

  // SYS7 up to its call of scheduler().
  ghost function ClockStep(s: Kernel): Kernel {
    var a := SemAddr(s.base, CLOCK);
    var t := Added(s, a, -1);
    if Value(t, a) < 0 then Soft(Blocked(t, a), 1) else t
  }

  // The index that SYS8 computes.
  function DeviceIndex(line: int, device: int, isWrite: int): int {
    (line - DEVNOSEM + isWrite) * DEVPERINT + device
  }

  // SYS7: scheduler() is called even if the caller does not block.
  ghost function WaitedClock(s: Kernel, tk: Ticks): Kernel {
    Scheduled(ClockStep(s), tk)
  }

  // SYS8.
  ghost function WaitedIo(s: Kernel, i: int, tk: Ticks): Kernel {
    var t := Added(s, SemAddr(s.base, i), -1);
    if Value(t, SemAddr(s.base, i)) < 0 then Scheduled(IoStep(s, i), tk) else t
  }

  // SYS8 when it blocks, up to its call of scheduler().
  ghost function IoStep(s: Kernel, i: int): Kernel {
    var a := SemAddr(s.base, i);
    Soft(Blocked(Added(s, a, -1), a), 1)
  }

  // getDeviceNumber(): the mask never moves, so only the lowest bit is ever tested.
  function CodedDevice(bitMap: bv32): int {
    if bitMap & 1 == 1 then 0 else DEVPERINT
  }

  // The semaphore an interrupt is charged to; a terminal that is ready to transmit is
  // taken as receiving.
  function CodedIndex(line: int, bitMap: bv32, receiving: bool): int {
    DEVPERINT * (line - DEVNOSEM) + CodedDevice(bitMap) + (if line == TERMINT && receiving then DEVPERINT else 0)
  }

  // finish() up to its call of scheduler().
  ghost function FinishStep(s: Kernel, tk: Ticks): Kernel {
    if s.current == NIL then s
    else Pushed(s, s.current).(todStarted := s.todStarted + (tk.end - tk.stop))
  }

  // The V of an interrupt on semaphore i.
  ghost function IoDone(s: Kernel, i: int): Kernel {
    var a := SemAddr(s.base, i);
    var t := Added(s, a, 1);
    if Value(t, a) <= 0 && QueueAt(t.blocked, a) != [] then Soft(Woken(t, a), -1) else t
  }

  // The end of every interrupt: the handler's time is not billed.
  ghost function Finished(s: Kernel, tk: Ticks): Kernel {
    Scheduled(FinishStep(s, tk), tk)
  }

  // An interrupt that is taken as one of the device with semaphore i.
  ghost function Interrupted(s: Kernel, i: int, tk: Ticks): Kernel {
    Finished(IoDone(s, i), tk)
  }

  // The interval timer wakes one process after another off the clock and bills each
  // for the time since the interrupt.
  ghost function Drained(s: Kernel, tk: Ticks, k: nat): Kernel
    decreases |QueueAt(s.blocked, SemAddr(s.base, CLOCK))|
  {
    var a := SemAddr(s.base, CLOCK);
    if QueueAt(s.blocked, a) == [] then s
    else
      DrainShrinks(s.blocked, a);
      Drained(WokenByClock(s, tk, k), tk, k + 1)
  }

  ghost function WokenByClock(s: Kernel, tk: Ticks, k: nat): Kernel {
    var a := SemAddr(s.base, CLOCK);
    if QueueAt(s.blocked, a) == [] then s
    else
      var p := s.blocked[a][0];
      Soft(Woken(s, a), -1).(time := Put(s.time, p, TimeOf(s, p) + (EndOf(tk, k) - tk.stop)))
  }

  ghost function TimeOf(s: Kernel, p: int): int {
    if 0 <= p < |s.time| then s.time[p] else 0
  }

  // The clock reading after the k-th wake-up.
  function EndOf(tk: Ticks, k: nat): int {
    if k < |tk.ends| then tk.ends[k] else tk.end
  }

  lemma DrainShrinks(b: Queues, a: int)
    requires QueueAt(b, a) != []
    ensures |QueueAt(Unblock(b, a, b[a][0]), a)| < |QueueAt(b, a)|
  {
    hide Minus;
    MinusShorter(b[a], {b[a][0]}, b[a][0]);
  }

  // The interval timer's interrupt up to finish().
  ghost function TickDone(s: Kernel, tk: Ticks): Kernel {
    Drained(s, tk, 0).(mem := s.mem[SemAddr(s.base, CLOCK) := 0])
  }

  ghost function Ticked(s: Kernel, tk: Ticks): Kernel {
    Finished(TickDone(s, tk), tk)
  }

  // headBlocked finds any address from the clock's on, so the drain loop goes on for
  // ever if there is one above it.
  ghost predicate DrainEnds(s: Kernel) {
    forall a :: a in s.blocked ==> a <= SemAddr(s.base, CLOCK)
  }

  // Every block is free and no semaphore in sem has its value yet.
  ghost predicate Blank(s: Kernel) {
    && |s.semAdd| == |s.time| == |s.kids| == |s.birth| == |s.parent| > 0
    && 0 < s.base && SemAddr(s.base, TOTALSEM) < MAXINT
    && (forall a :: a in s.mem ==> Inner(a) && 0 <= s.mem[a] && !InSem(s.base, a))
    && Within(s.free, |s.parent|) && NoDup(s.free) && (forall x :: 0 <= x < |s.parent| ==> x in s.free)
    && s.ready == [] && s.current == NIL && s.blocked == map[]
    && (forall x {:trigger s.parent[x]} :: 0 <= x < |s.parent| ==> s.parent[x] == NIL)
    && (forall x {:trigger s.kids[x]} :: 0 <= x < |s.kids| ==> s.kids[x] == [])
    && s.births == 0 && s.processCount == 0 && s.softBlockCount == 0 && s.now == 0
  }

  // What main() leaves to its call of scheduler(): one ready process.
  ghost predicate Initial(s: Kernel) {
    && |s.semAdd| == |s.time| == |s.kids| == |s.birth| == |s.parent|
    && 0 < s.base && SemAddr(s.base, TOTALSEM) < MAXINT
    && (forall a :: a in s.mem ==> Inner(a) && 0 <= s.mem[a])
    && (forall a :: a in s.mem && InSem(s.base, a) ==> a in SemArray(s.base, TOTALSEM) && s.mem[a] == 0)
    && (forall a :: a in SemArray(s.base, TOTALSEM) ==> a in s.mem)
    && Within(s.free, |s.parent|) && NoDup(s.free)
    && 0 <= s.first < |s.parent| && s.ready == [s.first] && s.current == NIL && s.blocked == map[]
    && (forall x :: 0 <= x < |s.parent| ==> (x in s.free <==> x != s.first))
    && (forall x {:trigger s.kids[x]} :: 0 <= x < |s.kids| ==> s.kids[x] == [])
    && s.parent[s.first] == NIL && s.semAdd[s.first] == NULL_ADDR
    && s.birth[s.first] == 0 && s.births == 1
    && s.processCount == 1 && s.softBlockCount == 0
  }
}
