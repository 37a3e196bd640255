// The mutexes of the support level: a fixed order, so no process ever waits for itself.
module PagerLocks {
  import opened Pagers
  import opened PagerInvs

  // The mutex a process waits for, if any: a device's, swap or disk 0's.
  datatype Mutex = NoMutex | Device(d: int) | Swap | Disk0

  function WantedBy(a: int, pc: Pc): Mutex {
    match pc {
      case TapeWait => Device(TapeOf(a))
      case DeviceWait(d) => Device(d)
      case SwapWait(_) => Swap
      case DieWait => Swap
      case _ => if AtDisk(pc) && pc.io == Queued then Disk0 else NoMutex
    }
  }

  function HolderOf(s: Pager, m: Mutex): int {
    match m {
      case NoMutex => NOBODY
      case Device(d) => if d in s.devices then s.devices[d] else NOBODY
      case Swap => s.swap
      case Disk0 => s.disk0
    }
  }

  // a cannot go on before b releases something.
  ghost predicate WaitsFor(s: Pager, a: int, b: int) {
    1 <= a <= |s.procs| && b != NOBODY && HolderOf(s, WantedBy(a, PcOf(s, a))) == b
  }

  function Level(m: Mutex): int {
    match m {
      case NoMutex => 4
      case Device(_) => 1
      case Swap => 2
      case Disk0 => 3
    }
  }

  function Rank(s: Pager, a: int): int {
    Level(WantedBy(a, PcOf(s, a)))
  }

  // Whoever holds a mutex waits at most for a higher one.
  lemma HolderRanks(s: Pager, a: int, b: int)
    requires PInv(s) && WaitsFor(s, a, b)
    ensures 1 <= b <= |s.procs| && Rank(s, a) < Rank(s, b)
  {
    hide Faults, Victim, PoolOf, TablesOf, CacheTrue, ArmThere, Sizes;
    assert ProcOf(s, b).pc == PcOf(s, b);
    NobodyHolds(s);
  }

  ghost predicate WaitPath(s: Pager, path: seq<int>) {
    forall i :: 0 <= i < |path| - 1 ==> WaitsFor(s, path[i], path[i + 1])
  }

  lemma {:induction false} RanksGrow(s: Pager, path: seq<int>)
    requires PInv(s) && |path| >= 2 && WaitPath(s, path)
    ensures Rank(s, path[0]) + |path| - 1 <= Rank(s, path[|path| - 1])
  {
    hide PInv, WaitsFor, Rank;
    var l := |path| - 1;
    assert WaitsFor(s, path[l - 1], path[l]);
    HolderRanks(s, path[l - 1], path[l]);
    if l > 1 {
      assert WaitPath(s, path[..l]) by {
        forall i | 0 <= i < l - 1
          ensures WaitsFor(s, path[..l][i], path[..l][i + 1])
        {
          assert WaitsFor(s, path[i], path[i + 1]);
        }
      }
      RanksGrow(s, path[..l]);
    }
  }

  // In no reachable state does a chain of waiting processes close, or grow longer than
  // three waits.
  lemma NeverDeadlocked(s: Pager, es: seq<Step>, path: seq<int>)
    requires Started(s) && IsRunOf(s, es) && |path| >= 2 && WaitPath(RunOf(s, es), path)
    ensures path[0] != path[|path| - 1] && |path| <= 4
  {
    hide PInv, Started, WaitPath;
    StartedInv(s);
    RunPInv(s, es);
    RanksGrow(RunOf(s, es), path);
    RankRange(RunOf(s, es), path[0]);
    RankRange(RunOf(s, es), path[|path| - 1]);
  }

  lemma RankRange(s: Pager, a: int)
    ensures 1 <= Rank(s, a) <= 4
  {
  }

  // ------------------------------------------------- the sections always end

  // The step that a process takes next, if it can.
  function OwnStep(a: int, pc: Pc): Step {
    match pc {
      case TapeWait => TakeTape(a)
      case TapeRead(_) => ReadTape(a)
      case TapeDone => LeaveDevice(a)
      case DeviceWait(_) => TakeDevice(a)
      case SwapWait(_) => TakeSwap(a)
      case Picking(_) => Pick(a)
      case Committing(_, _) => Commit(a)
      case Serviced => LeaveSwap(a)
      case DieWait => TakeSwap(a)
      case Reaping => Reap(a)
      case Reaped => LeaveSwap(a)
      case _ =>
        if !AtDisk(pc) then Quit(a)
        else
          match pc.io {
            case Queued => TakeDisk(a)
            case Seeking => SeekDone(a)
            case Sought => Transfer(a)
            case Moved => LeaveDisk(a)
          }
    }
  }

  ghost predicate CanStep(s: Pager, a: int) {
    Enabled(s, OwnStep(a, PcOf(s, a)))
  }

  // The holder of disk 0 can always go on; the holder of swap can, or it waits for the
  // holder of disk 0.
  lemma HoldersGoOn(s: Pager)
    requires PInv(s)
    ensures s.disk0 != NOBODY ==> CanStep(s, s.disk0)
    ensures s.swap != NOBODY ==> CanStep(s, s.swap) || (WaitsFor(s, s.swap, s.disk0) && CanStep(s, s.disk0))
  {
    hide Faults, Victim, PoolOf, TablesOf, CacheTrue, ArmThere, DevicesHeld, DevicesFirst;
  }

  // How many steps of its own a process needs to release swap and disk 0.
  function IoLeft(io: Io): nat {
    match io {
      case Queued => 4
      case Seeking => 3
      case Sought => 2
      case Moved => 1
    }
  }

  function StepsLeft(pc: Pc): nat {
    match pc {
      case Picking(_) => 11
      case Evicting(_, _, _, _, io) => 6 + IoLeft(io)
      case Fetching(_, _, io) => 2 + IoLeft(io)
      case Committing(_, _) => 2
      case Serviced => 1
      case Reaping => 2
      case Reaped => 1
      case Loading(_, io) => IoLeft(io)
      case _ => 0
    }
  }

  // A holder releases what it holds within eleven steps of its own, and nobody else
  // can make it start over.
  lemma SectionsEnd(s: Pager, e: Step)
    requires Guarded(s) && Enabled(s, e) && (HoldsSwap(PcOf(s, e.a)) || HoldsDisk(PcOf(s, e.a)))
    ensures StepsLeft(PcOf(Next(s, e), e.a)) < StepsLeft(PcOf(s, e.a)) <= 11
      || (e.LeaveDisk? && !HoldsSwap(PcOf(Next(s, e), e.a)) && !HoldsDisk(PcOf(Next(s, e), e.a)))
    ensures forall b :: b != e.a ==> PcOf(Next(s, e), b) == PcOf(s, b)
  {
    hide PoolAfter, PteAfter, TlbAfter, RamAfter, DiskAfter, BufAfter, DevicesAfter, HeldAfter, Hits, Chosen;
    EnabledActor(s, e);
    NextProcs(s, e);
  }

  // ------------------------------------------------- devices

  // As long as diskIO rejects every command, a device is used by one process only.
  ghost predicate OwnDevices(s: Pager) {
    && !s.repaired && |s.procs| <= DEVPERINT
    && (forall d :: d in s.devices ==> OwnDevice(s.devices[d], d) || d == TapeOf(s.devices[d]))
    && (forall a {:trigger PcOf(s, a)} :: PcOf(s, a).DeviceWait? ==> OwnDevice(a, PcOf(s, a).d))
  }

  lemma OwnDevicesKept(s: Pager, e: Step)
    requires OwnDevices(s) && Enabled(s, e)
    ensures OwnDevices(Next(s, e))
  {
    hide PoolAfter, PteAfter, TlbAfter, RamAfter, DiskAfter, BufAfter, Hits, Chosen;
    EnabledActor(s, e);
    NextProcs(s, e);
  }

  lemma {:induction false} RunOwnDevices(s: Pager, es: seq<Step>)
    requires OwnDevices(s) && IsRunOf(s, es)
    ensures OwnDevices(RunOf(s, es))
  {
    hide OwnDevices, Next, Enabled;
    if es != [] {
      RunOwnDevices(s, es[..|es| - 1]);
      OwnDevicesKept(RunOf(s, es[..|es| - 1]), es[|es| - 1]);
    }
  }

  // A process that has not died can take its next step, or waits for somebody.
  lemma StepsOrWaits(s: Pager, a: int)
    requires PInv(s) && 1 <= a <= |s.procs| && PcOf(s, a) != Dead
    ensures CanStep(s, a) || WaitsFor(s, a, HolderOf(s, WantedBy(a, PcOf(s, a))))
  {
    hide Faults, Victim, PoolOf, TablesOf, CacheTrue, ArmThere, Sizes;
    assert ProcOf(s, a).pc == PcOf(s, a);
  }

  // path leads from a along waits to a process that waits for nobody.
  ghost predicate LeadsOn(s: Pager, a: int, path: seq<int>) {
    && path != [] && path[0] == a && WaitPath(s, path)
    && (CanStep(s, path[|path| - 1]) || PcOf(s, path[|path| - 1]) == Dead)
  }

  lemma {:induction false} FollowWaits(s: Pager, a: int) returns (path: seq<int>)
    requires PInv(s) && 1 <= a <= |s.procs|
    ensures LeadsOn(s, a, path) && |path| + Rank(s, a) <= 5
    decreases 4 - Rank(s, a)
  {
    hide PInv, CanStep, WaitsFor, Rank;
    RankRange(s, a);
    if CanStep(s, a) || PcOf(s, a) == Dead {
      path := [a];
    } else {
      StepsOrWaits(s, a);
      var b := HolderOf(s, WantedBy(a, PcOf(s, a)));
      HolderRanks(s, a, b);
      RankRange(s, b);
      var rest := FollowWaits(s, b);
      path := [a] + rest;
      forall i | 0 <= i < |path| - 1
        ensures WaitsFor(s, path[i], path[i + 1])
      {
        if i > 0 {
          assert WaitsFor(s, rest[i - 1], rest[i]);
        }
      }
    }
  }

  // Only a device can be held by a dead process.
  lemma DeadHoldDevices(s: Pager, a: int, b: int)
    requires PInv(s) && WaitsFor(s, a, b) && PcOf(s, b) == Dead
    ensures WantedBy(a, PcOf(s, a)).Device?
  {
    hide Faults, Victim, PoolOf, TablesOf, CacheTrue, ArmThere, Sizes, DevicesHeld, DevicesFirst;
  }

  // In every run, for the code and for its intent: whoever has not died can step, or its
  // waits lead, in three at most, to a process that can step, or to one that died with
  // the device the last of them waits for. As coded that last case does not arise.
  lemma NobodyStuck(s: Pager, es: seq<Step>, a: int) returns (path: seq<int>)
    requires Started(s) && IsRunOf(s, es) && 1 <= a <= |RunOf(s, es).procs| && PcOf(RunOf(s, es), a) != Dead
    ensures var t, l := RunOf(s, es), |path| - 1;
      && LeadsOn(t, a, path) && l <= 3
      && (PcOf(t, path[l]) == Dead ==> s.repaired && l >= 1 && WantedBy(path[l - 1], PcOf(t, path[l - 1])).Device?)
  {
    hide PInv, Started, Next, CanStep, IsRunOf, RunOf, WaitsFor, Rank, OwnDevices;
    var t := RunOf(s, es);
    StartedInv(s);
    RunPInv(s, es);
    path := FollowWaits(t, a);
    RankRange(t, a);
    var l := |path| - 1;
    if PcOf(t, path[l]) == Dead {
      assert WaitsFor(t, path[l - 1], path[l]);
      DeadHoldDevices(t, path[l - 1], path[l]);
      if !s.repaired {
        StartedOwn(s);
        RunOwnDevices(s, es);
        WaiterIsReal(t, path[l - 1], path[l]);
        OwnDeviceFree(t, path[l - 1]);
        assert false;
      }
    }
  }

  lemma WaiterIsReal(s: Pager, a: int, b: int)
    requires WaitsFor(s, a, b)
    ensures 1 <= a <= |s.procs| && HolderOf(s, WantedBy(a, PcOf(s, a))) != NOBODY
  {
  }

  lemma StartedOwn(s: Pager)
    requires Started(s) && !s.repaired
    ensures OwnDevices(s)
  {
  }

  lemma OwnDeviceFree(s: Pager, a: int)
    requires PInv(s) && OwnDevices(s) && 1 <= a <= |s.procs| && WantedBy(a, PcOf(s, a)).Device?
    ensures HolderOf(s, WantedBy(a, PcOf(s, a))) == NOBODY
  {
    hide Faults, Victim, PoolOf, TablesOf, CacheTrue, ArmThere, Sizes, Guarded;
    assert ProcOf(s, a).pc == PcOf(s, a) && ProcOf(s, a).held == 0;
  }

  // With the check repaired a device can be left to a dead process: one that dies in
  // diskIO keeps the mutex for ever.
  lemma {:induction false} DeadKeepDevices(s: Pager, es: seq<Step>, a: int)
    requires PInv(s) && IsRunOf(s, es) && 1 <= a <= |s.procs| && PcOf(s, a) == Dead && ProcOf(s, a).held != 0
    ensures var t, d := RunOf(s, es), ProcOf(s, a).held;
      PInv(t) && PcOf(t, a) == Dead && ProcOf(t, a).held == d && d in t.devices && t.devices[d] == a
  {
    hide Faults, Victim, PoolOf, TablesOf, CacheTrue, ArmThere, Sizes, Guarded, Next, DevicesFirst;
    if es != [] {
      var f, e := es[..|es| - 1], es[|es| - 1];
      DeadKeepDevices(s, f, a);
      EnabledActor(RunOf(s, f), e);
      NextProcs(RunOf(s, f), e);
      PInvKept(RunOf(s, f), e);
      DeadTakeNoStep(RunOf(s, f), e);
    }
    assert ProcOf(RunOf(s, es), a).held != 0;
  }

  lemma DeadTakeNoStep(s: Pager, e: Step)
    requires Enabled(s, e)
    ensures PcOf(s, e.a) != Dead
  {
  }

  // meIRL never lets go of a device: the mutex is lost exactly when one is held.
  lemma DiesWithDevice(s: Pager, a: int)
    requires PInv(s) && Enabled(s, LeaveSwap(a)) && PcOf(s, a) == Reaped
    ensures var t := Next(s, LeaveSwap(a));
      PcOf(t, a) == Dead && ((exists d :: d in t.devices && t.devices[d] == a) <==> ProcOf(s, a).held != 0)
  {
    hide Faults, Victim, PoolOf, TablesOf, CacheTrue, ArmThere, Sizes, Guarded, DevicesFirst;
    NextProcs(s, LeaveSwap(a));
    assert ProcOf(s, a).held != 0 ==> ProcOf(s, a).held in s.devices;
  }
}
