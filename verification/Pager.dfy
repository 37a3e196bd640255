// Demand paging for the user processes of phase 3 as interleaved steps. A step goes from
// one SYSCALL to the next, or is one access to memory. A process can also lose the
// processor in between, when its quantum ends, but then nobody sees it half way: the pool,
// the tables and next are touched only by the holder of swap, or with interrupts off; disk
// 0 only by its holder; and a page that diskIO has copied only in part is one more page
// that a step may leave in the buffer.
module Pagers {
  import opened Lists

  const KUSEGSIZE := 32       // private pages of a process
  const LASTVPN := 0x3FFFF    // the page number under which the last of them is mapped
  const TAPEDEV := 8          // (TAPEINT - DEVNOSEM) * DEVPERINT
  const PRINTDEV := 24
  const TERMREADSEM := 32
  const TERMSEMSTART := 40
  const DEVPERINT := 8
  const TOTALMUTEX := 49
  const NOBODY := 0           // the holder of a free mutex; asids start from 1
  const NOASID := -1

  // The words of a page that have been written; the others are zero.
  type Page = map<int, int>

  // entryLO of a page table entry, its frame counted from the start of the pool.
  datatype Entry = Entry(valid: bool, dirty: bool, frame: int)

  // A frame of swapPool; pte is the number of the entry that sw_pte points to.
  datatype Slot = Slot(asid: int, page: int, pte: int)

  // How far an operation on disk 0 has come: it waits for the mutex, the arm moves, it
  // has moved, the data are across.
  datatype Io = Queued | Seeking | Sought | Moved

  // Where a process is.
  datatype Pc =
    | TapeWait                                                      // uProcInit, at the tape's mutex
    | TapeRead(k: int)                                              // about to read block k
    | Loading(k: int, io: Io)                                       // block k on its way to disk 0
    | TapeDone                                                      // about to release the tape
    | User
    | DeviceWait(d: int)                                            // at the mutex of device d
    | SwapWait(page: int)                                           // vmMemHandler, at swap
    | Picking(page: int)                                            // about to choose a frame
    | Evicting(page: int, f: int, cyl: int, asid: int, io: Io)      // writing the victim back
    | Fetching(page: int, f: int, io: Io)                           // reading the page in
    | Committing(page: int, f: int)                                 // about to enter it in the tables
    | Serviced                                                      // about to release swap
    | DieWait                                                       // meIRL, at swap
    | Reaping                                                       // about to give up its frames
    | Reaped                                                        // about to release swap
    | Dead

  // A process and the device whose mutex it holds, 0 if none.
  datatype Proc = Proc(pc: Pc, held: int)

  datatype Pager = Pager(
    repaired: bool,                  // diskIO's check of its command reads && for ||
    tapes: seq<seq<Page>>,           // the blocks on the tape of every process
    tapeAt: map<int, int>,           // the block each tape is at, by asid; the first if it has not moved
    procs: seq<Proc>,                // by asid - 1
    pool: seq<Slot>,
    pte: seq<Entry>,                 // all page tables, one after another
    ram: seq<Page>,                  // the frames of the pool
    buf: map<int, Page>,             // the buffers from OSCODEEND on
    disk: map<(int, int), Page>,     // disk 0, by cylinder and sector
    arm: int,                        // the cylinder it is at
    next: int,
    tlb: map<int, Entry>,            // by the number of the entry cached
    swap: int,                       // the holders of the mutexes
    disk0: int,
    devices: map<int, int>)

  datatype Step =
    | TakeTape(a: int)
    | ReadTape(a: int)
    | TakeDisk(a: int)
    | SeekDone(a: int)
    | Transfer(a: int)
    | LeaveDisk(a: int)
    | Load(a: int, vpn: int, w: int)
    | Store(a: int, vpn: int, w: int, v: int)
    | AskDevice(a: int, d: int)
    | AskDisk(a: int, d: int)
    | TakeDevice(a: int)
    | FillBuffer(a: int, data: Page)
    | WindTape(a: int, j: int)
    | LeaveDevice(a: int)
    | TakeSwap(a: int)
    | Pick(a: int)
    | Commit(a: int)
    | LeaveSwap(a: int)
    | Quit(a: int)
    | Reap(a: int)

  // ------------------------------------------------- names for pages

  // vmMemHandler's page for a page number.
  function PageOf(vpn: int): int {
    if vpn >= KUSEGSIZE then KUSEGSIZE - 1 else vpn
  }

  // The page numbers under which a page table has an entry.
  predicate Mapped(vpn: int) {
    0 <= vpn < KUSEGSIZE - 1 || vpn == LASTVPN
  }

  // The number of the entry of page p of process a.
  function EntryNo(a: int, p: int): int {
    (a - 1) * KUSEGSIZE + p
  }

  function Owner(g: int): int {
    g / KUSEGSIZE + 1
  }

  function PageNo(g: int): int {
    g % KUSEGSIZE
  }

  // Cylinder and sector of the block behind a page.
  function BlockOf(g: int): (int, int) {
    (PageNo(g), Owner(g) - 1)
  }

  function SlotFor(g: int): Slot {
    Slot(Owner(g), PageNo(g), g)
  }

  function Block(disk: map<(int, int), Page>, b: (int, int)): Page {
    if b in disk then disk[b] else map[]
  }

  function Word(p: Page, w: int): int {
    if w in p then p[w] else 0
  }

  // mutexArray's index for the tape of process a.
  function TapeOf(a: int): int {
    TAPEDEV + a - 1
  }

  // The printer and the two halves of the terminal of process a.
  predicate OwnDevice(a: int, d: int) {
    d == PRINTDEV + a - 1 || d == TERMREADSEM + a - 1 || d == TERMSEMSTART + a - 1
  }

  // The pages from OSCODEEND on that tapes and disks are read through.
  function TapeBuffer(a: int): int {
    a - 1
  }

  function DiskBuffer(d: int): int {
    d
  }

  // nVALID is 0, so a word & nVALID is 0 and a word | nVALID is the word.
  function AndNVALID(e: Entry): Entry {
    Entry(false, false, 0)
  }

  function OrNVALID(e: Entry): Entry {
    e
  }

  // ------------------------------------------------- reading the state

  function ProcOf(s: Pager, a: int): Proc {
    if 1 <= a <= |s.procs| then s.procs[a - 1] else Proc(Dead, 0)
  }

  function PcOf(s: Pager, a: int): Pc {
    ProcOf(s, a).pc
  }

  function EntryAt(s: Pager, g: int): Entry {
    if 0 <= g < |s.pte| then s.pte[g] else Entry(false, false, 0)
  }

  function SlotAt(s: Pager, f: int): Slot {
    if 0 <= f < |s.pool| then s.pool[f] else Slot(NOASID, 0, 0)
  }

  function Frame(s: Pager, f: int): Page {
    if 0 <= f < |s.ram| then s.ram[f] else map[]
  }

  function Buffer(s: Pager, i: int): Page {
    if i in s.buf then s.buf[i] else map[]
  }

  function TapeAt(s: Pager, a: int): int {
    if a in s.tapeAt then s.tapeAt[a] else 0
  }

  function Tape(s: Pager, a: int): seq<Page> {
    if 1 <= a <= |s.tapes| then s.tapes[a - 1] else []
  }

  // ------------------------------------------------- disk 0

  predicate AtDisk(pc: Pc) {
    pc.Loading? || pc.Evicting? || pc.Fetching?
  }

  function CylinderOf(pc: Pc): int {
    match pc {
      case Loading(k, _) => k
      case Evicting(_, _, c, _, _) => c
      case Fetching(p, _, _) => p
      case _ => 0
    }
  }

  function SectorOf(a: int, pc: Pc): int {
    if pc.Evicting? then pc.asid - 1 else a - 1
  }

  function Onto(pc: Pc, io: Io): Pc {
    match pc {
      case Loading(k, _) => Loading(k, io)
      case Evicting(p, f, c, v, _) => Evicting(p, f, c, v, io)
      case Fetching(p, f, _) => Fetching(p, f, io)
      case _ => pc
    }
  }

  // ------------------------------------------------- user memory

  // The entry a translation uses, and the cache after it.
  function Cached(s: Pager, g: int): Entry {
    if g in s.tlb then s.tlb[g] else EntryAt(s, g)
  }

  predicate Hits(s: Pager, a: int, vpn: int) {
    Cached(s, EntryNo(a, PageOf(vpn))).valid
  }

  function Loaded(s: Pager, a: int, vpn: int, w: int): int {
    Word(Frame(s, Cached(s, EntryNo(a, PageOf(vpn))).frame), w)
  }

  // ------------------------------------------------- vmMemHandler

  // spinTheBottle().
  function Spin(next: int, frames: int): int
    requires frames > 0
  {
    (next + 1) % frames
  }

  // The frame a page fault takes next, and what is in it.
  function Chosen(s: Pager): int {
    if |s.pool| > 0 then Spin(s.next, |s.pool|) else 0
  }

  // ------------------------------------------------- meIRL

  function FreedSlot(v: Slot, a: int): Slot {
    if v.asid == a then v.(asid := NOASID) else v
  }

  function Freed(pool: seq<Slot>, a: int): (r: seq<Slot>)
    ensures |r| == |pool|
    ensures forall f :: 0 <= f < |pool| ==> r[f] == FreedSlot(pool[f], a)
  {
    if pool == [] then [] else Freed(pool[..|pool| - 1], a) + [FreedSlot(pool[|pool| - 1], a)]
  }

  predicate Resident(pool: seq<Slot>, a: int) {
    exists f :: 0 <= f < |pool| && pool[f].asid == a
  }

  // ------------------------------------------------- the steps

  predicate Enabled(s: Pager, e: Step) {
    var a := e.a;
    var pc := PcOf(s, a);
    && 1 <= a <= |s.procs|
    && match e {
      case TakeTape(_) => pc == TapeWait && TapeOf(a) !in s.devices
      case ReadTape(_) => pc.TapeRead?
      case TakeDisk(_) => AtDisk(pc) && pc.io == Queued && s.disk0 == NOBODY
      case SeekDone(_) => AtDisk(pc) && pc.io == Seeking
      case Transfer(_) => AtDisk(pc) && pc.io == Sought
      case LeaveDisk(_) => AtDisk(pc) && pc.io == Moved
      case Load(_, vpn, _) => pc == User && Mapped(vpn)
      case Store(_, vpn, _, _) => pc == User && Mapped(vpn)
      case AskDevice(_, d) => pc == User && ProcOf(s, a).held == 0 && OwnDevice(a, d)
      case AskDisk(_, d) => pc == User && ProcOf(s, a).held == 0 && 0 < d < TOTALMUTEX && s.repaired
      case TakeDevice(_) => pc.DeviceWait? && pc.d !in s.devices
      case FillBuffer(_, _) => pc == User && ProcOf(s, a).held != 0 && s.repaired
      case WindTape(_, j) => pc == User && ProcOf(s, a).held != 0 && s.repaired && j >= 0
      case LeaveDevice(_) => pc == TapeDone || (pc == User && ProcOf(s, a).held != 0)
      case TakeSwap(_) => (pc.SwapWait? || pc == DieWait) && s.swap == NOBODY
      case Pick(_) => pc.Picking?
      case Commit(_) => pc.Committing?
      case LeaveSwap(_) => pc == Serviced || pc == Reaped
      case Quit(_) => pc == User
      case Reap(_) => pc == Reaping
    }
  }

  // Where the actor is afterwards.
  function PcAfter(s: Pager, e: Step): Pc {
    var pc := PcOf(s, e.a);
    match e {
      case TakeTape(_) => TapeRead(0)
      case ReadTape(_) => if pc.TapeRead? then Loading(pc.k, Queued) else pc
      case TakeDisk(_) => Onto(pc, Seeking)
      case SeekDone(_) => Onto(pc, Sought)
      case Transfer(_) => Onto(pc, Moved)
      case LeaveDisk(a) => OffDisk(pc, TapeAt(s, a) < |Tape(s, a)|)
      // An access that finds no valid entry is a page fault, to be tried again later.
      case Load(a, vpn, _) => if Hits(s, a, vpn) then pc else SwapWait(PageOf(vpn))
      case Store(a, vpn, _, _) => if Hits(s, a, vpn) then pc else SwapWait(PageOf(vpn))
      case AskDevice(_, d) => DeviceWait(d)
      case AskDisk(_, d) => DeviceWait(d)
      case TakeDevice(_) => User
      case FillBuffer(_, _) => pc
      case WindTape(_, _) => pc
      case LeaveDevice(_) => User
      case TakeSwap(_) => if pc.SwapWait? then Picking(pc.page) else Reaping
      case Pick(_) =>
        var f := Chosen(s);
        var v := SlotAt(s, f);
        if !pc.Picking? then pc
        else if v.asid == NOASID then Fetching(pc.page, f, Queued)
        else Evicting(pc.page, f, v.page, v.asid, Queued)
      case Commit(_) => Serviced
      case LeaveSwap(_) => if pc == Reaped then Dead else User
      case Quit(_) => DieWait
      case Reap(_) => Reaped
    }
  }

  // What follows an operation on disk 0; more says that the block read was not the last.
  function OffDisk(pc: Pc, more: bool): Pc {
    match pc {
      case Loading(k, _) => if more then TapeRead(k + 1) else TapeDone
      case Evicting(p, f, _, _, _) => Fetching(p, f, Queued)
      case Fetching(p, f, _) => Committing(p, f)
      case _ => pc
    }
  }

  function HeldAfter(s: Pager, e: Step): int {
    match e {
      case TakeTape(a) => TapeOf(a)
      case TakeDevice(a) => if PcOf(s, a).DeviceWait? then PcOf(s, a).d else 0
      case LeaveDevice(_) => 0
      case _ => ProcOf(s, e.a).held
    }
  }

  function SwapAfter(s: Pager, e: Step): int {
    if e.TakeSwap? then e.a else if e.LeaveSwap? then NOBODY else s.swap
  }

  function Disk0After(s: Pager, e: Step): int {
    if e.TakeDisk? then e.a else if e.LeaveDisk? then NOBODY else s.disk0
  }

  function DevicesAfter(s: Pager, e: Step): map<int, int> {
    match e {
      case TakeTape(a) => s.devices[HeldAfter(s, e) := a]
      case TakeDevice(a) => s.devices[HeldAfter(s, e) := a]
      case LeaveDevice(a) => s.devices - {ProcOf(s, a).held}
      case _ => s.devices
    }
  }

  function PoolAfter(s: Pager, e: Step): seq<Slot> {
    match e {
      case Commit(a) =>
        var pc := PcOf(s, a);
        if pc.Committing? then Put(s.pool, pc.f, Slot(a, pc.page, EntryNo(a, pc.page))) else s.pool
      case Reap(a) => Freed(s.pool, a)
      case _ => s.pool
    }
  }

  // The victim of a page fault becomes invalid before it is written back, the page
  // wanted becomes valid once it is there. A process that dies keeps its valid bits.
  function PteAfter(s: Pager, e: Step): seq<Entry> {
    match e {
      case Pick(a) =>
        var v := SlotAt(s, Chosen(s));
        if v.asid == NOASID then s.pte else Put(s.pte, v.pte, AndNVALID(EntryAt(s, v.pte)))
      case Commit(a) =>
        var pc := PcOf(s, a);
        if pc.Committing? then Put(s.pte, EntryNo(a, pc.page), Entry(true, true, pc.f)) else s.pte
      case _ => s.pte
    }
  }

  function TlbAfter(s: Pager, e: Step): map<int, Entry> {
    match e {
      case Load(a, vpn, _) => s.tlb[EntryNo(a, PageOf(vpn)) := Cached(s, EntryNo(a, PageOf(vpn)))]
      case Store(a, vpn, _, _) => s.tlb[EntryNo(a, PageOf(vpn)) := Cached(s, EntryNo(a, PageOf(vpn)))]
      case Pick(a) => if SlotAt(s, Chosen(s)).asid == NOASID then s.tlb else map[]
      case Commit(a) => map[]
      case Reap(a) => if Resident(s.pool, a) then map[] else s.tlb
      case _ => s.tlb
    }
  }

  function RamAfter(s: Pager, e: Step): seq<Page> {
    match e {
      case Store(a, vpn, w, v) =>
        var f := Cached(s, EntryNo(a, PageOf(vpn))).frame;
        if Hits(s, a, vpn) then Put(s.ram, f, Frame(s, f)[w := v]) else s.ram
      case Transfer(a) =>
        var pc := PcOf(s, a);
        if pc.Fetching? then Put(s.ram, pc.f, Block(s.disk, (s.arm, SectorOf(a, pc)))) else s.ram
      case _ => s.ram
    }
  }

  // A block is written at the cylinder the arm happens to be at.
  function DiskAfter(s: Pager, e: Step): map<(int, int), Page> {
    match e {
      case Transfer(a) =>
        var pc := PcOf(s, a);
        if pc.Loading? then s.disk[(s.arm, SectorOf(a, pc)) := Buffer(s, TapeBuffer(a))]
        else if pc.Evicting? then s.disk[(s.arm, SectorOf(a, pc)) := Frame(s, pc.f)]
        else s.disk
      case _ => s.disk
    }
  }

  function BufAfter(s: Pager, e: Step): map<int, Page> {
    match e {
      case ReadTape(a) =>
        var k := TapeAt(s, a);
        if 0 <= k < |Tape(s, a)| then s.buf[TapeBuffer(a) := Tape(s, a)[k]] else s.buf
      case FillBuffer(a, data) => s.buf[DiskBuffer(ProcOf(s, a).held) := data]
      case _ => s.buf
    }
  }

  // A tape moves on when it is read, and wherever diskIO's commands take it if it is
  // called with the tape's number.
  function TapesAfter(s: Pager, e: Step): map<int, int> {
    match e {
      case ReadTape(a) => s.tapeAt[a := TapeAt(s, a) + 1]
      case WindTape(a, j) => s.tapeAt[ProcOf(s, a).held - TAPEDEV + 1 := j]
      case _ => s.tapeAt
    }
  }

  function Next(s: Pager, e: Step): Pager {
    s.(procs := Put(s.procs, e.a - 1, Proc(PcAfter(s, e), HeldAfter(s, e))),
       swap := SwapAfter(s, e), disk0 := Disk0After(s, e), devices := DevicesAfter(s, e),
       pool := PoolAfter(s, e), pte := PteAfter(s, e), tlb := TlbAfter(s, e),
       next := if e.Pick? then Chosen(s) else s.next,
       arm := if e.SeekDone? then CylinderOf(PcOf(s, e.a)) else s.arm,
       ram := RamAfter(s, e), disk := DiskAfter(s, e), buf := BufAfter(s, e), tapeAt := TapesAfter(s, e))
  }

  ghost function RunOf(s: Pager, es: seq<Step>): Pager {
    if es == [] then s else Next(RunOf(s, es[..|es| - 1]), es[|es| - 1])
  }

  ghost predicate IsRunOf(s: Pager, es: seq<Step>) {
    es == [] || (IsRunOf(s, es[..|es| - 1]) && Enabled(RunOf(s, es[..|es| - 1]), es[|es| - 1]))
  }

  // What test() leaves behind.
  predicate Started(s: Pager) {
    && |s.procs| <= DEVPERINT && |s.tapes| == |s.procs| && |s.pte| == |s.procs| * KUSEGSIZE && |s.ram| == |s.pool| > 0
    && (forall a :: 0 <= a < |s.procs| ==> s.procs[a] == Proc(TapeWait, 0) && s.tapes[a] != [])
    && (forall f :: 0 <= f < |s.pool| ==> s.pool[f].asid == NOASID)
    && (forall g :: 0 <= g < |s.pte| ==> s.pte[g] == Entry(false, true, 0))
    && s.tapeAt == map[] && s.next == 0 && s.tlb == map[] && s.swap == NOBODY && s.disk0 == NOBODY && s.devices == map[]
  }
}
