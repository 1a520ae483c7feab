/** Demand paging as a protocol: user accesses of any number of processes interleaved with the
    pieces of their pager calls, under the swap pool mutex. */
module Paging {
  import opened Seqs
  import opened Counting
  import opened VmState

  /** Where a process is.  WantsPage and WantsExit are before or inside PASSEREN on the mutex;
      from Locked to Installed, and in ExitLocked and ExitFreed, it holds the mutex. */
  datatype Phase =
    | User
    | WantsPage(page: nat)
    | Locked(page: nat)
    | Chosen(page: nat, frame: nat)
    | Evicting(page: nat, frame: nat)
    | Loading(page: nat, frame: nat)
    | Loaded(page: nat, frame: nat)
    | Installed
    | WantsExit
    | ExitLocked
    | ExitFreed
    | Gone
    | Killed

  predicate Holding(ph: Phase) {
    ph.Locked? || ph.Chosen? || ph.Evicting? || ph.Loading? || ph.Loaded? || ph.Installed? || ph.ExitLocked? ||
        ph.ExitFreed?
  }

  predicate Wanting(ph: Phase) {
    ph.WantsPage? || ph.WantsExit?
  }

  /** A frame is out of use between the eviction of its page and the installation of the next. */
  predicate UsesFrame(ph: Phase) {
    ph.Evicting? || ph.Loading? || ph.Loaded?
  }

  predicate Faulted(ph: Phase) {
    ph.WantsPage? || ph.Locked? || ph.Chosen? || UsesFrame(ph)
  }

  /** owner is a history variable: who got the mutex last and has not released it. */
  datatype Vm = Vm(mem: Mem, mutex: Sema, owner: Option<nat>, proc: map<nat, Phase>)

  datatype Event =
    | Load(a: nat, page: nat, offset: nat, entry: nat)
    | Store(a: nat, page: nat, offset: nat, entry: nat, value: int)
    | Miss(a: nat, page: nat, slot: nat)
    | Fault(a: nat, page: nat, entry: nat)
    | Lock(a: nat)
    | ChooseFrame(a: nat)
    | ClearOld(a: nat)
    | SaveOld(a: nat)
    | FetchNew(a: nat)
    | InstallNew(a: nat, slot: nat)
    | Unlock(a: nat)
    | Exit(a: nat)
    | Reclaim(a: nat)
    | Kill(a: nat)

  /** The TLB entry the hardware translates with. */
  predicate Hits(m: Mem, k: Key, i: nat) {
    Maps(m.tlb, i, k)
  }

  function Frame(m: Mem, i: nat): nat
    requires i < |m.tlb| && m.tlb[i].Some?
  {
    m.tlb[i].value.pte.frame
  }

  predicate Enabled(v: Vm, e: Event) {
    e.a in v.proc &&
    var ph := v.proc[e.a];
    match e
    case Load(a, p, o, i) => ph.User? && Hits(v.mem, Key(a, p), i) && v.mem.tlb[i].value.pte.valid
    case Store(a, p, o, i, x) => ph.User? && Hits(v.mem, Key(a, p), i) && v.mem.tlb[i].value.pte.valid
    case Miss(a, p, slot) => ph.User? && Probe(v.mem.tlb, Key(a, p)) == None && slot < |v.mem.tlb|
    case Fault(a, p, i) => ph.User? && Hits(v.mem, Key(a, p), i) && !v.mem.tlb[i].value.pte.valid
    case Lock(a) => Wanting(ph) && a !in v.mutex.queue
    case ChooseFrame(a) => ph.Locked?
    case ClearOld(a) => ph.Chosen?
    case SaveOld(a) => ph.Evicting?
    case FetchNew(a) => ph.Loading?
    case InstallNew(a, slot) => ph.Loaded? && slot < |v.mem.tlb|
    case Unlock(a) => ph.Installed? || ph.ExitFreed?
    case Exit(a) => ph.User?
    case Reclaim(a) => ph.ExitLocked?
    case Kill(a) => !Holding(ph) && !ph.Gone?
  }

  function Granted(ph: Phase): Phase {
    if ph.WantsPage? then Locked(ph.page) else ExitLocked
  }

  function Released(ph: Phase): Phase {
    if ph.Installed? then User else Gone
  }

  /** PASSEREN on the mutex. */
  function Acquire(v: Vm, a: nat): Vm
    requires a in v.proc
  {
    var w := v.(mutex := DownBy(v.mutex, a));
    if v.mutex.value <= 0 then w else w.(owner := Some(a), proc := v.proc[a := Granted(v.proc[a])])
  }

  /** VERHOGEN on the mutex: a waiting process is handed it directly. */
  function Release(v: Vm, a: nat): Vm
    requires a in v.proc
  {
    var w := v.(mutex := Up(v.mutex), owner := None, proc := v.proc[a := Released(v.proc[a])]);
    if v.mutex.queue == [] then w
    else
      var h := v.mutex.queue[0];
      w.(owner := Some(h), proc := w.proc[h := Granted(if h in w.proc then w.proc[h] else WantsExit)])
  }

  /** The user's word in a frame. */
  function Peek(m: Mem, frame: nat, offset: nat): int {
    if frame < |m.frames| then Word(m.frames[frame], offset) else 0
  }

  function Word(page: Page, offset: nat): int {
    if offset < |page| then page[offset] else 0
  }

  function Poke(page: Page, offset: nat, value: int): Page {
    if offset < |page| then page[offset := value] else page
  }

  function Write(m: Mem, frame: nat, offset: nat, value: int): Mem {
    if frame < |m.frames| then m.(frames := m.frames[frame := Poke(m.frames[frame], offset, value)]) else m
  }

  /** The frames named by the holder are frames of the pool. */
  predicate Sized(v: Vm) {
    && 0 < |v.mem.pool| == |v.mem.frames|
    && forall a | a in v.proc ::
         && (v.proc[a].Chosen? || UsesFrame(v.proc[a]) ==> v.proc[a].frame < |v.mem.pool|)
         && (v.proc[a].Evicting? ==> v.mem.pool[v.proc[a].frame].Some?)
  }

  ghost function Next(v: Vm, e: Event): Vm
    requires Sized(v) && Enabled(v, e)
  {
    var a, ph, m := e.a, v.proc[e.a], v.mem;
    match e
    case Load(_, _, _, _) => v
    case Store(_, _, o, i, x) => v.(mem := Write(m, Frame(m, i), o, x))
    case Miss(_, p, slot) => v.(mem := Refill(m, Key(a, p), slot))
    case Fault(_, p, _) => v.(proc := v.proc[a := WantsPage(p)])
    case Lock(_) => Acquire(v, a)
    case ChooseFrame(_) => v.(mem := Choose(m).0, proc := v.proc[a := Chosen(ph.page, Choose(m).1)])
    case ClearOld(_) =>
      if m.pool[ph.frame] == None then v.(proc := v.proc[a := Loading(ph.page, ph.frame)])
      else v.(mem := Invalidate(m, ph.frame), proc := v.proc[a := Evicting(ph.page, ph.frame)])
    case SaveOld(_) => v.(mem := WriteBack(m, ph.frame), proc := v.proc[a := Loading(ph.page, ph.frame)])
    case FetchNew(_) => v.(mem := ReadIn(m, Key(a, ph.page), ph.frame), proc := v.proc[a := Loaded(ph.page, ph.frame)])
    case InstallNew(_, slot) =>
      v.(mem := Install(m, Key(a, ph.page), ph.frame, slot), proc := v.proc[a := Installed])
    case Unlock(_) => Release(v, a)
    case Exit(_) => v.(proc := v.proc[a := WantsExit])
    case Reclaim(_) => v.(mem := m.(pool := FreeFrames(m.pool, a)), proc := v.proc[a := ExitFreed])
    case Kill(_) => v.(mutex := Drop(v.mutex, {a}), proc := v.proc[a := Killed])
  }

  // ---------------------------------------------------------------- the invariant

  /** A process whose frames have not been given back. */
  predicate Live(v: Vm, a: nat) {
    a in v.proc && !v.proc[a].ExitFreed? && !v.proc[a].Gone?
  }

  /** Mutual exclusion, and hand-off to exactly the waiters. */
  ghost predicate MutexOK(v: Vm) {
    && v.mutex.value == (if v.owner == None then 1 else 0)
    && (v.owner.Some? ==> v.owner.value in v.proc && Holding(v.proc[v.owner.value]))
    && (forall a | a in v.proc && Holding(v.proc[a]) :: v.owner == Some(a))
    && (v.mutex.queue != [] ==> v.owner.Some?)
    && NoDup(v.mutex.queue)
    && (forall i | 0 <= i < |v.mutex.queue| :: v.mutex.queue[i] in v.proc && Wanting(v.proc[v.mutex.queue[i]]))
  }

  /** The holder's frame is out of use. */
  predicate Detached(v: Vm, c: nat) {
    && v.owner.Some? && v.owner.value in v.proc
    && UsesFrame(v.proc[v.owner.value]) && v.proc[v.owner.value].frame == c
  }

  /** Swap pool and page tables are inverse to each other, but for the frame out of use. */
  ghost predicate PoolOK(v: Vm) {
    && (forall c | 0 <= c < |v.mem.pool| && v.mem.pool[c].Some? ::
          Live(v, v.mem.pool[c].value.asid) && PteOf(v.mem.pt, v.mem.pool[c].value) == Pte(!Detached(v, c), c))
    && (forall k: Key | Live(v, k.asid) && PteOf(v.mem.pt, k).valid ::
          PteOf(v.mem.pt, k).frame < |v.mem.pool| && v.mem.pool[PteOf(v.mem.pt, k).frame] == Some(k))
  }

  /** A process in the pager faulted on a page that is still not valid. */
  ghost predicate FaultsOK(v: Vm)
    requires Sized(v)
  {
    forall a | a in v.proc && Faulted(v.proc[a]) ::
      && !PteOf(v.mem.pt, Key(a, v.proc[a].page)).valid
      && (v.proc[a].Loaded? ==> v.mem.frames[v.proc[a].frame] == PageAt(v.mem.flash, Key(a, v.proc[a].page)))
      && (UsesFrame(v.proc[a]) ==> v.mem.pool[v.proc[a].frame] != Some(Key(a, v.proc[a].page)))
  }

  /** TLB coherence: at most one entry per page, and a live page's agrees with the page table. */
  ghost predicate TlbOK(v: Vm) {
    && TlbUnique(v.mem.tlb)
    && forall i | 0 <= i < |v.mem.tlb| && v.mem.tlb[i].Some? && Live(v, v.mem.tlb[i].value.key.asid) ::
         Agree(v.mem.tlb[i].value.pte, PteOf(v.mem.pt, v.mem.tlb[i].value.key))
  }

  ghost predicate Inv(v: Vm) {
    Sized(v) && MutexOK(v) && PoolOK(v) && FaultsOK(v) && TlbOK(v)
  }

  // ---------------------------------------------------------------- flat memory

  /** Where the current contents of a page are: in its frame, in a frame on its way to the
      flash device, or in the flash device. */
  function Content(v: Vm, k: Key): Page {
    if !PteOf(v.mem.pt, k).valid && OnItsWay(v, k) then v.mem.frames[v.proc[v.owner.value].frame]
    else Contents(v.mem, k)
  }

  predicate OnItsWay(v: Vm, k: Key) {
    && v.owner.Some? && v.owner.value in v.proc && v.proc[v.owner.value].Evicting?
    && v.proc[v.owner.value].frame < |v.mem.pool| && v.proc[v.owner.value].frame < |v.mem.frames|
    && v.mem.pool[v.proc[v.owner.value].frame] == Some(k)
  }

  /** The page after an event, were memory flat. */
  function FlatPage(e: Event, k: Key, page: Page): Page {
    if e.Store? && k == Key(e.a, e.page) then Poke(page, e.offset, e.value) else page
  }
}
