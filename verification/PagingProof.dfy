/** Every step of the paging protocol keeps its invariant and acts on each live page as the
    same step acts on flat memory. */
module PagingProof {
  import opened Seqs
  import opened Counting
  import opened VmState
  import opened Paging

  /** The step is what it would be on flat memory. */
  ghost predicate Flat(v: Vm, e: Event)
    requires Sized(v) && Enabled(v, e)
  {
    forall k: Key | Live(Next(v, e), k.asid) :: Content(Next(v, e), k) == FlatPage(e, k, Content(v, k))
  }

  // ---------------------------------------------------------------- user accesses

  /** A valid TLB entry leads to the page's own frame, in use. */
  lemma Translates(v: Vm, k: Key, i: nat)
    requires Inv(v) && k.asid in v.proc && v.proc[k.asid].User? && Hits(v.mem, k, i) && v.mem.tlb[i].value.pte.valid
    ensures var c := Frame(v.mem, i);
            && c < |v.mem.pool| && v.mem.pool[c] == Some(k) && PteOf(v.mem.pt, k) == Pte(true, c) && !Detached(v, c)
            && Content(v, k) == v.mem.frames[c]
  {
    assert Live(v, k.asid);
  }

  lemma StoreStep(v: Vm, e: Event)
    requires Inv(v) && Enabled(v, e) && e.Store?
    ensures Inv(Next(v, e)) && Flat(v, e)
  {
    hide NoDup;
    Translates(v, Key(e.a, e.page), e.entry);
    var w := Next(v, e);
    assert w.mem.pool == v.mem.pool && w.mem.pt == v.mem.pt;
  }

  lemma MissStep(v: Vm, e: Event)
    requires Inv(v) && Enabled(v, e) && e.Miss?
    ensures Inv(Next(v, e)) && Flat(v, e)
  {
  }

  // ---------------------------------------------------------------- steps that leave memory alone

  /** The phase may be entered without touching frames: no frame is named, and if the phase is
      a faulted one its page is not valid. */
  predicate Harmless(v: Vm, a: nat, ph: Phase) {
    !ph.Chosen? && !UsesFrame(ph) && (Faulted(ph) ==> !PteOf(v.mem.pt, Key(a, ph.page)).valid)
  }

  /** w differs from v in phases and mutex only. */
  ghost predicate PhaseChange(v: Vm, w: Vm) {
    && w.mem == v.mem && w.proc.Keys == v.proc.Keys
    && (forall a | a in v.proc && w.proc[a] != v.proc[a] :: Harmless(v, a, w.proc[a]) && !UsesFrame(v.proc[a]))
    && (forall a :: Live(w, a) == Live(v, a))
  }

  lemma PhasesKeep(v: Vm, w: Vm)
    requires Inv(v) && MutexOK(w) && PhaseChange(v, w)
    ensures Inv(w) && forall k :: Content(w, k) == Content(v, k)
  {
    hide NoDup;
    SameFrameOut(v, w);
    assert PoolOK(w);
    assert TlbOK(w);
  }

  lemma SameFrameOut(v: Vm, w: Vm)
    requires Inv(v) && MutexOK(w) && PhaseChange(v, w)
    ensures forall c :: Detached(w, c) == Detached(v, c)
    ensures forall k :: OnItsWay(w, k) == OnItsWay(v, k)
  {
    hide PoolOK, TlbOK, NoDup;
  }

  lemma FaultStep(v: Vm, e: Event)
    requires Inv(v) && Enabled(v, e) && e.Fault?
    ensures Inv(Next(v, e)) && Flat(v, e)
  {
    hide PoolOK, TlbOK, FaultsOK, MutexOK;
    FaultedInvalid(v, e);
    QuietMutex(v, e);
    PhasesKeep(v, Next(v, e));
  }

  /** By TLB coherence, a TLB-invalid fault means that the page table entry is not valid. */
  lemma FaultedInvalid(v: Vm, e: Event)
    requires Inv(v) && Enabled(v, e) && e.Fault?
    ensures !PteOf(v.mem.pt, Key(e.a, e.page)).valid
  {
    assert Live(v, e.a);
  }

  lemma QuietMutex(v: Vm, e: Event)
    requires Inv(v) && Enabled(v, e) && (e.Fault? || e.Exit?)
    ensures MutexOK(Next(v, e))
  {
    hide PoolOK, TlbOK, NoDup;
  }

  lemma ExitStep(v: Vm, e: Event)
    requires Inv(v) && Enabled(v, e) && e.Exit?
    ensures Inv(Next(v, e)) && Flat(v, e)
  {
    hide PoolOK, TlbOK, FaultsOK, MutexOK;
    QuietMutex(v, e);
    PhasesKeep(v, Next(v, e));
  }

  // ---------------------------------------------------------------- the mutex

  lemma LockMutex(v: Vm, e: Event)
    requires Inv(v) && Enabled(v, e) && e.Lock?
    ensures MutexOK(Next(v, e)) && PhaseChange(v, Next(v, e))
  {
    hide PoolOK, TlbOK;
  }

  lemma LockStep(v: Vm, e: Event)
    requires Inv(v) && Enabled(v, e) && e.Lock?
    ensures Inv(Next(v, e)) && Flat(v, e)
  {
    hide PoolOK, TlbOK, FaultsOK, MutexOK, PhaseChange, Acquire;
    LockMutex(v, e);
    PhasesKeep(v, Next(v, e));
  }

  lemma UnlockMutex(v: Vm, e: Event)
    requires Inv(v) && Enabled(v, e) && e.Unlock?
    ensures MutexOK(Next(v, e)) && PhaseChange(v, Next(v, e))
  {
    hide PoolOK, TlbOK, FaultsOK, NoDup, MutexOK, PhaseChange;
    HeadWants(v, e);
    if v.mutex.queue == [] {
      FreedMutex(v, e);
    } else {
      HandedMutex(v, e);
    }
    UnlockPhases(v, e);
  }

  /** The head of the queue is waiting, and is neither the holder nor further back in the queue. */
  lemma HeadWants(v: Vm, e: Event)
    requires Inv(v) && Enabled(v, e) && e.Unlock?
    ensures v.owner == Some(e.a)
    ensures v.mutex.queue != [] ==>
              var h := v.mutex.queue[0]; h in v.proc && Wanting(v.proc[h]) && h != e.a && h !in v.mutex.queue[1..]
  {
    hide PoolOK, TlbOK, FaultsOK, Sized;
    var q := v.mutex.queue;
    assert forall i | 0 <= i < |q| - 1 :: q[1..][i] == q[i + 1];
  }

  lemma FreedMutex(v: Vm, e: Event)
    requires Sized(v) && MutexOK(v) && Enabled(v, e) && e.Unlock? && v.owner == Some(e.a) && v.mutex.queue == []
    ensures MutexOK(Next(v, e))
  {
  }

  lemma HandedMutex(v: Vm, e: Event)
    requires Sized(v) && MutexOK(v) && Enabled(v, e) && e.Unlock? && v.owner == Some(e.a) && v.mutex.queue != []
    requires var h := v.mutex.queue[0]; h in v.proc && Wanting(v.proc[h]) && h != e.a && h !in v.mutex.queue[1..]
    ensures MutexOK(Next(v, e))
  {
    hide Sized;
    var q := v.mutex.queue;
    forall i | 0 <= i < |q[1..]| ensures q[1..][i] != q[0] && q[1..][i] in v.proc && Wanting(v.proc[q[1..][i]]) {
      assert q[1..][i] == q[i + 1] && q[1..][i] in q[1..];
    }
  }

  lemma UnlockPhases(v: Vm, e: Event)
    requires Inv(v) && Enabled(v, e) && e.Unlock?
    requires v.mutex.queue != [] ==>
               var h := v.mutex.queue[0]; h in v.proc && Wanting(v.proc[h]) && h != e.a
    ensures PhaseChange(v, Next(v, e))
  {
    hide PoolOK, TlbOK, NoDup, MutexOK;
  }

  lemma UnlockStep(v: Vm, e: Event)
    requires Inv(v) && Enabled(v, e) && e.Unlock?
    ensures Inv(Next(v, e)) && Flat(v, e)
  {
    hide PoolOK, TlbOK, FaultsOK, MutexOK, PhaseChange, Release;
    UnlockMutex(v, e);
    PhasesKeep(v, Next(v, e));
  }

  lemma KillMutex(v: Vm, e: Event)
    requires Inv(v) && Enabled(v, e) && e.Kill?
    ensures MutexOK(Next(v, e)) && PhaseChange(v, Next(v, e))
  {
    hide PoolOK, TlbOK, Minus;
    var w := Next(v, e);
    MinusNoDup(v.mutex.queue, {e.a});
    forall i | 0 <= i < |w.mutex.queue| ensures w.mutex.queue[i] in w.proc && Wanting(w.proc[w.mutex.queue[i]]) {
      assert w.mutex.queue[i] in w.mutex.queue;
    }
  }

  lemma KillStep(v: Vm, e: Event)
    requires Inv(v) && Enabled(v, e) && e.Kill?
    ensures Inv(Next(v, e)) && Flat(v, e)
  {
    hide PoolOK, TlbOK, FaultsOK, MutexOK, PhaseChange;
    KillMutex(v, e);
    PhasesKeep(v, Next(v, e));
  }

  // ---------------------------------------------------------------- the pager

  lemma ChooseStep(v: Vm, e: Event)
    requires Inv(v) && Enabled(v, e) && e.ChooseFrame?
    ensures Inv(Next(v, e)) && Flat(v, e)
  {
    hide FreeFrom, NoDup;
  }

  /** Changing the mapping of k in the table and, where present, in the TLB. */
  lemma RewriteKeeps(v: Vm, k: Key, pte: Pte, w: Vm)
    requires TlbOK(v) && w.mem.pt == v.mem.pt[k := pte] && w.mem.tlb == Rewrite(v.mem.tlb, k, pte)
    requires forall a :: Live(w, a) == Live(v, a)
    ensures TlbOK(w)
  {
    hide Probe;
  }

  lemma ClearPool(v: Vm, e: Event)
    requires Inv(v) && Enabled(v, e) && e.ClearOld?
    ensures PoolOK(Next(v, e))
  {
    hide TlbOK, FaultsOK, Rewrite;
    var w, c := Next(v, e), v.proc[e.a].frame;
    assert v.owner == Some(e.a);
    assert forall a :: Live(w, a) == Live(v, a);
    assert Detached(w, c) && forall d :: !Detached(v, d) && (Detached(w, d) ==> d == c);
  }

  lemma ClearRest(v: Vm, e: Event)
    requires Inv(v) && Enabled(v, e) && e.ClearOld?
    ensures Sized(Next(v, e)) && MutexOK(Next(v, e)) && FaultsOK(Next(v, e))
  {
    hide TlbOK, Rewrite, NoDup;
    assert Live(v, e.a);
  }

  lemma ClearFlat(v: Vm, e: Event)
    requires Inv(v) && Enabled(v, e) && e.ClearOld?
    ensures Flat(v, e)
  {
    hide TlbOK, FaultsOK, Rewrite, NoDup;
    assert v.owner == Some(e.a);
  }

  lemma ClearStep(v: Vm, e: Event)
    requires Inv(v) && Enabled(v, e) && e.ClearOld?
    ensures Inv(Next(v, e)) && Flat(v, e)
  {
    hide MutexOK, PoolOK, FaultsOK, TlbOK, Flat, Rewrite;
    ClearPool(v, e);
    ClearRest(v, e);
    ClearFlat(v, e);
    var m, c, w := v.mem, v.proc[e.a].frame, Next(v, e);
    assert forall a :: Live(w, a) == Live(v, a);
    if m.pool[c] == None {
      SameTlb(v, w);
    } else {
      var k := m.pool[c].value;
      RewriteKeeps(v, k, PteOf(m.pt, k).(valid := false), w);
    }
  }

  lemma SameTlb(v: Vm, w: Vm)
    requires TlbOK(v) && w.mem.tlb == v.mem.tlb && w.mem.pt == v.mem.pt && forall a :: Live(w, a) == Live(v, a)
    ensures TlbOK(w)
  {
  }

  lemma SaveStep(v: Vm, e: Event)
    requires Inv(v) && Enabled(v, e) && e.SaveOld?
    ensures Inv(Next(v, e)) && Flat(v, e)
  {
    hide TlbOK, NoDup, Flat;
    SaveFlat(v, e);
    var w := Next(v, e);
    assert forall a :: Live(w, a) == Live(v, a);
    SameTlb(v, w);
  }

  lemma SaveFlat(v: Vm, e: Event)
    requires Inv(v) && Enabled(v, e) && e.SaveOld?
    ensures Flat(v, e)
  {
    hide TlbOK, NoDup;
    assert v.owner == Some(e.a);
  }

  lemma FetchStep(v: Vm, e: Event)
    requires Inv(v) && Enabled(v, e) && e.FetchNew?
    ensures Inv(Next(v, e)) && Flat(v, e)
  {
    hide TlbOK, NoDup, Flat;
    FetchFlat(v, e);
    var w := Next(v, e);
    assert forall a :: Live(w, a) == Live(v, a);
    SameTlb(v, w);
  }

  lemma FetchFlat(v: Vm, e: Event)
    requires Inv(v) && Enabled(v, e) && e.FetchNew?
    ensures Flat(v, e)
  {
    hide TlbOK, NoDup;
    assert v.owner == Some(e.a);
  }

  lemma EnterKeeps(v: Vm, k: Key, pte: Pte, slot: nat, w: Vm)
    requires TlbOK(v) && slot < |v.mem.tlb| && w.mem.pt == v.mem.pt[k := pte] &&
        w.mem.tlb == Enter(v.mem.tlb, k, pte, slot)
    requires forall a :: Live(w, a) == Live(v, a)
    ensures TlbOK(w)
  {
    hide Probe;
  }

  lemma InstallPool(v: Vm, e: Event)
    requires Inv(v) && Enabled(v, e) && e.InstallNew?
    ensures PoolOK(Next(v, e))
  {
    hide TlbOK, Enter;
    var w, c, k := Next(v, e), v.proc[e.a].frame, Key(e.a, v.proc[e.a].page);
    assert v.owner == Some(e.a);
    assert forall a :: Live(w, a) == Live(v, a);
    assert Detached(v, c) && forall d :: !Detached(w, d) && (Detached(v, d) ==> d == c);
  }

  lemma InstallRest(v: Vm, e: Event)
    requires Inv(v) && Enabled(v, e) && e.InstallNew?
    ensures Sized(Next(v, e)) && MutexOK(Next(v, e)) && FaultsOK(Next(v, e))
  {
    hide TlbOK, PoolOK, Enter, NoDup;
    assert v.owner == Some(e.a);
  }

  lemma InstallFlat(v: Vm, e: Event)
    requires Inv(v) && Enabled(v, e) && e.InstallNew?
    ensures Flat(v, e)
  {
    hide TlbOK, Enter, NoDup;
    assert v.owner == Some(e.a);
  }

  lemma InstallStep(v: Vm, e: Event)
    requires Inv(v) && Enabled(v, e) && e.InstallNew?
    ensures Inv(Next(v, e)) && Flat(v, e)
  {
    hide MutexOK, PoolOK, FaultsOK, TlbOK, Flat, Enter;
    InstallPool(v, e);
    InstallRest(v, e);
    InstallFlat(v, e);
    var c, k, w := v.proc[e.a].frame, Key(e.a, v.proc[e.a].page), Next(v, e);
    assert forall a :: Live(w, a) == Live(v, a);
    EnterKeeps(v, k, Pte(true, c), e.slot, w);
  }

  lemma ReclaimStep(v: Vm, e: Event)
    requires Inv(v) && Enabled(v, e) && e.Reclaim?
    ensures Inv(Next(v, e)) && Flat(v, e)
  {
    hide FreeFrames, NoDup;
  }

  lemma LoadStep(v: Vm, e: Event)
    requires Inv(v) && Enabled(v, e) && e.Load?
    ensures Inv(Next(v, e)) && Flat(v, e)
    ensures Peek(v.mem, Frame(v.mem, e.entry), e.offset) == Word(Content(v, Key(e.a, e.page)), e.offset)
  {
    hide PoolOK, TlbOK, FaultsOK, MutexOK;
    Translates(v, Key(e.a, e.page), e.entry);
  }

  /** Every step keeps the invariant and is the flat memory step. */
  lemma StepKeeps(v: Vm, e: Event)
    requires Inv(v) && Enabled(v, e)
    ensures Inv(Next(v, e)) && Flat(v, e)
  {
    hide Inv, Flat, Next;
    match e
    case Load(_, _, _, _) => LoadStep(v, e);
    case Store(_, _, _, _, _) => StoreStep(v, e);
    case Miss(_, _, _) => MissStep(v, e);
    case Fault(_, _, _) => FaultStep(v, e);
    case Lock(_) => LockStep(v, e);
    case ChooseFrame(_) => ChooseStep(v, e);
    case ClearOld(_) => ClearStep(v, e);
    case SaveOld(_) => SaveStep(v, e);
    case FetchNew(_) => FetchStep(v, e);
    case InstallNew(_, _) => InstallStep(v, e);
    case Unlock(_) => UnlockStep(v, e);
    case Exit(_) => ExitStep(v, e);
    case Reclaim(_) => ReclaimStep(v, e);
    case Kill(_) => KillStep(v, e);
  }

  // ---------------------------------------------------------------- runs

  /** A run from v: each event can happen where it does, and leaves frame numbers that make
      sense (always so while the invariant holds). */
  ghost predicate Legal(v: Vm, es: seq<Event>)
    requires Sized(v)
    decreases |es|
  {
    es == [] || (Enabled(v, es[0]) && Sized(Next(v, es[0])) && Legal(Next(v, es[0]), es[1..]))
  }

  ghost function Run(v: Vm, es: seq<Event>): (w: Vm)
    requires Sized(v) && Legal(v, es)
    ensures Sized(w)
    decreases |es|
  {
    if es == [] then v else Run(Next(v, es[0]), es[1..])
  }

  lemma {:induction false} RunKeeps(v: Vm, es: seq<Event>)
    requires Inv(v) && Legal(v, es)
    ensures Inv(Run(v, es))
    decreases |es|
  {
    hide MutexOK, PoolOK, FaultsOK, TlbOK, Enabled, Next, Flat, Sized;
    if es != [] {
      StepKeeps(v, es[0]);
      RunKeeps(Next(v, es[0]), es[1..]);
    }
  }

  /** After initSwapStructs: nothing paged in, an empty TLB, the mutex free, processes procs. */
  function Initial(frames: seq<Page>, flash: map<Key, Page>, tlbSize: nat, procs: set<nat>): Vm {
    Vm(Mem(Repeat(None, |frames|), frames, map[], flash, Repeat(None, tlbSize), 0), Sema(1, []), None,
        map a | a in procs :: User)
  }

  lemma InitialInv(frames: seq<Page>, flash: map<Key, Page>, tlbSize: nat, procs: set<nat>)
    requires |frames| > 0
    ensures Inv(Initial(frames, flash, tlbSize, procs))
    ensures forall k :: Content(Initial(frames, flash, tlbSize, procs), k) == PageAt(flash, k)
  {
    hide Repeat;
  }

  ghost function Start(frames: seq<Page>, flash: map<Key, Page>, tlbSize: nat, procs: set<nat>): (v: Vm)
    requires |frames| > 0
    ensures Inv(v)
  {
    InitialInv(frames, flash, tlbSize, procs);
    Initial(frames, flash, tlbSize, procs)
  }

  // ---------------------------------------------------------------- virtual memory is flat memory

  /** Flat memory: one page of contents per process page, changed by stores alone. */
  type Memory = map<Key, Page>

  function FlatStep(m: Memory, e: Event): Memory {
    if e.Store? then
      var k := Key(e.a, e.page);
      m[k := Poke(PageAt(m, k), e.offset, e.value)]
    else m
  }

  function FlatRun(m: Memory, es: seq<Event>): Memory
    decreases |es|
  {
    if es == [] then m else FlatRun(FlatStep(m, es[0]), es[1..])
  }

  /** The paging system holds exactly flat memory m for every live process. */
  ghost predicate Holds(v: Vm, m: Memory) {
    forall k: Key | Live(v, k.asid) :: Content(v, k) == PageAt(m, k)
  }

  /** Every load of the run reads what flat memory holds at that moment. */
  ghost predicate LoadsRight(v: Vm, es: seq<Event>, m: Memory)
    requires Sized(v) && Legal(v, es)
    decreases |es|
  {
    es == [] ||
    ((es[0].Load? ==>
        Peek(v.mem, Frame(v.mem, es[0].entry), es[0].offset) == Word(PageAt(m, Key(es[0].a, es[0].page)), es[0].offset))
     && LoadsRight(Next(v, es[0]), es[1..], FlatStep(m, es[0])))
  }

  lemma FlatStepHolds(v: Vm, e: Event, m: Memory)
    requires Inv(v) && Enabled(v, e) && Holds(v, m)
    ensures Holds(Next(v, e), FlatStep(m, e))
    ensures e.Load? ==> Peek(v.mem, Frame(v.mem, e.entry), e.offset) == Word(PageAt(m, Key(e.a, e.page)), e.offset)
  {
    hide MutexOK, PoolOK, FaultsOK, TlbOK, Sized, Content, Next, Poke;
    StepKeeps(v, e);
    if e.Load? {
      LoadStep(v, e);
      LoaderLive(v, e);
    }
    forall k: Key | Live(Next(v, e), k.asid) ensures Content(Next(v, e), k) == PageAt(FlatStep(m, e), k) {
      NoRevival(v, e, k.asid);
    }
  }

  lemma LoaderLive(v: Vm, e: Event)
    requires Enabled(v, e) && (e.Load? || e.Store?)
    ensures Live(v, e.a)
  {
  }

  /** A process whose frames are gone does not come back. */
  lemma NoRevival(v: Vm, e: Event, a: nat)
    requires Inv(v) && Enabled(v, e) && Live(Next(v, e), a)
    ensures Live(v, a)
  {
    hide PoolOK, TlbOK, FaultsOK;
  }

  /** Virtual memory refines flat memory: in every run each load of a live process returns the
      last value stored at that place, initially the flash block, whatever page faults,
      evictions, exits and kills of any processes come in between, and no store is lost. */
  lemma {:induction false} Refines(v: Vm, es: seq<Event>, m: Memory)
    requires Inv(v) && Legal(v, es) && Holds(v, m)
    ensures LoadsRight(v, es, m) && Holds(Run(v, es), FlatRun(m, es))
    decreases |es|
  {
    hide MutexOK, PoolOK, FaultsOK, TlbOK, Sized, Enabled, Next, Flat, Holds, Peek, Word;
    if es != [] {
      StepKeeps(v, es[0]);
      FlatStepHolds(v, es[0], m);
      Refines(Next(v, es[0]), es[1..], FlatStep(m, es[0]));
    }
  }

  lemma RefinesFromStart(frames: seq<Page>, flash: map<Key, Page>, tlbSize: nat, procs: set<nat>, es: seq<Event>)
    requires |frames| > 0 && Legal(Start(frames, flash, tlbSize, procs), es)
    ensures LoadsRight(Start(frames, flash, tlbSize, procs), es, flash)
    ensures Holds(Run(Start(frames, flash, tlbSize, procs), es), FlatRun(flash, es))
  {
    hide Inv, Legal, Run, LoadsRight, Initial;
    InitialInv(frames, flash, tlbSize, procs);
    Refines(Start(frames, flash, tlbSize, procs), es, flash);
  }

  /** e stores to that word. */
  predicate StoresTo(e: Event, k: Key, offset: nat) {
    e.Store? && Key(e.a, e.page) == k && e.offset == offset
  }

  /** x is the last value stored to that word, or, if none was, the value it had. */
  ghost predicate LastStored(es: seq<Event>, k: Key, offset: nat, initially: int, x: int) {
    && (forall i | 0 <= i < |es| && StoresTo(es[i], k, offset) ::
          (forall j | i < j < |es| :: !StoresTo(es[j], k, offset)) ==> x == es[i].value)
    && ((forall i | 0 <= i < |es| :: !StoresTo(es[i], k, offset)) ==> x == initially)
  }

  lemma {:induction false} FlatWord(m: Memory, es: seq<Event>, k: Key, offset: nat)
    requires offset < |PageAt(m, k)|
    ensures |PageAt(FlatRun(m, es), k)| == |PageAt(m, k)|
    ensures LastStored(es, k, offset, PageAt(m, k)[offset], PageAt(FlatRun(m, es), k)[offset])
    decreases |es|
  {
    if es != [] {
      var rest, m1 := es[1..], FlatStep(m, es[0]);
      FlatWord(m1, rest, k, offset);
      assert forall i | 1 <= i < |es| :: es[i] == rest[i - 1];
      assert StoresTo(es[0], k, offset) || PageAt(m1, k)[offset] == PageAt(m, k)[offset];
      var x := PageAt(FlatRun(m, es), k)[offset];
      forall i | 0 <= i < |es| && StoresTo(es[i], k, offset) &&
          (forall j | i < j < |es| :: !StoresTo(es[j], k, offset))
        ensures x == es[i].value
      {
        assert forall j | 0 <= j < |rest| && i - 1 < j :: rest[j] == es[j + 1];
        assert i > 0 ==> StoresTo(rest[i - 1], k, offset);
      }
    }
  }

  /** The word that a load finds at its place in the frame its TLB entry names is the last one
      stored there by its process, whatever frames the page has been in since. */
  lemma ReadsLastStored(v: Vm, m: Memory, es: seq<Event>, e: Event)
    requires Inv(v) && Holds(v, m) && Legal(v, es) && Enabled(Run(v, es), e) && e.Load?
    requires e.offset < |PageAt(m, Key(e.a, e.page))|
    ensures var w, k := Run(v, es).mem, Key(e.a, e.page);
            var f := w.tlb[e.entry].value.pte.frame;
            && f < |w.frames| && e.offset < |w.frames[f]|
            && LastStored(es, k, e.offset, PageAt(m, k)[e.offset], w.frames[f][e.offset])
  {
    hide MutexOK, PoolOK, FaultsOK, TlbOK, Next, Flat, Legal, LastStored, FlatRun, LoadsRight, Content;
    var w, k := Run(v, es), Key(e.a, e.page);
    Refines(v, es, m);
    RunKeeps(v, es);
    FlatWord(m, es, k, e.offset);
    LoaderLive(w, e);
    Translates(w, k, e.entry);
  }
}
