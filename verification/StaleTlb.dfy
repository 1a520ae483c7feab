/** Runs in which an ASID is started again while the TLB still maps a page of its former self:
    it reads another process's memory. */
module StaleTlb {
  import opened Seqs
  import opened Counting
  import opened VmState
  import opened Paging
  import opened PagingProof
  import opened PagingFacts

  lemma Follow(v: Vm, e: Event, es: seq<Event>)
    requires Sized(v) && Enabled(v, e) && Sized(Next(v, e)) && Legal(Next(v, e), es)
    ensures Legal(v, [e] + es) && Run(v, [e] + es) == Run(Next(v, e), es)
  {
    hide Sized, Enabled, Next;
    assert ([e] + es)[1..] == es;
  }

  /** Two runs, one after the other. */
  lemma {:induction false} Join(v: Vm, es: seq<Event>, fs: seq<Event>)
    requires Sized(v) && Legal(v, es) && Legal(Run(v, es), fs)
    ensures Legal(v, es + fs) && Run(v, es + fs) == Run(Run(v, es), fs)
    decreases |es|
  {
    hide Sized, Enabled, Next;
    if es == [] {
      assert es + fs == fs;
    } else {
      assert (es + fs)[1..] == es[1..] + fs;
      Join(Next(v, es[0]), es[1..], fs);
    }
  }

  /** Nobody holds the mutex. */
  ghost predicate Quiet(v: Vm) {
    v.mutex == Sema(1, []) && v.owner == None && forall b | b in v.proc :: !Holding(v.proc[b])
  }

  /** Moreover all swap frames are free. */
  ghost predicate Idle(v: Vm) {
    Quiet(v) && 0 < |v.mem.pool| == |v.mem.frames| && forall c | 0 <= c < |v.mem.pool| :: v.mem.pool[c] == None
  }

  lemma IdleSized(v: Vm)
    requires Idle(v)
    ensures Sized(v)
  {
  }

  /** Process a uses page 0: a TLB miss, a page fault and the whole pager call. */
  function PageIn(a: nat, slot: nat): seq<Event> {
    [Miss(a, 0, slot), Fault(a, 0, slot)] + Pager(a, slot)
  }

  function Pager(a: nat, slot: nat): seq<Event> {
    [Lock(a), ChooseFrame(a), ClearOld(a), FetchNew(a), InstallNew(a, slot), Unlock(a)]
  }

  /** Process a terminates. */
  function Leave(a: nat): seq<Event> {
    [Exit(a), Lock(a), Reclaim(a), Unlock(a)]
  }

  /** v after the TLB miss and the fault. */
  function AtFault(v: Vm, a: nat, slot: nat): Vm
    requires slot < |v.mem.tlb|
  {
    v.(mem := Refill(v.mem, Key(a, 0), slot), proc := v.proc[a := WantsPage(0)])
  }

  lemma Faults(v: Vm, a: nat, slot: nat)
    requires Idle(v) && a in v.proc && v.proc[a].User? && slot < |v.mem.tlb|
    requires Probe(v.mem.tlb, Key(a, 0)) == None && !PteOf(v.mem.pt, Key(a, 0)).valid
    ensures Sized(v) && Legal(v, [Miss(a, 0, slot), Fault(a, 0, slot)])
    ensures Run(v, [Miss(a, 0, slot), Fault(a, 0, slot)]) == AtFault(v, a, slot)
  {
    var e, f := Miss(a, 0, slot), Fault(a, 0, slot);
    IdleSized(v);
    var v1 := Next(v, e);
    IdleSized(v1);
    var v2 := Next(v1, f);
    IdleSized(v2);
    Follow(v1, f, []);
    assert [f] + [] == [f] && [e] + [f] == [e, f];
    Follow(v, e, [f]);
  }

  /** v when the page is in frame 0. */
  function PagedIn(v: Vm, a: nat, slot: nat): Vm
    requires slot < |v.mem.tlb| && 0 < |v.mem.pool| == |v.mem.frames|
  {
    var k := Key(a, 0);
    v.(mem := v.mem.(pool := v.mem.pool[0 := Some(k)], frames := v.mem.frames[0 := PageAt(v.mem.flash, k)],
                     pt := v.mem.pt[k := Pte(true, 0)], tlb := v.mem.tlb[slot := Some(TlbEntry(k, Pte(true, 0)))]))
  }

  /** The state while a holds the mutex: memory m, phase ph. */
  function Inside(v: Vm, a: nat, m: Mem, ph: Phase): Vm {
    v.(mem := m, mutex := Sema(0, []), owner := Some(a), proc := v.proc[a := ph])
  }

  lemma InsideSized(v: Vm, a: nat, m: Mem, ph: Phase)
    requires Quiet(v) && 0 < |m.pool| == |m.frames|
    requires ph.Chosen? || UsesFrame(ph) ==> ph.frame == 0 && !ph.Evicting?
    ensures Sized(Inside(v, a, m, ph))
  {
  }

  lemma QuietSized(v: Vm)
    requires Quiet(v) && 0 < |v.mem.pool| == |v.mem.frames|
    ensures Sized(v)
  {
  }

  /** The mutex is taken and given back. */
  lemma LockUnlock(v: Vm, a: nat, m: Mem, ph: Phase)
    requires Quiet(v) && a in v.proc && Paging.Wanting(v.proc[a]) && Sized(v)
    requires Sized(Inside(v, a, m, ph)) && (ph.Installed? || ph.ExitFreed?)
    ensures Enabled(v, Lock(a)) && Next(v, Lock(a)) == Inside(v, a, v.mem, Granted(v.proc[a]))
    ensures Enabled(Inside(v, a, m, ph), Unlock(a))
    ensures Next(Inside(v, a, m, ph), Unlock(a)) == v.(mem := m, proc := v.proc[a := Released(ph)])
  {
    hide Sized;
    assert v.proc[a := ph][a := Released(ph)] == v.proc[a := Released(ph)];
  }

  // The pager's steps with frame 0 free.

  lemma Choosing(v: Vm, a: nat, m: Mem)
    requires Quiet(v) && a in v.proc && 0 < |m.pool| == |m.frames| && m.pool[0] == None
    ensures var s := Inside(v, a, m, Locked(0));
            Sized(s) && Enabled(s, ChooseFrame(a)) && Next(s, ChooseFrame(a)) == Inside(v, a, m, Chosen(0, 0))
  {
    hide Sized, Install, ReadIn, Quiet;
    InsideSized(v, a, m, Locked(0));
    assert Choose(m) == (m, 0);
    assert v.proc[a := Locked(0)][a := Chosen(0, 0)] == v.proc[a := Chosen(0, 0)];
  }

  lemma Clearing(v: Vm, a: nat, m: Mem)
    requires Quiet(v) && a in v.proc && 0 < |m.pool| == |m.frames| && m.pool[0] == None
    ensures var s := Inside(v, a, m, Chosen(0, 0));
            Sized(s) && Enabled(s, ClearOld(a)) && Next(s, ClearOld(a)) == Inside(v, a, m, Loading(0, 0))
  {
    hide Sized, Install, ReadIn, Quiet;
    InsideSized(v, a, m, Chosen(0, 0));
    assert v.proc[a := Chosen(0, 0)][a := Loading(0, 0)] == v.proc[a := Loading(0, 0)];
  }

  lemma Fetching(v: Vm, a: nat, m: Mem)
    requires Quiet(v) && a in v.proc && 0 < |m.pool| == |m.frames| && m.pool[0] == None
    ensures var s := Inside(v, a, m, Loading(0, 0));
            Sized(s) && Enabled(s, FetchNew(a)) &&
                Next(s, FetchNew(a)) == Inside(v, a, ReadIn(m, Key(a, 0), 0), Loaded(0, 0))
  {
    hide Sized, Install, ReadIn, Quiet;
    InsideSized(v, a, m, Loading(0, 0));
    assert v.proc[a := Loading(0, 0)][a := Loaded(0, 0)] == v.proc[a := Loaded(0, 0)];
  }

  lemma Installing(v: Vm, a: nat, m: Mem, slot: nat)
    requires Quiet(v) && a in v.proc && 0 < |m.pool| == |m.frames| && m.pool[0] == None && slot < |m.tlb|
    ensures var s := Inside(v, a, m, Loaded(0, 0));
            Sized(s) && Enabled(s, InstallNew(a, slot)) &&
                Next(s, InstallNew(a, slot)) == Inside(v, a, Install(m, Key(a, 0), 0, slot), Installed)
  {
    hide Sized, Install, ReadIn, Quiet;
    InsideSized(v, a, m, Loaded(0, 0));
    assert v.proc[a := Loaded(0, 0)][a := Installed] == v.proc[a := Installed];
  }

  lemma Enters(m: Mem, k: Key, slot: nat)
    requires slot < |m.tlb| && Probe(m.tlb, k) == None
    ensures Enter(Refill(m, k, slot).tlb, k, Pte(true, 0), slot) == m.tlb[slot := Some(TlbEntry(k, Pte(true, 0)))]
  {
    var tlb := Refill(m, k, slot).tlb;
    assert tlb[slot].Some? && tlb[slot].value.key == k;
    assert forall j | 0 <= j < |tlb| && j != slot :: tlb[j] == m.tlb[j];
  }

  /** The memory the pager call ends with. */
  lemma PagerMemory(v: Vm, a: nat, slot: nat)
    requires slot < |v.mem.tlb| && Probe(v.mem.tlb, Key(a, 0)) == None && 0 < |v.mem.pool| == |v.mem.frames|
    ensures var m := Refill(v.mem, Key(a, 0), slot);
            |m.frames| == |m.pool| && Install(ReadIn(m, Key(a, 0), 0), Key(a, 0), 0, slot) == PagedIn(v, a, slot).mem
  {
    hide Enter, Probe;
    Enters(v.mem, Key(a, 0), slot);
  }

  lemma Pages(v: Vm, a: nat, slot: nat)
    requires Idle(v) && a in v.proc && v.proc[a].User? && slot < |v.mem.tlb|
    requires Probe(v.mem.tlb, Key(a, 0)) == None
    ensures var w := AtFault(v, a, slot);
            Sized(w) && Legal(w, Pager(a, slot)) && Run(w, Pager(a, slot)) == PagedIn(v, a, slot)
  {
    hide Enter, Probe, Sized, Enabled, Next, Install, ReadIn, Legal, Run;
    var w, k := AtFault(v, a, slot), Key(a, 0);
    AtFaultQuiet(v, a, slot);
    ReadInSizes(w.mem, k);
    var m, m' := w.mem, ReadIn(w.mem, k, 0);
    var m'' := Install(m', k, 0, slot);
    PagerMemory(v, a, slot);
    QuietSized(w);
    InsideSized(w, a, m'', Installed);
    LockUnlock(w, a, m'', Installed);
    Choosing(w, a, m);
    Clearing(w, a, m);
    Fetching(w, a, m);
    Installing(w, a, m', slot);
    assert v.proc[a := WantsPage(0)][a := User] == v.proc;
    var w6 := w.(mem := m'', proc := w.proc[a := User]);
    assert w6 == PagedIn(v, a, slot);
    QuietSized(w6);
    Nothing(w6);
    Follow(Inside(w, a, m'', Installed), Unlock(a), []);
    Follow(Inside(w, a, m', Loaded(0, 0)), InstallNew(a, slot), [Unlock(a)] + []);
    Follow(Inside(w, a, m, Loading(0, 0)), FetchNew(a), [InstallNew(a, slot)] + ([Unlock(a)] + []));
    Follow(Inside(w, a, m, Chosen(0, 0)), ClearOld(a), [FetchNew(a)] + ([InstallNew(a, slot)] + ([Unlock(a)] + [])));
    var rest := [ClearOld(a)] + ([FetchNew(a)] + ([InstallNew(a, slot)] + ([Unlock(a)] + [])));
    Follow(Inside(w, a, m, Locked(0)), ChooseFrame(a), rest);
    Follow(w, Lock(a), [ChooseFrame(a)] + rest);
    assert [Lock(a)] + ([ChooseFrame(a)] + rest) == Pager(a, slot);
  }

  lemma AtFaultQuiet(v: Vm, a: nat, slot: nat)
    requires Idle(v) && a in v.proc && slot < |v.mem.tlb|
    ensures var w := AtFault(v, a, slot);
            && Quiet(w) && 0 < |w.mem.pool| == |w.mem.frames| && w.mem.pool[0] == None && slot < |w.mem.tlb|
            && a in w.proc && Paging.Wanting(w.proc[a]) && Granted(w.proc[a]) == Locked(0)
  {
  }

  lemma ReadInSizes(m: Mem, k: Key)
    requires |m.frames| > 0
    ensures var r := ReadIn(m, k, 0); |r.frames| == |m.frames| && r.pool == m.pool && r.tlb == m.tlb
  {
  }

  lemma Nothing(v: Vm)
    requires Sized(v)
    ensures Legal(v, []) && Run(v, []) == v
  {
  }

  /** a's page 0 is in frame 0, the other frames are free. */
  ghost predicate Alone(v: Vm, a: nat) {
    && Quiet(v) && a in v.proc && v.proc[a].User? && 0 < |v.mem.pool| == |v.mem.frames|
    && v.mem.pool[0] == Some(Key(a, 0)) && forall c | 0 < c < |v.mem.pool| :: v.mem.pool[c] == None
  }

  /** v when a has terminated. */
  function Left(v: Vm, a: nat): Vm
    requires 0 < |v.mem.pool|
  {
    v.(mem := v.mem.(pool := v.mem.pool[0 := None]), proc := v.proc[a := Gone])
  }

  lemma Leaves(v: Vm, a: nat)
    requires Alone(v, a)
    ensures Sized(v) && Legal(v, Leave(a)) && Run(v, Leave(a)) == Left(v, a)
  {
    hide Sized, Enabled, Next, Legal, Run;
    var w, m := v.(proc := v.proc[a := WantsExit]), v.mem.(pool := v.mem.pool[0 := None]);
    QuietSized(v);
    QuietSized(w);
    InsideSized(w, a, m, ExitFreed);
    InsideSized(w, a, w.mem, ExitLocked);
    LeaveSteps(v, a);
    LockUnlock(w, a, m, ExitFreed);
    var r := w.(mem := m, proc := w.proc[a := Gone]);
    assert r == Left(v, a);
    QuietSized(r);
    Nothing(r);
    Follow(Inside(w, a, m, ExitFreed), Unlock(a), []);
    Follow(Inside(w, a, w.mem, ExitLocked), Reclaim(a), [Unlock(a)] + []);
    Follow(w, Lock(a), [Reclaim(a)] + ([Unlock(a)] + []));
    Follow(v, Exit(a), [Lock(a)] + ([Reclaim(a)] + ([Unlock(a)] + [])));
    assert [Exit(a)] + ([Lock(a)] + ([Reclaim(a)] + ([Unlock(a)] + []))) == Leave(a);
  }

  lemma LeaveSteps(v: Vm, a: nat)
    requires Alone(v, a) && Sized(v)
    ensures var w := v.(proc := v.proc[a := WantsExit]);
            && Enabled(v, Exit(a)) && Next(v, Exit(a)) == w
            && var s := Inside(w, a, w.mem, ExitLocked);
            && Sized(s) && Enabled(s, Reclaim(a))
            && Next(s, Reclaim(a)) == Inside(w, a, v.mem.(pool := v.mem.pool[0 := None]), ExitFreed)
  {
    hide Sized, FreeFrames;
    var w := v.(proc := v.proc[a := WantsExit]);
    InsideSized(w, a, w.mem, ExitLocked);
    assert FreeFrames(v.mem.pool, a) == v.mem.pool[0 := None];
    assert w.proc[a := ExitLocked][a := ExitFreed] == w.proc[a := ExitFreed];
  }

  /** Process a uses its page and terminates, and process b takes the frame. */
  function History(a: nat, b: nat): seq<Event> {
    PageIn(a, 0) + (Leave(a) + PageIn(b, 1))
  }

  lemma PageInRun(v: Vm, a: nat, slot: nat)
    requires Idle(v) && a in v.proc && v.proc[a].User? && slot < |v.mem.tlb|
    requires Probe(v.mem.tlb, Key(a, 0)) == None && !PteOf(v.mem.pt, Key(a, 0)).valid
    ensures Sized(v) && Legal(v, PageIn(a, slot)) && Run(v, PageIn(a, slot)) == PagedIn(v, a, slot)
  {
    hide Sized, Legal, Run, Probe, Idle;
    Faults(v, a, slot);
    Pages(v, a, slot);
    Join(v, [Miss(a, 0, slot), Fault(a, 0, slot)], Pager(a, slot));
  }

  /** After the run es, a has terminated and left a valid TLB entry i, and started again, with
      image in its flash blocks, its first load through that entry returns word. */
  ghost predicate FirstLoads(v: Vm, es: seq<Event>, a: nat, i: nat, image: map<Key, Page>, word: int) {
    && Sized(v) && Legal(v, es)
    && var r := Run(v, es);
    && a in r.proc && r.proc[a].Gone? && i < |r.mem.tlb| && r.mem.tlb[i].Some? && r.mem.tlb[i].value.pte.valid
    && var w := Restart(r, a, image);
    Enabled(w, Load(a, r.mem.tlb[i].value.key.page, 0, i)) && Peek(w.mem, Frame(w.mem, i), 0) == word
  }

  /** From the initial state, with any swap frames, two TLB entries at least and processes a and
      b among others: afterwards ASID a is started again, and whatever its flash device holds,
      the first thing it loads from its page 0 is the word process b has there. */
  lemma ReadsAnothersPage(frames: seq<Page>, flash: map<Key, Page>, tlbSize: nat, procs: set<nat>, a: nat, b: nat,
                          image: map<Key, Page>)
    requires |frames| > 0 && tlbSize >= 2 && a in procs && b in procs && a != b
    ensures FirstLoads(Initial(frames, flash, tlbSize, procs), History(a, b), a, 0, image,
                       Word(PageAt(flash, Key(b, 0)), 0))
  {
    hide Sized, Legal, Run, Restart, Initial, Enabled, Word, Probe, Idle, Alone;
    var v := Initial(frames, flash, tlbSize, procs);
    Begins(frames, flash, tlbSize, procs);
    PageInRun(v, a, 0);
    var v1 := PagedIn(v, a, 0);
    AfterPageIn(v, a);
    Leaves(v1, a);
    var v2 := Left(v1, a);
    AfterLeaving(v1, a, b);
    PageInRun(v2, b, 1);
    var r := PagedIn(v2, b, 1);
    Join(v1, Leave(a), PageIn(b, 1));
    Join(v, PageIn(a, 0), Leave(a) + PageIn(b, 1));
    Reuses(r, a, image);
  }

  lemma Begins(frames: seq<Page>, flash: map<Key, Page>, tlbSize: nat, procs: set<nat>)
    requires |frames| > 0
    ensures var v := Initial(frames, flash, tlbSize, procs);
            && Idle(v) && 0 < |v.mem.pool| == |v.mem.frames| && v.mem.pt == map[] && v.mem.flash == flash &&
                v.mem.tlb == Repeat(None, tlbSize)
            && (forall k :: Probe(v.mem.tlb, k) == None)
            && forall a | a in procs :: a in v.proc && v.proc[a].User?
  {
    hide Probe;
  }

  lemma AfterPageIn(v: Vm, a: nat)
    requires Idle(v) && a in v.proc && v.proc[a].User? && |v.mem.tlb| > 0
    ensures Alone(PagedIn(v, a, 0), a)
  {
  }

  /** b finds the state it starts from. */
  lemma AfterLeaving(v: Vm, a: nat, b: nat)
    requires Alone(v, a) && b in v.proc && v.proc[b].User? && a != b && !PteOf(v.mem.pt, Key(b, 0)).valid
    requires |v.mem.tlb| > 0 && v.mem.tlb[0] == Some(TlbEntry(Key(a, 0), Pte(true, 0)))
    requires forall i | 0 < i < |v.mem.tlb| :: v.mem.tlb[i] == None
    ensures var w := Left(v, a);
            && Idle(w) && 0 < |w.mem.pool| == |w.mem.frames| && w.mem.tlb == v.mem.tlb && w.mem.pt == v.mem.pt &&
                w.mem.flash == v.mem.flash
            && b in w.proc && w.proc[b].User? && Probe(w.mem.tlb, Key(b, 0)) == None
  {
    hide Probe;
  }

  lemma Reuses(r: Vm, a: nat, image: map<Key, Page>)
    requires Sized(r) && a in r.proc && |r.mem.tlb| > 0 && |r.mem.frames| > 0
    requires r.mem.tlb[0] == Some(TlbEntry(Key(a, 0), Pte(true, 0)))
    ensures var w := Restart(r, a, image);
            && Enabled(w, Load(a, 0, 0, 0))
            && Peek(w.mem, Frame(w.mem, 0), 0) == Word(r.mem.frames[0], 0)
  {
    hide Sized;
  }
}
