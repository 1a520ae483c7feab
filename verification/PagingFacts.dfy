/** What the paging invariant says in plain words, and where it stops. */
module PagingFacts {
  import opened Seqs
  import opened Counting
  import opened VmState
  import opened Paging
  import opened PagingProof

  ghost function Holders(v: Vm): set<nat> {
    set a | a in v.proc && Holding(v.proc[a])
  }

  /** In every reachable state the mutex value plus the number of holders is 1, so at most one
      process is inside the pager or freeing frames, and at most one flash operation of the
      pager is outstanding. */
  lemma MutualExclusion(v: Vm, es: seq<Event>)
    requires Inv(v) && Legal(v, es)
    ensures var w := Run(v, es);
            && w.mutex.value + |Holders(w)| == 1
            && (w.mutex.queue != [] ==> |Holders(w)| == 1)
            && forall a, b | a in w.proc && b in w.proc && UsesFrame(w.proc[a]) && UsesFrame(w.proc[b]) :: a == b
  {
    hide PoolOK, TlbOK, FaultsOK, Legal, Run;
    RunKeeps(v, es);
    var w := Run(v, es);
    if w.owner.Some? {
      assert Holders(w) == {w.owner.value};
    } else {
      assert Holders(w) == {};
    }
  }

  /** Whenever the mutex is free, an occupied frame's page table entry is valid and points back
      to the frame, its process is live, and every valid entry of a live process is held by
      exactly one frame. */
  lemma PoolInverse(v: Vm, es: seq<Event>)
    requires Inv(v) && Legal(v, es) && Run(v, es).owner == None
    ensures var w := Run(v, es);
            && (forall c | 0 <= c < |w.mem.pool| && w.mem.pool[c].Some? ::
                  Live(w, w.mem.pool[c].value.asid) && PteOf(w.mem.pt, w.mem.pool[c].value) == Pte(true, c))
            && (forall k: Key | Live(w, k.asid) && PteOf(w.mem.pt, k).valid ::
                  exists c :: 0 <= c < |w.mem.pool| && w.mem.pool[c] == Some(k)
                              && forall d | 0 <= d < |w.mem.pool| && w.mem.pool[d] == Some(k) :: d == c)
  {
    hide TlbOK, FaultsOK, MutexOK, Legal, Run;
    RunKeeps(v, es);
    var w := Run(v, es);
    forall k: Key | Live(w, k.asid) && PteOf(w.mem.pt, k).valid
      ensures exists c :: 0 <= c < |w.mem.pool| && w.mem.pool[c] == Some(k)
                          && forall d | 0 <= d < |w.mem.pool| && w.mem.pool[d] == Some(k) :: d == c
    {
      var c := PteOf(w.mem.pt, k).frame;
      assert w.mem.pool[c] == Some(k);
    }
  }

  /** In every reachable state a page has at most one TLB entry, and a live page's agrees with
      the page table entry: both are invalid, or both are valid and name the same frame. */
  lemma TlbCoherence(v: Vm, es: seq<Event>, k: Key, i: nat)
    requires Inv(v) && Legal(v, es) && Hits(Run(v, es).mem, k, i)
    ensures var w := Run(v, es);
            && (Live(w, k.asid) ==> Agree(w.mem.tlb[i].value.pte, PteOf(w.mem.pt, k)))
            && forall j | Hits(w.mem, k, j) :: j == i
  {
    hide PoolOK, FaultsOK, MutexOK, Legal, Run;
    RunKeeps(v, es);
  }

  // ---------------------------------------------------------------- the TLB equals the page tables

  /** Every TLB entry of a live page is its page table entry, frame bits of invalid ones included. */
  ghost predicate TlbExact(v: Vm) {
    forall i | 0 <= i < |v.mem.tlb| && v.mem.tlb[i].Some? && Live(v, v.mem.tlb[i].value.key.asid) ::
      v.mem.tlb[i].value.pte == PteOf(v.mem.pt, v.mem.tlb[i].value.key)
  }

  /** One mapping is changed in the page table, and in the TLB where it is there or is put there. */
  lemma ExactRemap(v: Vm, w: Vm, k: Key, pte: Pte, slot: nat)
    requires TlbExact(v) && TlbUnique(v.mem.tlb) && w.mem.pt == v.mem.pt[k := pte]
    requires w.mem.tlb == Rewrite(v.mem.tlb, k, pte) ||
        (slot < |v.mem.tlb| && w.mem.tlb == Enter(v.mem.tlb, k, pte, slot))
    requires forall a :: Live(w, a) ==> Live(v, a)
    ensures TlbExact(w)
  {
    hide Probe;
  }

  lemma ExactStep(v: Vm, e: Event)
    requires Inv(v) && Enabled(v, e) && TlbExact(v)
    ensures TlbExact(Next(v, e))
  {
    hide MutexOK, PoolOK, FaultsOK, TlbUnique, TlbExact, Rewrite, Enter, Acquire, Release;
    var w := Next(v, e);
    forall a | Live(w, a) ensures Live(v, a) {
      NoRevival(v, e, a);
    }
    match e
    case ClearOld(a) =>
      var c := v.proc[a].frame;
      if v.mem.pool[c] == None {
        ExactSame(v, w);
      } else {
        var k := v.mem.pool[c].value;
        ExactRemap(v, w, k, PteOf(v.mem.pt, k).(valid := false), 0);
      }
    case InstallNew(a, slot) => ExactRemap(v, w, Key(a, v.proc[a].page), Pte(true, v.proc[a].frame), slot);
    case Miss(a, p, slot) => ExactMiss(v, w, Key(a, p), slot);
    case Lock(a) => SameMemory(v, e); ExactSame(v, w);
    case Unlock(a) => SameMemory(v, e); ExactSame(v, w);
    case _ => ExactSame(v, w);
  }

  lemma SameMemory(v: Vm, e: Event)
    requires Sized(v) && Enabled(v, e) && (e.Lock? || e.Unlock?)
    ensures Next(v, e).mem == v.mem
  {
    hide Sized;
  }

  lemma ExactSame(v: Vm, w: Vm)
    requires TlbExact(v) && w.mem.tlb == v.mem.tlb && w.mem.pt == v.mem.pt && forall a :: Live(w, a) ==> Live(v, a)
    ensures TlbExact(w)
  {
  }

  lemma ExactMiss(v: Vm, w: Vm, k: Key, slot: nat)
    requires TlbExact(v) && slot < |v.mem.tlb| && w.mem == Refill(v.mem, k, slot) && forall a :: Live(w, a) ==>
        Live(v, a)
    ensures TlbExact(w)
  {
  }

  lemma {:induction false} ExactRun(v: Vm, es: seq<Event>)
    requires Inv(v) && Legal(v, es) && TlbExact(v)
    ensures TlbExact(Run(v, es))
    decreases |es|
  {
    hide MutexOK, PoolOK, FaultsOK, TlbOK, Sized, TlbExact, Enabled, Next, Flat;
    if es != [] {
      StepKeeps(v, es[0]);
      ExactStep(v, es[0]);
      ExactRun(Next(v, es[0]), es[1..]);
    }
  }

  /** In every run from the initial state a live page's TLB entry equals its page table entry. */
  lemma TlbEqual(frames: seq<Page>, flash: map<Key, Page>, tlbSize: nat, procs: set<nat>, es: seq<Event>, k: Key,
      i: nat)
    requires |frames| > 0 && Legal(Start(frames, flash, tlbSize, procs), es)
    requires var w := Run(Start(frames, flash, tlbSize, procs), es); Live(w, k.asid) && Hits(w.mem, k, i)
    ensures var w := Run(Start(frames, flash, tlbSize, procs), es); w.mem.tlb[i].value.pte == PteOf(w.mem.pt, k)
  {
    hide Legal, Run, Repeat;
    ExactRun(Start(frames, flash, tlbSize, procs), es);
  }

  // ---------------------------------------------------------------- killing the holder

  /** Any process killed, the mutex being left as its death leaves it. */
  ghost function Killed(v: Vm, a: nat): Vm
    requires a in v.proc
  {
    v.(mutex := Drop(v.mutex, {a}), proc := v.proc[a := Phase.Killed])
  }

  /** Nobody holds the mutex and it is not free. */
  ghost predicate Stuck(v: Vm) {
    v.mutex.value <= 0 && Holders(v) == {}
  }

  /** Then it is never granted again: only a holder can release it. */
  lemma StuckStep(v: Vm, e: Event)
    requires Sized(v) && Enabled(v, e) && Stuck(v)
    ensures Stuck(Next(v, e))
  {
    hide Minus, Sized;
    var w := Next(v, e);
    forall a | a in v.proc ensures a in Holders(v) <==> Holding(v.proc[a]) {
    }
    assert forall a | a in w.proc :: !Holding(w.proc[a]);
  }

  lemma {:induction false} StuckForever(v: Vm, es: seq<Event>)
    requires Sized(v) && Legal(v, es) && Stuck(v)
    ensures Stuck(Run(v, es))
    decreases |es|
  {
    hide Sized, Enabled, Next, Stuck;
    if es != [] {
      StuckStep(v, es[0]);
      StuckForever(Next(v, es[0]), es[1..]);
    }
  }

  /** A process can be killed if and only if it does not hold the swap pool mutex: otherwise, in
      every state of every run from there, nobody holds the mutex and it is not free. */
  lemma KillExactly(v: Vm, a: nat)
    requires Inv(v) && a in v.proc && !v.proc[a].Gone?
    ensures Sized(Killed(v, a))
    ensures Inv(Killed(v, a)) <==> !Holding(v.proc[a])
    ensures Holding(v.proc[a]) ==> forall es | Legal(Killed(v, a), es) :: Stuck(Run(Killed(v, a), es))
  {
    hide PoolOK, TlbOK, FaultsOK, Minus, Legal, Run, Stuck;
    var w := Killed(v, a);
    if Holding(v.proc[a]) {
      HolderGone(v, a);
      forall es | Legal(w, es) ensures Stuck(Run(w, es)) {
        StuckForever(w, es);
      }
    } else {
      KillStep(v, Event.Kill(a));
    }
  }

  lemma HolderGone(v: Vm, a: nat)
    requires MutexOK(v) && a in v.proc && Holding(v.proc[a])
    ensures Stuck(Killed(v, a))
  {
    hide Minus, NoDup;
    assert Holders(Killed(v, a)) == {};
  }

  // ---------------------------------------------------------------- starting an ASID again

  /** The entries of m, those of ASID a replaced by image's. */
  function Replaced(m: map<Key, Page>, a: nat, image: map<Key, Page>): map<Key, Page> {
    map k | k in m.Keys + image.Keys && (if k.asid == a then k in image else k in m) ::
        if k.asid == a then image[k] else m[k]
  }

  /** initSupportStructure for an ASID that has terminated: a fresh page table, the TLB as it is;
      image is what the flash device of a holds now. */
  function Restart(v: Vm, a: nat, image: map<Key, Page>): (w: Vm)
    requires Sized(v) && a in v.proc
    ensures Sized(w)
  {
    var pt := map k | k in v.mem.pt && k.asid != a :: v.mem.pt[k];
    v.(mem := v.mem.(pt := pt, flash := Replaced(v.mem.flash, a, image)), proc := v.proc[a := User])
  }

  /** No TLB entry of a can be used to reach memory. */
  predicate NoValidEntry(tlb: seq<Option<TlbEntry>>, a: nat) {
    forall i | 0 <= i < |tlb| && tlb[i].Some? && tlb[i].value.key.asid == a :: !tlb[i].value.pte.valid
  }

  lemma RestartTables(v: Vm, a: nat, image: map<Key, Page>)
    requires Sized(v) && a in v.proc
    ensures var w := Restart(v, a, image);
            && (forall k: Key :: PteOf(w.mem.pt, k) == if k.asid == a then Pte(false, 0) else PteOf(v.mem.pt, k))
            && (forall k: Key :: PageAt(w.mem.flash, k) == PageAt(if k.asid == a then image else v.mem.flash, k))
  {
    hide Sized;
  }

  lemma RestartRest(v: Vm, a: nat, image: map<Key, Page>)
    requires Inv(v) && a in v.proc && v.proc[a].Gone?
    ensures var w := Restart(v, a, image); MutexOK(w) && PoolOK(w) && FaultsOK(w)
  {
    hide TlbOK, NoDup, Replaced;
    RestartTables(v, a, image);
    assert forall c :: Detached(Restart(v, a, image), c) == Detached(v, c);
  }

  /** Without valid TLB entries of a the restarted system holds flat memory again. */
  lemma RestartClean(v: Vm, a: nat, image: map<Key, Page>, m: Memory)
    requires Inv(v) && a in v.proc && v.proc[a].Gone? && Holds(v, m) && NoValidEntry(v.mem.tlb, a)
    ensures Inv(Restart(v, a, image)) && Holds(Restart(v, a, image), Replaced(m, a, image))
  {
    hide PoolOK, FaultsOK, Sized;
    RestartTables(v, a, image);
    RestartRest(v, a, image);
    var w := Restart(v, a, image);
    forall k: Key | Live(w, k.asid) ensures Content(w, k) == PageAt(Replaced(m, a, image), k) {
      RestartContent(v, a, image, k);
    }
  }

  lemma RestartContent(v: Vm, a: nat, image: map<Key, Page>, k: Key)
    requires Inv(v) && a in v.proc && v.proc[a].Gone?
    ensures Content(Restart(v, a, image), k) == if k.asid == a then PageAt(image, k) else Content(v, k)
  {
    hide TlbOK, FaultsOK, NoDup, Replaced;
    RestartTables(v, a, image);
  }

  /** One load through a valid entry of a, wrong if the image is chosen badly enough. */
  lemma StaleEntryLoads(v: Vm, a: nat, i: nat, m: Memory)
    requires Inv(v) && a in v.proc && i < |v.mem.tlb|
    requires v.mem.tlb[i].Some? && v.mem.tlb[i].value.key.asid == a && v.mem.tlb[i].value.pte.valid
    ensures var k := v.mem.tlb[i].value.key; var image := map[k := [Peek(v.mem, Frame(v.mem, i), 0) + 1]];
            var w, es := Restart(v, a, image), [Load(a, k.page, 0, i)];
            Legal(w, es) && !LoadsRight(w, es, Replaced(m, a, image))
  {
    hide MutexOK, PoolOK, FaultsOK, TlbOK;
    var k := v.mem.tlb[i].value.key;
    var image := map[k := [Peek(v.mem, Frame(v.mem, i), 0) + 1]];
    var w, e := Restart(v, a, image), Load(a, k.page, 0, i);
    assert Key(a, k.page) == k;
    assert Enabled(w, e);
    assert PageAt(Replaced(m, a, image), k) == image[k];
    assert [e][1..] == [];
  }

  /** Every load of every run is right after starting a again, whatever its flash blocks hold. */
  ghost predicate SafeToRestart(v: Vm, a: nat, m: Memory)
    requires Sized(v) && a in v.proc
  {
    forall image, es | Legal(Restart(v, a, image), es) ::
      LoadsRight(Restart(v, a, image), es, Replaced(m, a, image))
  }

  /** A terminated ASID can be run again, with any program in its flash blocks, if and only if no
      valid TLB entry of it is left; freeSwapFrames does not look at the TLB. */
  lemma RestartExactly(v: Vm, a: nat, m: Memory)
    requires Inv(v) && a in v.proc && v.proc[a].Gone? && Holds(v, m)
    ensures SafeToRestart(v, a, m) <==> NoValidEntry(v.mem.tlb, a)
  {
    hide MutexOK, PoolOK, FaultsOK, TlbOK, Sized, Legal, LoadsRight, Restart, Replaced, Holds;
    if NoValidEntry(v.mem.tlb, a) {
      forall image, es | Legal(Restart(v, a, image), es)
        ensures LoadsRight(Restart(v, a, image), es, Replaced(m, a, image))
      {
        RestartClean(v, a, image, m);
        Refines(Restart(v, a, image), es, Replaced(m, a, image));
      }
    } else {
      var i :| 0 <= i < |v.mem.tlb| && v.mem.tlb[i].Some? && v.mem.tlb[i].value.key.asid == a &&
          v.mem.tlb[i].value.pte.valid;
      StaleEntryLoads(v, a, i, m);
    }
  }
}
