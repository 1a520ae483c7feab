/** Whole runs of the nucleus and the invariant they keep. */
module Runs {
  import opened Seqs
  import opened KernelState
  import opened Forest
  import opened Killing
  import opened KernelSteps
  import opened Stability

  /** One entry into the kernel.  User semaphores are Usr addresses, so they are non-NULL and
      not device semaphores; a device is named by its semaphore index. */
  datatype Event =
    | Create(prio: int, support: nat, a0: int)
    | Terminate(target: Option<nat>)
    | P(addr: nat)
    | V(addr: nat)
    | Io(device: nat)
    | WaitClock
    | GiveWay
    | Trap
    | Device(device: nat, status: int)
    | TimeSlice(a0: int)
    | Clock

  /** The events a running process causes; the others are interrupts. */
  predicate ByProcess(e: Event) {
    !e.Device? && !e.Clock?
  }

  /** The PCBs in no list: the current process and the lost ones. */
  ghost function Away(k: K): set<nat> {
    set x | 0 <= x < |k.pcb| && x !in k.free && x !in k.ready && k.pcb[x].semAdd == None
  }

  /** The processes that have come out of every list without running: DOIO gives up the
      processor even where its P goes through. */
  ghost function Lost(k: K): set<nat> {
    Away(k) - Current(k)
  }

  ghost function Current(k: K): set<nat> {
    if k.current.Some? then {k.current.value} else {}
  }

  ghost predicate Settled(k: K) {
    Stable(k, Away(k)) && Current(k) <= Away(k)
  }

  /** Device semaphores are counting semaphores; the pseudo-clock's is never positive. */
  ghost predicate DevicesOK(k: K) {
    && Val(k.sem, CLOCK) == 0
    && forall d | 0 <= d < NRSEMAPHORES ::
         Val(k.sem, Dev(d)) >= 0 && (Dev(d) in k.blocked ==> Val(k.sem, Dev(d)) == 0)
  }

  /** The state between two kernel entries. */
  ghost predicate Inv(k: K) {
    && Settled(k)
    && (k.mode == Running <==> k.current.Some?)
    && (k.mode != Running ==> k.ready == [])
    && DevicesOK(k)
  }

  /** Stability determines who is away. */
  lemma AwayIs(k: K, away: set<nat>)
    requires Stable(k, away)
    ensures Away(k) == away
  {
    hide WellFormed, FreeClean;
  }

  lemma AwayConsistent(k: K)
    requires Settled(k)
    ensures Consistent(k) && |k.kids| == |k.pcb|
    ensures forall a | a in k.blocked :: k.blocked[a] != [] && k.blocked[a][0] < |k.pcb|
    ensures k.free != [] ==> k.free[0] < |k.pcb|
    ensures k.current.Some? ==> k.current.value in Away(k) && k.current.value < |k.pcb|
  {
    hide ChildrenOK, ParentsOK, BirthsOK, NoDup;
    if k.current.Some? { assert k.current.value in Current(k); }
  }

  // ---------------------------------------------------------------- steps

  /** When an event can happen: processes act and time slices end while a process runs, other
      interrupts come while one runs or the kernel waits.  The last line is the environment's
      duty: a TERMPROCESS target is live, and no proper ancestor of the caller. */
  ghost predicate Enabled(k: K, e: Event)
    requires Settled(k)
  {
    AwayConsistent(k);
    && (ByProcess(e) ==> k.mode == Running && k.current.Some?)
    && (!ByProcess(e) ==> k.mode == Running || k.mode == Waiting)
    && (e.Io? || e.Device? ==> e.device < PSEUDOINDEX)
    && (e.Terminate? && e.target.Some? ==> Live(k, e.target.value) && SafeTarget(k, e.target.value))
  }

  predicate Live(k: K, t: nat) {
    t < |k.pcb| && t !in k.free
  }

  ghost predicate SafeTarget(k: K, t: nat)
    requires Settled(k)
  {
    AwayConsistent(k);
    k.current.Some? ==> t == k.current.value || !Descends(k, t, k.current.value)
  }

  /** The step each handler of Nucleus is proved to make. */
  ghost function Next(k: K, e: Event): K
    requires Settled(k) && (ByProcess(e) ==> k.current.Some?)
    requires e.Terminate? && e.target.Some? ==> Live(k, e.target.value)
  {
    AwayConsistent(k);
    match e
    case Create(prio, support, a0) => CreateK(k, prio, support, a0)
    case Terminate(target) => TerminateK(k, target)
    case P(addr) => PasserenK(k, Usr(addr))
    case V(addr) => VerhogenK(k, Usr(addr))
    case Io(d) => SoftBlockK(k, Dev(d), DOIO)
    case WaitClock => SoftBlockK(k, CLOCK, CLOCKWAIT)
    case GiveWay => YieldK(k)
    case Trap => TrapK(k)
    case Device(d, status) => DeviceK(k, Dev(d), status)
    case TimeSlice(a0) => TimeSliceK(k, a0)
    case Clock => ClockTickK(k)
  }

  /** The processes an event kills. */
  ghost function Victims(k: K, e: Event): set<nat>
    requires Inv(k) && Enabled(k, e)
  {
    AwayConsistent(k);
    match e
    case Terminate(Some(t)) => Elems(PostOrder(k, t))
    case Trap => if k.pcb[Cur(k)].support == 0 then Elems(PostOrder(k, Cur(k))) else {}
    case _ => {}
  }

  /** The process an event loses: the caller of a DOIO whose P goes through. */
  ghost function Loses(k: K, e: Event): set<nat> {
    if e.Io? && Val(k.sem, Dev(e.device)) > 0 then Current(k) else {}
  }

  // ---------------------------------------------------------------- every step keeps the invariant

  /** r is a state between entries, and the processes lost in it are these. */
  ghost predicate Rests(r: K, lost: set<nat>) {
    Inv(r) && Lost(r) == lost
  }

  /** A scheduling decision with the processor free re-establishes the state at rest. */
  lemma SchedRests(k: K, lost: set<nat>)
    requires Stable(k, lost) && k.current == None && DevicesOK(k)
    ensures Rests(Sched(k), lost)
  {
    hide WellFormed, FreeClean, Homed, Counted, Away;
    StableSched(k, lost);
    if k.ready == [] { AwayIs(Sched(k), lost); } else { AwayIs(Sched(k), lost + {k.ready[0]}); }
  }

  /** A step that leaves the processor to whom it belongs. */
  lemma StaysAtRest(k: K, r: K)
    requires Inv(k) && Stable(r, Away(k)) && r.current == k.current && DevicesOK(r) && k.current.Some?
    requires r.mode == k.mode
    ensures Rests(r, Lost(k))
  {
    hide WellFormed, FreeClean, Homed, Counted, Away, DevicesOK;
    AwayIs(r, Away(k));
  }

  /** Fewer queues and the same words. */
  lemma DevicesKept(k: K, r: K)
    requires DevicesOK(k) && (forall d | 0 <= d < NRSEMAPHORES :: Val(r.sem, Dev(d)) == Val(k.sem, Dev(d)))
    requires forall a: SemAddr | a.Dev? && a in r.blocked :: a in k.blocked
    ensures DevicesOK(r)
  {
    assert Val(r.sem, CLOCK) == 0;
  }

  lemma CreateInv(k: K, prio: int, support: nat, a0: int)
    requires Inv(k) && k.current.Some?
    ensures Rests(Next(k, Create(prio, support, a0)), Lost(k))
  {
    hide ChildrenOK, ParentsOK, QueuesOK, Homed, Slot, Allocated, Away, DevicesOK;
    AwayConsistent(k);
    if k.free != [] {
      var x, c := k.free[0], k.current.value;
      var k1 := Allocated(k).(processCount := Add32(k.processCount, 1));
      StableAllocated(k, Away(k));
      AllocatedFacts(k);
      var p := Pcb(k.current, None, prio, k.nextPid, support, a0);
      StableAdopted(k1, Away(k) + {x}, c, x, p);
      var k2 := k1.(kids := k1.kids[c := [x] + k1.kids[c]], pcb := k1.pcb[x := p]);
      StableReady(k2, Away(k) + {x}, x);
      assert Away(k) + {x} - {x} == Away(k);
      var r := MakeReady(k2, x);
      assert Next(k, Create(prio, support, a0)) == r;
      DevicesKept(k, r);
      StaysAtRest(k, r);
    }
  }

  lemma AllocatedFacts(k: K)
    requires Consistent(k) && |k.kids| == |k.pcb| && k.free != [] && k.free[0] < |k.pcb| && k.current.Some?
    ensures var x, c, k1 := k.free[0], k.current.value, Allocated(k);
            && c < |k.pcb| && c != x && |k1.kids| == |k1.pcb| == |k.pcb| && k1.kids == k.kids && c !in k1.free
            && k1.pcb[x] == Pcb(None, None, 0, k.nextPid, 0, 0) && k1.pcb[c].pid < k.nextPid
            && k1.sem == k.sem && k1.mode == k.mode && k1.current == k.current && k1.processCount == k.processCount
            && k1.blocked == k.blocked
  {
    hide ChildrenOK, ParentsOK, QueuesOK;
    var x := k.free[0];
    assert x in k.free && k.kids[x] == [] && k.kids[x := []] == k.kids;
    assert k.pcb[k.current.value].pid < k.nextPid;
  }

  /** Killing a live process keeps stability; the current process is then away unless killed. */
  lemma KillAway(k: K, t: nat)
    requires Settled(k) && Consistent(k) && Live(k, t)
    ensures Stable(Kill(k, t), Away(k) - Elems(PostOrder(k, t)))
    ensures k.current.Some? ==> (Descends(k, t, k.current.value) <==> k.current.value in Elems(PostOrder(k, t)))
    ensures k.current.Some? && Descends(k, t, k.current.value) ==> k.current.value in Kill(k, t).free
    ensures Kill(k, t).sem == k.sem && Kill(k, t).current == k.current && Kill(k, t).mode == k.mode
    ensures forall a | a in Kill(k, t).blocked :: a in k.blocked
    ensures k.current == Some(t) ==> Descends(k, t, k.current.value)
  {
    hide WellFormed, FreeClean, Homed, Counted, PostOrder, Minus, KidsWithout, Cleared, Away;
    ConsistentForest(k);
    StableKill(k, Away(k), t);
    PostOrderExact(k, t);
    if k.current.Some? && Descends(k, t, k.current.value) {
      assert k.current.value in Reverse(PostOrder(k, t));
    }
  }

  lemma TerminateInv(k: K, t: Option<nat>)
    requires Inv(k) && k.current.Some? && Enabled(k, Terminate(t))
    ensures Rests(Next(k, Terminate(t)), Lost(k) - Victims(k, Terminate(t)))
  {
    hide WellFormed, FreeClean, Homed, Counted, Kill, Descends, Sched, Away, DevicesOK, PostOrder;
    AwayConsistent(k);
    ConsistentForest(k);
    if t.Some? {
      KillAway(k, t.value);
      var r := Kill(k, t.value);
      DevicesKept(k, r);
      if t == k.current {
        DeathRests(k, r);
      } else {
        AwayIs(r, Away(k) - Elems(PostOrder(k, t.value)));
      }
    }
  }

  /** The current process has been killed. */
  lemma DeathRests(k: K, r: K)
    requires Inv(k) && k.current.Some? && Live(k, k.current.value) && Consistent(k)
    requires r == Kill(k, k.current.value) && DevicesOK(r)
    ensures Rests(Sched(r.(current := None)), Lost(k) - Elems(PostOrder(k, k.current.value)))
  {
    hide WellFormed, FreeClean, Homed, Counted, Kill, Descends, Sched, Away, DevicesOK, PostOrder, Elems;
    ConsistentForest(k);
    KillAway(k, k.current.value);
    var lost := Away(k) - Elems(PostOrder(k, k.current.value));
    assert lost == Lost(k) - Elems(PostOrder(k, k.current.value));
    StableOther(r, lost, r.(current := None));
    DevicesKept(r, r.(current := None));
    SchedRests(r.(current := None), lost);
  }

  lemma ConsistentForest(k: K)
    requires Consistent(k)
    ensures ForestOK(k) && (k.current.Some? ==> k.current.value < |k.pcb| && Live(k, k.current.value))
  {
  }

  /** The current process has waited at a, its state saved. */
  lemma BlockInv(k: K, a: SemAddr, a0: int)
    requires Inv(k) && k.current.Some? && (a.Dev? ==> a.index < NRSEMAPHORES && Val(k.sem, a) == 0)
    ensures k.current.value < |k.pcb| && BlockCurrent(k, a).current == k.current && |BlockCurrent(k, a).pcb| == |k.pcb|
    ensures var s := Save(BlockCurrent(k, a), a0);
            Stable(s, Lost(k)) && s.current == None && s.sem == k.sem && DevicesOK(s)
  {
    hide WellFormed, FreeClean, Homed, Counted, Block, Away, DevicesOK;
    AwayConsistent(k);
    StableBlock(k, Away(k), a);
    StableSave(BlockCurrent(k, a), Lost(k), a0);
    BlockDevices(k, a, a0);
  }

  lemma BlockDevices(k: K, a: SemAddr, a0: int)
    requires DevicesOK(k) && k.current.Some? && k.current.value < |k.pcb|
    requires a.Dev? ==> a.index < NRSEMAPHORES && Val(k.sem, a) == 0
    ensures BlockCurrent(k, a).current == k.current && |BlockCurrent(k, a).pcb| == |k.pcb|
    ensures DevicesOK(Save(BlockCurrent(k, a), a0))
  {
  }

  lemma PasserenInv(k: K, addr: nat)
    requires Inv(k) && k.current.Some?
    ensures Rests(Next(k, P(addr)), Lost(k))
  {
    hide WellFormed, FreeClean, Homed, Counted, Block, Away, DevicesOK;
    AwayConsistent(k);
    if Val(k.sem, Usr(addr)) <= 0 {
      BlockInv(k, Usr(addr), PASSEREN);
      SchedRests(Save(BlockCurrent(k, Usr(addr)), PASSEREN), Lost(k));
    } else {
      StableOther(k, Away(k), Next(k, P(addr)));
      DevicesKept(k, Next(k, P(addr)));
      StaysAtRest(k, Next(k, P(addr)));
    }
  }

  lemma VerhogenInv(k: K, addr: nat)
    requires Inv(k) && k.current.Some?
    ensures Rests(Next(k, V(addr)), Lost(k))
  {
    hide WellFormed, FreeClean, Homed, Counted, Slot, Minus, Away, DevicesOK;
    AwayConsistent(k);
    if Usr(addr) in k.blocked {
      StableWake(k, Away(k), Usr(addr), None);
    } else {
      StableOther(k, Away(k), Next(k, V(addr)));
    }
    DevicesKept(k, Next(k, V(addr)));
    StaysAtRest(k, Next(k, V(addr)));
  }

  /** DOIO and CLOCKWAIT: the caller waits, or is lost if the P went through. */
  lemma SoftBlockInv(k: K, d: nat, a0: int)
    requires Inv(k) && k.current.Some? && d < NRSEMAPHORES
    ensures k.current.value < |k.pcb|
    ensures Rests(SoftBlockK(k, Dev(d), a0), Lost(k) + if Val(k.sem, Dev(d)) > 0 then Current(k) else {})
  {
    hide WellFormed, FreeClean, Homed, Counted, Block, Away, DevicesOK;
    AwayConsistent(k);
    DeviceValue(k, d);
    if Val(k.sem, Dev(d)) <= 0 {
      BlockInv(k, Dev(d), a0);
      SoftBlocked(k, Save(BlockCurrent(k, Dev(d)), a0), Lost(k));
    } else {
      var w := k.(sem := k.sem[Dev(d) := Val(k.sem, Dev(d)) - 1]);
      StableOther(k, Away(k), w);
      StableSave(w, Away(k), a0);
      DeviceTaken(k, d, Save(w, a0));
      SoftBlocked(k, Save(w, a0), Away(k));
      assert Lost(k) + Current(k) == Away(k);
    }
  }

  lemma DeviceValue(k: K, d: nat)
    requires DevicesOK(k) && d < NRSEMAPHORES
    ensures Val(k.sem, Dev(d)) >= 0 && (d == PSEUDOINDEX || Dev(d) in k.blocked ==> Val(k.sem, Dev(d)) == 0)
  {
  }

  lemma DeviceTaken(k: K, d: nat, r: K)
    requires DevicesOK(k) && d < NRSEMAPHORES && Val(k.sem, Dev(d)) > 0 && r.blocked == k.blocked
    requires r.sem == k.sem[Dev(d) := Val(k.sem, Dev(d)) - 1]
    ensures DevicesOK(r)
  {
  }

  lemma SoftBlocked(k: K, s: K, lost: set<nat>)
    requires Stable(s, lost) && s.current == None && DevicesOK(s)
    ensures Rests(Sched(s.(softBlockCount := Add32(s.softBlockCount, 1))), lost)
  {
    hide WellFormed, FreeClean, Homed, Counted, Rests, DevicesOK;
    var r := s.(softBlockCount := Add32(s.softBlockCount, 1));
    StableOther(s, lost, r);
    DevicesKept(s, r);
    SchedRests(r, lost);
  }

  lemma GiveWayInv(k: K)
    requires Inv(k) && k.current.Some?
    ensures Rests(Next(k, GiveWay), Lost(k))
  {
    hide WellFormed, FreeClean, Homed, Counted, Away, DevicesOK;
    AwayConsistent(k);
    var c, s := k.current.value, Save(k, YIELD);
    StableSave(k, Away(k), YIELD);
    StableTail(s, Away(k), c);
    var r := s.(ready := k.ready + [c]);
    DevicesKept(k, r);
    SchedRests(r, Lost(k));
  }

  lemma TrapInv(k: K)
    requires Inv(k) && k.current.Some? && Enabled(k, Trap)
    ensures Rests(Next(k, Trap), Lost(k) - Victims(k, Trap))
  {
    hide WellFormed, FreeClean, Homed, Counted, Kill, Descends, Sched, Away, DevicesOK, PostOrder;
    AwayConsistent(k);
    ConsistentForest(k);
    var c := k.current.value;
    if k.pcb[c].support == 0 {
      KillAway(k, c);
      DevicesKept(k, Kill(k, c));
      DeathRests(k, Kill(k, c));
    }
  }

  /** An interrupt that left the processor as it was. */
  lemma ResumeRests(k: K, r: K)
    requires Inv(k) && Stable(r, Away(k)) && DevicesOK(r) && r.current == k.current && r.mode == k.mode
    ensures Rests(Resume(r), Lost(k))
  {
    hide WellFormed, FreeClean, Homed, Counted, Away, DevicesOK;
    if k.current == None {
      assert Lost(k) == Away(k);
      SchedRests(r, Away(k));
    } else {
      StaysAtRest(k, r);
    }
  }

  lemma DeviceInv(k: K, d: nat, status: int)
    requires Inv(k) && d < PSEUDOINDEX
    ensures Rests(Next(k, Device(d, status)), Lost(k))
  {
    hide WellFormed, FreeClean, Homed, Counted, Slot, Minus, Away, DevicesOK, Resume;
    AwayConsistent(k);
    if Dev(d) in k.blocked {
      StableWake(k, Away(k), Dev(d), Some(status));
      var w := Wake(k, Dev(d), Some(status));
      var r := w.(softBlockCount := Sub32(w.softBlockCount, 1));
      StableOther(w, Away(k), r);
      DevicesKept(k, r);
      ResumeRests(k, r);
    } else {
      var r := k.(sem := k.sem[Dev(d) := Val(k.sem, Dev(d)) + 1]);
      StableOther(k, Away(k), r);
      DeviceGiven(k, d, r);
      ResumeRests(k, r);
    }
  }

  lemma DeviceGiven(k: K, d: nat, r: K)
    requires DevicesOK(k) && d < PSEUDOINDEX && Dev(d) !in k.blocked && r.blocked == k.blocked
    requires r.sem == k.sem[Dev(d) := Val(k.sem, Dev(d)) + 1]
    ensures DevicesOK(r)
  {
  }

  lemma TimeSliceInv(k: K, a0: int)
    requires Inv(k) && k.current.Some?
    ensures Rests(Next(k, TimeSlice(a0)), Lost(k))
  {
    hide WellFormed, FreeClean, Homed, Counted, Slot, Away, DevicesOK;
    AwayConsistent(k);
    var c := k.current.value;
    var pcb := k.pcb[c := k.pcb[c].(a0 := a0)];
    assert SameLinks(k.pcb, pcb);
    StableRegisters(k, Away(k), pcb);
    StableReady(k.(pcb := pcb), Away(k), c);
    var r := MakeReady(k.(pcb := pcb), c);
    assert r.ready != [];
    DevicesKept(k, r);
    DispatchRests(r, Lost(k));
  }

  /** As SchedRests, with somebody ready, whoever was running. */
  lemma DispatchRests(k: K, lost: set<nat>)
    requires Stable(k, lost) && k.ready != [] && DevicesOK(k)
    ensures Rests(Sched(k), lost)
  {
    hide WellFormed, FreeClean, Homed, Counted, Away;
    StableSched(k, lost);
    AwayIs(Sched(k), lost + {k.ready[0]});
  }

  lemma {:induction false} DrainStable(k: K, away: set<nat>)
    requires Stable(k, away) && WaitersOK(k.blocked, k.pcb)
    ensures Stable(Drain(k), away) && CLOCK !in Drain(k).blocked
    ensures Drain(k).current == k.current && Drain(k).mode == k.mode && Drain(k).sem == k.sem
    ensures forall a | a in Drain(k).blocked :: a in k.blocked
    decreases |Queue(k.blocked, CLOCK)|
  {
    hide WellFormed, FreeClean, Homed, Counted, Minus, Slot;
    if CLOCK in k.blocked {
      WaiterFits(k, CLOCK);
      TickShrinks(k);
      StableWake(k, away, CLOCK, None);
      StableOther(Wake(k, CLOCK, None), away, Tick(k));
      DrainStable(Tick(k), away);
    }
  }

  lemma ClockInv(k: K)
    requires Inv(k)
    ensures Rests(Next(k, Clock), Lost(k))
  {
    hide WellFormed, FreeClean, Homed, Counted, Unblock, Slot, Drain, Away, DevicesOK, Resume;
    AwayConsistent(k);
    WaitersFit(k);
    DrainStable(k, Away(k));
    DevicesKept(k, Drain(k));
    ResumeRests(k, Drain(k));
  }

  /** Every step keeps the invariant, and loses the caller of a DOIO whose P goes through, and
      nobody else. */
  lemma StepInv(k: K, e: Event)
    requires Inv(k) && Enabled(k, e)
    ensures Inv(Next(k, e)) && Lost(Next(k, e)) == Lost(k) - Victims(k, e) + Loses(k, e)
  {
    hide Inv, Settled, Next, Lost, Current, DevicesOK, PostOrder, Elems, Descends;
    InvRunning(k, e);
    match e
    case Create(prio, support, a0) => CreateInv(k, prio, support, a0);
    case Terminate(target) => TerminateInv(k, target);
    case P(addr) => PasserenInv(k, addr);
    case V(addr) => VerhogenInv(k, addr);
    case Io(d) => IoInv(k, d);
    case WaitClock => WaitClockInv(k);
    case GiveWay => GiveWayInv(k);
    case Trap => TrapInv(k);
    case Device(d, status) => DeviceInv(k, d, status);
    case TimeSlice(a0) => TimeSliceInv(k, a0);
    case Clock => ClockInv(k);
  }

  lemma InvRunning(k: K, e: Event)
    requires Inv(k) && Enabled(k, e)
    ensures Settled(k) && (ByProcess(e) ==> k.current.Some?)
    ensures e.Io? || e.Device? ==> e.device < PSEUDOINDEX
  {
  }

  lemma IoInv(k: K, d: nat)
    requires Inv(k) && k.current.Some? && d < PSEUDOINDEX
    ensures Rests(Next(k, Io(d)), Lost(k) + Loses(k, Io(d)))
  {
    hide Stable, DevicesOK, Lost, Rests;
    SoftBlockInv(k, d, DOIO);
  }

  lemma WaitClockInv(k: K)
    requires Inv(k) && k.current.Some?
    ensures Rests(Next(k, WaitClock), Lost(k))
  {
    hide Stable, Lost, Rests;
    SoftBlockInv(k, PSEUDOINDEX, CLOCKWAIT);
    assert Lost(k) + {} == Lost(k);
  }

  // ---------------------------------------------------------------- runs

  ghost function Step(k: K, e: Event): (r: K)
    requires Inv(k) && Enabled(k, e)
    ensures Inv(r)
  {
    StepInv(k, e);
    Next(k, e)
  }

  /** A run from k: each event is enabled where it happens. */
  ghost predicate Legal(k: K, es: seq<Event>)
    requires Inv(k)
    decreases |es|
  {
    es == [] || (Enabled(k, es[0]) && Legal(Step(k, es[0]), es[1..]))
  }

  ghost function Run(k: K, es: seq<Event>): (r: K)
    requires Inv(k) && Legal(k, es)
    ensures Inv(r)
    decreases |es|
  {
    if es == [] then k else Run(Step(k, es[0]), es[1..])
  }

  lemma BootInv(n: nat, mem: map<SemAddr, int>)
    requires 0 < n < TWO32
    ensures Rests(Boot(n, mem), {})
  {
    hide Descending, ZeroDevices, Stable, Repeat, Rests;
    var k := Loaded(n, ZeroDevices(mem, NRSEMAPHORES));
    LoadedStable(n, k.sem);
    SchedRests(k, {});
  }

  lemma LoadedStable(n: nat, sem: map<SemAddr, int>)
    requires 0 < n < TWO32
    ensures Stable(Loaded(n, sem), {})
  {
    hide Descending, Repeat;
    DescendingAll(n - 1);
    var k := Loaded(n, sem);
    assert forall x | 0 <= x < n ::
        k.pcb[x].parent == None && k.pcb[x].semAdd == None && k.kids[x] == [] && k.pcb[x].pid < 2;
    assert QueuesOK(k);
    assert ForestOK(k);
  }

  /** The state in which the first process starts, MAXPROC being n. */
  ghost function Start(n: nat, mem: map<SemAddr, int>): (k: K)
    requires 0 < n < TWO32
    ensures Inv(k) && Lost(k) == {}
  {
    BootInv(n, mem);
    Boot(n, mem)
  }

  /** In it the last PCB of the table runs alone, with pid 1 and nothing else set, the others
      are free from the last but one down, and deviceSemaphore is all 0. */
  lemma BootExactly(n: nat, mem: map<SemAddr, int>)
    requires 0 < n < TWO32
    ensures var k := Start(n, mem);
            && k.mode.Running? && k.current == Some(n - 1) && k.ready == [] && k.blocked == map[]
            && |k.free| == n - 1 && (forall i | 0 <= i < n - 1 :: k.free[i] == n - 2 - i)
            && |k.pcb| == n && (forall x | 0 <= x < n - 1 :: k.pcb[x] == Pcb(None, None, 0, 0, 0, 0))
            && k.pcb[n - 1] == Pcb(None, None, 0, 1, 0, 0)
            && |k.kids| == n && (forall x | 0 <= x < n :: k.kids[x] == [])
            && k.processCount == 1 && k.softBlockCount == 0 && k.nextPid == 2
            && (forall a :: Val(k.sem, a) == if a.Dev? && a.index < 49 then 0 else Val(mem, a))
  {
    hide Inv, Lost, Rests, Stable, ZeroDevices, Add32, Sub32, Enqueue;
    ZeroOthers(mem, NRSEMAPHORES);
  }

  lemma {:induction false} ZeroOthers(mem: map<SemAddr, int>, c: nat)
    ensures forall d: nat | c <= d :: Val(ZeroDevices(mem, c), Dev(d)) == Val(mem, Dev(d))
  {
    if c > 0 {
      ZeroOthers(mem, c - 1);
    }
  }

  /** How many of the four homes of a PCB x is in. */
  function Homes(k: K, x: nat): nat {
    (if x in k.free then 1 else 0) + (if x in k.ready then 1 else 0)
    + (if x < |k.pcb| && k.pcb[x].semAdd.Some? then 1 else 0) + (if k.current == Some(x) then 1 else 0)
  }

  /** The processes a run has lost and not killed since. */
  ghost function LostBy(k: K, es: seq<Event>, lost: set<nat>): set<nat>
    requires Inv(k) && Legal(k, es)
    decreases |es|
  {
    if es == [] then lost else LostBy(Step(k, es[0]), es[1..], lost - Victims(k, es[0]) + Loses(k, es[0]))
  }

  lemma {:induction false} LostRun(k: K, es: seq<Event>)
    requires Inv(k) && Legal(k, es)
    ensures Lost(Run(k, es)) == LostBy(k, es, Lost(k))
    decreases |es|
  {
    hide Inv, Enabled, Next, Lost, Victims, Loses;
    if es != [] {
      StepInv(k, es[0]);
      LostRun(Step(k, es[0]), es[1..]);
    }
  }

  /** In every state of every run each PCB is in at most one of the four homes and occurs there
      once; in none are exactly those that a DOIO has lost and nobody killed since.  semAdd tells
      which semaphore queue holds a PCB, processCount counts the PCBs that are not free, the
      forest links mirror each other, and no insertBlocked can fail for the current process. */
  lemma Partition(n: nat, mem: map<SemAddr, int>, es: seq<Event>)
    requires 0 < n < TWO32 && Legal(Start(n, mem), es)
    ensures var k := Run(Start(n, mem), es);
            && |k.pcb| == n && k.processCount + |k.free| == n
            && NoDup(k.free) && NoDup(k.ready)
            && (forall x | 0 <= x < n :: Homes(k, x) == if x in LostBy(Start(n, mem), es, {}) then 0 else 1)
            && (forall a, x | a in k.blocked && x in k.blocked[a] :: x < n && k.pcb[x].semAdd == Some(a))
            && (forall x | 0 <= x < n && k.pcb[x].semAdd.Some? :: x in Queue(k.blocked, k.pcb[x].semAdd.value))
            && ForestOK(k) && FreeClean(k)
            && (k.current.Some? ==> |k.blocked| < n)
  {
    hide Legal, Run, ChildrenOK, ParentsOK, BirthsOK, ZeroDevices, Descending, Repeat, Away, Lost, LostBy, Start;
    var k := Run(Start(n, mem), es);
    StartSize(n, mem);
    TableSize(Start(n, mem), es);
    LostRun(Start(n, mem), es);
    forall x | 0 <= x < n ensures Homes(k, x) == if x in Lost(k) then 0 else 1 {
      OneHome(k, x);
    }
    AwayConsistent(k);
    if k.current.Some? {
      DescriptorLeft(k, k.current.value);
    }
  }

  lemma StartSize(n: nat, mem: map<SemAddr, int>)
    requires 0 < n < TWO32
    ensures |Start(n, mem).pcb| == n && Lost(Start(n, mem)) == {}
  {
    hide Inv, Lost, ZeroDevices, Descending;
  }

  lemma OneHome(k: K, x: nat)
    requires Inv(k) && x < |k.pcb|
    ensures Homes(k, x) == if x in Lost(k) then 0 else 1
  {
    hide ForestOK, WaitersOK, NoDup, DevicesOK;
    if k.current == Some(x) { assert x in Current(k) && x in Away(k); }
    assert x in k.free ==> exists j :: 0 <= j < |k.free| && k.free[j] == x;
  }

  lemma {:induction false} TableSize(k: K, es: seq<Event>)
    requires Inv(k) && Legal(k, es)
    ensures |Run(k, es).pcb| == |k.pcb|
    decreases |es|
  {
    hide Inv, Enabled, Step;
    if es != [] {
      StepSize(k, es[0]);
      TableSize(Step(k, es[0]), es[1..]);
    }
  }

  lemma StepSize(k: K, e: Event)
    requires Inv(k) && Enabled(k, e)
    ensures |Step(k, e).pcb| == |k.pcb|
  {
    hide Inv, Settled, Minus, Unblock, Enqueue, Block, PostOrder, Cleared, KidsWithout, Descends, WaitersOK, Reverse,
      WellFormed, FreeClean, Away, Add32, Sub32;
    InvRunning(k, e);
    AwayConsistent(k);
    if e.Clock? {
      WaitersFit(k);
      DrainSize(k);
    }
  }

  lemma {:induction false} DrainSize(k: K)
    requires WaitersOK(k.blocked, k.pcb)
    ensures |Drain(k).pcb| == |k.pcb|
    decreases |Queue(k.blocked, CLOCK)|
  {
    hide WaitersOK;
    if CLOCK in k.blocked {
      WaiterFits(k, CLOCK);
      TickShrinks(k);
      DrainSize(Tick(k));
    }
  }
}
