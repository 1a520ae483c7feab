/** The scheduler's verdict when nothing is ready: HALT, WAIT or PANIC.  softBlockCount counts
    the processes waiting for a device or the pseudo-clock, plus the device waiters that were
    killed (killProcess only gives back the pseudo-clock's) and the DOIOs whose P went through,
    modulo 2^32. */
module Verdict {
  import opened Seqs
  import opened KernelState
  import opened Killing
  import opened KernelSteps
  import opened Stability
  import opened Runs
  import opened Semaphores

  predicate OnDevice(p: Pcb) {
    p.semAdd.Some? && p.semAdd.value.Dev?
  }

  /** The PCBs waiting for a device or the pseudo-clock. */
  ghost function DeviceWaiters(pcb: seq<Pcb>): set<nat> {
    set x | 0 <= x < |pcb| && OnDevice(pcb[x])
  }

  /** The device waiters an event kills, the pseudo-clock's excepted. */
  ghost function Orphans(k: K, e: Event): set<nat>
    requires Inv(k) && Enabled(k, e)
  {
    (DeviceWaiters(k.pcb) * Victims(k, e)) - ClockWaiters(k.pcb, Victims(k, e))
  }

  /** What an event adds to softBlockCount for good. */
  ghost function Leaked(k: K, e: Event): nat
    requires Inv(k) && Enabled(k, e)
  {
    |Orphans(k, e)| + |Loses(k, e)|
  }

  ghost function Leaks(k: K, es: seq<Event>): nat
    requires Inv(k) && Legal(k, es)
    decreases |es|
  {
    if es == [] then 0 else Leaked(k, es[0]) + Leaks(Step(k, es[0]), es[1..])
  }

  /** softBlockCount when so much has leaked. */
  ghost predicate Owed(k: K, leaked: nat) {
    k.softBlockCount == (|DeviceWaiters(k.pcb)| + leaked) % TWO32
  }

  // ---------------------------------------------------------------- modular counting

  lemma ModUp(n: nat, x: Word)
    requires x == n % TWO32
    ensures Add32(x, 1) == (n + 1) % TWO32
  {
  }

  lemma ModDown(n: nat, m: nat, x: Word)
    requires x == n % TWO32 && m <= n
    ensures Sub32(x, m) == (n - m) % TWO32
  {
    var q := n / TWO32;
    assert n == q * TWO32 + x;
    assert (n - m) % TWO32 == (x - m) % TWO32;
  }

  // ---------------------------------------------------------------- the waiters after each move

  lemma WaitersGain(pcb: seq<Pcb>, pcb': seq<Pcb>, x: nat)
    requires |pcb'| == |pcb| && x < |pcb| && !OnDevice(pcb[x]) && OnDevice(pcb'[x])
    requires forall y | 0 <= y < |pcb| && y != x :: pcb'[y].semAdd == pcb[y].semAdd
    ensures |DeviceWaiters(pcb')| == |DeviceWaiters(pcb)| + 1
  {
    assert DeviceWaiters(pcb') == DeviceWaiters(pcb) + {x};
  }

  lemma WaitersLose(pcb: seq<Pcb>, pcb': seq<Pcb>, x: nat)
    requires |pcb'| == |pcb| && x < |pcb| && OnDevice(pcb[x]) && !OnDevice(pcb'[x])
    requires forall y | 0 <= y < |pcb| && y != x :: pcb'[y].semAdd == pcb[y].semAdd
    ensures |DeviceWaiters(pcb')| == |DeviceWaiters(pcb)| - 1
  {
    assert DeviceWaiters(pcb) == DeviceWaiters(pcb') + {x};
  }

  lemma WaitersSame(pcb: seq<Pcb>, pcb': seq<Pcb>)
    requires |pcb'| == |pcb| && forall y | 0 <= y < |pcb| :: OnDevice(pcb'[y]) == OnDevice(pcb[y])
    ensures DeviceWaiters(pcb') == DeviceWaiters(pcb)
  {
  }

  lemma OwedSoftBlock(k: K, d: nat, a0: int, leaked: nat)
    requires Inv(k) && k.current.Some? && d < NRSEMAPHORES && Owed(k, leaked)
    ensures k.current.value < |k.pcb|
    ensures Owed(SoftBlockK(k, Dev(d), a0), leaked + if Val(k.sem, Dev(d)) > 0 then 1 else 0)
  {
    hide Inv, SoftBlockK, DeviceWaiters, Add32;
    SoftBlockWaits(k, d, a0);
    var c, r := k.current.value, SoftBlockK(k, Dev(d), a0);
    ModUp(|DeviceWaiters(k.pcb)| + leaked, k.softBlockCount);
    if Val(k.sem, Dev(d)) > 0 {
      WaitersSame(k.pcb, r.pcb);
    } else {
      WaitersGain(k.pcb, r.pcb, c);
    }
  }

  lemma SoftBlockWaits(k: K, d: nat, a0: int)
    requires Inv(k) && k.current.Some? && d < NRSEMAPHORES
    ensures k.current.value < |k.pcb| && k.pcb[k.current.value].semAdd == None
    ensures var c, r := k.current.value, SoftBlockK(k, Dev(d), a0);
            && |r.pcb| == |k.pcb| && r.softBlockCount == Add32(k.softBlockCount, 1)
            && r.pcb[c].semAdd == (if Val(k.sem, Dev(d)) > 0 then None else Some(Dev(d)))
            && forall y | 0 <= y < |k.pcb| && y != c :: r.pcb[y].semAdd == k.pcb[y].semAdd
  {
    hide Stable, Block, DevicesOK, Add32;
    AwayHome(k);
    DescriptorLeft(k, k.current.value);
  }

  lemma OwedWake(k: K, d: nat, a0: Option<int>, leaked: nat)
    requires WaitersOK(k.blocked, k.pcb) && Dev(d) in k.blocked && Owed(k, leaked)
    requires k.blocked[Dev(d)] != [] && k.blocked[Dev(d)][0] < |k.pcb|
    ensures var w := Wake(k, Dev(d), a0); Owed(w.(softBlockCount := Sub32(w.softBlockCount, 1)), leaked)
  {
    hide Unblock, Slot, NoDup;
    var x, w := k.blocked[Dev(d)][0], Wake(k, Dev(d), a0);
    assert k.pcb[x].semAdd == Some(Dev(d));
    WaitersLose(k.pcb, w.pcb, x);
    ModDown(|DeviceWaiters(k.pcb)| + leaked, 1, k.softBlockCount);
  }

  lemma {:induction false} OwedDrain(k: K, leaked: nat)
    requires WaitersOK(k.blocked, k.pcb) && Owed(k, leaked)
    ensures Owed(Drain(k), leaked)
    decreases |Queue(k.blocked, CLOCK)|
  {
    hide WaitersOK, Wake, Owed;
    if CLOCK in k.blocked {
      WaiterFits(k, CLOCK);
      TickShrinks(k);
      OwedWake(k, PSEUDOINDEX, None, leaked);
      OwedDrain(Tick(k), leaked);
    }
  }

  lemma WaitersCleared(pcb: seq<Pcb>, s: set<nat>)
    ensures DeviceWaiters(Cleared(pcb, s)) == DeviceWaiters(pcb) - s
    ensures ClockWaiters(pcb, s) <= DeviceWaiters(pcb) * s
  {
    hide Cleared;
  }

  lemma PartsCard(w: set<nat>, s: set<nat>, clock: set<nat>)
    requires clock <= w * s
    ensures |w| == |w - s| + |clock| + |w * s - clock|
  {
    var leak := w * s - clock;
    assert w == (w - s) + (clock + leak);
    assert (w - s) !! (clock + leak) && clock !! leak;
  }

  lemma KillFields(k: K, p: nat)
    requires ForestOK(k) && p < |k.pcb|
    ensures var s := Elems(PostOrder(k, p));
            && Kill(k, p).pcb == Cleared(k.pcb, s)
            && Kill(k, p).softBlockCount == Sub32(k.softBlockCount, |ClockWaiters(k.pcb, s)|)
  {
  }

  lemma OwedKill(k: K, p: nat, leaked: nat)
    requires ForestOK(k) && p < |k.pcb| && Owed(k, leaked)
    ensures var s := Elems(PostOrder(k, p));
            Owed(Kill(k, p), leaked + |DeviceWaiters(k.pcb) * s - ClockWaiters(k.pcb, s)|)
  {
    hide Kill, PostOrder, Cleared, DeviceWaiters, ClockWaiters, Elems, Sub32, ForestOK, Owed;
    KillFields(k, p);
    var s, w := Elems(PostOrder(k, p)), DeviceWaiters(k.pcb);
    WaitersCleared(k.pcb, s);
    PartsCard(w, s, ClockWaiters(k.pcb, s));
    OwedAfter(k, Kill(k, p), |w - s|, |ClockWaiters(k.pcb, s)|, |w * s - ClockWaiters(k.pcb, s)|, leaked);
  }

  lemma OwedAfter(k: K, r: K, rest: nat, clock: nat, orphans: nat, leaked: nat)
    requires Owed(k, leaked) && |DeviceWaiters(k.pcb)| == rest + clock + orphans
    requires |DeviceWaiters(r.pcb)| == rest && r.softBlockCount == Sub32(k.softBlockCount, clock)
    ensures Owed(r, leaked + orphans)
  {
    hide DeviceWaiters, Sub32;
    GivenBack(rest, clock, orphans, leaked, k.softBlockCount);
  }

  /** The count after giving back the pseudo-clock's share of the dead. */
  lemma GivenBack(rest: nat, clock: nat, orphans: nat, leaked: nat, x: Word)
    requires x == (rest + clock + orphans + leaked) % TWO32
    ensures Sub32(x, clock) == (rest + (leaked + orphans)) % TWO32
  {
    hide Sub32;
    ModDown(rest + clock + orphans + leaked, clock, x);
  }

  /** Only TERMPROCESS and traps kill, and they lose nobody. */
  lemma DeathLeaks(k: K, e: Event, p: nat)
    requires Inv(k) && Enabled(k, e) && ForestOK(k) && p < |k.pcb|
    requires e == Terminate(Some(p)) || (e.Trap? && p == Cur(k) && k.pcb[p].support == 0)
    ensures var s := Elems(PostOrder(k, p)); Leaked(k, e) == |DeviceWaiters(k.pcb) * s - ClockWaiters(k.pcb, s)|
  {
    hide Inv, Enabled, PostOrder, Elems, DeviceWaiters, ClockWaiters, ForestOK;
  }

  lemma OwedDeath(k: K, e: Event, leaked: nat)
    requires Inv(k) && Enabled(k, e) && (e.Terminate? || e.Trap?) && Owed(k, leaked)
    ensures Owed(Next(k, e), leaked + Leaked(k, e))
  {
    hide Stable, Kill, PostOrder, Descends, DeviceWaiters, ClockWaiters, Owed, DevicesOK, Elems, Away, Leaked, Sched;
    AwayConsistent(k);
    ConsistentForest(k);
    if e.Terminate? && e.target.Some? {
      OwedKill(k, e.target.value, leaked);
      DeathLeaks(k, e, e.target.value);
      OwedOnward(Kill(k, e.target.value), leaked + Leaked(k, e));
    } else if e.Trap? && k.pcb[k.current.value].support == 0 {
      OwedKill(k, k.current.value, leaked);
      DeathLeaks(k, e, k.current.value);
      OwedOnward(Kill(k, k.current.value), leaked + Leaked(k, e));
    } else {
      NobodyDies(k, e);
    }
  }

  lemma NobodyDies(k: K, e: Event)
    requires Inv(k) && Enabled(k, e)
    requires e == Terminate(None) || (e.Trap? && Cur(k) < |k.pcb| && k.pcb[Cur(k)].support != 0)
    ensures Leaked(k, e) == 0
  {
    hide Inv, Enabled, PostOrder, Elems, DeviceWaiters, ClockWaiters;
    NobodyLeaks(k.pcb);
  }

  lemma OwedOnward(k: K, leaked: nat)
    requires Owed(k, leaked)
    ensures Owed(Sched(k.(current := None)), leaked)
  {
  }

  lemma NobodyLeaks(pcb: seq<Pcb>)
    ensures |DeviceWaiters(pcb) * {} - ClockWaiters(pcb, {})| == 0
  {
    assert DeviceWaiters(pcb) * {} - ClockWaiters(pcb, {}) == {};
  }

  /** P, V, CREATEPROCESS, YIELD and the end of a time slice change no device waiter. */
  lemma OwedOther(k: K, e: Event, leaked: nat)
    requires Inv(k) && Enabled(k, e) && Owed(k, leaked)
    requires e.P? || e.V? || e.Create? || e.GiveWay? || e.TimeSlice?
    ensures Owed(Step(k, e), leaked)
  {
    hide Stable, Descends, Next, OnDevice;
    OthersKept(k, e);
    WaitersSame(k.pcb, Step(k, e).pcb);
  }

  lemma OthersKept(k: K, e: Event)
    requires Inv(k) && Enabled(k, e) && (e.P? || e.V? || e.Create? || e.GiveWay? || e.TimeSlice?)
    ensures |Step(k, e).pcb| == |k.pcb| && Step(k, e).softBlockCount == k.softBlockCount
    ensures forall y | 0 <= y < |k.pcb| :: OnDevice(Step(k, e).pcb[y]) == OnDevice(k.pcb[y])
  {
    hide ForestOK, Homed, Counted, Descends, Block, Unblock, Slot, NoDup, DevicesOK, FreeClean, Sub32, Add32, Enqueue,
      Away, WaitersOK;
    AwayConsistent(k);
    AwayHome(k);
    if e.V? { NamesItsQueue(k, Usr(e.addr)); }
    if e.Create? && k.free != [] { FreeHead(k); }
  }

  lemma NamesItsQueue(k: K, a: SemAddr)
    requires QueuesOK(k)
    ensures a in k.blocked ==>
        k.blocked[a] != [] && k.blocked[a][0] < |k.pcb| && k.pcb[k.blocked[a][0]].semAdd == Some(a)
  {
    hide NoDup;
  }

  /** A device interrupt nobody waits for changes neither side. */
  lemma OwedDevice(k: K, d: nat, status: int, leaked: nat)
    requires Inv(k) && d < PSEUDOINDEX && Owed(k, leaked)
    ensures Owed(Next(k, Device(d, status)), leaked)
  {
    hide Stable, Wake, DeviceWaiters, Sub32, WaitersOK, DevicesOK, WellFormed, FreeClean, Away;
    AwayConsistent(k);
    if Dev(d) in k.blocked {
      WaitersFit(k);
      OwedWake(k, d, Some(status), leaked);
    }
  }

  /** Events that kill nobody and lose nobody. */
  lemma NothingLeaks(k: K, e: Event)
    requires Inv(k) && Enabled(k, e) && !e.Terminate? && !e.Trap?
    ensures Leaked(k, e) == if e.Io? && Val(k.sem, Dev(e.device)) > 0 then 1 else 0
  {
    hide Inv, Enabled, PostOrder, Elems, DeviceWaiters, ClockWaiters;
    NobodyLeaks(k.pcb);
    InvRunning(k, e);
  }

  lemma OwedClock(k: K, leaked: nat)
    requires Inv(k) && Owed(k, leaked)
    ensures Owed(Next(k, Clock), leaked)
  {
    hide Stable, Drain, DeviceWaiters, WaitersOK, DevicesOK, WellFormed, FreeClean, Away;
    AwayConsistent(k);
    WaitersFit(k);
    OwedDrain(k, leaked);
  }

  lemma OwedIo(k: K, e: Event, leaked: nat)
    requires Inv(k) && Enabled(k, e) && (e.Io? || e.WaitClock?) && Owed(k, leaked)
    ensures Owed(Next(k, e), leaked + if e.Io? && Val(k.sem, Dev(e.device)) > 0 then 1 else 0)
  {
    hide Owed, SoftBlockK, Stable, Away;
    AwayConsistent(k);
    if e.Io? { OwedSoftBlock(k, e.device, DOIO, leaked); } else { OwedSoftBlock(k, PSEUDOINDEX, CLOCKWAIT, leaked); }
  }

  lemma OwedStep(k: K, e: Event, leaked: nat)
    requires Inv(k) && Enabled(k, e) && Owed(k, leaked)
    ensures Owed(Step(k, e), leaked + Leaked(k, e))
  {
    hide Inv, Enabled, Next, Owed, Leaked;
    InvRunning(k, e);
    if e.Terminate? || e.Trap? {
      OwedDeath(k, e, leaked);
    } else {
      NothingLeaks(k, e);
      match e
      case Io(_) => OwedIo(k, e, leaked);
      case WaitClock => OwedIo(k, e, leaked);
      case Device(d, status) => OwedDevice(k, d, status, leaked);
      case Clock => OwedClock(k, leaked);
      case _ => OwedOther(k, e, leaked);
    }
  }

  lemma {:induction false} OwedRun(k: K, es: seq<Event>, leaked: nat)
    requires Inv(k) && Legal(k, es) && Owed(k, leaked)
    ensures Owed(Run(k, es), leaked + Leaks(k, es))
    decreases |es|
  {
    hide Inv, Enabled, Step, Owed, Leaked;
    if es != [] {
      OwedStep(k, es[0], leaked);
      OwedRun(Step(k, es[0]), es[1..], leaked + Leaked(k, es[0]));
    }
  }

  // ---------------------------------------------------------------- the verdict

  function Decision(k: K): Mode {
    if k.processCount == 0 then Halted else if k.softBlockCount > 0 then Waiting else Panicked
  }

  /** Whenever no process runs, the mode is what the counters say at that moment. */
  lemma IdleDecides(k: K, e: Event)
    requires Inv(k) && Enabled(k, e)
    ensures Step(k, e).mode != Running ==> Step(k, e).mode == Decision(Step(k, e))
  {
    hide Stable, Kill, Descends, Wake, Block, Enqueue, Allocated, WellFormed, FreeClean, WaitersOK, DevicesOK, Sub32,
      Add32, Away;
    AwayConsistent(k);
    ConsistentForest(k);
    match e
    case Terminate(Some(t)) => KillMode(k, t);
    case Trap => KillMode(k, k.current.value);
    case Device(d, status) =>
      if Dev(d) in k.blocked { WakeMode(k, Dev(d), Some(status)); }
    case V(addr) =>
      if Usr(addr) in k.blocked { WakeMode(k, Usr(addr), None); }
    case Clock =>
      WaitersFit(k);
      DrainStable(k, Away(k));
    case Create(prio, support, a0) =>
      if k.free != [] { AllocatedFacts(k); }
    case _ =>
  }

  lemma KillMode(k: K, p: nat)
    requires ForestOK(k) && p < |k.pcb|
    ensures Kill(k, p).mode == k.mode && Kill(k, p).current == k.current
  {
  }

  lemma WakeMode(k: K, a: SemAddr, a0: Option<int>)
    requires a in k.blocked && k.blocked[a] != [] && k.blocked[a][0] < |k.pcb|
    ensures Wake(k, a, a0).mode == k.mode && Wake(k, a, a0).current == k.current
  {
  }

  lemma {:induction false} IdleRun(k: K, es: seq<Event>)
    requires Inv(k) && Legal(k, es) && (k.mode != Running ==> k.mode == Decision(k))
    ensures Run(k, es).mode != Running ==> Run(k, es).mode == Decision(Run(k, es))
    decreases |es|
  {
    hide Inv, Enabled, Step, Decision;
    if es != [] {
      IdleDecides(k, es[0]);
      IdleRun(Step(k, es[0]), es[1..]);
    }
  }

  /** The kernel halts exactly when every PCB is free. */
  lemma HaltedExactly(k: K)
    requires Inv(k) && (k.mode != Running ==> k.mode == Decision(k))
    ensures k.mode == Halted <==> |k.free| == |k.pcb|
    ensures k.processCount + |k.free| == |k.pcb|
  {
    hide DevicesOK, Homed, Away;
    if k.mode == Running {
      AwayConsistent(k);
      NoDupBound(k.free + [Cur(k)], |k.pcb|);
    }
  }

  /** The verdict after any run from boot, exactly: the kernel halts when no process is left; with
      live processes and nothing to run it waits if and only if device and clock waiters, killed
      device waiters and DOIOs whose P went through do not add up to a multiple of 2^32. */
  lemma VerdictExactly(n: nat, mem: map<SemAddr, int>, es: seq<Event>)
    requires 0 < n < TWO32 && Legal(Start(n, mem), es)
    ensures var k, r := Start(n, mem), Run(Start(n, mem), es);
            && r.softBlockCount == (|DeviceWaiters(r.pcb)| + Leaks(k, es)) % TWO32
            && (r.mode == Halted <==> r.processCount == 0) && r.processCount + |r.free| == |r.pcb|
            && (r.mode != Running && r.processCount > 0 ==>
                  r.mode == if (|DeviceWaiters(r.pcb)| + Leaks(k, es)) % TWO32 != 0 then Waiting else Panicked)
  {
    hide Inv, Legal, Run, Leaks, ZeroDevices, Descending, Lost;
    var k := Start(n, mem);
    assert DeviceWaiters(k.pcb) == {};
    OwedRun(k, es, 0);
    IdleRun(k, es);
    HaltedExactly(Run(k, es));
  }

  lemma FewWaiters(k: K)
    requires Inv(k)
    ensures |DeviceWaiters(k.pcb)| <= |k.pcb| < TWO32
  {
    hide WellFormed, FreeClean, Homed, DevicesOK, OnDevice;
    assert DeviceWaiters(k.pcb) <= Range(|k.pcb|);
    SubsetCard(DeviceWaiters(k.pcb), Range(|k.pcb|));
  }

  /** So the verdict is sound: after PANIC every live process waits for a user semaphore or was
      lost, and none waits for a device or the clock, as long as fewer than 2^32 - MAXPROC
      device waiters were killed and DOIOs went through. */
  lemma PanicIsDeadlock(n: nat, mem: map<SemAddr, int>, es: seq<Event>)
    requires 0 < n < TWO32 && Legal(Start(n, mem), es)
    requires Leaks(Start(n, mem), es) + |Run(Start(n, mem), es).pcb| < TWO32
    ensures var r := Run(Start(n, mem), es);
            r.mode == Panicked && r.processCount > 0 ==>
              && Leaks(Start(n, mem), es) == 0 && DeviceWaiters(r.pcb) == {} && Lost(r) == {}
              && forall x | 0 <= x < |r.pcb| && x !in r.free :: r.pcb[x].semAdd.Some? && r.pcb[x].semAdd.value.Usr?
  {
    hide Inv, Legal, Run, Leaks, Start, DeviceWaiters, OnDevice, Lost;
    var r := Run(Start(n, mem), es);
    VerdictExactly(n, mem, es);
    FewWaiters(r);
    if r.mode == Panicked && r.processCount > 0 {
      assert |DeviceWaiters(r.pcb)| == 0;
      StartSize(n, mem);
      LeaksCountLost(Start(n, mem), es);
      PanicHomes(r);
    }
  }

  /** With nobody ready, no device waiters and nobody lost, who is not free waits for the user. */
  lemma PanicHomes(r: K)
    requires Inv(r) && r.mode != Running && DeviceWaiters(r.pcb) == {} && Lost(r) == {}
    ensures forall x | 0 <= x < |r.pcb| && x !in r.free :: r.pcb[x].semAdd.Some? && r.pcb[x].semAdd.value.Usr?
  {
    hide WellFormed, FreeClean, DevicesOK;
    forall x | 0 <= x < |r.pcb| && x !in r.free ensures r.pcb[x].semAdd.Some? && r.pcb[x].semAdd.value.Usr? {
      assert x !in DeviceWaiters(r.pcb) && x !in Lost(r) && x !in r.ready;
    }
  }

  /** Who is lost has leaked. */
  lemma {:induction false} LeaksCountLost(k: K, es: seq<Event>)
    requires Inv(k) && Legal(k, es) && Lost(k) == {}
    ensures Leaks(k, es) == 0 ==> Lost(Run(k, es)) == {}
    decreases |es|
  {
    hide Inv, Enabled, Next, Lost, Victims, Loses, Orphans;
    if es != [] && Leaks(k, es) == 0 {
      assert |Loses(k, es[0])| == 0;
      StepInv(k, es[0]);
      LeaksCountLost(Step(k, es[0]), es[1..]);
    }
  }

  /** If nothing leaked, WAIT is chosen exactly when somebody waits for a device or the clock. */
  lemma WaitExactly(n: nat, mem: map<SemAddr, int>, es: seq<Event>)
    requires 0 < n < TWO32 && Legal(Start(n, mem), es)
    requires Leaks(Start(n, mem), es) == 0
    ensures var r := Run(Start(n, mem), es);
            r.mode != Running && r.processCount > 0 ==> (r.mode == Waiting <==> DeviceWaiters(r.pcb) != {})
  {
    hide Inv, Legal, Run, Leaks, Start, DeviceWaiters, OnDevice, Lost;
    VerdictExactly(n, mem, es);
    FewWaiters(Run(Start(n, mem), es));
  }
}
