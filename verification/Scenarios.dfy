/** Runs from boot in which a program or a device does not keep to what the kernel relies on. */
module Scenarios {
  import opened Seqs
  import opened KernelState
  import opened Killing
  import opened KernelSteps
  import opened Stability
  import opened Runs
  import opened Semaphores
  import opened Verdict
  import opened Undo
  import opened Environment
  import opened Lives

  /** One event more at the front of a run. */
  lemma Follow(k: K, e: Event, es: seq<Event>)
    requires Inv(k) && Enabled(k, e) && Legal(Step(k, e), es)
    ensures Legal(k, [e] + es) && Run(k, [e] + es) == Run(Step(k, e), es)
  {
    hide Inv, Enabled, Step;
    assert ([e] + es)[1..] == es;
  }

  /** A parent and its only child, one of them running, the other one ready if ready says so. */
  ghost predicate Family(k: K, parent: nat, child: nat, running: nat, ready: seq<nat>) {
    && Inv(k) && parent < |k.pcb| && child < |k.pcb| && child < |k.kids| && parent != child
    && k.mode == Running && k.current == Some(running) && k.ready == ready
    && k.pcb[parent].parent == None && k.pcb[child].parent == Some(parent) && k.kids[child] == []
    && parent !in k.free && child !in k.free && Lost(k) == {}
  }

  lemma Booted(n: nat, mem: map<SemAddr, int>)
    requires 2 <= n < TWO32
    ensures var k := Start(n, mem);
            && k.mode == Running && k.current == Some(n - 1) && k.ready == [] && k.free != [] && k.free[0] == n - 2
            && |k.pcb| == n && k.pcb[n - 1].parent == None && k.pcb[n - 1].prio == 0 && k.blocked == map[]
            && Lost(k) == {} && k.softBlockCount == 0
            && (forall d | 0 <= d < NRSEMAPHORES :: Val(k.sem, Dev(d)) == 0)
            && forall addr :: Val(k.sem, Usr(addr)) == Val(mem, Usr(addr))
  {
    hide Inv, Lost, ZeroDevices;
    DescendingStep(n - 2);
  }

  /** The first process creates a child. */
  lemma Born(n: nat, mem: map<SemAddr, int>, prio: int, support: nat, a0: int)
    requires 2 <= n < TWO32
    ensures var k, e := Start(n, mem), Create(prio, support, a0);
            && Enabled(k, e)
            && var r := Step(k, e);
            && Family(r, n - 1, n - 2, n - 1, [n - 2]) && r.blocked == map[] && r.softBlockCount == 0
            && Prio(r.pcb, n - 1) == 0 && Prio(r.pcb, n - 2) == prio
            && (forall d | 0 <= d < NRSEMAPHORES :: Val(r.sem, Dev(d)) == 0)
            && forall addr :: Val(r.sem, Usr(addr)) == Val(mem, Usr(addr))
  {
    hide Inv, Start, Lost, Slot, Descends, Victims;
    Booted(n, mem);
    var k, e := Start(n, mem), Create(prio, support, a0);
    InvSettled(k);
    Created(k, prio, support, a0);
    StepInv(k, e);
    NoVictims(k, e);
    assert InsertAt([], 0, n - 2) == [n - 2];
  }

  lemma InvSettled(k: K)
    requires Inv(k)
    ensures Settled(k)
  {
  }

  /** The running one of the two yields to the other. */
  lemma Yielded(k: K, parent: nat, child: nat, x: nat, y: nat)
    requires Family(k, parent, child, x, [y]) && {x, y} == {parent, child}
    ensures Enabled(k, GiveWay)
    ensures var r := Step(k, GiveWay);
            && Family(r, parent, child, y, [x])
            && r.blocked == k.blocked && r.sem == k.sem && r.softBlockCount == k.softBlockCount
            && forall z :: Prio(r.pcb, z) == Prio(k.pcb, z)
  {
    hide Stable, DevicesOK, Lost, Descends, Victims, Away;
    AwayConsistent(k);
    StepInv(k, GiveWay);
    NoVictims(k, GiveWay);
  }

  /** The child waits for a device. */
  lemma Requested(k: K, parent: nat, child: nat, d: nat)
    requires Family(k, parent, child, child, [parent]) && d < PSEUDOINDEX && k.blocked == map[] &&
        Val(k.sem, Dev(d)) == 0
    ensures Enabled(k, Io(d))
    ensures var r := Step(k, Io(d));
            && Family(r, parent, child, parent, []) && Queue(r.blocked, Dev(d)) == [child]
            && (forall b | b != d :: Queue(r.blocked, Dev(b)) == [])
            && r.sem == k.sem && r.softBlockCount == Add32(k.softBlockCount, 1)
  {
    hide Stable, DevicesOK, Lost, Descends, Victims, Away, Block;
    AwayConsistent(k);
    AwayHome(k);
    DescriptorLeft(k, child);
    StepInv(k, Io(d));
    NoVictims(k, Io(d));
    ViewStep(k, Io(d), Dev(d));
    forall b | b != d ensures Queue(Step(k, Io(d)).blocked, Dev(b)) == [] {
      ViewStep(k, Io(d), Dev(b));
      MinusNobody(Queue(k.blocked, Dev(b)));
    }
  }

  /** The parent kills it. */
  lemma Bereaved(k: K, parent: nat, child: nat, d: nat)
    requires Family(k, parent, child, parent, []) && d < PSEUDOINDEX && Queue(k.blocked, Dev(d)) == [child]
    ensures Enabled(k, Terminate(Some(child)))
    ensures var r := Step(k, Terminate(Some(child)));
            && Inv(r) && r.mode == Running && r.current == Some(parent) && r.ready == [] && Lost(r) == {}
            && Dev(d) !in r.blocked && r.sem == k.sem && r.softBlockCount == k.softBlockCount
            && forall b | b != d && Queue(k.blocked, Dev(b)) == [] :: Queue(r.blocked, Dev(b)) == []
  {
    hide Inv, Next, Lost, PostOrder, Kill, ClockWaiters, Elems, Victims;
    MayKill(k, parent, child);
    var e := Terminate(Some(child));
    StepInv(k, e);
    OnlyVictim(k, child);
    ViewStep(k, e, Dev(d));
    OneGone(child);
    KilledEmpty(k, child);
    NoClockWaiter(k, child, d);
    NothingGivenBack(k, child);
    NonEmpty(Step(k, e), Dev(d));
    forall b | b != d && Queue(k.blocked, Dev(b)) == [] ensures Queue(Step(k, e).blocked, Dev(b)) == [] {
      ViewStep(k, e, Dev(b));
      MinusNothing([], Victims(k, e));
    }
  }

  lemma MayKill(k: K, parent: nat, child: nat)
    requires Family(k, parent, child, parent, [])
    ensures Enabled(k, Terminate(Some(child))) && ForestOK(k)
    ensures Next(k, Terminate(Some(child))) == Kill(k, child)
  {
    hide Stable, DevicesOK, Lost, Away, Kill;
    AwayConsistent(k);
    ConsistentForest(k);
    assert !Descends(k, child, parent);
  }

  lemma OnlyVictim(k: K, child: nat)
    requires Inv(k) && Enabled(k, Terminate(Some(child))) && ForestOK(k)
    requires child < |k.kids| && child < |k.pcb| && k.kids[child] == []
    ensures Victims(k, Terminate(Some(child))) == {child} && Elems(PostOrder(k, child)) == {child}
  {
    hide Inv, Enabled, ForestOK, PostOrder;
    ChildlessSubtree(k, child);
  }

  lemma NoClockWaiter(k: K, x: nat, d: nat)
    requires Inv(k) && x in Queue(k.blocked, Dev(d)) && d < PSEUDOINDEX
    ensures |ClockWaiters(k.pcb, {x})| == 0
  {
    hide ForestOK, FreeClean, DevicesOK, NoDup;
    assert ClockWaiters(k.pcb, {x}) == {};
  }

  lemma KilledEmpty(k: K, p: nat)
    requires ForestOK(k) && p < |k.pcb| && k.ready == []
    ensures var r := Kill(k, p); r.ready == [] && r.mode == k.mode && r.current == k.current && r.sem == k.sem
  {
    hide PostOrder, ClockWaiters, KidsWithout, Cleared, Unblock;
  }

  lemma NothingGivenBack(k: K, p: nat)
    requires ForestOK(k) && p < |k.pcb| && Elems(PostOrder(k, p)) == {p} && |ClockWaiters(k.pcb, {p})| == 0
    ensures Kill(k, p).softBlockCount == k.softBlockCount
  {
    hide PostOrder, Elems, ClockWaiters, Kill, ForestOK, Sub32;
    KillFields(k, p);
    SubNothing(k.softBlockCount);
  }

  lemma NonEmpty(k: K, a: SemAddr)
    requires Inv(k) && Queue(k.blocked, a) == []
    ensures a !in k.blocked
  {
    hide WellFormed, FreeClean, DevicesOK;
    AwayConsistent(k);
  }

  /** The device answers the dead child's request, the parent uses the device, and is lost. */
  lemma AnswersTheDead(k: K, parent: nat, d: nat, status: int)
    requires Inv(k) && k.mode == Running && k.current == Some(parent) && k.ready == [] && Lost(k) == {}
    requires d < PSEUDOINDEX && Dev(d) !in k.blocked && Val(k.sem, Dev(d)) == 0
    ensures Legal(k, [Device(d, status), Io(d)])
    ensures var r := Run(k, [Device(d, status), Io(d)]); Lost(r) == {parent} && r.current == None && r.ready == []
  {
    hide Stable, DevicesOK, Lost, Descends, Victims, Away;
    AwayConsistent(k);
    var e := Device(d, status);
    StepInv(k, e);
    NoVictims(k, e);
    ViewStep(k, e, Dev(d));
    var s := Step(k, e);
    assert s.current == k.current && s.ready == [] && s.mode == Running;
    AwayConsistent(s);
    Taken(s, parent, d);
    Follow(s, Io(d), []);
    Follow(k, e, [Io(d)]);
    assert [e] + [Io(d)] == [e, Io(d)] && [Io(d)] + [] == [Io(d)];
  }

  lemma Taken(s: K, parent: nat, d: nat)
    requires Inv(s) && s.mode == Running && s.current == Some(parent) && s.ready == [] && Lost(s) == {}
    requires d < PSEUDOINDEX && Val(s.sem, Dev(d)) == 1
    ensures Enabled(s, Io(d))
    ensures var r := Step(s, Io(d)); Lost(r) == {parent} && r.current == None && r.ready == []
  {
    hide Stable, DevicesOK, Lost, Descends, Victims, Away;
    AwayConsistent(s);
    StepInv(s, Io(d));
    NoVictims(s, Io(d));
  }

  /** From boot, with any MAXPROC of at least 2: a child waits for a device, its parent kills it,
      the device answers, and the parent's next DOIO on that device loses the parent. */
  lemma LostCaller(n: nat, mem: map<SemAddr, int>, d: nat, status: int, prio: int, support: nat, a0: int)
    requires 2 <= n < TWO32 && d < PSEUDOINDEX
    ensures var es := [Create(prio, support, a0), GiveWay, Io(d), Terminate(Some(n - 2)), Device(d, status), Io(d)];
            Legal(Start(n, mem), es) && Lost(Run(Start(n, mem), es)) == {n - 1}
  {
    hide Inv, Enabled, Step, Legal, Run, Lost, Start;
    var parent, child := n - 1, n - 2;
    var k0, c, t := Start(n, mem), Create(prio, support, a0), Terminate(Some(child));
    Born(n, mem, prio, support, a0);
    var k1 := Step(k0, c);
    Yielded(k1, parent, child, parent, child);
    var k2 := Step(k1, GiveWay);
    Requested(k2, parent, child, d);
    var k3 := Step(k2, Io(d));
    Bereaved(k3, parent, child, d);
    var k4, last := Step(k3, t), [Device(d, status), Io(d)];
    AnswersTheDead(k4, parent, d, status);
    Follow(k3, t, last);
    Follow(k2, Io(d), [t] + last);
    Follow(k1, GiveWay, [Io(d)] + ([t] + last));
    Follow(k0, c, [GiveWay] + ([Io(d)] + ([t] + last)));
    assert [c] + ([GiveWay] + ([Io(d)] + ([t] + last))) == [c, GiveWay, Io(d), t, Device(d, status), Io(d)];
  }

  /** From boot, two events lead to a caller whose parent is a live process that TERMPROCESS
      accepts; having killed it, the caller goes on running on a PCB in the free list. */
  lemma RunningDead(n: nat, mem: map<SemAddr, int>, prio: int, support: nat, a0: int)
    requires 2 <= n < TWO32
    ensures var es := [Create(prio, support, a0), GiveWay];
            && Legal(Start(n, mem), es)
            && var k := Run(Start(n, mem), es);
            && k.mode == Running && k.current == Some(n - 2) && Live(k, n - 1)
            && !Inv(Next(k, Terminate(Some(n - 1))))
            && Next(k, Terminate(Some(n - 1))).current == Some(n - 2)
            && n - 2 in Next(k, Terminate(Some(n - 1))).free
  {
    hide Inv, Enabled, Step, Legal, Run, Lost, Start, Next, Descends;
    var k0, c := Start(n, mem), Create(prio, support, a0);
    Born(n, mem, prio, support, a0);
    var k1 := Step(k0, c);
    Yielded(k1, n - 1, n - 2, n - 1, n - 2);
    var k := Step(k1, GiveWay);
    Done(k);
    Follow(k1, GiveWay, []);
    assert [GiveWay] + [] == [GiveWay];
    Follow(k0, c, [GiveWay]);
    assert [c] + [GiveWay] == [c, GiveWay];
    InvSettled(k);
    TerminateExactly(k, n - 1);
    ChildDescends(k, n - 1, n - 2);
  }

  lemma Done(k: K)
    requires Inv(k)
    ensures Legal(k, []) && Run(k, []) == k
  {
    hide Inv;
  }

  lemma ChildDescends(k: K, parent: nat, child: nat)
    requires Settled(k) && k.current == Some(child) && parent < |k.pcb| && child < |k.pcb| && parent != child
    requires k.pcb[child].parent == Some(parent)
    ensures !SafeTarget(k, parent)
  {
    hide Away, QueuesOK, FreeClean, Counted;
    AwayConsistent(k);
    ConsistentForest(k);
    assert Descends(k, parent, parent);
  }

  // ---------------------------------------------------------------- a deadlock that is not reported

  lemma NobodyOnDevices(k: K)
    requires Inv(k) && forall b :: Queue(k.blocked, Dev(b)) == []
    ensures DeviceWaiters(k.pcb) == {}
  {
    hide ForestOK, FreeClean, DevicesOK, NoDup, Homed;
    forall x | 0 <= x < |k.pcb| ensures !OnDevice(k.pcb[x]) {
      assert k.pcb[x].semAdd.Some? ==> x in Queue(k.blocked, k.pcb[x].semAdd.value);
    }
  }

  /** The only process left waits for a user semaphore.  The request of the dead child is still
      counted, so the kernel waits. */
  lemma Stranded(k: K, parent: nat, addr: nat)
    requires Inv(k) && k.mode == Running && k.current == Some(parent) && k.ready == [] && Lost(k) == {}
    requires Val(k.sem, Usr(addr)) <= 0 && k.softBlockCount == 1 && forall b :: Queue(k.blocked, Dev(b)) == []
    ensures Enabled(k, P(addr))
    ensures var r := Step(k, P(addr));
            && r.mode == Waiting && r.processCount > 0 && DeviceWaiters(r.pcb) == {}
            && forall x | 0 <= x < |r.pcb| && x !in r.free :: r.pcb[x].semAdd.Some? && r.pcb[x].semAdd.value.Usr?
  {
    hide Stable, DevicesOK, Lost, Descends, Victims, Away, Block, DeviceWaiters;
    var e := P(addr);
    AwayConsistent(k);
    StepInv(k, e);
    NoVictims(k, e);
    var r := Step(k, e);
    forall b ensures Queue(r.blocked, Dev(b)) == [] {
      ViewStep(k, e, Dev(b));
      MinusNobody(Queue(k.blocked, Dev(b)));
    }
    NobodyOnDevices(r);
    LiveCounted(k, parent);
    IdleDecides(k, e);
    PanicHomes(r);
  }

  lemma LiveCounted(k: K, x: nat)
    requires Inv(k) && k.current == Some(x)
    ensures k.processCount > 0
  {
    hide ForestOK, FreeClean, DevicesOK, WaitersOK;
    AwayConsistent(k);
    ElemsCard(k.free);
    assert Elems(k.free) <= Range(|k.pcb|) - {x};
    SubsetCard(Elems(k.free), Range(|k.pcb|) - {x});
  }

  /** From boot: a child waits for a device, its parent kills it and then waits for a user
      semaphore of no units.  Every live process waits for a user semaphore, nobody for a device
      or the clock, and yet the kernel waits instead of reporting the deadlock. */
  lemma SilentDeadlock(n: nat, mem: map<SemAddr, int>, d: nat, addr: nat, prio: int, support: nat, a0: int)
    requires 2 <= n < TWO32 && d < PSEUDOINDEX && Val(mem, Usr(addr)) <= 0
    ensures var es := [Create(prio, support, a0), GiveWay, Io(d), Terminate(Some(n - 2)), P(addr)];
            && Legal(Start(n, mem), es)
            && var r := Run(Start(n, mem), es);
            && r.mode == Waiting && r.processCount > 0 && DeviceWaiters(r.pcb) == {}
            && forall x | 0 <= x < |r.pcb| && x !in r.free :: r.pcb[x].semAdd.Some? && r.pcb[x].semAdd.value.Usr?
  {
    hide Inv, Enabled, Step, Legal, Run, Lost, Start, DeviceWaiters;
    var parent, child := n - 1, n - 2;
    var k0, c, t := Start(n, mem), Create(prio, support, a0), Terminate(Some(child));
    Born(n, mem, prio, support, a0);
    var k1 := Step(k0, c);
    Yielded(k1, parent, child, parent, child);
    var k2 := Step(k1, GiveWay);
    Requested(k2, parent, child, d);
    var k3 := Step(k2, Io(d));
    Bereaved(k3, parent, child, d);
    var k4 := Step(k3, t);
    assert k4.sem == k1.sem && Val(k1.sem, Usr(addr)) == Val(mem, Usr(addr));
    Stranded(k4, parent, addr);
    Done(Step(k4, P(addr)));
    Follow(k4, P(addr), []);
    Follow(k3, t, [P(addr)] + []);
    Follow(k2, Io(d), [t] + ([P(addr)] + []));
    Follow(k1, GiveWay, [Io(d)] + ([t] + ([P(addr)] + [])));
    Follow(k0, c, [GiveWay] + ([Io(d)] + ([t] + ([P(addr)] + []))));
    assert [c] + ([GiveWay] + ([Io(d)] + ([t] + ([P(addr)] + [])))) == [c, GiveWay, Io(d), t, P(addr)];
  }

  // ---------------------------------------------------------------- YIELD against priorities

  /** From boot: a process of priority 0 creates one of higher priority and yields to it; when
      that one yields as well, the lower priority runs while the higher one is ready. */
  lemma YieldInverts(n: nat, mem: map<SemAddr, int>, prio: int, support: nat, a0: int)
    requires 2 <= n < TWO32 && prio > 0
    ensures var es := [Create(prio, support, a0), GiveWay, GiveWay];
            && Legal(Start(n, mem), es)
            && var r := Run(Start(n, mem), es);
            && r.mode == Running && r.current == Some(n - 1) && r.ready == [n - 2]
            && Prio(r.pcb, n - 2) > Prio(r.pcb, n - 1)
  {
    hide Inv, Enabled, Step, Legal, Run, Lost, Start;
    var k0, c := Start(n, mem), Create(prio, support, a0);
    Born(n, mem, prio, support, a0);
    var k1 := Step(k0, c);
    Yielded(k1, n - 1, n - 2, n - 1, n - 2);
    var k2 := Step(k1, GiveWay);
    Yielded(k2, n - 1, n - 2, n - 2, n - 1);
    Done(Step(k2, GiveWay));
    Follow(k2, GiveWay, []);
    Follow(k1, GiveWay, [GiveWay] + []);
    Follow(k0, c, [GiveWay] + ([GiveWay] + []));
    assert [c] + ([GiveWay] + ([GiveWay] + [])) == [c, GiveWay, GiveWay];
  }
}
