/** The nucleus as a state machine: what each system call, trap, interrupt and scheduler
    decision does to the kernel state (phase2). */
module KernelSteps {
  import opened Seqs
  import opened KernelState
  import opened Killing

  const PASSEREN: int := -3
  const DOIO: int := -5
  const CLOCKWAIT: int := -7
  const YIELD: int := -10

  /** The current process; meaningful while a process runs. */
  function Cur(k: K): nat {
    k.current.GetOr(0)
  }

  /** The current process is a live PCB in no list. */
  ghost predicate CurrentOK(k: K) {
    k.current.Some? ==>
      && k.current.value < |k.pcb| && k.current.value !in k.free && k.current.value !in k.ready
      && k.pcb[k.current.value].semAdd == None
  }

  /** What every handler starts from and, under the environment's assumptions, ends in. */
  ghost predicate Consistent(k: K) {
    WellFormed(k) && FreeClean(k) && CurrentOK(k)
  }

  /** The PCB allocPcb would return is detached. */
  lemma FreeHead(k: K)
    requires Consistent(k) && k.free != []
    ensures var x := k.free[0];
            && x < |k.pcb| && k.pcb[x].parent == None && k.pcb[x].semAdd == None
            && |k.kids| == |k.pcb| && forall q | 0 <= q < |k.kids| :: x !in k.kids[q]
    ensures k.current.Some? ==> k.current != Some(k.free[0])
  {
    assert k.free[0] in k.free;
  }

  /** A semaphore queue starts with a PCB. */
  lemma FirstWaiter(k: K, a: SemAddr)
    requires Consistent(k)
    ensures a in k.blocked ==> k.blocked[a] != [] && k.blocked[a][0] < |k.pcb|
  {
  }

  lemma KillKeepsCurrent(k: K, p: nat)
    requires Consistent(k) && p < |k.pcb|
    ensures Kill(k, p).current == k.current
  {
  }

  lemma WaiterFits(k: K, a: SemAddr)
    requires WaitersOK(k.blocked, k.pcb)
    ensures a in k.blocked ==> k.blocked[a] != [] && k.blocked[a][0] < |k.pcb|
  {
  }

  lemma WaitersFit(k: K)
    requires Consistent(k)
    ensures WaitersOK(k.blocked, k.pcb)
  {
  }

  // ---------------------------------------------------------------- scheduler and common moves

  /** scheduler(). */
  function Sched(k: K): K {
    if k.ready == [] then
      k.(mode := if k.processCount == 0 then Halted else if k.softBlockCount > 0 then Waiting else Panicked)
    else
      k.(current := Some(k.ready[0]), ready := k.ready[1..], mode := Running)
  }

  /** insertProcQ(&readyQueue, x). */
  function MakeReady(k: K, x: nat): K {
    k.(ready := Enqueue(k.ready, k.pcb, x))
  }

  /** copyState(&currentProcess->p_s, state) with that value of reg_a0; currentProcess = NULL. */
  function Save(k: K, a0: int): K
    requires k.current.Some? && k.current.value < |k.pcb|
  {
    k.(pcb := k.pcb[k.current.value := k.pcb[k.current.value].(a0 := a0)], current := None)
  }

  /** insertBlocked(a, currentProcess), whose result the kernel ignores. */
  function BlockCurrent(k: K, a: SemAddr): K
    requires k.current.Some? && k.current.value < |k.pcb|
  {
    if a !in k.blocked && |k.blocked| == |k.pcb| then k
    else
      k.(blocked := Block(k.blocked, a, k.current.value),
         pcb := k.pcb[k.current.value := k.pcb[k.current.value].(semAdd := Some(a))])
  }

  /** removeBlocked(a) has a PCB to return: it leaves the queue, its reg_a0 set if given, and becomes ready. */
  ghost function Wake(k: K, a: SemAddr, a0: Option<int>): K
    requires a in k.blocked && k.blocked[a] != [] && k.blocked[a][0] < |k.pcb|
  {
    var x := k.blocked[a][0];
    var p := k.pcb[x].(semAdd := None, a0 := if a0.Some? then a0.value else k.pcb[x].a0);
    MakeReady(k.(blocked := Unblock(k.blocked, {x}), pcb := k.pcb[x := p]), x)
  }

  // ---------------------------------------------------------------- system calls

  /** allocPcb when a PCB is free: the head of the free list, reset. */
  function Allocated(k: K): K
    requires k.free != [] && k.free[0] < |k.pcb| && k.free[0] < |k.kids|
  {
    var x := k.free[0];
    k.(free := k.free[1..], kids := k.kids[x := []], pcb := k.pcb[x := Pcb(None, None, 0, k.nextPid, 0, 0)],
       nextPid := k.nextPid + 1)
  }

  /** CREATEPROCESS: the new process is the first child of the current one, and ready. */
  function CreateK(k: K, prio: int, support: nat, a0: int): K
    requires k.current.Some? && |k.kids| == |k.pcb| && k.current.value < |k.pcb|
    requires k.free != [] ==> k.free[0] < |k.pcb|
  {
    if k.free == [] then k
    else
      var x, c, k1 := k.free[0], k.current.value, Allocated(k);
      var k2 := k1.(kids := k1.kids[c := [x] + k1.kids[c]],
          pcb := k1.pcb[x := Pcb(k.current, None, prio, k.nextPid, support, a0)]);
      MakeReady(k2, x).(processCount := Add32(k2.processCount, 1))
  }

  /** TERMPROCESS, target being what findProcess returned. */
  ghost function TerminateK(k: K, target: Option<nat>): K
    requires ForestOK(k) && (target.Some? ==> target.value < |k.pcb|)
  {
    if target == None then k
    else if k.current == target then Sched(Kill(k, target.value).(current := None))
    else Kill(k, target.value)
  }

  function PasserenK(k: K, a: SemAddr): K
    requires k.current.Some? && k.current.value < |k.pcb|
  {
    if Val(k.sem, a) <= 0 then Sched(Save(BlockCurrent(k, a), PASSEREN))
    else k.(sem := k.sem[a := Val(k.sem, a) - 1])
  }

  ghost function VerhogenK(k: K, a: SemAddr): K
    requires a in k.blocked ==> k.blocked[a] != [] && k.blocked[a][0] < |k.pcb|
  {
    if a in k.blocked then Wake(k, a, None) else k.(sem := k.sem[a := Val(k.sem, a) + 1])
  }

  /** The P at the start of DOIO and CLOCKWAIT. */
  function Down(k: K, a: SemAddr): (r: K)
    requires k.current.Some? && k.current.value < |k.pcb|
    ensures r.current == k.current && |r.pcb| == |k.pcb|
  {
    if Val(k.sem, a) <= 0 then BlockCurrent(k, a) else k.(sem := k.sem[a := Val(k.sem, a) - 1])
  }

  /** DOIO on the device of semaphore a, and CLOCKWAIT: both give up the processor either way. */
  function SoftBlockK(k: K, a: SemAddr, a0: int): K
    requires k.current.Some? && k.current.value < |k.pcb|
  {
    var k2 := Save(Down(k, a), a0);
    Sched(k2.(softBlockCount := Add32(k2.softBlockCount, 1)))
  }

  function YieldK(k: K): K
    requires k.current.Some? && k.current.value < |k.pcb|
  {
    Sched(Save(k, YIELD).(ready := k.ready + [k.current.value]))
  }

  /** passUpOrDie: without a support structure the process dies with its progeny. */
  ghost function TrapK(k: K): K
    requires ForestOK(k) && k.current.Some? && k.current.value < |k.pcb|
  {
    if k.pcb[k.current.value].support == 0 then Sched(Kill(k, k.current.value).(current := None)) else k
  }

  // ---------------------------------------------------------------- interrupts

  /** After an interrupt: back to the current process, or a scheduling decision. */
  function Resume(k: K): K {
    if k.current == None then Sched(k) else k
  }

  ghost function DeviceK(k: K, a: SemAddr, status: int): K
    requires a in k.blocked ==> k.blocked[a] != [] && k.blocked[a][0] < |k.pcb|
  {
    Resume(if a in k.blocked then
             var w := Wake(k, a, Some(status));
             w.(softBlockCount := Sub32(w.softBlockCount, 1))
           else k.(sem := k.sem[a := Val(k.sem, a) + 1]))
  }

  /** handlePLT: the current process keeps reg_a0 = a0 and goes back to the ready queue. */
  function TimeSliceK(k: K, a0: int): K
    requires k.current.Some? && k.current.value < |k.pcb|
  {
    var k1 := k.(pcb := k.pcb[k.current.value := k.pcb[k.current.value].(a0 := a0)]);
    Sched(MakeReady(k1, k.current.value))
  }

  /** One round of handleIntervalClock's loop. */
  ghost function Tick(k: K): K
    requires CLOCK in k.blocked && WaitersOK(k.blocked, k.pcb)
  {
    assert k.blocked[CLOCK] != [] && k.blocked[CLOCK][0] < |k.pcb|;
    var w := Wake(k, CLOCK, None);
    w.(softBlockCount := Sub32(w.softBlockCount, 1))
  }

  /** A round takes one PCB off the pseudo-clock's queue. */
  lemma TickShrinks(k: K)
    requires CLOCK in k.blocked && WaitersOK(k.blocked, k.pcb)
    ensures WaitersOK(Tick(k).blocked, Tick(k).pcb)
    ensures Queue(Tick(k).blocked, CLOCK) == k.blocked[CLOCK][1..]
  {
    var q := k.blocked[CLOCK];
    assert q[0] in q;
    UnblockedWaiters(k.blocked, k.pcb, CLOCK, q[0]);
    MinusOne(q, 0);
    assert RemoveAt(q, 0) == q[1..];
  }

  ghost function Drain(k: K): K
    requires WaitersOK(k.blocked, k.pcb)
    decreases |Queue(k.blocked, CLOCK)|
  {
    if CLOCK !in k.blocked then k
    else
      TickShrinks(k);
      assert k.blocked[CLOCK] != [];
      Drain(Tick(k))
  }

  ghost function ClockTickK(k: K): K
    requires WaitersOK(k.blocked, k.pcb)
  {
    Resume(Drain(k))
  }

  // ---------------------------------------------------------------- boot

  /** deviceSemaphore[0..c] set to 0. */
  function ZeroDevices(mem: map<SemAddr, int>, c: nat): (r: map<SemAddr, int>)
    ensures forall d | 0 <= d < c :: Val(r, Dev(d)) == 0
    ensures forall a: SemAddr | a.Usr? :: Val(r, a) == Val(mem, a)
  {
    if c == 0 then mem else ZeroDevices(mem, c - 1)[Dev(c - 1) := 0]
  }

  const NRSEMAPHORES: nat := 49

  /** The state main() hands to the scheduler: one process, allocated from a table of n PCBs. */
  function Loaded(n: nat, sem: map<SemAddr, int>): K
    requires n > 0
  {
    K(Descending(n - 1), [n - 1], map[], Repeat([], n), Repeat(ZEROPCB, n)[n - 1 := Pcb(None, None, 0, 1, 0, 0)],
      None, Waiting, 1, 0, sem, 2)
  }

  /** The kernel just initialised: all n PCBs free. */
  function Blank(n: nat, sem: map<SemAddr, int>): K {
    K(Descending(n), [], map[], Repeat([], n), Repeat(ZEROPCB, n), None, Waiting, 0, 0, sem, 1)
  }

  /** Allocating, counting and queueing the first process. */
  lemma FirstIn(n: nat, sem: map<SemAddr, int>)
    requires n > 0
    ensures Blank(n, sem).free != [] && Blank(n, sem).free[0] == n - 1
    ensures var a := Allocated(Blank(n, sem));
        MakeReady(a.(processCount := Add32(a.processCount, 1)), n - 1) == Loaded(n, sem)
  {
    DescendingStep(n - 1);
    var a := Allocated(Blank(n, sem));
    assert Enqueue([], a.pcb, n - 1) == [n - 1];
    assert Repeat([], n)[n - 1 := []] == Repeat<seq<nat>>([], n);
  }

  /** main(): without a PCB to allocate it panics. */
  function Boot(n: nat, mem: map<SemAddr, int>): K {
    var sem := ZeroDevices(mem, NRSEMAPHORES);
    if n == 0 then Blank(n, sem).(mode := Panicked) else Sched(Loaded(n, sem))
  }
}
