/** Every semaphore of the kernel is a counting semaphore with a FIFO queue: conservation, no
    lost wakeup and waiting times over whole runs. */
module Semaphores {
  import opened Seqs
  import opened Positions
  import opened Counting
  import opened KernelState
  import opened Killing
  import opened KernelSteps
  import opened Stability
  import opened Runs

  /** The semaphore at a, out of the kernel state. */
  function View(k: K, a: SemAddr): Sema {
    Sema(Val(k.sem, a), Queue(k.blocked, a))
  }

  /** The event performs a P on a. */
  predicate Downs(e: Event, a: SemAddr) {
    match e
    case P(addr) => a == Usr(addr)
    case Io(d) => a == Dev(d)
    case WaitClock => a == CLOCK
    case _ => false
  }

  /** The event performs a V on a. */
  predicate Ups(e: Event, a: SemAddr) {
    match e
    case V(addr) => a == Usr(addr)
    case Device(d, _) => a == Dev(d)
    case _ => false
  }

  /** What an event does to the semaphore at a, seen from that semaphore alone. */
  ghost function ViewNext(k: K, e: Event, a: SemAddr): Sema
    requires Inv(k) && Enabled(k, e)
  {
    if Downs(e, a) then DownBy(View(k, a), Cur(k))
    else if Ups(e, a) then Up(View(k, a))
    else if e.Clock? && a == CLOCK then View(k, a).(queue := [])
    else Drop(View(k, a), Victims(k, e))
  }

  // ---------------------------------------------------------------- the view of each move

  lemma MinusNobody(q: seq<nat>)
    ensures Minus(q, {}) == q
  {
    MinusNothing(q, {});
  }

  lemma ViewKill(k: K, p: nat, a: SemAddr)
    requires ForestOK(k) && p < |k.pcb|
    ensures View(Kill(k, p), a) == Drop(View(k, a), Elems(PostOrder(k, p)))
  {
    hide Minus, PostOrder, KidsWithout, Cleared, Reverse;
    var g := Elems(PostOrder(k, p));
    assert Minus([], g) == [] by {
      MinusNothing([], g);
    }
  }

  lemma ViewBlock(k: K, b: SemAddr, a: SemAddr)
    requires k.current.Some? && QueuesOK(k) && k.current.value < |k.pcb| && k.pcb[k.current.value].semAdd == None
    ensures View(BlockCurrent(k, b), a) ==
              if a == b then View(k, a).(queue := Queue(k.blocked, a) + [k.current.value]) else View(k, a)
  {
    DescriptorLeft(k, k.current.value);
  }

  lemma ViewWake(k: K, b: SemAddr, a0: Option<int>, a: SemAddr)
    requires WaitersOK(k.blocked, k.pcb) && b in k.blocked && k.blocked[b] != [] && k.blocked[b][0] < |k.pcb|
    ensures View(Wake(k, b, a0), a) == if a == b then View(k, a).(queue := k.blocked[b][1..]) else View(k, a)
  {
    hide Minus, Unblock, Slot;
    var q := k.blocked[b];
    assert q[0] in q;
    UnblockOne(k.blocked, k.pcb, b, q[0]);
    MinusOne(q, 0);
    assert RemoveAt(q, 0) == q[1..];
  }

  lemma {:induction false} ViewDrain(k: K, a: SemAddr)
    requires WaitersOK(k.blocked, k.pcb)
    ensures View(Drain(k), a) == if a == CLOCK then View(k, a).(queue := []) else View(k, a)
    decreases |Queue(k.blocked, CLOCK)|
  {
    hide WaitersOK, Wake;
    if CLOCK in k.blocked {
      WaiterFits(k, CLOCK);
      TickShrinks(k);
      ViewWake(k, CLOCK, None, a);
      ViewDrain(Tick(k), a);
    }
  }

  // ---------------------------------------------------------------- the view of each event

  lemma ViewSoftBlock(k: K, d: nat, a0: int, a: SemAddr)
    requires Inv(k) && k.current.Some? && d < NRSEMAPHORES
    ensures k.current.value < |k.pcb|
    ensures View(SoftBlockK(k, Dev(d), a0), a) == if a == Dev(d) then DownBy(View(k, a), Cur(k)) else View(k, a)
  {
    hide Stable, Block, DevicesOK;
    AwayHome(k);
    ViewBlock(k, Dev(d), a);
  }

  lemma AwayHome(k: K)
    requires Settled(k) && k.current.Some?
    ensures QueuesOK(k) && k.current.value < |k.pcb| && k.pcb[k.current.value].semAdd == None
  {
    hide WaitersOK, ForestOK, NoDup;
    assert k.current.value in Current(k);
  }

  lemma ViewPasseren(k: K, addr: nat, a: SemAddr)
    requires Inv(k) && k.current.Some?
    ensures View(Next(k, P(addr)), a) == if a == Usr(addr) then DownBy(View(k, a), Cur(k)) else View(k, a)
  {
    hide Stable, Block;
    AwayConsistent(k);
    AwayHome(k);
    ViewBlock(k, Usr(addr), a);
  }

  lemma ViewVerhogen(k: K, addr: nat, a: SemAddr)
    requires Inv(k) && k.current.Some?
    ensures View(Next(k, V(addr)), a) == if a == Usr(addr) then Up(View(k, a)) else View(k, a)
  {
    hide Stable, Wake, WaitersOK;
    AwayConsistent(k);
    WaitersFit(k);
    WaiterFits(k, Usr(addr));
    if Usr(addr) in k.blocked {
      ViewWake(k, Usr(addr), None, a);
    }
  }

  lemma ViewDevice(k: K, d: nat, status: int, a: SemAddr)
    requires Inv(k) && d < PSEUDOINDEX
    ensures View(Next(k, Device(d, status)), a) == if a == Dev(d) then Up(View(k, a)) else View(k, a)
  {
    hide Stable, Wake, WaitersOK, DevicesOK, WellFormed, FreeClean, Away, Sub32;
    AwayConsistent(k);
    WaitersFit(k);
    WaiterFits(k, Dev(d));
    if Dev(d) in k.blocked {
      ViewWake(k, Dev(d), Some(status), a);
    }
  }

  lemma ViewDeath(k: K, e: Event, a: SemAddr)
    requires Inv(k) && Enabled(k, e) && (e.Terminate? || e.Trap?)
    ensures View(Next(k, e), a) == Drop(View(k, a), Victims(k, e))
  {
    hide Stable, Kill, PostOrder, Minus, Descends;
    AwayConsistent(k);
    ConsistentForest(k);
    MinusNobody(Queue(k.blocked, a));
    match e
    case Terminate(Some(t)) => ViewKill(k, t, a);
    case Terminate(None) =>
    case Trap => ViewKill(k, k.current.value, a);
  }

  /** Every kernel step acts on each semaphore as its P, its V, a broadcast or a death does on
      a counting semaphore with a FIFO queue, and leaves the other semaphores alone. */
  lemma ViewStep(k: K, e: Event, a: SemAddr)
    requires Inv(k) && Enabled(k, e)
    ensures View(Step(k, e), a) == ViewNext(k, e, a)
  {
    hide Inv, Settled, Enabled, Minus, Wake, Block, Slot, Drain, Kill, PostOrder, Allocated, Away;
    InvRunning(k, e);
    AwayConsistent(k);
    MinusNobody(Queue(k.blocked, a));
    match e
    case P(addr) => ViewPasseren(k, addr, a);
    case V(addr) => ViewVerhogen(k, addr, a);
    case Io(d) => ViewSoftBlock(k, d, DOIO, a);
    case WaitClock => ViewSoftBlock(k, PSEUDOINDEX, CLOCKWAIT, a);
    case Device(d, status) => ViewDevice(k, d, status, a);
    case Terminate(t) => ViewDeath(k, e, a);
    case Trap => ViewDeath(k, e, a);
    case Clock =>
      WaitersFit(k);
      ViewDrain(k, a);
    case Create(prio, support, a0) => ViewCreate(k, prio, support, a0, a);
    case GiveWay =>
    case TimeSlice(a0) =>
  }

  lemma ViewCreate(k: K, prio: int, support: nat, a0: int, a: SemAddr)
    requires Inv(k) && k.current.Some?
    ensures View(Next(k, Create(prio, support, a0)), a) == View(k, a)
  {
    hide Stable, Slot;
    AwayConsistent(k);
  }

  // ---------------------------------------------------------------- conservation

  /** What happened at a semaphore: Vs, Ps asked for, Ps completed (at once or by being
      woken), and waiters killed. */
  datatype Ledger = Ledger(ups: nat, downs: nat, passed: nat, dropped: nat)

  /** No process waits while the semaphore could let it through. */
  predicate NoLostWakeup(s: Sema) {
    s.value >= 0 && (s.queue != [] ==> s.value == 0)
  }

  ghost function Entry(k: K, e: Event, a: SemAddr): Ledger
    requires Inv(k) && Enabled(k, e)
  {
    var s := View(k, a);
    if Downs(e, a) then Ledger(0, 1, if s.value > 0 then 1 else 0, 0)
    else if Ups(e, a) then Ledger(1, 0, if s.queue != [] then 1 else 0, 0)
    else Ledger(0, 0, 0, |s.queue| - |Minus(s.queue, Victims(k, e))|)
  }

  ghost function Tally(k: K, es: seq<Event>, a: SemAddr): Ledger
    requires Inv(k) && Legal(k, es)
    decreases |es|
  {
    if es == [] then Ledger(0, 0, 0, 0)
    else
      var h, t := Entry(k, es[0], a), Tally(Step(k, es[0]), es[1..], a);
      Ledger(h.ups + t.ups, h.downs + t.downs, h.passed + t.passed, h.dropped + t.dropped)
  }

  /** Over every run the value of a semaphore other than the pseudo-clock's is its initial value plus the Vs minus the
      completed Ps; every P asked for is completed, still waiting or died waiting; the value is
      never negative, and 0 while somebody waits. */
  lemma {:induction false} Conservation(k: K, es: seq<Event>, a: SemAddr)
    requires Inv(k) && Legal(k, es) && a != CLOCK && NoLostWakeup(View(k, a))
    ensures var t, s, s' := Tally(k, es, a), View(k, a), View(Run(k, es), a);
            && s'.value == s.value + t.ups - t.passed
            && |s.queue| + t.downs == t.passed + t.dropped + |s'.queue|
            && NoLostWakeup(s')
    decreases |es|
  {
    hide Inv, Enabled, Step, Minus, Victims;
    if es != [] {
      ViewStep(k, es[0], a);
      Conservation(Step(k, es[0]), es[1..], a);
    }
  }

  /** From boot nobody waits: with n units at the start, value == n + Vs - completed Ps. */
  lemma FromBoot(n: nat, mem: map<SemAddr, int>, es: seq<Event>, addr: nat)
    requires 0 < n < TWO32 && Val(mem, Usr(addr)) >= 0
    requires Legal(Start(n, mem), es)
    ensures var t, s := Tally(Start(n, mem), es, Usr(addr)), View(Run(Start(n, mem), es), Usr(addr));
            && s.value == Val(mem, Usr(addr)) + t.ups - t.passed
            && t.downs == t.passed + t.dropped + |s.queue|
            && s.value >= 0 && (s.queue != [] ==> s.value == 0)
  {
    hide Inv, Legal, Run, Tally, ZeroDevices, Descending, Repeat;
    Conservation(Start(n, mem), es, Usr(addr));
  }

  // ---------------------------------------------------------------- waiting times

  /** x waits at a from k through the whole run. */
  ghost predicate WaitsAt(k: K, es: seq<Event>, a: SemAddr, x: nat)
    requires Inv(k) && Legal(k, es)
    decreases |es|
  {
    x in Queue(k.blocked, a) &&
    (es == [] || WaitsAt(Step(k, es[0]), es[1..], a, x))
  }

  /** No event of the run kills y. */
  ghost predicate Spared(k: K, es: seq<Event>, y: nat)
    requires Inv(k) && Legal(k, es)
    decreases |es|
  {
    es == [] || (y !in Victims(k, es[0]) && Spared(Step(k, es[0]), es[1..], y))
  }

  function UpsIn(es: seq<Event>, a: SemAddr): nat {
    if es == [] then 0 else (if Ups(es[0], a) then 1 else 0) + UpsIn(es[1..], a)
  }

  lemma HeadLeft(q: seq<nat>, x: nat)
    requires NoDup(q) && q != [] && x in q[1..]
    ensures q[0] != x
  {
  }

  /** One event brings a process that goes on waiting no further back, and each V one forward. */
  lemma WaitStep(k: K, e: Event, a: SemAddr, x: nat)
    requires Inv(k) && Enabled(k, e)
    requires x in Queue(k.blocked, a) && x in Queue(Step(k, e).blocked, a)
    ensures Pos(Queue(Step(k, e).blocked, a), x) + (if Ups(e, a) then 1 else 0) <= Pos(Queue(k.blocked, a), x)
  {
    hide Inv, Enabled, Step, Minus, Victims;
    var q := Queue(k.blocked, a);
    ViewStep(k, e, a);
    QueueNoDup(k, a);
    if Downs(e, a) {
      PosAppend(q, [Cur(k)], x);
    } else if Ups(e, a) {
      HeadLeft(q, x);
      PosTail(q, x);
    } else {
      PosMinus(q, Victims(k, e), x);
    }
  }

  lemma QueueNoDup(k: K, a: SemAddr)
    requires Inv(k)
    ensures NoDup(Queue(k.blocked, a)) && |Queue(k.blocked, a)| <= |k.pcb|
  {
    hide ForestOK, DevicesOK, Homed, FreeClean;
    if a in k.blocked {
      NoDupBound(k.blocked[a], |k.pcb|);
    }
  }

  /** A process with i others before it is through after at most i + 1 Vs, whatever else
      happens: while it still waits, the Vs so far are at most i. */
  lemma {:induction false} FifoBound(k: K, es: seq<Event>, a: SemAddr, x: nat)
    requires Inv(k) && Legal(k, es) && WaitsAt(k, es, a, x)
    ensures x in Queue(Run(k, es).blocked, a)
    ensures UpsIn(es, a) + Pos(Queue(Run(k, es).blocked, a), x) <= Pos(Queue(k.blocked, a), x)
    decreases |es|
  {
    hide Inv, Enabled, Step, Ups;
    if es != [] {
      WaitStep(k, es[0], a, x);
      FifoBound(Step(k, es[0]), es[1..], a, x);
    }
  }

  lemma OrderStep(k: K, e: Event, a: SemAddr, x: nat, y: nat)
    requires Inv(k) && Enabled(k, e) && y !in Victims(k, e)
    requires Before(Queue(k.blocked, a), x, y) && x in Queue(Step(k, e).blocked, a)
    ensures Before(Queue(Step(k, e).blocked, a), x, y)
  {
    hide Inv, Enabled, Step, Minus, Victims;
    var q := Queue(k.blocked, a);
    ViewStep(k, e, a);
    QueueNoDup(k, a);
    if Downs(e, a) {
      PosAppend(q, [Cur(k)], x);
      PosAppend(q, [Cur(k)], y);
    } else if Ups(e, a) {
      HeadLeft(q, x);
      PosTail(q, x);
      PosTail(q, y);
    } else if e.Clock? && a == CLOCK {
    } else {
      BeforeMinus(q, Victims(k, e), x, y);
    }
  }

  /** Nobody is woken before a process that came to wait earlier and still waits. */
  lemma {:induction false} FifoOrder(k: K, es: seq<Event>, a: SemAddr, x: nat, y: nat)
    requires Inv(k) && Legal(k, es) && WaitsAt(k, es, a, x) && Spared(k, es, y)
    requires Before(Queue(k.blocked, a), x, y)
    ensures Before(Queue(Run(k, es).blocked, a), x, y)
    decreases |es|
  {
    hide Inv, Enabled, Step, Victims, Before;
    if es != [] {
      OrderStep(k, es[0], a, x, y);
      FifoOrder(Step(k, es[0]), es[1..], a, x, y);
    }
  }

  // ---------------------------------------------------------------- device requests

  /** A process waiting for a sub-device leaves that queue only by an interrupt of the same
      sub-device, or by being killed. */
  lemma {:induction false} OnlyOwnDevice(k: K, es: seq<Event>, d: nat, x: nat)
    requires Inv(k) && Legal(k, es) && d < PSEUDOINDEX && x in Queue(k.blocked, Dev(d)) && Spared(k, es, x)
    requires forall i | 0 <= i < |es| :: !Ups(es[i], Dev(d))
    ensures x in Queue(Run(k, es).blocked, Dev(d)) && WaitsAt(k, es, Dev(d), x)
    decreases |es|
  {
    hide Inv, Enabled, Step, Victims, Ups;
    if es != [] {
      ViewStep(k, es[0], Dev(d));
      assert !Ups(es[0], Dev(d));
      OnlyOwnDevice(Step(k, es[0]), es[1..], d, x);
    }
  }

  /** The interrupt wakes the longest waiting process, hands it the device status in reg_a0,
      and touches no other process's registers.  If nobody waits it is counted. */
  lemma Completion(k: K, d: nat, status: int)
    requires Inv(k) && Enabled(k, Device(d, status))
    ensures var r, q := Step(k, Device(d, status)), Queue(k.blocked, Dev(d));
            && |r.pcb| == |k.pcb|
            && (q != [] ==>
                  && q[0] < |k.pcb| && r.pcb[q[0]].a0 == status
                  && Queue(r.blocked, Dev(d)) == q[1..]
                  && (q[0] in r.ready || r.current == Some(q[0]))
                  && forall x | 0 <= x < |k.pcb| && x != q[0] :: r.pcb[x] == k.pcb[x])
            && (q == [] ==> r.pcb == k.pcb && Val(r.sem, Dev(d)) == Val(k.sem, Dev(d)) + 1)
  {
    hide Stable, DevicesOK, Unblock, Slot, WaitersOK, Away;
    AwayConsistent(k);
    WaitersFit(k);
    WaiterFits(k, Dev(d));
    ViewStep(k, Device(d, status), Dev(d));
    if Dev(d) in k.blocked {
      var x := k.blocked[Dev(d)][0];
      var w := Wake(k, Dev(d), Some(status));
      InsertAtElems(k.ready, Slot(k.ready, w.pcb, x), x);
      assert x in w.ready;
    }
  }
}
