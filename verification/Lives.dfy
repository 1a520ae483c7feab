/** What happens to one process, event by event: who dies, whose registers are saved or given a
    device's status, and that nothing else of a living PCB changes. */
module Lives {
  import opened Seqs
  import opened KernelState
  import opened Forest
  import opened Killing
  import opened KernelSteps
  import opened Stability
  import opened Runs
  import opened Undo

  /** The value of reg_a0 an event saves for the caller: a blocking call leaves its own number
      there, a time slice whatever the process has. */
  function SavedBy(k: K, e: Event): Option<int> {
    match e
    case P(addr) => if Val(k.sem, Usr(addr)) <= 0 then Some(-3) else None
    case Io(_) => Some(-5)
    case WaitClock => Some(-7)
    case GiveWay => Some(-10)
    case TimeSlice(a0) => Some(a0)
    case _ => None
  }

  /** A device interrupt finds x first in its queue. */
  predicate Reaches(k: K, e: Event, x: nat) {
    e.Device? && Queue(k.blocked, Dev(e.device)) != [] && Queue(k.blocked, Dev(e.device))[0] == x
  }

  /** The saved reg_a0 of x after the event. */
  function A0After(k: K, e: Event, x: nat): int
    requires x < |k.pcb|
  {
    if SavedBy(k, e).Some? && k.current == Some(x) then SavedBy(k, e).value
    else if Reaches(k, e, x) then e.status
    else k.pcb[x].a0
  }

  /** q is p but for the semaphore it waits at, with that reg_a0. */
  predicate Kept(p: Pcb, q: Pcb, a0: int) {
    q.parent == p.parent && q.prio == p.prio && q.pid == p.pid && q.support == p.support && q.a0 == a0
  }

  // ---------------------------------------------------------------- by kind of event

  lemma KilledPcb(k: K, p: nat, x: nat)
    requires ForestOK(k) && p < |k.pcb| && x < |k.pcb| && x !in k.free
    ensures x in Kill(k, p).free <==> x in Elems(PostOrder(k, p))
    ensures |Kill(k, p).pcb| == |k.pcb| && (x !in Elems(PostOrder(k, p)) ==> Kill(k, p).pcb[x] == k.pcb[x])
  {
    hide Minus, Unblock, PostOrder, Cleared, KidsWithout, ForestOK;
  }

  lemma {:induction false} DrainPcb(k: K, x: nat)
    requires WaitersOK(k.blocked, k.pcb) && x < |k.pcb|
    ensures Drain(k).free == k.free && |Drain(k).pcb| == |k.pcb| && Kept(k.pcb[x], Drain(k).pcb[x], k.pcb[x].a0)
    decreases |Queue(k.blocked, CLOCK)|
  {
    hide WaitersOK, Unblock, Enqueue;
    if CLOCK in k.blocked {
      WaiterFits(k, CLOCK);
      TickShrinks(k);
      DrainPcb(Tick(k), x);
    }
  }

  lemma DeathsAndTicks(k: K, e: Event, x: nat)
    requires Inv(k) && Enabled(k, e) && (e.Terminate? || e.Trap? || e.Clock?) && x < |k.pcb| && x !in k.free
    ensures |Step(k, e).pcb| == |k.pcb| && (x in Step(k, e).free <==> x in Victims(k, e))
    ensures x !in Victims(k, e) ==> Kept(k.pcb[x], Step(k, e).pcb[x], k.pcb[x].a0)
  {
    hide Inv, Settled, PostOrder, Elems, Kill, Descends, WaitersOK, WellFormed, FreeClean, Away, Drain;
    InvRunning(k, e);
    AwayConsistent(k);
    ConsistentForest(k);
    match e
    case Clock =>
      WaitersFit(k);
      DrainPcb(k, x);
    case Terminate(Some(t)) => KilledPcb(k, t, x);
    case Trap => KilledPcb(k, k.current.value, x);
    case _ =>
  }

  /** A call that saves the caller's state, and perhaps blocks. */
  lemma BlockingFields(k: K, a: SemAddr, a0: int, x: nat)
    requires k.current.Some? && k.current.value < |k.pcb| && x < |k.pcb|
    ensures var r := SoftBlockK(k, a, a0);
            r.free == k.free && |r.pcb| == |k.pcb|
            && Kept(k.pcb[x], r.pcb[x], if k.current == Some(x) then a0 else k.pcb[x].a0)
    ensures var r := PasserenK(k, a);
            r.free == k.free && |r.pcb| == |k.pcb|
            && Kept(k.pcb[x], r.pcb[x], if Val(k.sem, a) <= 0 && k.current == Some(x) then -3 else k.pcb[x].a0)
  {
    hide Block, Add32;
  }

  lemma BlockingCalls(k: K, e: Event, x: nat)
    requires Inv(k) && Enabled(k, e) && (e.P? || e.Io? || e.WaitClock?) && x < |k.pcb|
    ensures Step(k, e).free == k.free && |Step(k, e).pcb| == |k.pcb|
    ensures Kept(k.pcb[x], Step(k, e).pcb[x], A0After(k, e, x))
  {
    hide Inv, Settled, Enabled, WaitersOK, WellFormed, FreeClean, Away, PasserenK, SoftBlockK;
    InvRunning(k, e);
    AwayConsistent(k);
    match e
    case P(addr) => BlockingFields(k, Usr(addr), 0, x);
    case Io(d) => BlockingFields(k, Dev(d), DOIO, x);
    case WaitClock => BlockingFields(k, CLOCK, CLOCKWAIT, x);
  }

  lemma OtherCalls(k: K, e: Event, x: nat)
    requires Inv(k) && Enabled(k, e) && (e.Create? || e.GiveWay? || e.TimeSlice?) && x < |k.pcb| && x !in k.free
    ensures x !in Step(k, e).free && |Step(k, e).pcb| == |k.pcb|
    ensures Kept(k.pcb[x], Step(k, e).pcb[x], A0After(k, e, x))
  {
    hide Inv, Settled, Enqueue, Descends, WaitersOK, WellFormed, FreeClean, Away, Sub32, Add32, ForestOK;
    InvRunning(k, e);
    AwayConsistent(k);
  }

  lemma Wakings(k: K, e: Event, x: nat)
    requires Inv(k) && Enabled(k, e) && (e.V? || e.Device?) && x < |k.pcb|
    ensures Step(k, e).free == k.free && |Step(k, e).pcb| == |k.pcb|
    ensures Kept(k.pcb[x], Step(k, e).pcb[x], A0After(k, e, x))
  {
    hide Inv, Settled, Unblock, Enqueue, Descends, WaitersOK, WellFormed, FreeClean, Away, Sub32, Add32, ForestOK;
    InvRunning(k, e);
    AwayConsistent(k);
  }

  lemma NoVictims(k: K, e: Event)
    requires Inv(k) && Enabled(k, e) && !e.Terminate? && !e.Trap?
    ensures Victims(k, e) == {}
  {
    hide Inv, Enabled;
  }

  /** One event, for a live PCB x: it is free afterwards exactly if the event killed it, and
      otherwise keeps parent, priority, pid and support structure, while its saved reg_a0 changes
      only if x is the caller of a call that saves its state, or the one a device wakes. */
  lemma StepPcb(k: K, e: Event, x: nat)
    requires Inv(k) && Enabled(k, e) && x < |k.pcb| && x !in k.free
    ensures |Step(k, e).pcb| == |k.pcb| && (x in Step(k, e).free <==> x in Victims(k, e))
    ensures x !in Victims(k, e) ==> Kept(k.pcb[x], Step(k, e).pcb[x], A0After(k, e, x))
  {
    hide Inv, Enabled, Step, Victims;
    if e.Terminate? || e.Trap? || e.Clock? {
      DeathsAndTicks(k, e, x);
    } else {
      NoVictims(k, e);
      if e.V? || e.Device? { Wakings(k, e, x); }
      else if e.P? || e.Io? || e.WaitClock? { BlockingCalls(k, e, x); }
      else { OtherCalls(k, e, x); }
    }
  }

  // ---------------------------------------------------------------- who dies

  /** The process an event kills with everything below it, if any. */
  function Condemned(k: K, e: Event): Option<nat> {
    match e
    case Terminate(target) => target
    case Trap => if Cur(k) < |k.pcb| && k.pcb[Cur(k)].support == 0 then k.current else None
    case _ => None
  }

  /** A live process dies in an event exactly if it is the TERMPROCESS target, or a caller that
      traps without a support structure, or descends from one of these. */
  lemma DeathExactly(k: K, e: Event, x: nat)
    requires Inv(k) && Enabled(k, e) && x < |k.pcb| && x !in k.free
    ensures ForestOK(k)
    ensures x in Step(k, e).free <==> Condemned(k, e).Some? && Descends(k, Condemned(k, e).value, x)
  {
    hide Inv, Enabled, Step, ForestOK, PostOrder, Descends;
    StepPcb(k, e, x);
    InvForest(k);
    InvTarget(k, e);
    match e
    case Terminate(Some(t)) => PostOrderExact(k, t);
    case Trap => PostOrderExact(k, Cur(k));
    case _ =>
  }

  lemma InvForest(k: K)
    requires Inv(k)
    ensures ForestOK(k) && (k.current.Some? ==> Cur(k) < |k.pcb|)
  {
    hide DevicesOK, Homed, QueuesOK, FreeClean, Away;
    AwayConsistent(k);
  }

  lemma InvTarget(k: K, e: Event)
    requires Inv(k) && Enabled(k, e)
    ensures e.Terminate? && e.target.Some? ==> e.target.value < |k.pcb|
    ensures ByProcess(e) ==> k.current.Some?
  {
  }

  /** A trap that is passed up, and TERMPROCESS of a pid that is not found, change nothing. */
  lemma NothingHappens(k: K, e: Event)
    requires Inv(k) && Enabled(k, e)
    requires e == Terminate(None) || (e.Trap? && Cur(k) < |k.pcb| && k.pcb[Cur(k)].support != 0)
    ensures Step(k, e) == k
  {
    hide Settled, DevicesOK, Kill;
  }

  // ---------------------------------------------------------------- whole lives

  /** x is live in every state of the run. */
  ghost predicate LivesOn(k: K, es: seq<Event>, x: nat)
    requires Inv(k) && Legal(k, es)
    decreases |es|
  {
    x < |k.pcb| && x !in k.free && (es == [] || LivesOn(Step(k, es[0]), es[1..], x))
  }

  /** While a process lives, its parent, priority, pid and support structure stay what they are. */
  lemma {:induction false} LifeKeeps(k: K, es: seq<Event>, x: nat)
    requires Inv(k) && Legal(k, es) && LivesOn(k, es, x)
    ensures |Run(k, es).pcb| == |k.pcb| && Kept(k.pcb[x], Run(k, es).pcb[x], Run(k, es).pcb[x].a0)
    decreases |es|
  {
    hide Inv, Enabled, Step, Victims, A0After;
    if es != [] {
      StepPcb(k, es[0], x);
      assert LivesOn(Step(k, es[0]), es[1..], x);
      LifeKeeps(Step(k, es[0]), es[1..], x);
    }
  }

  /** From CREATEPROCESS on, a process has the priority and support structure it was given, the
      caller as its parent and a pid that no process had before, as long as it lives. */
  lemma CreatedForLife(k: K, prio: int, support: nat, a0: int, es: seq<Event>)
    requires Inv(k) && Enabled(k, Create(prio, support, a0)) && k.free != []
    requires Legal(Step(k, Create(prio, support, a0)), es)
    requires LivesOn(Step(k, Create(prio, support, a0)), es, k.free[0])
    ensures var x, r := k.free[0], Run(Step(k, Create(prio, support, a0)), es);
            && x < |k.pcb| == |r.pcb| && (forall y | 0 <= y < |k.pcb| :: k.pcb[y].pid < k.nextPid)
            && r.pcb[x].prio == prio && r.pcb[x].support == support
            && r.pcb[x].parent == k.current && r.pcb[x].pid == k.nextPid
  {
    hide Inv, Enabled, Next, Legal, Run, LivesOn, ForestOK;
    var e := Create(prio, support, a0);
    InvTarget(k, e);
    RunningNow(k, e);
    Created(k, prio, support, a0);
    InvForest(k);
    Ages(k);
    LifeKeeps(Step(k, e), es, k.free[0]);
  }

  lemma RunningNow(k: K, e: Event)
    requires Inv(k) && Enabled(k, e) && ByProcess(e)
    ensures k.mode == Running && k.current.Some?
  {
  }
}
