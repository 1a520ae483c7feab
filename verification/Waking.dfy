/** How waiting ends: a process that is not killed leaves a semaphore queue by being woken in
    its turn, and a process woken by a device finds the device's status when it runs. */
module Waking {
  import opened Seqs
  import opened Positions
  import opened KernelState
  import opened Killing
  import opened KernelSteps
  import opened Stability
  import opened Runs
  import opened Semaphores
  import opened ReadyOrder
  import opened Lives

  // ---------------------------------------------------------------- PCBs a step leaves alone

  lemma ReadyApart(k: K, x: nat)
    requires Inv(k) && x in k.ready
    ensures x < |k.pcb| && x !in k.free && k.current != Some(x)
  {
    hide NoDup, ForestOK, DevicesOK, FreeClean, WaitersOK;
    var j :| 0 <= j < |k.ready| && k.ready[j] == x;
    assert forall y | y in k.free :: y !in k.ready;
    StepAway(k);
  }

  // ---------------------------------------------------------------- leaving a semaphore queue

  /** A waiting process waits at one semaphore, and is neither free, ready, running nor lost. */
  lemma OnePlace(k: K, a: SemAddr, x: nat)
    requires Inv(k) && x in Queue(k.blocked, a)
    ensures x < |k.pcb| && k.pcb[x].semAdd == Some(a) && x !in k.free && x !in Lost(k) && x !in Current(k)
    ensures forall b | b != a :: x !in Queue(k.blocked, b)
  {
    hide NoDup, ForestOK, DevicesOK, FreeClean;
    var j :| 0 <= j < |k.blocked[a]| && k.blocked[a][j] == x;
    assert forall y | y in k.free :: y < |k.pcb| && k.pcb[y].semAdd == None;
    assert forall b, y | b in k.blocked && y in k.blocked[b] :: y < |k.pcb| && k.pcb[y].semAdd == Some(b);
  }

  /** It does not change from one semaphore to another in one step. */
  lemma NotElsewhereAfter(k: K, e: Event, a: SemAddr, x: nat, b: SemAddr)
    requires Inv(k) && Enabled(k, e) && x in Queue(k.blocked, a) && b != a
    ensures x !in Queue(Step(k, e).blocked, b)
  {
    hide Inv, Enabled, Next, Victims, Minus;
    OnePlace(k, a, x);
    ViewStep(k, e, b);
    InvRunning(k, e);
  }

  /** A waiting process that is not killed leaves its queue at the head of it by a V, or by a
      clock tick, and is then ready or running. */
  lemma Woken(k: K, e: Event, a: SemAddr, x: nat)
    requires Inv(k) && Enabled(k, e) && x !in Victims(k, e)
    requires x in Queue(k.blocked, a) && x !in Queue(Step(k, e).blocked, a)
    ensures (Ups(e, a) && Queue(k.blocked, a)[0] == x) || (e.Clock? && a == CLOCK)
    ensures x in Step(k, e).ready || Step(k, e).current == Some(x)
  {
    hide Inv, Enabled, Next, Victims, Minus, Lost;
    var r := Step(k, e);
    ViewStep(k, e, a);
    OnePlace(k, a, x);
    StepInv(k, e);
    StepSize(k, e);
    OneHome(r, x);
    if r.pcb[x].semAdd.Some? {
      var b := r.pcb[x].semAdd.value;
      KeyedQueue(r, x);
      if b != a { NotElsewhereAfter(k, e, a, x, b); }
    }
    StepPcb(k, e, x);
  }

  lemma KeyedQueue(k: K, x: nat)
    requires Inv(k) && x < |k.pcb| && k.pcb[x].semAdd.Some?
    ensures x in Queue(k.blocked, k.pcb[x].semAdd.value)
  {
    hide NoDup, ForestOK, DevicesOK, FreeClean, Homed;
  }

  /** In the run x is woken at a, after at most so many other Vs. */
  ghost predicate WokenBy(k: K, es: seq<Event>, a: SemAddr, x: nat, places: int)
    requires Inv(k) && Legal(k, es)
    decreases |es|
  {
    es != [] &&
    var r := Step(k, es[0]);
    if x in Queue(r.blocked, a) then WokenBy(r, es[1..], a, x, places - if Ups(es[0], a) then 1 else 0)
    else places >= 0 && (Ups(es[0], a) || (es[0].Clock? && a == CLOCK)) && (x in r.ready || r.current == Some(x))
  }

  lemma {:induction false} WaitsOrWoken(k: K, es: seq<Event>, a: SemAddr, x: nat, places: int)
    requires Inv(k) && Legal(k, es) && Spared(k, es, x) && x in Queue(k.blocked, a) &&
        Pos(Queue(k.blocked, a), x) <= places
    ensures WaitsAt(k, es, a, x) || WokenBy(k, es, a, x, places)
    decreases |es|
  {
    hide Inv, Enabled, Step, Victims, Ups;
    if es != [] {
      var r := Step(k, es[0]);
      if x in Queue(r.blocked, a) {
        WaitStep(k, es[0], a, x);
        WaitsOrWoken(r, es[1..], a, x, places - if Ups(es[0], a) then 1 else 0);
      } else {
        Woken(k, es[0], a, x);
      }
    }
  }

  /** A waiting process with i others before it that is not killed is woken by the (i + 1)-th V
      at the latest. */
  lemma WokenInTime(k: K, es: seq<Event>, a: SemAddr, x: nat)
    requires Inv(k) && Legal(k, es) && Spared(k, es, x) && x in Queue(k.blocked, a)
    requires UpsIn(es, a) > Pos(Queue(k.blocked, a), x)
    ensures WokenBy(k, es, a, x, Pos(Queue(k.blocked, a), x))
  {
    hide Inv, Legal, Spared, WaitsAt, WokenBy, UpsIn;
    WaitsOrWoken(k, es, a, x, Pos(Queue(k.blocked, a), x));
    if WaitsAt(k, es, a, x) {
      FifoBound(k, es, a, x);
    }
  }

  // ---------------------------------------------------------------- what the woken process finds

  /** x stays ready with that value in reg_a0 until it runs, and runs with it. */
  ghost predicate RunsWith(k: K, es: seq<Event>, x: nat, a0: int)
    requires Inv(k) && Legal(k, es)
    decreases |es|
  {
    && x < |k.pcb| && k.pcb[x].a0 == a0
    && (k.current == Some(x) || (x in k.ready && (es == [] || RunsWith(Step(k, es[0]), es[1..], x, a0))))
  }

  lemma NotReached(k: K, e: Event, x: nat)
    requires Inv(k) && x in k.ready
    ensures !Reaches(k, e, x)
  {
    hide NoDup, ForestOK, DevicesOK, FreeClean;
    assert forall a, y | a in k.blocked && y in k.blocked[a] :: y < |k.pcb| && k.pcb[y].semAdd == Some(a);
    assert x < |k.pcb| && k.pcb[x].semAdd == None by {
      var j :| 0 <= j < |k.ready| && k.ready[j] == x;
    }
  }

  lemma {:induction false} KeepsRegister(k: K, es: seq<Event>, x: nat, a0: int)
    requires Inv(k) && Legal(k, es) && Spared(k, es, x) && x < |k.pcb| && k.pcb[x].a0 == a0
    requires x in k.ready || k.current == Some(x)
    ensures RunsWith(k, es, x, a0)
    decreases |es|
  {
    hide Inv, Enabled, Step, Victims, Dispatches, Reaches;
    if k.current != Some(x) && es != [] {
      ReadyApart(k, x);
      NotReached(k, es[0], x);
      StepPcb(k, es[0], x);
      if x !in Step(k, es[0]).ready { LeavesByDispatch(k, es[0], x); }
      KeepsRegister(Step(k, es[0]), es[1..], x, a0);
    }
  }

  /** A process woken by its device's interrupt runs next with the device's status in reg_a0,
      whatever happens before it is dispatched, unless it is killed. */
  lemma IoResult(k: K, d: nat, status: int, es: seq<Event>)
    requires Inv(k) && Enabled(k, Device(d, status)) && Queue(k.blocked, Dev(d)) != []
    requires Legal(Step(k, Device(d, status)), es)
    requires Spared(Step(k, Device(d, status)), es, Queue(k.blocked, Dev(d))[0])
    ensures RunsWith(Step(k, Device(d, status)), es, Queue(k.blocked, Dev(d))[0], status)
  {
    hide Inv, Enabled, Step, Legal, Spared, RunsWith;
    Completion(k, d, status);
    KeepsRegister(Step(k, Device(d, status)), es, Queue(k.blocked, Dev(d))[0], status);
  }

  // ---------------------------------------------------------------- what a saved process finds

  /** When x runs next it has that value in reg_a0, but that a device it waits for replaces it. */
  ghost predicate ResumesWith(k: K, es: seq<Event>, x: nat, a0: int)
    requires Inv(k) && Legal(k, es)
    decreases |es|
  {
    && x < |k.pcb| && x !in k.free && k.pcb[x].a0 == a0
    && (k.current == Some(x) || es == []
        || ResumesWith(Step(k, es[0]), es[1..], x, if Reaches(k, es[0], x) then es[0].status else a0))
  }

  lemma {:induction false} KeepsSaved(k: K, es: seq<Event>, x: nat)
    requires Inv(k) && Legal(k, es) && Spared(k, es, x) && x < |k.pcb| && x !in k.free
    ensures ResumesWith(k, es, x, k.pcb[x].a0)
    decreases |es|
  {
    hide Inv, Enabled, Step, Victims, Reaches;
    if k.current != Some(x) && es != [] {
      StepPcb(k, es[0], x);
      KeepsSaved(Step(k, es[0]), es[1..], x);
    }
  }

  /** The caller of an event that saves its state resumes with what was saved, whether it goes
      straight to the ready queue or waits at a semaphore in between. */
  lemma SavedResumes(k: K, e: Event, es: seq<Event>)
    requires Inv(k) && Enabled(k, e) && SavedBy(k, e).Some? && Legal(Step(k, e), es)
    requires Spared(Step(k, e), es, Cur(k))
    ensures ResumesWith(Step(k, e), es, Cur(k), SavedBy(k, e).value)
  {
    hide Inv, Enabled, Step, Legal, Spared, ResumesWith, Victims;
    CallerLive(k, e);
    NoVictims(k, e);
    StepPcb(k, e, Cur(k));
    KeepsSaved(Step(k, e), es, Cur(k));
  }

  lemma CallerLive(k: K, e: Event)
    requires Inv(k) && Enabled(k, e) && ByProcess(e)
    ensures k.current == Some(Cur(k)) && Cur(k) < |k.pcb| && Cur(k) !in k.free
  {
    hide DevicesOK, Stable;
    AwayConsistent(k);
  }

  /** At the end of a time slice, or by YIELD, it goes to the ready queue or straight on. */
  lemma Rejoins(k: K, e: Event)
    requires Inv(k) && Enabled(k, e) && (e.TimeSlice? || e.GiveWay?)
    ensures Cur(k) in Step(k, e).ready || Step(k, e).current == Some(Cur(k))
  {
    hide Inv, Enabled, Step, Victims;
    StepMoves(k, e);
    var q := Gathered(k, e);
    assert Cur(k) in q by {
      if e.TimeSlice? {
        EnqueueOne(Minus(k.ready, Victims(k, e)), Step(k, e).pcb, Cur(k));
        EnqueueHas(Minus(k.ready, Victims(k, e)), Step(k, e).pcb, Cur(k));
      } else {
        assert q[|k.ready|] == Cur(k);
      }
    }
  }

  lemma EnqueueHas(q: seq<nat>, pcb: seq<Pcb>, x: nat)
    ensures x in Enqueue(q, pcb, x)
  {
    hide Slot;
    InsertAtElems(q, Slot(q, pcb, x), x);
  }

  /** A process whose time slice ends, or that yields, stays ready until it runs again, with the
      reg_a0 it was interrupted with. */
  lemma SliceResumes(k: K, e: Event, es: seq<Event>)
    requires Inv(k) && Enabled(k, e) && (e.TimeSlice? || e.GiveWay?) && Legal(Step(k, e), es)
    requires Spared(Step(k, e), es, Cur(k))
    ensures RunsWith(Step(k, e), es, Cur(k), if e.TimeSlice? then e.a0 else -10)
  {
    hide Inv, Enabled, Step, Legal, Spared, RunsWith, Victims;
    CallerLive(k, e);
    NoVictims(k, e);
    StepPcb(k, e, Cur(k));
    Rejoins(k, e);
    KeepsRegister(Step(k, e), es, Cur(k), if e.TimeSlice? then e.a0 else -10);
  }
}
