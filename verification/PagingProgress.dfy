/** The pager gets on: whoever holds the swap pool mutex can always move and is done after a
    few moves, and whoever waits for the mutex is granted it in turn. */
module PagingProgress {
  import opened Seqs
  import opened Positions
  import opened VmState
  import opened Paging
  import opened PagingProof

  // ---------------------------------------------------------------- the holder

  /** How many moves a holder has before it. */
  function Remaining(ph: Phase): nat {
    match ph
    case Locked(_) => 6
    case Chosen(_, _) => 5
    case Evicting(_, _) => 4
    case Loading(_, _) => 3
    case Loaded(_, _) => 2
    case Installed => 1
    case ExitLocked => 2
    case ExitFreed => 1
    case _ => 0
  }

  /** Its next move. */
  function Turn(a: nat, ph: Phase): Event {
    match ph
    case Locked(_) => ChooseFrame(a)
    case Chosen(_, _) => ClearOld(a)
    case Evicting(_, _) => SaveOld(a)
    case Loading(_, _) => FetchNew(a)
    case Loaded(_, _) => InstallNew(a, 0)
    case ExitLocked => Reclaim(a)
    case _ => Unlock(a)
  }

  /** Whenever the mutex is taken its holder can move. */
  lemma HolderCanMove(v: Vm, a: nat)
    requires Inv(v) && v.owner == Some(a) && |v.mem.tlb| > 0
    ensures a in v.proc && Holding(v.proc[a]) && Enabled(v, Turn(a, v.proc[a]))
  {
    hide PoolOK, FaultsOK, TlbOK, Sized;
  }

  /** A move of the holder brings it nearer to its end, which is the release of the mutex; moves
      of others leave it where it is. */
  lemma HolderStep(v: Vm, e: Event, a: nat)
    requires Inv(v) && Enabled(v, e) && v.owner == Some(a)
    ensures a in v.proc && a in Next(v, e).proc
    ensures e.a == a && e.Unlock? ==> Remaining(v.proc[a]) == 1 && Next(v, e).owner != Some(a)
    ensures e.a == a && !e.Unlock? ==>
              Next(v, e).owner == Some(a) && Remaining(Next(v, e).proc[a]) < Remaining(v.proc[a])
    ensures e.a != a ==> Next(v, e).owner == Some(a) && Next(v, e).proc[a] == v.proc[a]
  {
    hide PoolOK, FaultsOK, TlbOK, Sized, NoDup;
    if e.Unlock? { HeadWants(v, e); }
  }

  function MovesOf(es: seq<Event>, a: nat): nat {
    if es == [] then 0 else (if es[0].a == a then 1 else 0) + MovesOf(es[1..], a)
  }

  /** As long as the holder has not released the mutex it holds it, and the moves it has made
      and those before it are no more than at the start, six at most. */
  lemma {:induction false} TransactionBounded(v: Vm, es: seq<Event>, a: nat)
    requires Inv(v) && Legal(v, es) && v.owner == Some(a) && forall i | 0 <= i < |es| :: es[i] != Unlock(a)
    ensures a in v.proc && a in Run(v, es).proc && Run(v, es).owner == Some(a)
    ensures MovesOf(es, a) + Remaining(Run(v, es).proc[a]) <= Remaining(v.proc[a]) <= 6
    decreases |es|
  {
    hide MutexOK, PoolOK, FaultsOK, TlbOK, Sized, Enabled, Next, Flat;
    if es == [] {
      OwnerKnown(v, a);
    } else {
      assert es[0] != Unlock(a);
      HolderStep(v, es[0], a);
      StepKeeps(v, es[0]);
      TransactionBounded(Next(v, es[0]), es[1..], a);
    }
  }

  lemma OwnerKnown(v: Vm, a: nat)
    requires MutexOK(v) && v.owner == Some(a)
    ensures a in v.proc
  {
  }

  // ---------------------------------------------------------------- what the transaction achieves

  /** The pager picks the least free frame, or with none free the next one round robin. */
  lemma FramePicked(v: Vm, a: nat)
    requires Inv(v) && Enabled(v, ChooseFrame(a))
    ensures var w, pool := Next(v, ChooseFrame(a)), v.mem.pool;
            && a in w.proc && w.proc[a].Chosen? && w.proc[a].frame < |pool|
            && w.mem == v.mem.(hand := w.mem.hand)
            && ((exists d :: 0 <= d < |pool| && pool[d] == None) ==>
                  && pool[w.proc[a].frame] == None && (forall d | 0 <= d < w.proc[a].frame :: pool[d] != None)
                  && w.mem.hand == v.mem.hand)
            && ((forall d | 0 <= d < |pool| :: pool[d] != None) ==>
                  w.mem.hand == v.mem.hand + 1 && w.proc[a].frame == w.mem.hand % |pool|)
  {
    hide Choose, PoolOK, FaultsOK, TlbOK, MutexOK;
  }

  /** a is being served a fault on page p: from the fault until it runs again. */
  predicate Serving(v: Vm, a: nat, p: nat) {
    a in v.proc && ((Faulted(v.proc[a]) && v.proc[a].page == p)
                    || (v.proc[a].Installed? && PteOf(v.mem.pt, Key(a, p)).valid))
  }

  /** The service goes on until a's Unlock, and at that moment page p is mapped. */
  lemma ServingStep(v: Vm, e: Event, a: nat, p: nat)
    requires Inv(v) && Enabled(v, e) && Serving(v, a, p) && e != Event.Kill(a)
    ensures e != Unlock(a) ==> Serving(Next(v, e), a, p)
    ensures e == Unlock(a) ==>
              a in Next(v, e).proc && Next(v, e).proc[a].User? && PteOf(Next(v, e).mem.pt, Key(a, p)).valid
  {
    hide FaultsOK, TlbOK, Rewrite, Enter, Choose, FreeFrames;
    if e.Unlock? { HeadWants(v, e); }
    if e.a != a && v.proc[a].Installed? { OthersKeepOut(v, e, a); }
  }

  /** While a holds the mutex nobody else changes page tables. */
  lemma OthersKeepOut(v: Vm, e: Event, a: nat)
    requires Inv(v) && Enabled(v, e) && a in v.proc && Holding(v.proc[a]) && e.a != a
    ensures Next(v, e).mem.pt == v.mem.pt && Next(v, e).proc[a] == v.proc[a]
  {
    hide FaultsOK, TlbOK, PoolOK;
  }

  /** The run serves the fault: it goes on throughout, or ends with a running user code again and
      page p mapped. */
  ghost predicate Served(v: Vm, es: seq<Event>, a: nat, p: nat)
    requires Sized(v) && Legal(v, es)
    decreases |es|
  {
    Serving(v, a, p) &&
    (es == [] ||
     var w := Next(v, es[0]);
     if es[0] == Unlock(a) then a in w.proc && w.proc[a].User? && PteOf(w.mem.pt, Key(a, p)).valid
     else Served(w, es[1..], a, p))
  }

  lemma {:induction false} KeepsServing(v: Vm, es: seq<Event>, a: nat, p: nat)
    requires Inv(v) && Legal(v, es) && Serving(v, a, p) && forall i | 0 <= i < |es| :: es[i] != Event.Kill(a)
    ensures Served(v, es, a, p)
    decreases |es|
  {
    hide MutexOK, PoolOK, FaultsOK, TlbOK, Sized, Enabled, Next, Flat, Serving;
    if es != [] {
      assert es[0] != Event.Kill(a);
      ServingStep(v, es[0], a, p);
      StepKeeps(v, es[0]);
      if es[0] != Unlock(a) { KeepsServing(Next(v, es[0]), es[1..], a, p); }
    }
  }

  /** A page fault is served for the page it was taken on: the process does not run before its
      pager call releases the mutex, and then that page is mapped. */
  lemma {:induction false} FaultServed(v: Vm, a: nat, p: nat, entry: nat, es: seq<Event>)
    requires Inv(v) && Enabled(v, Fault(a, p, entry)) && Sized(Next(v, Fault(a, p, entry)))
    requires Legal(Next(v, Fault(a, p, entry)), es) && forall i | 0 <= i < |es| :: es[i] != Event.Kill(a)
    ensures Served(Next(v, Fault(a, p, entry)), es, a, p)
  {
    hide MutexOK, PoolOK, FaultsOK, TlbOK, Sized, Legal, Served, Flat;
    StepKeeps(v, Fault(a, p, entry));
    KeepsServing(Next(v, Fault(a, p, entry)), es, a, p);
  }

  // ---------------------------------------------------------------- those waiting for the mutex

  /** What an event does to the queue of the mutex. */
  ghost function QueueNext(v: Vm, e: Event): seq<nat> {
    var q := v.mutex.queue;
    match e
    case Lock(a) => if v.mutex.value <= 0 then q + [a] else q
    case Unlock(_) => if q == [] then q else q[1..]
    case Kill(a) => Minus(q, {a})
    case _ => q
  }

  lemma QueueStep(v: Vm, e: Event)
    requires Inv(v) && Enabled(v, e)
    ensures Next(v, e).mutex.queue == QueueNext(v, e) && NoDup(v.mutex.queue)
    ensures e.Unlock? && v.mutex.queue != [] ==>
              Next(v, e).owner == Some(v.mutex.queue[0]) && v.mutex.queue[0] in Next(v, e).proc
              && Holding(Next(v, e).proc[v.mutex.queue[0]])
  {
    hide PoolOK, FaultsOK, TlbOK, Sized, Minus;
  }

  /** A process that goes on waiting comes one place forward by each release, and never back; a
      process that is not killed stops waiting by being granted the mutex at the head. */
  lemma WaiterStep(v: Vm, e: Event, x: nat)
    requires Inv(v) && Enabled(v, e) && x in v.mutex.queue && e != Event.Kill(x)
    ensures var w := Next(v, e);
            if x in w.mutex.queue then
              Pos(w.mutex.queue, x) + (if e.Unlock? then 1 else 0) <= Pos(v.mutex.queue, x)
            else e.Unlock? && w.owner == Some(x) && x in w.proc && Holding(w.proc[x])
  {
    hide Inv, Sized, Enabled, Next, Minus;
    var q := v.mutex.queue;
    QueueStep(v, e);
    match e
    case Lock(a) => PosAppend(q, [a], x);
    case Kill(a) => PosMinus(q, {a}, x);
    case Unlock(_) =>
      if q[0] != x { PosTail(q, x); } else { HeadLeaves(q); }
    case _ =>
  }

  lemma HeadLeaves(q: seq<nat>)
    requires NoDup(q) && q != []
    ensures q[0] !in q[1..]
  {
    assert forall i | 0 <= i < |q| - 1 :: q[1..][i] == q[i + 1];
  }

  function ReleasesIn(es: seq<Event>): nat {
    if es == [] then 0 else (if es[0].Unlock? then 1 else 0) + ReleasesIn(es[1..])
  }

  /** x waits for the mutex through the whole run. */
  ghost predicate StaysQueued(v: Vm, es: seq<Event>, x: nat)
    requires Sized(v) && Legal(v, es)
    decreases |es|
  {
    x in v.mutex.queue && (es == [] || StaysQueued(Next(v, es[0]), es[1..], x))
  }

  /** In the run x is granted the mutex, after at most so many other releases. */
  ghost predicate GrantedBy(v: Vm, es: seq<Event>, x: nat, places: int)
    requires Sized(v) && Legal(v, es)
    decreases |es|
  {
    es != [] &&
    var w := Next(v, es[0]);
    if x in w.mutex.queue then GrantedBy(w, es[1..], x, places - if es[0].Unlock? then 1 else 0)
    else places >= 0 && es[0].Unlock? && w.owner == Some(x) && x in w.proc && Holding(w.proc[x])
  }

  lemma {:induction false} QueuedOrGranted(v: Vm, es: seq<Event>, x: nat, places: int)
    requires Inv(v) && Legal(v, es) && x in v.mutex.queue && Pos(v.mutex.queue, x) <= places
    requires forall i | 0 <= i < |es| :: es[i] != Event.Kill(x)
    ensures GrantedBy(v, es, x, places) || (StaysQueued(v, es, x) && ReleasesIn(es) <= Pos(v.mutex.queue, x))
    decreases |es|
  {
    hide MutexOK, PoolOK, FaultsOK, TlbOK, Sized, Enabled, Next, Flat;
    if es != [] {
      assert es[0] != Event.Kill(x);
      WaiterStep(v, es[0], x);
      StepKeeps(v, es[0]);
      var w := Next(v, es[0]);
      if x in w.mutex.queue {
        QueuedOrGranted(w, es[1..], x, places - if es[0].Unlock? then 1 else 0);
      }
    }
  }

  /** A process with i others before it in the queue of the mutex that is not killed is granted
      it by the (i + 1)-th release at the latest. */
  lemma GrantedInTime(v: Vm, es: seq<Event>, x: nat)
    requires Inv(v) && Legal(v, es) && x in v.mutex.queue && forall i | 0 <= i < |es| :: es[i] != Event.Kill(x)
    requires ReleasesIn(es) > Pos(v.mutex.queue, x)
    ensures GrantedBy(v, es, x, Pos(v.mutex.queue, x))
  {
    hide Inv, Sized, Legal, StaysQueued, GrantedBy, ReleasesIn;
    QueuedOrGranted(v, es, x, Pos(v.mutex.queue, x));
  }
}
