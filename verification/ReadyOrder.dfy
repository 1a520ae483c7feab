/** The ready queue: priorities, first come first served among equals, and how long a ready
    process can be kept from the processor. */
module ReadyOrder {
  import opened Seqs
  import opened Positions
  import opened KernelState
  import opened Killing
  import opened KernelSteps
  import opened Stability
  import opened Runs
  import opened Semaphores

  // ---------------------------------------------------------------- an event as arrivals and a dispatch

  /** insertProcQ of several PCBs in turn. */
  function EnqueueAll(q: seq<nat>, pcb: seq<Pcb>, xs: seq<nat>): seq<nat>
    decreases |xs|
  {
    if xs == [] then q else EnqueueAll(Enqueue(q, pcb, xs[0]), pcb, xs[1..])
  }

  /** The PCBs an event puts into the ready queue by insertProcQ, in that order. */
  ghost function Arrivals(k: K, e: Event): seq<nat>
    requires Inv(k) && Enabled(k, e)
  {
    match e
    case Create(_, _, _) => if k.free == [] then [] else [k.free[0]]
    case V(addr) => if Usr(addr) in k.blocked then [Queue(k.blocked, Usr(addr))[0]] else []
    case Device(d, _) => if Dev(d) in k.blocked then [Queue(k.blocked, Dev(d))[0]] else []
    case TimeSlice(_) => [Cur(k)]
    case Clock => Queue(k.blocked, CLOCK)
    case _ => []
  }

  /** The event ends in a scheduling decision. */
  predicate Schedules(k: K, e: Event) {
    match e
    case Create(_, _, _) => false
    case V(_) => false
    case P(addr) => Val(k.sem, Usr(addr)) <= 0
    case Terminate(target) => target.Some? && target == k.current
    case Trap => Cur(k) < |k.pcb| && k.pcb[Cur(k)].support == 0
    case Device(_, _) => k.current == None
    case Clock => k.current == None
    case _ => true
  }

  /** The ready queue when the event is about to schedule, or to return. */
  ghost function Gathered(k: K, e: Event): seq<nat>
    requires Inv(k) && Enabled(k, e)
  {
    if e.GiveWay? then k.ready + [Cur(k)]
    else EnqueueAll(Minus(k.ready, Victims(k, e)), Step(k, e).pcb, Arrivals(k, e))
  }

  ghost predicate Dispatches(k: K, e: Event)
    requires Inv(k) && Enabled(k, e)
  {
    Schedules(k, e) && Gathered(k, e) != []
  }

  /** The step moved exactly the head of the gathered queue to the processor, if it dispatched. */
  ghost predicate Moves(k: K, e: Event)
    requires Inv(k) && Enabled(k, e)
  {
    var q, r := Gathered(k, e), Step(k, e);
    if Dispatches(k, e) then r.ready == q[1..] && r.current == Some(q[0]) else r.ready == q
  }

  lemma SamePrio(q: seq<nat>, pcb: seq<Pcb>, pcb': seq<Pcb>, x: nat)
    requires forall y :: Prio(pcb', y) == Prio(pcb, y)
    ensures Enqueue(q, pcb', x) == Enqueue(q, pcb, x)
  {
    SlotUnique(q, pcb', x, Slot(q, pcb, x));
  }

  lemma {:induction false} SamePrios(q: seq<nat>, pcb: seq<Pcb>, pcb': seq<Pcb>, xs: seq<nat>)
    requires forall y :: Prio(pcb', y) == Prio(pcb, y)
    ensures EnqueueAll(q, pcb', xs) == EnqueueAll(q, pcb, xs)
    decreases |xs|
  {
    if xs != [] {
      SamePrio(q, pcb, pcb', xs[0]);
      SamePrios(Enqueue(q, pcb, xs[0]), pcb, pcb', xs[1..]);
    }
  }

  lemma EnqueueOne(q: seq<nat>, pcb: seq<Pcb>, x: nat)
    ensures EnqueueAll(q, pcb, [x]) == Enqueue(q, pcb, x)
  {
    assert [x][1..] == [];
  }

  /** The clock tick moves the pseudo-clock's whole queue, in order, and nothing else. */
  lemma {:induction false} DrainReady(k: K)
    requires WaitersOK(k.blocked, k.pcb)
    ensures Drain(k).ready == EnqueueAll(k.ready, k.pcb, Queue(k.blocked, CLOCK))
    ensures forall y :: Prio(Drain(k).pcb, y) == Prio(k.pcb, y)
    ensures Drain(k).softBlockCount == Sub32(k.softBlockCount, |Queue(k.blocked, CLOCK)|)
    decreases |Queue(k.blocked, CLOCK)|
  {
    hide WaitersOK, Tick, Enqueue;
    if CLOCK in k.blocked {
      WaiterFits(k, CLOCK);
      TickShrinks(k);
      var q, t := k.blocked[CLOCK], Tick(k);
      TickReady(k);
      SamePrios(t.ready, k.pcb, t.pcb, q[1..]);
      DrainReady(t);
      Sub32Twice(k.softBlockCount, 1, |q| - 1);
    }
  }

  lemma TickReady(k: K)
    requires CLOCK in k.blocked && WaitersOK(k.blocked, k.pcb) && k.blocked[CLOCK] != [] &&
        k.blocked[CLOCK][0] < |k.pcb|
    ensures var t := Tick(k);
            && t.ready == Enqueue(k.ready, k.pcb, k.blocked[CLOCK][0])
            && t.softBlockCount == Sub32(k.softBlockCount, 1)
            && forall y :: Prio(t.pcb, y) == Prio(k.pcb, y)
  {
    hide WaitersOK, Unblock, Enqueue, Sub32;
    SamePrio(k.ready, k.pcb, Tick(k).pcb, k.blocked[CLOCK][0]);
  }

  /** The clock tick, completely: the pseudo-clock's queue is emptied into the ready queue in
      its order, softBlockCount falls by its length, every other queue is untouched, and the
      pseudo-clock's semaphore stays 0, so that CLOCKWAIT always blocks. */
  lemma ClockTickExact(k: K)
    requires Inv(k) && Enabled(k, Clock)
    ensures exists d: K ::
              && Step(k, Clock) == Resume(d)
              && CLOCK !in d.blocked
              && (forall a | a != CLOCK :: Queue(d.blocked, a) == Queue(k.blocked, a))
              && d.ready == EnqueueAll(k.ready, k.pcb, Queue(k.blocked, CLOCK))
              && d.softBlockCount == Sub32(k.softBlockCount, |Queue(k.blocked, CLOCK)|)
              && Val(d.sem, CLOCK) == 0 && d.current == k.current
  {
    hide Stable, Drain, EnqueueAll, Sub32, Resume, WaitersOK;
    AwayConsistent(k);
    WaitersFit(k);
    DrainReady(k);
    DrainStable(k, Away(k));
    var d := Drain(k);
    forall a | a != CLOCK ensures Queue(d.blocked, a) == Queue(k.blocked, a) {
      ViewDrain(k, a);
    }
    assert Val(k.sem, Dev(PSEUDOINDEX)) == 0;
    assert Step(k, Clock) == Resume(d);
  }

  lemma MovesDeath(k: K, e: Event)
    requires Inv(k) && Enabled(k, e) && (e.Terminate? || e.Trap?)
    ensures Moves(k, e)
  {
    hide Stable, PostOrder, Descends, DevicesOK, Minus, Unblock, KidsWithout, Cleared, Reverse;
    AwayConsistent(k);
    ConsistentForest(k);
    MinusNothing(k.ready, {});
  }

  lemma MovesWake(k: K, a: SemAddr, a0: Option<int>)
    requires WaitersOK(k.blocked, k.pcb) && a in k.blocked && k.blocked[a] != [] && k.blocked[a][0] < |k.pcb|
    ensures var w := Wake(k, a, a0); w.ready == EnqueueAll(k.ready, w.pcb, [k.blocked[a][0]])
  {
    hide Unblock, WaitersOK;
    EnqueueOne(k.ready, Wake(k, a, a0).pcb, k.blocked[a][0]);
  }

  lemma MovesV(k: K, addr: nat)
    requires Inv(k) && Enabled(k, V(addr))
    ensures Moves(k, V(addr))
  {
    hide Stable, DevicesOK, Minus, Wake, Enqueue;
    AwayConsistent(k);
    MinusNothing(k.ready, {});
    if Usr(addr) in k.blocked {
      WaitersFit(k);
      MovesWake(k, Usr(addr), None);
      WakeFacts(k, Usr(addr), None);
    }
  }

  lemma MovesDevice(k: K, d: nat, status: int)
    requires Inv(k) && Enabled(k, Device(d, status))
    ensures Moves(k, Device(d, status))
  {
    hide Stable, DevicesOK, Minus, Wake, Enqueue, WaitersOK, WellFormed, FreeClean;
    AwayConsistent(k);
    MinusNothing(k.ready, {});
    WaitersFit(k);
    if Dev(d) in k.blocked {
      MovesWake(k, Dev(d), Some(status));
      WakeFacts(k, Dev(d), Some(status));
    }
  }

  lemma MovesClock(k: K)
    requires Inv(k) && Enabled(k, Clock)
    ensures Moves(k, Clock)
  {
    hide Stable, DevicesOK, Minus, Drain, Enqueue, WaitersOK, WellFormed, FreeClean, Slot, Wake;
    AwayConsistent(k);
    MinusNothing(k.ready, {});
    WaitersFit(k);
    DrainReady(k);
    DrainStable(k, Away(k));
    SamePrios(k.ready, k.pcb, Drain(k).pcb, Queue(k.blocked, CLOCK));
  }

  /** Blocking calls bring nobody to the ready queue. */
  lemma GatheredPlain(k: K, e: Event)
    requires Inv(k) && Enabled(k, e) && (e.P? || e.Io? || e.WaitClock?)
    ensures Gathered(k, e) == k.ready
  {
    hide Inv, Enabled, Step, Minus;
    MinusNothing(k.ready, {});
  }

  lemma MovesP(k: K, addr: nat)
    requires Inv(k) && Enabled(k, P(addr))
    ensures Moves(k, P(addr))
  {
    hide Stable, DevicesOK, Gathered, BlockCurrent, WellFormed, FreeClean;
    AwayConsistent(k);
    GatheredPlain(k, P(addr));
    BlockReady(k, Usr(addr));
  }

  lemma BlockReady(k: K, a: SemAddr)
    requires k.current.Some? && k.current.value < |k.pcb|
    ensures var b := BlockCurrent(k, a); b.ready == k.ready && b.current == k.current && |b.pcb| == |k.pcb|
  {
  }

  lemma MovesSoftBlock(k: K, e: Event)
    requires Inv(k) && Enabled(k, e) && (e.Io? || e.WaitClock?)
    ensures Moves(k, e)
  {
    hide Stable, DevicesOK, Gathered, Down, WellFormed, FreeClean, Add32;
    AwayConsistent(k);
    GatheredPlain(k, e);
    DownReady(k, if e.Io? then Dev(e.device) else CLOCK);
  }

  lemma DownReady(k: K, a: SemAddr)
    requires k.current.Some? && k.current.value < |k.pcb|
    ensures Down(k, a).ready == k.ready
  {
  }

  lemma MovesProcess(k: K, e: Event)
    requires Inv(k) && Enabled(k, e) && (e.GiveWay? || e.TimeSlice? || e.Create?)
    ensures Moves(k, e)
  {
    hide Stable, DevicesOK, Minus, Enqueue, Allocated;
    AwayConsistent(k);
    MinusNothing(k.ready, {});
    match e
    case Create(prio, support, a0) =>
      if k.free != [] {
        CreatedReady(k, prio, support, a0);
        EnqueueOne(k.ready, Step(k, e).pcb, k.free[0]);
      }
    case TimeSlice(a0) => EnqueueOne(k.ready, Step(k, e).pcb, Cur(k));
    case _ =>
  }

  /** Every event changes the ready queue by deaths, arrivals and at most one dispatch. */
  lemma StepMoves(k: K, e: Event)
    requires Inv(k) && Enabled(k, e)
    ensures Moves(k, e)
  {
    hide Inv, Enabled, Moves;
    match e
    case Terminate(t) => MovesDeath(k, e);
    case Trap => MovesDeath(k, e);
    case V(addr) => MovesV(k, addr);
    case Device(d, status) => MovesDevice(k, d, status);
    case Clock => MovesClock(k);
    case P(addr) => MovesP(k, addr);
    case Io(d) => MovesSoftBlock(k, e);
    case WaitClock => MovesSoftBlock(k, e);
    case _ => MovesProcess(k, e);
  }

  lemma WakeFacts(k: K, a: SemAddr, a0: Option<int>)
    requires a in k.blocked && k.blocked[a] != [] && k.blocked[a][0] < |k.pcb|
    ensures Wake(k, a, a0).current == k.current && Queue(k.blocked, a) == k.blocked[a]
  {
  }

  lemma CreatedReady(k: K, prio: int, support: nat, a0: int)
    requires Consistent(k) && |k.kids| == |k.pcb| && k.current.Some? && k.current.value < |k.pcb|
    requires k.free != [] && k.free[0] < |k.pcb|
    ensures var r := CreateK(k, prio, support, a0); r.ready == Enqueue(k.ready, r.pcb, k.free[0])
  {
    hide Enqueue;
  }

  // ---------------------------------------------------------------- priorities of waiting processes

  lemma KillPrio(k: K, p: nat)
    requires ForestOK(k) && p < |k.pcb|
    ensures forall y :: Prio(Kill(k, p).pcb, y) == Prio(k.pcb, y)
  {
    hide PostOrder, KidsWithout, Cleared, Minus, Reverse, Unblock;
  }

  lemma WakePrio(k: K, a: SemAddr, a0: Option<int>)
    requires a in k.blocked && k.blocked[a] != [] && k.blocked[a][0] < |k.pcb|
    ensures forall y :: Prio(Wake(k, a, a0).pcb, y) == Prio(k.pcb, y)
  {
  }

  lemma CreatePrio(k: K, prio: int, support: nat, a0: int, x: nat)
    requires Consistent(k) && |k.kids| == |k.pcb| && k.current.Some? && k.current.value < |k.pcb|
    requires k.free != [] ==> k.free[0] < |k.pcb|
    requires x in k.ready
    ensures Prio(CreateK(k, prio, support, a0).pcb, x) == Prio(k.pcb, x)
  {
    hide Enqueue, ForestOK, WaitersOK, NoDup;
    if k.free != [] {
      assert k.free[0] !in k.ready;
    }
  }

  /** While x is ready its priority is fixed. */
  lemma PrioFixed(k: K, e: Event, x: nat)
    requires Inv(k) && Enabled(k, e) && x in k.ready
    ensures Prio(Step(k, e).pcb, x) == Prio(k.pcb, x)
  {
    hide Stable, DevicesOK, Descends, Enqueue, Kill, Wake, Block, Drain, WaitersOK, CreateK, WellFormed, FreeClean,
      Sub32, Add32, Slot, Away, Victims;
    AwayConsistent(k);
    ConsistentForest(k);
    match e
    case Terminate(Some(t)) => KillPrio(k, t);
    case Trap => KillPrio(k, k.current.value);
    case V(addr) =>
      if Usr(addr) in k.blocked { WakePrio(k, Usr(addr), None); }
    case Device(d, status) =>
      if Dev(d) in k.blocked { WakePrio(k, Dev(d), Some(status)); }
    case Clock =>
      WaitersFit(k);
      DrainReady(k);
    case Create(prio, support, a0) => CreatePrio(k, prio, support, a0, x);
    case _ =>
  }

  lemma PriosFixed(k: K, e: Event)
    requires Inv(k) && Enabled(k, e)
    ensures forall x | x in k.ready :: Prio(Step(k, e).pcb, x) == Prio(k.pcb, x)
  {
    forall x | x in k.ready {
      PrioFixed(k, e, x);
    }
  }

  // ---------------------------------------------------------------- one process against arrivals

  /** x and everything ahead of it have at least priority f. */
  ghost predicate Above(q: seq<nat>, pcb: seq<Pcb>, x: nat, f: int) {
    x in q && forall j | 0 <= j <= Pos(q, x) :: Prio(pcb, q[j]) >= f
  }

  /** The least priority among x and those ahead of it. */
  ghost function Floor(q: seq<nat>, pcb: seq<Pcb>, x: nat): (f: int)
    requires x in q
    ensures Above(q, pcb, x, f)
    ensures forall g | Above(q, pcb, x, g) :: g <= f
  {
    if q[0] == x then Prio(pcb, x)
    else
      var g := Floor(q[1..], pcb, x);
      FloorStep(q, pcb, x, g);
      if Prio(pcb, q[0]) < g then Prio(pcb, q[0]) else g
  }

  lemma FloorStep(q: seq<nat>, pcb: seq<Pcb>, x: nat, g: int)
    requires x in q && q[0] != x && Above(q[1..], pcb, x, g) && forall h | Above(q[1..], pcb, x, h) :: h <= g
    ensures var f := if Prio(pcb, q[0]) < g then Prio(pcb, q[0]) else g;
            Above(q, pcb, x, f) && forall h | Above(q, pcb, x, h) :: h <= f
  {
    PosTail(q, x);
    var f := if Prio(pcb, q[0]) < g then Prio(pcb, q[0]) else g;
    assert forall j | 0 < j < |q| :: q[j] == q[1..][j - 1];
    forall h | Above(q, pcb, x, h) ensures h <= f {
      assert Prio(pcb, q[0]) >= h;
      assert Above(q[1..], pcb, x, h);
    }
  }

  lemma AboveIn(q: seq<nat>, pcb: seq<Pcb>, x: nat, f: int)
    requires Above(q, pcb, x, f)
    ensures x in q
  {
  }

  /** insertProcQ puts x behind nobody of lower priority. */
  lemma ArrivesAbove(q: seq<nat>, pcb: seq<Pcb>, x: nat)
    requires x !in q
    ensures Above(Enqueue(q, pcb, x), pcb, x, Prio(pcb, x))
  {
    hide Slot;
    PosInserted(q, Slot(q, pcb, x), x);
  }

  /** Splicing z behind x leaves what is ahead of x alone. */
  lemma SpliceBehind(q: seq<nat>, pcb: seq<Pcb>, x: nat, z: nat, i: nat, f: int)
    requires Above(q, pcb, x, f) && z !in q && Pos(q, x) < i <= |q|
    ensures var r := InsertAt(q, i, z); Above(r, pcb, x, f) && Pos(r, x) == Pos(q, x) && Before(r, x, z)
  {
    hide Pos;
    var r := InsertAt(q, i, z);
    PosInsert(q, i, z, x);
    PosInserted(q, i, z);
    forall j | 0 <= j <= Pos(r, x) ensures Prio(pcb, r[j]) >= f {
      assert r[j] == q[j];
    }
  }

  /** Splicing a z of at least priority f ahead of x. */
  lemma SpliceAhead(q: seq<nat>, pcb: seq<Pcb>, x: nat, z: nat, i: nat, f: int)
    requires Above(q, pcb, x, f) && z !in q && i <= Pos(q, x) && Prio(pcb, z) >= f
    ensures var r := InsertAt(q, i, z); Above(r, pcb, x, f) && Pos(r, x) == Pos(q, x) + 1
  {
    hide Pos;
    var r := InsertAt(q, i, z);
    PosInsert(q, i, z, x);
    forall j | 0 <= j <= Pos(r, x) ensures Prio(pcb, r[j]) >= f {
      assert r[j] == if j < i then q[j] else if j == i then z else q[j - 1];
    }
  }

  /** An arrival passes x only with priority strictly above f, and then by one. */
  lemma ArrivalPasses(q: seq<nat>, pcb: seq<Pcb>, x: nat, z: nat, f: int)
    requires Above(q, pcb, x, f) && z !in q
    ensures var r := Enqueue(q, pcb, z);
            && Above(r, pcb, x, f)
            && Pos(r, x) <= Pos(q, x) + (if Prio(pcb, z) > f then 1 else 0)
            && (Prio(pcb, z) <= f ==> Before(r, x, z))
  {
    hide Slot, Pos;
    var i, p := Slot(q, pcb, z), Pos(q, x);
    if p < i {
      SpliceBehind(q, pcb, x, z, i, f);
    } else {
      assert Prio(pcb, z) > Prio(pcb, q[i]) >= f;
      SpliceAhead(q, pcb, x, z, i, f);
    }
  }

  /** How many of xs have a priority above f. */
  function Higher(xs: seq<nat>, pcb: seq<Pcb>, f: int): nat {
    if xs == [] then 0 else (if Prio(pcb, xs[0]) > f then 1 else 0) + Higher(xs[1..], pcb, f)
  }

  lemma {:induction false} ArrivalsPass(q: seq<nat>, pcb: seq<Pcb>, x: nat, xs: seq<nat>, f: int)
    requires Above(q, pcb, x, f) && NoDup(xs) && forall i | 0 <= i < |xs| :: xs[i] !in q
    ensures var r := EnqueueAll(q, pcb, xs); Above(r, pcb, x, f) && Pos(r, x) <= Pos(q, x) + Higher(xs, pcb, f)
    decreases |xs|
  {
    hide Above, Slot;
    if xs != [] {
      ArrivalPasses(q, pcb, x, xs[0], f);
      InsertAtElems(q, Slot(q, pcb, xs[0]), xs[0]);
      ArrivalsPass(Enqueue(q, pcb, xs[0]), pcb, x, xs[1..], f);
    }
  }

  /** y, if in the queue, is behind x. */
  ghost predicate NotAhead(q: seq<nat>, x: nat, y: nat) {
    x in q && (y in q ==> Pos(q, x) < Pos(q, y))
  }

  lemma {:induction false} ArrivalsBehind(q: seq<nat>, pcb: seq<Pcb>, x: nat, y: nat, xs: seq<nat>, f: int)
    requires Above(q, pcb, x, f) && NoDup(xs) && forall i | 0 <= i < |xs| :: xs[i] !in q
    requires x != y && NotAhead(q, x, y) && (y in xs ==> Prio(pcb, y) <= f)
    ensures NotAhead(EnqueueAll(q, pcb, xs), x, y)
    decreases |xs|
  {
    hide Slot;
    if xs != [] {
      var z, i := xs[0], Slot(q, pcb, xs[0]);
      var r := Enqueue(q, pcb, z);
      ArrivalPasses(q, pcb, x, z, f);
      InsertAtElems(q, i, z);
      PosInsert(q, i, z, x);
      if z != y && y in q {
        PosInsert(q, i, z, y);
      }
      ArrivalsBehind(r, pcb, x, y, xs[1..], f);
    }
  }

  lemma AboveMinus(q: seq<nat>, pcb: seq<Pcb>, x: nat, gone: set<nat>, f: int)
    requires Above(q, pcb, x, f) && x !in gone && NoDup(q)
    ensures var r := Minus(q, gone); Above(r, pcb, x, f) && Pos(r, x) <= Pos(q, x)
  {
    hide Pos, Minus;
    var r := Minus(q, gone);
    PosMinus(q, gone, x);
    MinusNoDup(q, gone);
    forall j | 0 <= j <= Pos(r, x) ensures Prio(pcb, r[j]) >= f {
      var y := r[j];
      assert y in r && y in q && y !in gone;
      PosAt(r, j);
      if Pos(q, y) > Pos(q, x) {
        BeforeMinus(q, gone, x, y);
      }
      assert q[Pos(q, y)] == y;
    }
  }

  lemma AboveFrame(q: seq<nat>, pcb: seq<Pcb>, pcb': seq<Pcb>, x: nat, f: int)
    requires Above(q, pcb, x, f) && forall y | y in q :: Prio(pcb', y) == Prio(pcb, y)
    ensures Above(q, pcb', x, f)
  {
    forall j | 0 <= j <= Pos(q, x) ensures Prio(pcb', q[j]) >= f {
      assert q[j] in q;
    }
  }

  lemma AboveTail(q: seq<nat>, pcb: seq<Pcb>, x: nat, z: nat, f: int)
    requires Above(q, pcb, x, f) && z !in q
    ensures Above(q + [z], pcb, x, f) && Pos(q + [z], x) == Pos(q, x)
    ensures forall y | y != x && NotAhead(q, x, y) :: NotAhead(q + [z], x, y)
  {
    PosAppend(q, [z], x);
    forall y | y != x && NotAhead(q, x, y) ensures NotAhead(q + [z], x, y) {
      if y in q {
        PosAppend(q, [z], y);
      } else if y in q + [z] {
        assert (q + [z])[Pos(q + [z], y)] == y;
      }
    }
  }

  lemma AboveRest(q: seq<nat>, pcb: seq<Pcb>, x: nat, f: int)
    requires Above(q, pcb, x, f) && q[0] != x
    ensures Above(q[1..], pcb, x, f) && Pos(q[1..], x) == Pos(q, x) - 1
    ensures forall y | NotAhead(q, x, y) :: NotAhead(q[1..], x, y) && q[0] != y
  {
    PosTail(q, x);
    forall y | NotAhead(q, x, y) ensures NotAhead(q[1..], x, y) && q[0] != y {
      if y in q[1..] && q[0] != y {
        PosTail(q, y);
      }
    }
  }

  // ---------------------------------------------------------------- one step of a waiting process

  /** What reaches the ready queue was not in it. */
  lemma ArrivalsNew(k: K, e: Event)
    requires Inv(k) && Enabled(k, e)
    ensures NoDup(Arrivals(k, e)) && forall i | 0 <= i < |Arrivals(k, e)| :: Arrivals(k, e)[i] !in k.ready
    ensures NoDup(k.ready) && (e.GiveWay? ==> Cur(k) !in k.ready)
  {
    hide ForestOK, DevicesOK, Descends, FreeClean, Counted;
    AwayConsistent(k);
    WaitersFit(k);
    if k.current.Some? { assert k.current.value in Current(k); }
    if e.Create? && k.free != [] { assert k.free[0] !in k.ready; }
    if e.Device? { QueueNoDup(k, Dev(e.device)); NotReady(k, Dev(e.device)); }
    if e.V? { QueueNoDup(k, Usr(e.addr)); NotReady(k, Usr(e.addr)); }
    if e.Clock? { QueueNoDup(k, CLOCK); NotReady(k, CLOCK); }
  }

  lemma NotReady(k: K, a: SemAddr)
    requires QueuesOK(k)
    ensures forall i | 0 <= i < |Queue(k.blocked, a)| :: Queue(k.blocked, a)[i] !in k.ready
  {
    hide NoDup;
    forall i | 0 <= i < |Queue(k.blocked, a)| ensures Queue(k.blocked, a)[i] !in k.ready {
      assert k.pcb[k.blocked[a][i]].semAdd == Some(a);
    }
  }

  /** Arrivals of an event with a priority above f. */
  ghost function Overtakers(k: K, e: Event, f: int): nat
    requires Inv(k) && Enabled(k, e)
  {
    Higher(Arrivals(k, e), Step(k, e).pcb, f)
  }

  /** A process that stays ready loses at most as many places as processes above f arrive, and
      gains one by every dispatch. */
  lemma WaitingStep(k: K, e: Event, x: nat, f: int)
    requires Inv(k) && Enabled(k, e) && Above(k.ready, k.pcb, x, f) && x in Step(k, e).ready
    ensures var r := Step(k, e);
            && Above(r.ready, r.pcb, x, f)
            && Pos(r.ready, x) + (if Dispatches(k, e) then 1 else 0) <= Pos(k.ready, x) + Overtakers(k, e, f)
  {
    hide Inv, Enabled, Step, Arrivals, Above, Victims, Schedules, EnqueueAll;
    var r, q := Step(k, e), Gathered(k, e);
    StepMoves(k, e);
    PriosFixed(k, e);
    ArrivalsNew(k, e);
    AboveIn(k.ready, k.pcb, x, f);
    GatheredStays(k, e, x);
    AboveFrame(k.ready, k.pcb, r.pcb, x, f);
    if e.GiveWay? {
      AboveTail(k.ready, r.pcb, x, Cur(k), f);
    } else {
      AboveMinus(k.ready, r.pcb, x, Victims(k, e), f);
      ArrivalsPass(Minus(k.ready, Victims(k, e)), r.pcb, x, Arrivals(k, e), f);
    }
    if Dispatches(k, e) {
      HeadGone(k, e, x);
      AboveRest(q, r.pcb, x, f);
    }
  }

  /** Who is still ready after the step was not killed, and was not the one dispatched. */
  lemma GatheredStays(k: K, e: Event, x: nat)
    requires Inv(k) && Enabled(k, e) && x in k.ready && x in Step(k, e).ready
    ensures x !in Victims(k, e)
  {
    hide Stable, DevicesOK, Descends, PostOrder, Kill, Elems;
    AwayConsistent(k);
    ConsistentForest(k);
    if e.Terminate? && e.target.Some? { KilledGone(k, e.target.value); }
    if e.Trap? { KilledGone(k, k.current.value); }
  }

  lemma KilledGone(k: K, p: nat)
    requires ForestOK(k) && p < |k.pcb|
    ensures forall x | x in Kill(k, p).ready :: x !in Elems(PostOrder(k, p))
    ensures forall x | x in Sched(Kill(k, p).(current := None)).ready :: x !in Elems(PostOrder(k, p))
  {
    hide Minus, Reverse, Unblock, KidsWithout, Cleared, PostOrder;
    var r := Kill(k, p);
    assert forall x | x in r.ready :: x !in Elems(PostOrder(k, p));
    assert forall x | x in Sched(r.(current := None)).ready :: x in r.ready;
  }

  lemma HeadGone(k: K, e: Event, x: nat)
    requires Inv(k) && Enabled(k, e) && Moves(k, e) && Dispatches(k, e) && x in Step(k, e).ready
    ensures Gathered(k, e)[0] != x && x in Gathered(k, e)
  {
    hide ForestOK, WaitersOK, DevicesOK, Enabled, Step, Gathered, Dispatches, Homed, FreeClean, Counted;
    var r := Step(k, e);
    StepAway(r);
  }

  /** The running process is not in the ready queue. */
  lemma StepAway(k: K)
    requires Inv(k)
    ensures k.current.Some? ==> k.current.value !in k.ready
  {
    hide WellFormed, FreeClean, DevicesOK;
    if k.current.Some? { assert k.current.value in Current(k); }
  }

  // ---------------------------------------------------------------- runs

  ghost predicate StaysReady(k: K, es: seq<Event>, x: nat)
    requires Inv(k) && Legal(k, es)
    decreases |es|
  {
    x in k.ready && (es == [] || StaysReady(Step(k, es[0]), es[1..], x))
  }

  ghost function DispatchesIn(k: K, es: seq<Event>): nat
    requires Inv(k) && Legal(k, es)
    decreases |es|
  {
    if es == [] then 0 else (if Dispatches(k, es[0]) then 1 else 0) + DispatchesIn(Step(k, es[0]), es[1..])
  }

  ghost function OvertakersIn(k: K, es: seq<Event>, f: int): nat
    requires Inv(k) && Legal(k, es)
    decreases |es|
  {
    if es == [] then 0 else Overtakers(k, es[0], f) + OvertakersIn(Step(k, es[0]), es[1..], f)
  }

  /** While a process with i others before it stays ready, the dispatches so far and the
      processes still before it are no more than i and one for each arrival above f, f being any
      priority that it and those ahead of it have at least. */
  lemma {:induction false} BoundedWait(k: K, es: seq<Event>, x: nat, f: int)
    requires Inv(k) && Legal(k, es) && StaysReady(k, es, x) && Above(k.ready, k.pcb, x, f)
    ensures var r := Run(k, es);
            && Above(r.ready, r.pcb, x, f)
            && DispatchesIn(k, es) + Pos(r.ready, x) <= Pos(k.ready, x) + OvertakersIn(k, es, f)
    decreases |es|
  {
    hide Inv, Enabled, Step, Above, Dispatches, Overtakers;
    if es != [] {
      assert x in Step(k, es[0]).ready by {
        assert StaysReady(Step(k, es[0]), es[1..], x);
      }
      WaitingStep(k, es[0], x, f);
      BoundedWait(Step(k, es[0]), es[1..], x, f);
    } else {
      assert x in k.ready;
    }
  }

  lemma {:induction false} EnqueueAllKeeps(q: seq<nat>, pcb: seq<Pcb>, xs: seq<nat>, x: nat)
    requires x in q
    ensures x in EnqueueAll(q, pcb, xs)
    decreases |xs|
  {
    hide Slot;
    if xs != [] {
      InsertAtElems(q, Slot(q, pcb, xs[0]), xs[0]);
      EnqueueAllKeeps(Enqueue(q, pcb, xs[0]), pcb, xs[1..], x);
    }
  }

  /** A ready process that is not killed stops being ready only by being dispatched. */
  lemma LeavesByDispatch(k: K, e: Event, x: nat)
    requires Inv(k) && Enabled(k, e) && x in k.ready && x !in Victims(k, e) && x !in Step(k, e).ready
    ensures Dispatches(k, e) && Step(k, e).current == Some(x)
  {
    hide Inv, Enabled, Step, Arrivals, Victims, Schedules, EnqueueAll;
    StepMoves(k, e);
    var q := Gathered(k, e);
    assert x in q by {
      if !e.GiveWay? { EnqueueAllKeeps(Minus(k.ready, Victims(k, e)), Step(k, e).pcb, Arrivals(k, e), x); }
    }
  }

  /** In the run x is dispatched, after at most so many other dispatches, and one more for each
      arrival above f until then. */
  ghost predicate DispatchedBy(k: K, es: seq<Event>, x: nat, f: int, places: int)
    requires Inv(k) && Legal(k, es)
    decreases |es|
  {
    es != [] &&
    var r, left := Step(k, es[0]), places + Overtakers(k, es[0], f);
    if x in r.ready then DispatchedBy(r, es[1..], x, f, left - if Dispatches(k, es[0]) then 1 else 0)
    else Dispatches(k, es[0]) && r.current == Some(x) && left >= 0
  }

  lemma {:induction false} ReadyOrDispatched(k: K, es: seq<Event>, x: nat, places: int, f: int)
    requires Inv(k) && Legal(k, es) && Above(k.ready, k.pcb, x, f) && Spared(k, es, x) && Pos(k.ready, x) <= places
    ensures StaysReady(k, es, x) || DispatchedBy(k, es, x, f, places)
    decreases |es|
  {
    hide Inv, Enabled, Step, Above, Dispatches, Overtakers, Victims;
    AboveIn(k.ready, k.pcb, x, f);
    if es != [] {
      var r := Step(k, es[0]);
      if x in r.ready {
        WaitingStep(k, es[0], x, f);
        ReadyOrDispatched(r, es[1..], x, places + Overtakers(k, es[0], f) - if Dispatches(k, es[0]) then 1 else 0, f);
      } else {
        LeavesByDispatch(k, es[0], x);
      }
    }
  }

  /** Any ready process with i others before it that is not killed is dispatched by the
      (i + 1)-th dispatch, or later by one for each arrival above the least priority among it
      and those ahead of it. */
  lemma DispatchedInTime(k: K, es: seq<Event>, x: nat)
    requires Inv(k) && Legal(k, es) && Spared(k, es, x) && x in k.ready
    requires DispatchesIn(k, es) > Pos(k.ready, x) + OvertakersIn(k, es, Floor(k.ready, k.pcb, x))
    ensures DispatchedBy(k, es, x, Floor(k.ready, k.pcb, x), Pos(k.ready, x))
  {
    hide Inv, Legal, Above, StaysReady, DispatchedBy, Spared, DispatchesIn, OvertakersIn, Floor;
    var f := Floor(k.ready, k.pcb, x);
    ReadyOrDispatched(k, es, x, Pos(k.ready, x), f);
    if StaysReady(k, es, x) {
      BoundedWait(k, es, x, f);
    }
  }

  /** y never arrives with a priority above f. */
  ghost predicate NeverHigher(k: K, es: seq<Event>, f: int, y: nat)
    requires Inv(k) && Legal(k, es)
    decreases |es|
  {
    es == [] ||
    ((y in Arrivals(k, es[0]) ==> Prio(Step(k, es[0]).pcb, y) <= f)
     && NeverHigher(Step(k, es[0]), es[1..], f, y))
  }

  ghost predicate NeverDispatched(k: K, es: seq<Event>, y: nat)
    requires Inv(k) && Legal(k, es)
    decreases |es|
  {
    es == [] ||
    (!(Dispatches(k, es[0]) && Step(k, es[0]).current == Some(y)) && NeverDispatched(Step(k, es[0]), es[1..], y))
  }

  lemma OvertakingStep(k: K, e: Event, x: nat, y: nat, f: int)
    requires Inv(k) && Enabled(k, e) && Above(k.ready, k.pcb, x, f) && x in Step(k, e).ready
    requires x != y && NotAhead(k.ready, x, y)
    requires y in Arrivals(k, e) ==> Prio(Step(k, e).pcb, y) <= f
    ensures NotAhead(Step(k, e).ready, x, y) && !(Dispatches(k, e) && Step(k, e).current == Some(y))
  {
    hide Inv, Enabled, Step, Arrivals, Above, Victims, Schedules, EnqueueAll;
    var r, q, g := Step(k, e), Gathered(k, e), Victims(k, e);
    StepMoves(k, e);
    PriosFixed(k, e);
    ArrivalsNew(k, e);
    GatheredStays(k, e, x);
    AboveFrame(k.ready, k.pcb, r.pcb, x, f);
    if e.GiveWay? {
      AboveTail(k.ready, r.pcb, x, Cur(k), f);
    } else {
      AboveMinus(k.ready, r.pcb, x, g, f);
      if y in k.ready && y !in g {
        BeforeMinus(k.ready, g, x, y);
      }
      ArrivalsPass(Minus(k.ready, g), r.pcb, x, Arrivals(k, e), f);
      ArrivalsBehind(Minus(k.ready, g), r.pcb, x, y, Arrivals(k, e), f);
    }
    if Dispatches(k, e) {
      HeadGone(k, e, x);
      AboveRest(q, r.pcb, x, f);
    }
  }

  /** First come, first served: while x waits, a process that is behind it, or not yet ready,
      and never arrives above f is not dispatched, whatever happens in between, YIELD included. */
  lemma {:induction false} NoOvertaking(k: K, es: seq<Event>, x: nat, y: nat, f: int)
    requires Inv(k) && Legal(k, es) && StaysReady(k, es, x) && Above(k.ready, k.pcb, x, f)
    requires x != y && NotAhead(k.ready, x, y) && NeverHigher(k, es, f, y)
    ensures NotAhead(Run(k, es).ready, x, y) && NeverDispatched(k, es, y)
    decreases |es|
  {
    hide Inv, Enabled, Step, Above, NotAhead, Dispatches, Arrivals;
    if es != [] {
      assert x in Step(k, es[0]).ready by {
        assert StaysReady(Step(k, es[0]), es[1..], x);
      }
      WaitingStep(k, es[0], x, f);
      OvertakingStep(k, es[0], x, y, f);
      NoOvertaking(Step(k, es[0]), es[1..], x, y, f);
    }
  }

  // ---------------------------------------------------------------- priority order

  ghost predicate Sorted(q: seq<nat>, pcb: seq<Pcb>) {
    forall i, j | 0 <= i < j < |q| :: Prio(pcb, q[i]) >= Prio(pcb, q[j])
  }

  lemma EnqueueSorted(q: seq<nat>, pcb: seq<Pcb>, z: nat)
    requires Sorted(q, pcb)
    ensures Sorted(Enqueue(q, pcb, z), pcb)
  {
    hide Slot;
    var i, r := Slot(q, pcb, z), Enqueue(q, pcb, z);
    forall u, v | 0 <= u < v < |r| ensures Prio(pcb, r[u]) >= Prio(pcb, r[v]) {
      assert r[u] == if u < i then q[u] else if u == i then z else q[u - 1];
      assert r[v] == if v < i then q[v] else if v == i then z else q[v - 1];
      if u == i {
        assert Prio(pcb, q[i]) >= Prio(pcb, q[v - 1]);
      }
    }
  }

  lemma {:induction false} EnqueueAllSorted(q: seq<nat>, pcb: seq<Pcb>, xs: seq<nat>)
    requires Sorted(q, pcb)
    ensures Sorted(EnqueueAll(q, pcb, xs), pcb)
    decreases |xs|
  {
    hide Sorted, Enqueue;
    if xs != [] {
      EnqueueSorted(q, pcb, xs[0]);
      EnqueueAllSorted(Enqueue(q, pcb, xs[0]), pcb, xs[1..]);
    }
  }

  lemma {:induction false} MinusSorted(q: seq<nat>, pcb: seq<Pcb>, gone: set<nat>)
    requires Sorted(q, pcb)
    ensures Sorted(Minus(q, gone), pcb)
  {
    if q != [] {
      var r := Minus(q[1..], gone);
      MinusSorted(q[1..], pcb, gone);
      forall j | 0 <= j < |r| ensures Prio(pcb, q[0]) >= Prio(pcb, r[j]) {
        assert r[j] in r && r[j] in q[1..];
      }
    }
  }

  /** Without YIELD the ready queue stays sorted by priority, and whoever is dispatched has
      the highest priority of all that were ready. */
  lemma SortedStep(k: K, e: Event)
    requires Inv(k) && Enabled(k, e) && !e.GiveWay? && Sorted(k.ready, k.pcb)
    ensures var r := Step(k, e);
            && Sorted(r.ready, r.pcb)
            && (Dispatches(k, e) ==> r.current.Some? && forall x | x in r.ready ::
                Prio(r.pcb, x) <= Prio(r.pcb, r.current.value))
  {
    hide Inv, Enabled, Step, Arrivals, Victims, Schedules, EnqueueAll;
    var r, q := Step(k, e), Gathered(k, e);
    StepMoves(k, e);
    PriosFixed(k, e);
    assert Sorted(k.ready, r.pcb) by {
      assert forall j | 0 <= j < |k.ready| :: k.ready[j] in k.ready;
    }
    MinusSorted(k.ready, r.pcb, Victims(k, e));
    EnqueueAllSorted(Minus(k.ready, Victims(k, e)), r.pcb, Arrivals(k, e));
    if Dispatches(k, e) {
      assert forall j | 0 <= j < |r.ready| :: r.ready[j] == q[j + 1];
    }
  }

  /** YIELD appends at the tail.  It keeps the ready queue sorted if and only if the caller
      ends up alone there or is of no higher priority than the last one before it, and it
      dispatches a process of highest priority if and only if the caller is of no higher
      priority than the first. */
  lemma YieldExactly(k: K)
    requires Inv(k) && Enabled(k, GiveWay) && Sorted(k.ready, k.pcb)
    ensures var r, n, c := Step(k, GiveWay), |k.ready|, Cur(k);
            && (Sorted(r.ready, r.pcb) <==> n <= 1 || Prio(k.pcb, c) <= Prio(k.pcb, k.ready[n - 1]))
            && r.current.Some?
            && ((forall x | x in r.ready :: Prio(r.pcb, x) <= Prio(r.pcb, r.current.value))
                  <==> n == 0 || Prio(k.pcb, c) <= Prio(k.pcb, k.ready[0]))
  {
    hide Inv, Step, Enabled, Sorted;
    YieldMoves(k);
    var r, n, c := Step(k, GiveWay), |k.ready|, Cur(k);
    SortedFrame(r.ready, k.pcb, r.pcb);
    if n > 0 {
      TailSorted(k.ready, k.pcb, c);
      HighestFirst(k.ready, k.pcb, c);
      assert forall x | x in r.ready :: Prio(r.pcb, x) == Prio(k.pcb, x);
    } else {
      assert Sorted([], k.pcb) by { SortedNothing(k.pcb); }
    }
  }

  lemma SortedNothing(pcb: seq<Pcb>)
    ensures Sorted([], pcb)
  {
  }

  lemma YieldMoves(k: K)
    requires Inv(k) && Enabled(k, GiveWay)
    ensures var r := Step(k, GiveWay);
            && (forall x :: Prio(r.pcb, x) == Prio(k.pcb, x))
            && (k.ready == [] ==> r.ready == [] && r.current == Some(Cur(k)))
            && (k.ready != [] ==> r.ready == k.ready[1..] + [Cur(k)] && r.current == Some(k.ready[0]))
  {
    hide Stable, DevicesOK;
    AwayConsistent(k);
  }

  lemma HighestFirst(q: seq<nat>, pcb: seq<Pcb>, z: nat)
    requires Sorted(q, pcb) && q != []
    ensures (forall x | x in q[1..] + [z] :: Prio(pcb, x) <= Prio(pcb, q[0])) <==> Prio(pcb, z) <= Prio(pcb, q[0])
  {
    assert (q[1..] + [z])[|q| - 1] == z;
  }

  lemma TailSorted(q: seq<nat>, pcb: seq<Pcb>, z: nat)
    requires Sorted(q, pcb) && q != []
    ensures Sorted(q[1..] + [z], pcb) <==> |q| <= 1 || Prio(pcb, z) <= Prio(pcb, q[|q| - 1])
  {
    var r := q[1..] + [z];
    assert r[|q| - 1] == z && forall j | 0 <= j < |q| - 1 :: r[j] == q[j + 1];
    if |q| > 1 {
      assert r[|q| - 2] == q[|q| - 1];
    }
  }

  lemma SortedFrame(q: seq<nat>, pcb: seq<Pcb>, pcb': seq<Pcb>)
    requires forall x :: Prio(pcb', x) == Prio(pcb, x)
    ensures Sorted(q, pcb') <==> Sorted(q, pcb)
  {
  }

  /** Each dispatch of the run picks a process of the highest ready priority. */
  ghost predicate PicksHighest(k: K, es: seq<Event>)
    requires Inv(k) && Legal(k, es)
    decreases |es|
  {
    es == [] ||
    (var r := Step(k, es[0]);
     && (Dispatches(k, es[0]) ==>
         r.current.Some? && forall x | x in r.ready :: Prio(r.pcb, x) <= Prio(r.pcb, r.current.value))
     && PicksHighest(r, es[1..]))
  }

  lemma {:induction false} PriorityDispatch(k: K, es: seq<Event>)
    requires Inv(k) && Legal(k, es) && Sorted(k.ready, k.pcb) && forall i | 0 <= i < |es| :: !es[i].GiveWay?
    ensures Sorted(Run(k, es).ready, Run(k, es).pcb) && PicksHighest(k, es)
    decreases |es|
  {
    hide Inv, Enabled, Step, Sorted, Dispatches;
    if es != [] {
      SortedStep(k, es[0]);
      PriorityDispatch(Step(k, es[0]), es[1..]);
    }
  }

  /** At boot the ready queue is empty, so the above holds of every run from boot. */
  lemma PriorityFromBoot(n: nat, mem: map<SemAddr, int>, es: seq<Event>)
    requires 0 < n < TWO32 && Legal(Start(n, mem), es) && forall i | 0 <= i < |es| :: !es[i].GiveWay?
    ensures Sorted(Run(Start(n, mem), es).ready, Run(Start(n, mem), es).pcb) && PicksHighest(Start(n, mem), es)
  {
    hide Legal, Inv, Run, PicksHighest, Descending, ZeroDevices, Repeat;
    assert Start(n, mem).ready == [];
    PriorityDispatch(Start(n, mem), es);
  }

  lemma {:induction false} AllArriveAbove(q: seq<nat>, pcb: seq<Pcb>, x: nat, xs: seq<nat>)
    requires NoDup(xs) && (forall i | 0 <= i < |xs| :: xs[i] !in q) && x in xs
    ensures Above(EnqueueAll(q, pcb, xs), pcb, x, Prio(pcb, x))
    decreases |xs|
  {
    hide Above, Slot;
    var z := xs[0];
    InsertAtElems(q, Slot(q, pcb, z), z);
    if z == x {
      ArrivesAbove(q, pcb, x);
      ArrivalsPass(Enqueue(q, pcb, z), pcb, x, xs[1..], Prio(pcb, x));
    } else {
      AllArriveAbove(Enqueue(q, pcb, z), pcb, x, xs[1..]);
    }
  }

  /** Whoever becomes ready by anything but YIELD has nobody of lower priority ahead of it: for
      it, the bounds above count arrivals of strictly higher priority than its own. */
  lemma ArrivedFloor(k: K, e: Event, x: nat)
    requires Inv(k) && Enabled(k, e) && x in Arrivals(k, e) && x in Step(k, e).ready
    ensures var r := Step(k, e); Floor(r.ready, r.pcb, x) == Prio(r.pcb, x)
  {
    hide Inv, Enabled, Step, Arrivals, Victims, Schedules, EnqueueAll, Floor;
    StepMoves(k, e);
    ArrivalsNew(k, e);
    NoYieldArrival(k, e);
    var r := Step(k, e);
    AllArriveAbove(Minus(k.ready, Victims(k, e)), r.pcb, x, Arrivals(k, e));
    if Dispatches(k, e) {
      HeadGone(k, e, x);
      AboveRest(Gathered(k, e), r.pcb, x, Prio(r.pcb, x));
    }
    assert r.ready[Pos(r.ready, x)] == x;
  }

  lemma NoYieldArrival(k: K, e: Event)
    requires Inv(k) && Enabled(k, e) && Arrivals(k, e) != []
    ensures !e.GiveWay?
  {
  }
}
