/** What the environment owes the kernel, exactly: where it is not met, some PCB has two homes,
    or none, or the counts go wrong.  And runs from boot in which it is not met. */
module Environment {
  import opened Seqs
  import opened KernelState
  import opened Killing
  import opened KernelSteps
  import opened Stability
  import opened Runs
  import opened Semaphores
  import opened Verdict

  /** TERMPROCESS only compares its target with currentProcess.  The invariant survives if and
      only if the target is the caller or no ancestor of it; otherwise the caller goes on
      running on a freed PCB. */
  lemma TerminateExactly(k: K, t: nat)
    requires Inv(k) && k.mode == Running && k.current.Some? && Live(k, t)
    ensures Inv(Next(k, Terminate(Some(t)))) <==> SafeTarget(k, t)
    ensures !SafeTarget(k, t) ==>
        var r := Next(k, Terminate(Some(t))); r.current == k.current && k.current.value in r.free
  {
    hide WellFormed, FreeClean, Counted, Kill, Descends, Sched, PostOrder;
    AwayConsistent(k);
    ConsistentForest(k);
    if SafeTarget(k, t) {
      TerminateInv(k, Some(t));
    } else {
      KillAway(k, t);
      var r := Next(k, Terminate(Some(t)));
      assert r == Kill(k, t);
      assert k.current.value in Current(r) && k.current.value in r.free;
    }
  }

  /** DOIO blocks its caller only if the device semaphore is not positive.  Otherwise the
      semaphore is decremented, the caller gives up the processor all the same, and is lost. */
  lemma IoExactly(k: K, d: nat)
    requires Inv(k) && Enabled(k, Io(d))
    ensures Cur(k) < |k.pcb| && Cur(k) !in Lost(k)
    ensures Cur(k) in Lost(Step(k, Io(d))) <==> Val(k.sem, Dev(d)) > 0
  {
    hide Settled, DevicesOK, Next, Away;
    StepInv(k, Io(d));
    AwayConsistent(k);
    assert Current(k) == {Cur(k)};
  }

  /** A device interrupt leaves its semaphore at 0, so that the next DOIO blocks, if and only if
      somebody waits for it. */
  lemma DeviceExactly(k: K, d: nat, status: int)
    requires Inv(k) && Enabled(k, Device(d, status)) && Val(k.sem, Dev(d)) == 0
    ensures Val(Step(k, Device(d, status)).sem, Dev(d)) == 0 <==> Dev(d) in k.blocked
  {
    hide Stable, DevicesOK, Next;
    AwayConsistent(k);
    ViewStep(k, Device(d, status), Dev(d));
  }

  /** Every device interrupt of the run finds a process waiting for it. */
  ghost predicate Answered(k: K, es: seq<Event>)
    requires Inv(k) && Legal(k, es)
    decreases |es|
  {
    es == [] || ((es[0].Device? ==> Dev(es[0].device) in k.blocked) && Answered(Step(k, es[0]), es[1..]))
  }

  ghost predicate DevicesIdle(k: K) {
    forall d | 0 <= d < PSEUDOINDEX :: Val(k.sem, Dev(d)) == 0
  }

  /** While interrupts are answered no device semaphore becomes positive. */
  lemma IdleStep(k: K, e: Event)
    requires Inv(k) && Enabled(k, e) && DevicesIdle(k) && (e.Device? ==> Dev(e.device) in k.blocked)
    ensures DevicesIdle(Step(k, e)) && Loses(k, e) == {}
  {
    hide Settled, Enabled, Step, Victims, DevicesOK;
    InvRunning(k, e);
    AwayConsistent(k);
    forall d | 0 <= d < PSEUDOINDEX ensures Val(Step(k, e).sem, Dev(d)) == 0 {
      ViewStep(k, e, Dev(d));
    }
  }

  /** So that, if every interrupt is answered, nobody is lost in any run from boot, and each PCB
      is in exactly one of the four homes. */
  lemma AnsweredLosesNobody(n: nat, mem: map<SemAddr, int>, es: seq<Event>)
    requires 0 < n < TWO32 && Legal(Start(n, mem), es) && Answered(Start(n, mem), es)
    ensures var k := Run(Start(n, mem), es); Lost(k) == {} && forall x | 0 <= x < n :: Homes(k, x) == 1
  {
    hide Legal, Run, Answered, Inv, Lost, Boot, ZeroDevices;
    StartIdle(n, mem);
    AnsweredRun(Start(n, mem), es);
    Partition(n, mem, es);
    LostRun(Start(n, mem), es);
  }

  lemma StartIdle(n: nat, mem: map<SemAddr, int>)
    requires 0 < n < TWO32
    ensures DevicesIdle(Start(n, mem)) && Lost(Start(n, mem)) == {}
  {
    hide Inv, Lost, Descending, Repeat;
  }

  lemma {:induction false} AnsweredRun(k: K, es: seq<Event>)
    requires Inv(k) && Legal(k, es) && Answered(k, es) && DevicesIdle(k) && Lost(k) == {}
    ensures Lost(Run(k, es)) == {}
    decreases |es|
  {
    hide Inv, Enabled, Next, Lost, Victims, Loses, DevicesIdle;
    if es != [] {
      IdleStep(k, es[0]);
      StepInv(k, es[0]);
      AnsweredRun(Step(k, es[0]), es[1..]);
    }
  }

  /** P does not look at its address.  It keeps softBlockCount in step with the device waiters
      if and only if the address is no device semaphore, or one it need not wait for. */
  lemma PasserenExactly(k: K, a: SemAddr, leaked: nat)
    requires Inv(k) && k.current.Some? && k.current.value < |k.pcb| && Owed(k, leaked)
    ensures Owed(PasserenK(k, a), leaked) <==> a.Usr? || Val(k.sem, a) > 0
  {
    hide Inv, PasserenK, Add32, DeviceWaiters;
    PasserenWaits(k, a);
    var c, r := k.current.value, PasserenK(k, a);
    if a.Dev? && Val(k.sem, a) <= 0 {
      WaitersGain(k.pcb, r.pcb, c);
      ModUp(|DeviceWaiters(k.pcb)| + leaked, k.softBlockCount);
      AddOne(k.softBlockCount);
    } else {
      WaitersSame(k.pcb, r.pcb);
    }
  }

  lemma AddOne(x: Word)
    ensures Add32(x, 1) != x && Sub32(x, 1) != x
  {
  }

  lemma PasserenWaits(k: K, a: SemAddr)
    requires Inv(k) && k.current.Some? && k.current.value < |k.pcb|
    ensures var c, r := k.current.value, PasserenK(k, a);
            && r.softBlockCount == k.softBlockCount && |r.pcb| == |k.pcb|
            && k.pcb[c].semAdd == None
            && r.pcb[c].semAdd == (if Val(k.sem, a) <= 0 then Some(a) else None)
            && forall y | 0 <= y < |k.pcb| && y != c :: r.pcb[y].semAdd == k.pcb[y].semAdd
  {
    hide Stable, Block, DevicesOK;
    AwayHome(k);
    DescriptorLeft(k, k.current.value);
  }

  /** V keeps the device semaphores as the nucleus keeps them, and softBlockCount in step, if and
      only if the address is no device semaphore, or one of a sub-device nobody waits for. */
  lemma VerhogenExactly(k: K, a: SemAddr, leaked: nat)
    requires Inv(k) && k.current.Some? && k.current.value < |k.pcb| && Owed(k, leaked)
    requires a in k.blocked ==> k.blocked[a] != [] && k.blocked[a][0] < |k.pcb|
    ensures DevicesOK(VerhogenK(k, a)) && Owed(VerhogenK(k, a), leaked) <==> a.Usr? || (a !in k.blocked && a != CLOCK)
  {
    hide Inv, VerhogenK, Sub32, DeviceWaiters, DevicesOK;
    VerhogenWakes(k, a);
    var r := VerhogenK(k, a);
    if a in k.blocked && a.Dev? {
      WaitersLose(k.pcb, r.pcb, k.blocked[a][0]);
      ModDown(|DeviceWaiters(k.pcb)| + leaked, 1, k.softBlockCount);
      AddOne(k.softBlockCount);
    } else {
      WaitersSame(k.pcb, r.pcb);
    }
  }

  lemma VerhogenWakes(k: K, a: SemAddr)
    requires Inv(k) && (a in k.blocked ==> k.blocked[a] != [] && k.blocked[a][0] < |k.pcb|)
    ensures var r := VerhogenK(k, a);
            && r.softBlockCount == k.softBlockCount && |r.pcb| == |k.pcb|
            && (a !in k.blocked ==> r.pcb == k.pcb && (DevicesOK(r) <==> a != CLOCK))
            && (a in k.blocked ==>
                  var x := k.blocked[a][0];
                  && k.pcb[x].semAdd == Some(a) && r.pcb[x].semAdd == None && DevicesOK(r)
                  && forall y | 0 <= y < |k.pcb| && y != x :: r.pcb[y].semAdd == k.pcb[y].semAdd)
  {
    hide WellFormed, FreeClean, Homed, Slot, Minus, WaitersOK;
    AwayConsistent(k);
    WaitersFit(k);
    if a in k.blocked {
      WaiterNames(k.blocked, k.pcb, a);
    } else if a == CLOCK {
      assert Val(VerhogenK(k, a).sem, CLOCK) == 1;
    }
  }

  lemma WaiterNames(w: map<SemAddr, seq<nat>>, pcb: seq<Pcb>, a: SemAddr)
    requires WaitersOK(w, pcb) && a in w && w[a] != [] && w[a][0] < |pcb|
    ensures pcb[w[a][0]].semAdd == Some(a)
  {
  }
}
