/** The nucleus (phase2): its global variables and the handlers that change them, each proved
    to make exactly the step of KernelSteps on the abstract state. */
module Nuclei {
  import opened Seqs
  import opened Listx
  import opened KernelState
  import opened Killing
  import opened KernelSteps
  import opened Devices
  import opened Pcbs
  import opened Asls

  /** The device interrupt of semaphore a, with that status. */
  ghost function Delivered(k: K, a: SemAddr, status: int): K
    requires Consistent(k)
  {
    FirstWaiter(k, a);
    DeviceK(k, a, status)
  }

  class Nucleus {
    const pcbs: PcbTable
    const asl: Asl
    var currentProcess: Option<nat>
    var mode: Mode
    var processCount: Word
    var softBlockCount: Word
    var sem: map<SemAddr, int>   // the semaphore words of memory, deviceSemaphore included

    ghost predicate Valid()
      reads this, asl, asl.Repr, pcbs, pcbs.Repr
    {
      asl.pcbs == pcbs && pcbs.Layout() && asl.Valid() && READY in pcbs.plinks.live
    }

    /** The kernel state this object stands for. */
    ghost function Abs(): K
      requires pcbs.Layout()
      reads this, asl, pcbs, pcbs.Repr
    {
      K(pcbs.plinks.lists[FREE], pcbs.plinks.lists[READY], asl.waiting, pcbs.tlinks.lists, pcbs.pcb[..],
        currentProcess, mode, processCount, softBlockCount, sem, pcbs.nextPid)
    }

    /** main(), the memory holding mem at semaphore addresses. */
    constructor (maxproc: nat, mem: map<SemAddr, int>)
      ensures Valid() && Abs() == Boot(maxproc, mem)
      ensures fresh(asl) && fresh(asl.Repr) && fresh(pcbs.Repr)
    {
      hide Arena.Valid, PcbTable.Sound, Asl.Valid, Descending, ZeroDevices, Repeat;
      var table := new PcbTable(maxproc);
      pcbs := table;
      asl := new Asl(table);
      currentProcess, mode, processCount, softBlockCount, sem := None, Waiting, 0, 0, mem;
      new;
      asl.Shape();
      label made:
      pcbs.MkEmptyProcQ(READY);
      asl.Undisturbed@made();
      ClearDevices(mem);
      FirstProcess();
    }

    /** deviceSemaphore[c] = 0 for every device. */
    method ClearDevices(ghost mem: map<SemAddr, int>)
      requires sem == mem
      modifies this`sem
      ensures sem == ZeroDevices(mem, NRSEMAPHORES)
    {
      for c := 0 to NRSEMAPHORES
        invariant sem == ZeroDevices(mem, c)
      {
        sem := sem[Dev(c) := 0];
      }
    }

    /** allocPcb. */
    method Allocate() returns (r: Option<nat>)
      requires Valid()
      requires Abs().free != [] ==>
          var x := Abs().free[0]; pcbs.tlinks.Loose(x) && x < pcbs.n && pcbs.pcb[x].semAdd == None
      modifies pcbs.Repr
      ensures Valid()
      ensures old(Abs()).free == [] ==> r == None && Abs() == old(Abs())
      ensures old(Abs()).free != [] ==>
                && r == Some(old(Abs()).free[0]) && r.value < pcbs.n && pcbs.plinks.Loose(r.value)
                && Abs() == Allocated(old(Abs()))
    {
      hide Asl.Valid, Arena.Valid, PcbTable.Sound;
      asl.Shape();
      r := pcbs.AllocPcb();
      asl.Undisturbed();
    }

    /** The first process: allocPcb, processCount++, insertProcQ, scheduler. */
    method FirstProcess()
      requires Valid() && Abs() == Blank(pcbs.n, sem)
      modifies this, asl.Repr, pcbs.Repr
      ensures Valid()
      ensures Abs() == if pcbs.n == 0 then old(Abs()).(mode := Panicked) else Sched(Loaded(pcbs.n, old(sem)))
    {
      hide Asl.Valid, Arena.Valid, PcbTable.Sound, Sched, KernelSteps.MakeReady, Allocated, Loaded, Repeat;
      asl.Shape();
      if pcbs.n > 0 { FirstIn(pcbs.n, sem); }
      DescendingAll(pcbs.n);
      var p := Allocate();
      if p == None {
        mode := Panicked;
      } else {
        processCount := Add32(processCount, 1);
        MakeReady(p.value);
        Scheduler();
      }
    }

    /** scheduler(). */
    method Scheduler()
      requires Valid()
      modifies this, pcbs.plinks, pcbs.plinks.next, pcbs.plinks.prev
      ensures Valid() && Abs() == Sched(old(Abs()))
    {
      hide Arena.Valid, PcbTable.Sound, Asl.Valid;
      asl.Shape();
      var empty := pcbs.EmptyProcQ(READY);
      if empty {
        if processCount == 0 {
          mode := Halted;
        } else if processCount > 0 && softBlockCount > 0 {
          mode := Waiting;
        } else {
          mode := Panicked;
        }
      } else {
        currentProcess := pcbs.RemoveProcQ(READY);
        asl.Undisturbed();
        mode := Running;
      }
    }

    /** insertProcQ(&readyQueue, x). */
    method MakeReady(x: nat)
      requires Valid() && x < pcbs.n && pcbs.plinks.Loose(x)
      modifies pcbs.plinks, pcbs.plinks.next, pcbs.plinks.prev
      ensures Valid() && Abs() == KernelSteps.MakeReady(old(Abs()), x)
    {
      hide Arena.Valid, PcbTable.Sound, Asl.Valid, Slot;
      asl.Shape();
      pcbs.InsertProcQ(READY, x);
      asl.Undisturbed();
    }

    // -------------------------------------------------------------- killProcess

    /** removeChild(p) when p has children. */
    method DropChild(p: nat) returns (c: Option<nat>)
      requires Valid() && ForestOK(Abs()) && p < pcbs.n && p !in Abs().free && |Abs().kids| == pcbs.n &&
          Abs().kids[p] != []
      modifies pcbs.Repr
      ensures Valid() && c == Some(old(Abs()).kids[p][0]) && c.value < pcbs.n
      ensures Abs() == Detach(old(Abs()), c.value)
    {
      hide Asl.Valid, Arena.Valid, PcbTable.Sound, ChildrenOK, ParentsOK, BirthsOK, Minus;
      ghost var k := Abs();
      asl.Shape();
      pcbs.HasChildList(p);
      Child(k, p, 0);
      pcbs.ChildListsDistinct(p);
      MinusOne(k.kids[p], 0);
      assert RemoveAt(k.kids[p], 0) == k.kids[p][1..];
      c := pcbs.RemoveChild(Some(p));
      asl.Undisturbed();
    }

    /** outChild(p). */
    method LeaveParent(p: nat)
      requires Valid() && ForestOK(Abs()) && FreeClean(Abs()) && p < pcbs.n
      modifies pcbs.Repr
      ensures Valid() && Abs() == Detach(old(Abs()), p)
    {
      hide Asl.Valid, Arena.Valid, PcbTable.Sound, ChildrenOK, BirthsOK, Minus;
      asl.Shape();
      assert pcbs.pcb[..][p].parent == pcbs.pcb[p].parent;
      if pcbs.pcb[p].parent.Some? {
        pcbs.HasChildList(pcbs.pcb[p].parent.value);
      }
      var _ := pcbs.OutChild(Some(p));
      asl.Undisturbed();
    }

    /** Steps 3 and 4 of killProcess: out of the semaphore queue or the ready queue. */
    method LeaveQueues(p: nat)
      requires Valid() && QueuesOK(Abs()) && p < pcbs.n && p !in Abs().free
      modifies this`softBlockCount, asl.Repr, pcbs.Repr
      ensures Valid() && pcbs.plinks.Loose(p)
      ensures var d := old(Abs());
              Abs() == d.(ready := Minus(d.ready, {p}),
                          blocked := Unblock(d.blocked, {p}),
                          pcb := d.pcb[p := d.pcb[p].(semAdd := None)],
                          softBlockCount :=
                            if d.pcb[p].semAdd == Some(CLOCK) then Sub32(d.softBlockCount, 1) else d.softBlockCount)
    {
      hide Asl.Valid, Arena.Valid, PcbTable.Sound, Minus, Unblock, QueuesOK;
      ghost var d := Abs();
      asl.Shape();
      assert d.pcb[p] == pcbs.pcb[p];
      NotElsewhere(d, p);
      if pcbs.pcb[p].semAdd.Some? {
        if pcbs.pcb[p].semAdd == Some(CLOCK) {
          softBlockCount := Sub32(softBlockCount, 1);
        }
        var _ := asl.OutBlocked(p);
      } else {
        var _ := pcbs.OutProcQ(READY, p);
        asl.Undisturbed();
        asl.NotQueued(p);
      }
      asl.Shape();
    }

    /** Steps 3 to 6 of killProcess: out of the queues, then free. */
    method Discard(p: nat)
      requires Valid() && QueuesOK(Abs()) && p < pcbs.n && p !in Abs().free
      modifies this, asl.Repr, pcbs.Repr
      ensures Valid()
      ensures var d := old(Abs());
              Abs() == d.(free := [p] + d.free,
                          ready := Minus(d.ready, {p}),
                          blocked := Unblock(d.blocked, {p}),
                          pcb := d.pcb[p := d.pcb[p].(semAdd := None)],
                          processCount := Sub32(d.processCount, 1),
                          softBlockCount :=
                            if d.pcb[p].semAdd == Some(CLOCK) then Sub32(d.softBlockCount, 1) else d.softBlockCount)
    {
      hide Asl.Valid, Arena.Valid, PcbTable.Sound, Minus, Unblock, QueuesOK;
      asl.Shape();
      LeaveQueues(p);
      processCount := Sub32(processCount, 1);
      asl.Shape();
      label out:
      pcbs.FreePcb(p);
      asl.Undisturbed@out();
    }

    /** killProcess: p and its progeny, children first. */
    method KillProcess(pcb: Option<nat>)
      requires Valid() && WellFormed(Abs()) && FreeClean(Abs())
      requires pcb.Some? ==> pcb.value < pcbs.n && pcb.value !in Abs().free
      modifies this, asl.Repr, pcbs.Repr
      ensures Valid()
      ensures Abs() == if pcb == None then old(Abs()) else Kill(old(Abs()), pcb.value)
      decreases if pcb == None then 0 else pcbs.nextPid - pcbs.pcb[pcb.value].pid
    {
      hide Asl.Valid, PcbTable.Sound, ChildrenOK, ParentsOK, BirthsOK, QueuesOK, Without, Detach, PostOrders;
      if pcb == None {
        return;
      }
      var p := pcb.value;
      ghost var k, cs := Abs(), Abs().kids[p];
      ghost var j := 0;
      asl.Shape();
      pcbs.HasChildList(p);
      KillStart(k, p);
      var empty := pcbs.EmptyChild(pcb);
      while !empty
        invariant Valid() && j <= |cs|
        invariant Abs() == Without(k, Killed(k, p, j)) && (empty <==> j == |cs|)
        decreases |cs| - j
      {
        KillFrame(k, p, j);
        KillRound(k, p, j);
        asl.Shape();
        var c := DropChild(p);
        KillProcess(c);
        j := j + 1;
        KillFrame(k, p, j);
        asl.Shape();
        pcbs.HasChildList(p);
        empty := pcbs.EmptyChild(pcb);
      }
      KillEnd(k, p);
      LeaveParent(p);
      Discard(p);
    }

    // -------------------------------------------------------------- moves of the current process

    /** copyState(&currentProcess->p_s, state), then currentProcess = NULL. */
    method SaveCurrent(a0: int)
      requires Valid() && currentProcess.Some? && currentProcess.value < pcbs.n
      modifies this`currentProcess, pcbs.pcb
      ensures Valid() && Abs() == Save(old(Abs()), a0)
    {
      hide Asl.Valid, PcbTable.Sound;
      asl.Shape();
      var c := currentProcess.value;
      pcbs.pcb[c] := pcbs.pcb[c].(a0 := a0);
      currentProcess := None;
      asl.Undisturbed();
    }

    /** insertBlocked(a, currentProcess), result ignored. */
    method BlockOn(a: SemAddr)
      requires Valid() && CurrentOK(Abs()) && currentProcess.Some?
      modifies asl.Repr, pcbs.Repr
      ensures Valid() && Abs() == BlockCurrent(old(Abs()), a)
    {
      hide Asl.Valid, Arena.Valid, PcbTable.Sound, Block;
      asl.Shape();
      var c := currentProcess.value;
      assert pcbs.pcb[..][c] == pcbs.pcb[c];
      asl.NotQueued(c);
      var _ := asl.InsertBlocked(a, c);
      asl.Shape();
    }

    /** removeBlocked(a). */
    method TakeFirst(a: SemAddr) returns (r: Option<nat>)
      requires Valid()
      modifies asl.Repr, pcbs.Repr
      ensures Valid()
      ensures a !in old(Abs()).blocked ==> r == None && Abs() == old(Abs())
      ensures a in old(Abs()).blocked ==>
                var k := old(Abs());
                && k.blocked[a] != [] && r == Some(k.blocked[a][0]) && r.value < pcbs.n && pcbs.plinks.Loose(r.value)
                && Abs() == k.(blocked := Unblock(k.blocked, {r.value}),
                    pcb := k.pcb[r.value := k.pcb[r.value].(semAdd := None)])
    {
      hide Asl.Valid, Arena.Valid, PcbTable.Sound, Unblock;
      asl.Shape();
      r := asl.RemoveBlocked(a);
      asl.Shape();
    }

    /** removeBlocked(a); the PCB it returns, if any, gets reg_a0 = a0 where that is given
        and goes to the ready queue. */
    method WakeOne(a: SemAddr, a0: Option<int>) returns (woken: bool)
      requires Valid() && (a in Abs().blocked ==> Abs().blocked[a] != [] && Abs().blocked[a][0] < pcbs.n)
      modifies asl.Repr, pcbs.Repr
      ensures Valid() && (woken <==> a in old(Abs()).blocked)
      ensures Abs() == if woken then Wake(old(Abs()), a, a0) else old(Abs())
    {
      hide Asl.Valid, Arena.Valid, PcbTable.Sound, Unblock, Slot;
      var p := TakeFirst(a);
      if p == None {
        return false;
      }
      asl.Shape();
      if a0.Some? {
        label taken:
        pcbs.pcb[p.value] := pcbs.pcb[p.value].(a0 := a0.value);
        asl.Undisturbed@taken();
      }
      MakeReady(p.value);
      woken := true;
    }

    // -------------------------------------------------------------- system calls

    /** A new PCB gets its state, priority, support structure and parent. */
    method Adopt(x: nat, prio: int, support: nat, a0: int)
      requires Valid() && currentProcess.Some? && x < pcbs.n && pcbs.tlinks.Loose(x)
      requires currentProcess.value < pcbs.n && currentProcess.value !in Abs().free
      requires pcbs.pcb[x].parent == None && pcbs.pcb[x].semAdd == None
      modifies pcbs.tlinks, pcbs.tlinks.next, pcbs.tlinks.prev, pcbs.pcb
      ensures Valid()
      ensures var k, c := old(Abs()), old(currentProcess.value);
              Abs() == k.(kids := k.kids[c := [x] + k.kids[c]],
                          pcb := k.pcb[x := Pcb(k.current, None, prio, k.pcb[x].pid, support, a0)])
    {
      hide Asl.Valid, Arena.Valid, PcbTable.Sound;
      asl.Shape();
      pcbs.HasChildList(currentProcess.value);
      pcbs.pcb[x] := pcbs.pcb[x].(a0 := a0);
      pcbs.pcb[x] := pcbs.pcb[x].(prio := prio);
      pcbs.pcb[x] := pcbs.pcb[x].(support := support);
      pcbs.InsertChild(currentProcess, Some(x));
      asl.Undisturbed();
    }

    /** The PCB just allocated becomes a ready child of the current process. */
    method Enrol(x: nat, prio: int, support: nat, a0: int)
      requires Valid() && currentProcess.Some? && x < pcbs.n && pcbs.tlinks.Loose(x) && pcbs.plinks.Loose(x)
      requires currentProcess.value < pcbs.n && currentProcess.value !in Abs().free
      requires pcbs.pcb[x].parent == None && pcbs.pcb[x].semAdd == None
      modifies this`processCount, pcbs.plinks, pcbs.plinks.next, pcbs.plinks.prev
      modifies pcbs.tlinks, pcbs.tlinks.next, pcbs.tlinks.prev, pcbs.pcb
      ensures Valid()
      ensures var k, c := old(Abs()), old(currentProcess.value);
              var p := Pcb(k.current, None, prio, k.pcb[x].pid, support, a0);
              Abs() == KernelSteps.MakeReady(k.(kids := k.kids[c := [x] + k.kids[c]], pcb := k.pcb[x := p]), x).(
                         processCount := Add32(k.processCount, 1))
    {
      hide Asl.Valid, Arena.Valid, PcbTable.Sound, Enqueue;
      asl.Shape();
      Adopt(x, prio, support, a0);
      MakeReady(x);
      processCount := Add32(processCount, 1);
    }

    /** CREATEPROCESS; r is what the caller finds in reg_a0. */
    method CreateProcess(prio: int, support: nat, a0: int) returns (r: int)
      requires Valid() && Consistent(Abs()) && currentProcess.Some?
      modifies this, asl.Repr, pcbs.Repr
      ensures Valid() && Abs() == CreateK(old(Abs()), prio, support, a0)
      ensures r == if old(Abs()).free == [] then -1 else old(Abs()).nextPid
    {
      hide Asl.Valid, Arena.Valid, PcbTable.Sound, Enqueue, WellFormed, FreeClean, Slot, NoDup, Add32;
      ghost var k := Abs();
      asl.Shape();
      if k.free != [] { FreeHead(k); }
      var p := Allocate();
      if p == None {
        return -1;
      }
      asl.Shape();
      r := pcbs.pcb[p.value].pid;
      Enrol(p.value, prio, support, a0);
    }

    /** TERMPROCESS on the process found. */
    method TermProcess(target: Option<nat>)
      requires Valid() && Consistent(Abs()) && currentProcess.Some?
      requires target.Some? ==> target.value < pcbs.n && target.value !in Abs().free
      modifies this, asl.Repr, pcbs.Repr
      ensures Valid() && Abs() == TerminateK(old(Abs()), target)
    {
      hide Asl.Valid, PcbTable.Sound, WellFormed, FreeClean, Kill, Sched;
      asl.Shape();
      if target.Some? { KillKeepsCurrent(Abs(), target.value); }
      if target != None {
        KillProcess(target);
      }
      if target == currentProcess {
        asl.Shape();
        currentProcess := None;
        Scheduler();
      }
    }

    /** PASSEREN. */
    method Passeren(a: SemAddr)
      requires Valid() && Consistent(Abs()) && currentProcess.Some?
      modifies this, asl.Repr, pcbs.Repr
      ensures Valid() && Abs() == PasserenK(old(Abs()), a)
    {
      hide Asl.Valid, PcbTable.Sound, WellFormed, FreeClean, Block, Sched;
      asl.Shape();
      if Val(sem, a) <= 0 {
        BlockOn(a);
        SaveCurrent(PASSEREN);
        Scheduler();
      } else {
        sem := sem[a := Val(sem, a) - 1];
      }
    }

    /** VERHOGEN. */
    method Verhogen(a: SemAddr)
      requires Valid()
      requires a in Abs().blocked ==> Abs().blocked[a] != [] && Abs().blocked[a][0] < pcbs.n
      modifies this, asl.Repr, pcbs.Repr
      ensures Valid() && Abs() == VerhogenK(old(Abs()), a)
    {
      hide Asl.Valid, PcbTable.Sound, Wake;
      var woken := WakeOne(a, None);
      if !woken {
        asl.Shape();
        sem := sem[a := Val(sem, a) + 1];
      }
    }

    method DownCurrent(a: SemAddr)
      requires Valid() && CurrentOK(Abs()) && currentProcess.Some?
      modifies this`sem, asl.Repr, pcbs.Repr
      ensures Valid() && Abs() == Down(old(Abs()), a)
    {
      hide Asl.Valid, PcbTable.Sound, Block;
      asl.Shape();
      if Val(sem, a) <= 0 {
        BlockOn(a);
      } else {
        sem := sem[a := Val(sem, a) - 1];
      }
    }

    /** The body shared by DOIO and CLOCKWAIT. */
    method SoftBlock(a: SemAddr, a0: int)
      requires Valid() && Consistent(Abs()) && currentProcess.Some?
      modifies this, asl.Repr, pcbs.Repr
      ensures Valid() && Abs() == SoftBlockK(old(Abs()), a, a0)
    {
      hide Asl.Valid, PcbTable.Sound, WellFormed, FreeClean, Down, Sched;
      DownCurrent(a);
      SaveCurrent(a0);
      asl.Shape();
      softBlockCount := Add32(softBlockCount, 1);
      Scheduler();
    }

    /** DOIO on a device's command register. */
    method DoIO(commandAddr: Word)
      requires Valid() && Consistent(Abs()) && currentProcess.Some? && FindDeviceIndex(commandAddr) != -1
      modifies this, asl.Repr, pcbs.Repr
      ensures Valid() && Abs() == SoftBlockK(old(Abs()), Dev(FindDeviceIndex(commandAddr)), DOIO)
    {
      hide FindDeviceIndex;
      Accepted(commandAddr);
      var index := FindDeviceIndex(commandAddr);
      SoftBlock(Dev(index), DOIO);
    }

    /** CLOCKWAIT. */
    method ClockWait()
      requires Valid() && Consistent(Abs()) && currentProcess.Some?
      modifies this, asl.Repr, pcbs.Repr
      ensures Valid() && Abs() == SoftBlockK(old(Abs()), CLOCK, CLOCKWAIT)
    {
      SoftBlock(Dev(PSEUDOINDEX), CLOCKWAIT);
    }

    /** YIELD: to the tail of the ready queue whatever the priorities. */
    method Yield()
      requires Valid() && Consistent(Abs()) && currentProcess.Some?
      modifies this, asl.Repr, pcbs.Repr
      ensures Valid() && Abs() == YieldK(old(Abs()))
    {
      hide Asl.Valid, Arena.Valid, PcbTable.Sound, WellFormed, FreeClean;
      var yielded := currentProcess.value;
      assert pcbs.pcb[..][yielded] == pcbs.pcb[yielded];
      SaveCurrent(YIELD);
      asl.Shape();
      assert pcbs.pcb[..][yielded] == pcbs.pcb[yielded];
      asl.NotQueued(yielded);
      label saved:
      var empty := pcbs.EmptyProcQ(READY);
      if empty {
        pcbs.InsertProcQ(READY, yielded);
      } else {
        pcbs.AppendProcQ(READY, yielded);
      }
      assert Enqueue([], pcbs.pcb[..], yielded) == [] + [yielded];
      asl.Undisturbed@saved();
      Scheduler();
    }

    /** passUpOrDie. */
    method PassUpOrDie()
      requires Valid() && Consistent(Abs()) && currentProcess.Some?
      modifies this, asl.Repr, pcbs.Repr
      ensures Valid() && Abs() == TrapK(old(Abs()))
    {
      hide Asl.Valid, PcbTable.Sound, WellFormed, FreeClean, Kill, Sched;
      assert pcbs.pcb[..][currentProcess.value] == pcbs.pcb[currentProcess.value];
      if pcbs.pcb[currentProcess.value].support == 0 {
        KillProcess(currentProcess);
        asl.Shape();
        currentProcess := None;
        Scheduler();
      }
    }

    // -------------------------------------------------------------- interrupts

    /** The end of handleDevice and handleIntervalClock: LDST or scheduler(). */
    method ReturnOrSchedule()
      requires Valid()
      modifies this, asl.Repr, pcbs.Repr
      ensures Valid() && Abs() == Resume(old(Abs()))
    {
      hide Asl.Valid, PcbTable.Sound;
      if currentProcess == None {
        Scheduler();
      }
    }

    /** handleDevice once the device is known: a terminal's transmitter goes before its receiver. */
    method ServeDevice(line: nat, devNo: nat, reg: Registers)
      requires Valid() && Consistent(Abs()) && 3 <= line <= 7 && devNo < 8
      requires line == 7 ==> reg.Transmitted() || reg.Received()
      modifies this, asl.Repr, pcbs.Repr
      ensures Valid()
      ensures line < 7 ==> Abs() == Delivered(old(Abs()), Dev((line - 3) * 8 + devNo), reg.status)
      ensures line == 7 && reg.transmStatus % 256 == 5 ==>
                Abs() == Delivered(old(Abs()), Dev(33 + 2 * devNo), reg.transmStatus)
      ensures line == 7 && reg.transmStatus % 256 != 5 ==>
                Abs() == Delivered(old(Abs()), Dev(32 + 2 * devNo), reg.status)
    {
      hide Asl.Valid, PcbTable.Sound, WellFormed, FreeClean, FindDeviceIndex, Delivered;
      var devAddr, savedStatus, semIndex := CalcDevAddr(line, devNo), 0, -1;
      if line == 7 {
        if reg.transmStatus % 256 == DONE {
          SameSemaphore(Transmitter(devNo));
          savedStatus := reg.transmStatus;
          semIndex := FindDeviceIndex(devAddr + 0x8);
        } else if reg.status % 256 == DONE {
          SameSemaphore(Receiver(devNo));
          savedStatus := reg.status;
          semIndex := FindDeviceIndex(devAddr);
        }
      } else {
        SameSemaphore(Peripheral(line, devNo));
        savedStatus := reg.status;
        semIndex := FindDeviceIndex(devAddr);
      }
      Deliver(Dev(semIndex), savedStatus);
    }

    /** The rest of handleDevice: the waiter, if any, gets the status. */
    method Deliver(a: SemAddr, savedStatus: int)
      requires Valid() && Consistent(Abs())
      modifies this, asl.Repr, pcbs.Repr
      ensures Valid() && Abs() == Delivered(old(Abs()), a, savedStatus)
    {
      hide Asl.Valid, PcbTable.Sound, WellFormed, FreeClean, Wake, Resume;
      FirstWaiter(Abs(), a);
      var woken := WakeOne(a, Some(savedStatus));
      asl.Shape();
      if woken {
        softBlockCount := Sub32(softBlockCount, 1);
      } else {
        sem := sem[a := Val(sem, a) + 1];
      }
      ReturnOrSchedule();
    }

    /** handleDevice: the lowest pending device of the line is served, with the status of its own
        register, on lines 3 to 6; on line 7 its transmitter if that has sent a character, and
        else its receiver.  With none pending the kernel panics. */
    method HandleDevice(line: nat, pending: seq<bool>, regs: seq<Registers>)
      requires Valid() && Consistent(Abs()) && 3 <= line <= 7 && |pending| == |regs| == 8
      requires line == 7 ==> forall d | 0 <= d < 8 && pending[d] && (forall j | 0 <= j < d :: !pending[j]) ::
                 regs[d].Transmitted() || regs[d].Received()
      modifies this, asl.Repr, pcbs.Repr
      ensures Valid()
      ensures (forall d | 0 <= d < 8 :: !pending[d]) ==> Abs() == old(Abs()).(mode := Panicked)
      ensures forall d | 0 <= d < 8 && pending[d] && (forall j | 0 <= j < d :: !pending[j]) ::
                && (line < 7 ==> Abs() == Delivered(old(Abs()), Dev((line - 3) * 8 + d), regs[d].status))
                && (line == 7 && regs[d].transmStatus % 256 == 5 ==>
                      Abs() == Delivered(old(Abs()), Dev(33 + 2 * d), regs[d].transmStatus))
                && (line == 7 && regs[d].transmStatus % 256 != 5 ==>
                      Abs() == Delivered(old(Abs()), Dev(32 + 2 * d), regs[d].status))
    {
      hide Asl.Valid, PcbTable.Sound, WellFormed, FreeClean, CalcDevNo, Delivered;
      LowestPending(pending);
      asl.Shape();
      var devNo := CalcDevNo(pending);
      if devNo == None {
        mode := Panicked;
      } else {
        ServeDevice(line, devNo.value, regs[devNo.value]);
      }
    }

    /** handlePLT: the time slice is over. */
    method HandlePLT(a0: int)
      requires Valid() && Consistent(Abs()) && currentProcess.Some?
      modifies this, asl.Repr, pcbs.Repr
      ensures Valid() && Abs() == TimeSliceK(old(Abs()), a0)
    {
      hide Asl.Valid, Arena.Valid, PcbTable.Sound, WellFormed, FreeClean, Slot;
      asl.Shape();
      var c := currentProcess.value;
      assert pcbs.pcb[..][c] == pcbs.pcb[c];
      pcbs.pcb[c] := pcbs.pcb[c].(a0 := a0);
      asl.Undisturbed();
      asl.NotQueued(c);
      MakeReady(c);
      Scheduler();
    }

    /** handleIntervalClock: every PCB waiting for the pseudo-clock becomes ready. */
    method HandleIntervalClock()
      requires Valid() && Consistent(Abs())
      modifies this, asl.Repr, pcbs.Repr
      ensures Valid() && Abs() == ClockTickK(old(Abs()))
    {
      hide Asl.Valid, Arena.Valid, PcbTable.Sound, WellFormed, FreeClean, WaitersOK, Wake, Resume;
      ghost var k := Abs();
      WaitersFit(k);
      FirstWaiter(k, CLOCK);
      var woken := WakeOne(CLOCK, None);
      while woken
        invariant Valid() && WaitersOK(k.blocked, k.pcb) && (woken <==> CLOCK in k.blocked)
        invariant Drain(k) == old(Drain(Abs()))
        invariant woken ==> k.blocked[CLOCK] != [] && k.blocked[CLOCK][0] < |k.pcb|
        invariant Abs() == if woken then Wake(k, CLOCK, None) else k
        decreases |Queue(k.blocked, CLOCK)|
      {
        TickShrinks(k);
        asl.Shape();
        softBlockCount := Sub32(softBlockCount, 1);
        k := Tick(k);
        WaiterFits(k, CLOCK);
        woken := WakeOne(CLOCK, None);
      }
      ReturnOrSchedule();
    }
  }
}
