/** The whole nucleus at work: its handlers, one after the other, make the runs of Runs. */
module Machine {
  import opened KernelState
  import opened KernelSteps
  import opened Devices
  import opened Listx
  import opened Pcbs
  import opened Asls
  import opened Runs
  import opened Nuclei

  /** A device interrupt reports a status register, a terminal's only when an operation is done. */
  predicate Reportable(e: Event) {
    e.Device? ==> 0 <= e.status < TWO32 && (e.device >= 32 ==> e.status % 256 == DONE)
  }

  predicate AllReportable(es: seq<Event>) {
    forall i | 0 <= i < |es| :: Reportable(es[i])
  }

  /** The interrupt line of sub-device d, its number there, and its registers with that status. */
  function Line(d: nat): nat {
    if d < 32 then d / 8 + 3 else 7
  }

  function Number(d: nat): nat {
    if d < 32 then d % 8 else (d - 32) / 2
  }

  function Reporting(d: nat, status: Word): Registers {
    if d >= 32 && d % 2 == 1 then Registers(0, status) else Registers(status, 0)
  }

  lemma ReportedBy(d: nat, status: Word)
    requires d < PSEUDOINDEX && (d >= 32 ==> status % 256 == DONE)
    ensures 3 <= Line(d) <= 7 && Number(d) < 8
    ensures var reg := Reporting(d, status);
            && (Line(d) < 7 ==> d == (Line(d) - 3) * 8 + Number(d) && reg.status == status)
            && (Line(d) == 7 && reg.Transmitted() ==> d == 33 + 2 * Number(d) && reg.transmStatus == status)
            && (Line(d) == 7 && !reg.Transmitted() ==>
                  d == 32 + 2 * Number(d) && reg.status == status && reg.Received())
  {
  }

  /** Only device number d of the line is pending. */
  function Only(d: nat): seq<bool> {
    seq(8, i => i == d)
  }

  lemma OnlyPending(d: nat)
    requires d < 8
    ensures |Only(d)| == 8 && forall i | 0 <= i < 8 :: Only(d)[i] <==> i == d
  {
  }

  /** The interrupt of sub-device d. */
  method Interrupt(nuc: Nucleus, d: nat, status: Word)
    requires nuc.Valid() && Consistent(nuc.Abs()) && d < PSEUDOINDEX && (d >= 32 ==> status % 256 == DONE)
    requires var k := nuc.Abs(); Dev(d) in k.blocked ==> k.blocked[Dev(d)] != [] && k.blocked[Dev(d)][0] < |k.pcb|
    modifies nuc, nuc.asl.Repr, nuc.pcbs.Repr
    ensures nuc.Valid() && nuc.Abs() == DeviceK(old(nuc.Abs()), Dev(d), status)
  {
    hide Consistent, DeviceK, Only, Line, Number, Reporting, Asl.Valid, PcbTable.Sound, Arena.Valid;
    ReportedBy(d, status);
    OnlyPending(Number(d));
    var dev, pending := Number(d), Only(Number(d));
    var regs := seq(8, _ => Reporting(d, status));
    assert pending[dev] && forall j | 0 <= j < dev :: !pending[j];
    assert regs[dev] == Reporting(d, status);
    nuc.HandleDevice(Line(d), pending, regs);
  }

  lemma AtHandler(k: K, e: Event)
    requires Inv(k) && Enabled(k, e)
    ensures Consistent(k) && (ByProcess(e) ==> k.current.Some?)
    ensures e.Io? || e.Device? ==> e.device < PSEUDOINDEX
    ensures e.Terminate? && e.target.Some? ==> e.target.value < |k.pcb| && e.target.value !in k.free
    ensures forall a | a in k.blocked :: k.blocked[a] != [] && k.blocked[a][0] < |k.pcb|
  {
    hide Settled, DevicesOK;
    AwayConsistent(k);
  }

  /** The handler of each event makes that event's step. */
  method Handle(nuc: Nucleus, e: Event)
    requires nuc.Valid() && Inv(nuc.Abs()) && Enabled(nuc.Abs(), e) && Reportable(e)
    modifies nuc, nuc.asl.Repr, nuc.pcbs.Repr
    ensures nuc.Valid() && nuc.Abs() == Step(old(nuc.Abs()), e)
  {
    hide Inv, Enabled, Consistent, FindDeviceIndex, CreateK, TerminateK, PasserenK, VerhogenK, SoftBlockK, YieldK,
      TrapK, DeviceK, TimeSliceK, ClockTickK;
    AtHandler(nuc.Abs(), e);
    match e
    case Create(prio, support, a0) => var _ := nuc.CreateProcess(prio, support, a0);
    case Terminate(target) => nuc.TermProcess(target);
    case P(addr) => nuc.Passeren(Usr(addr));
    case V(addr) => nuc.Verhogen(Usr(addr));
    case Io(d) =>
      SemaphoresOwned(d);
      nuc.DoIO(CommandRegister(Owner(d)));
    case WaitClock => nuc.ClockWait();
    case GiveWay => nuc.Yield();
    case Trap => nuc.PassUpOrDie();
    case Device(d, status) => Interrupt(nuc, d, status);
    case TimeSlice(a0) => nuc.HandlePLT(a0);
    case Clock => nuc.HandleIntervalClock();
  }

  /** The concrete nucleus after any legal sequence of events is in the state Runs says. */
  method Perform(nuc: Nucleus, es: seq<Event>)
    requires nuc.Valid() && Inv(nuc.Abs()) && Legal(nuc.Abs(), es) && AllReportable(es)
    modifies nuc, nuc.asl.Repr, nuc.pcbs.Repr
    ensures nuc.Valid() && nuc.Abs() == Run(old(nuc.Abs()), es)
  {
    hide Inv, Enabled, Step, Asl.Valid, PcbTable.Sound;
    ghost var k := nuc.Abs();
    for i := 0 to |es|
      invariant nuc.Valid() && Inv(nuc.Abs()) && Legal(nuc.Abs(), es[i..]) && Run(nuc.Abs(), es[i..]) == Run(k, es)
    {
      assert es[i..][0] == es[i] && es[i..][1..] == es[i + 1..];
      Handle(nuc, es[i]);
    }
  }

  /** From boot. */
  method BootAndPerform(maxproc: nat, mem: map<SemAddr, int>, es: seq<Event>) returns (nuc: Nucleus)
    requires 0 < maxproc < TWO32 && Legal(Start(maxproc, mem), es) && AllReportable(es)
    ensures nuc.Valid() && nuc.Abs() == Run(Start(maxproc, mem), es)
  {
    hide Inv, Legal, Run, Boot;
    nuc := new Nucleus(maxproc, mem);
    Perform(nuc, es);
  }
}
