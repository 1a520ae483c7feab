/** Device registers and device semaphores (phase2/functions.c, phase2/interrupts.c). */
module Devices {
  import opened Seqs
  import opened KernelState

  const START_DEVREG: nat := 0x10000054
  const SEMDEVLEN: nat := 49

  /** findDeviceIndex: -1 if the address is no device register. */
  function FindDeviceIndex(deviceAddr: Word): int {
    var bottom := Sub32(deviceAddr, START_DEVREG);
    var deviceIndex := if bottom >= 32 * 0x10 then 32 + (bottom - 32 * 0x10) / 0x8 else bottom / 0x10;
    if deviceIndex >= SEMDEVLEN then -1 else deviceIndex
  }

  /** calcDevAddr for the interrupting device number devNo of an interrupt line. */
  function CalcDevAddr(line: nat, devNo: nat): Word
    requires 3 <= line <= 7 && devNo < 8
  {
    START_DEVREG + (line - 3) * 0x80 + devNo * 0x10
  }

  /** What can have a request outstanding: a disk, flash, network or printer device, or one
      half of a terminal. */
  datatype SubDevice = Peripheral(line: nat, dev: nat) | Receiver(dev: nat) | Transmitter(dev: nat) {
    predicate Valid() {
      dev < 8 && (Peripheral? ==> 3 <= line <= 6)
    }
  }

  /** The command register a DOIO on the sub-device writes. */
  function CommandRegister(s: SubDevice): Word
    requires s.Valid()
  {
    match s
    case Peripheral(line, dev) => CalcDevAddr(line, dev) + 0x4
    case Receiver(dev) => CalcDevAddr(7, dev) + 0x4
    case Transmitter(dev) => CalcDevAddr(7, dev) + 0xC
  }

  /** The address handleDevice looks the semaphore up with. */
  function InterruptAddress(s: SubDevice): Word
    requires s.Valid()
  {
    match s
    case Peripheral(line, dev) => CalcDevAddr(line, dev)
    case Receiver(dev) => CalcDevAddr(7, dev)
    case Transmitter(dev) => CalcDevAddr(7, dev) + 0x8
  }

  /** The sub-device a semaphore index stands for. */
  function Owner(index: nat): SubDevice {
    if index < 32 then Peripheral(index / 8 + 3, index % 8)
    else if index % 2 == 0 then Receiver((index - 32) / 2)
    else Transmitter((index - 32) / 2)
  }

  function Index(s: SubDevice): nat
    requires s.Valid()
  {
    match s
    case Peripheral(line, dev) => (line - 3) * 8 + dev
    case Receiver(dev) => 32 + 2 * dev
    case Transmitter(dev) => 32 + 2 * dev + 1
  }

  lemma FoundAt(bottom: nat)
    requires bottom < 0x280
    ensures FindDeviceIndex(START_DEVREG + bottom) == if bottom >= 0x200 then 32 + (bottom - 0x200) / 8 else bottom / 16
  {
    assert Sub32(START_DEVREG + bottom, START_DEVREG) == bottom;
  }

  /** q is a / d. */
  lemma Quotient(a: nat, d: nat, q: nat)
    requires d == 8 || d == 16
    requires q * d <= a < q * d + d
    ensures a / d == q
  {
  }

  /** A request and its completion use the same semaphore, one below the pseudo-clock's. */
  lemma SameSemaphore(s: SubDevice)
    requires s.Valid()
    ensures FindDeviceIndex(CommandRegister(s)) == FindDeviceIndex(InterruptAddress(s)) == Index(s) < PSEUDOINDEX
  {
    var c, i := CommandRegister(s) - START_DEVREG, InterruptAddress(s) - START_DEVREG;
    FoundAt(c);
    FoundAt(i);
    match s
    case Peripheral(line, dev) =>
      Quotient(c, 16, Index(s));
      Quotient(i, 16, Index(s));
    case Receiver(dev) =>
      Quotient(c - 0x200, 8, 2 * dev);
      Quotient(i - 0x200, 8, 2 * dev);
    case Transmitter(dev) =>
      Quotient(c - 0x200, 8, 2 * dev + 1);
      Quotient(i - 0x200, 8, 2 * dev + 1);
  }

  /** The command registers in plain numbers: line 3 to 6 has eight devices, line 7 eight
      terminals of two halves, the receiver's semaphore before the transmitter's. */
  lemma CommandAddresses(line: nat, dev: nat)
    requires 3 <= line <= 7 && dev < 8
    ensures line < 7 ==> FindDeviceIndex(0x10000054 + (line - 3) * 0x80 + dev * 0x10 + 0x4) == (line - 3) * 8 + dev
    ensures FindDeviceIndex(0x10000254 + dev * 0x10 + 0x4) == 32 + 2 * dev
    ensures FindDeviceIndex(0x10000254 + dev * 0x10 + 0xC) == 33 + 2 * dev
  {
    hide FindDeviceIndex;
    if line < 7 { SameSemaphore(Peripheral(line, dev)); }
    SameSemaphore(Receiver(dev));
    SameSemaphore(Transmitter(dev));
  }

  /** Different sub-devices have different semaphores: the index determines its owner. */
  lemma SemaphoreOwner(s: SubDevice)
    requires s.Valid()
    ensures Owner(FindDeviceIndex(CommandRegister(s))) == s
  {
    SameSemaphore(s);
    match s
    case Peripheral(line, dev) => Quotient(Index(s), 8, line - 3);
    case Receiver(dev) =>
    case Transmitter(dev) =>
  }

  /** Every semaphore below the pseudo-clock's belongs to a sub-device. */
  lemma SemaphoresOwned(index: nat)
    requires index < PSEUDOINDEX
    ensures Owner(index).Valid() && FindDeviceIndex(CommandRegister(Owner(index))) == index
  {
    assert Owner(index).Valid();
    SameSemaphore(Owner(index));
  }

  /** Exactly which addresses findDeviceIndex accepts; the last eight of them, past every
      device register, are given the pseudo-clock's index. */
  lemma Accepted(addr: Word)
    ensures -1 <= FindDeviceIndex(addr) < SEMDEVLEN
    ensures FindDeviceIndex(addr) != -1 <==> START_DEVREG <= addr < START_DEVREG + 0x288
    ensures FindDeviceIndex(addr) == PSEUDOINDEX <==> START_DEVREG + 0x280 <= addr < START_DEVREG + 0x288
  {
    if addr < START_DEVREG {
      assert Sub32(addr, START_DEVREG) == addr - START_DEVREG + TWO32;
    } else {
      assert Sub32(addr, START_DEVREG) == addr - START_DEVREG;
    }
  }

  // ---------------------------------------------------------------- which sub-device interrupts

  const DONE: nat := 5

  /** The status registers of a device: for a terminal, of its receiver and its transmitter. */
  datatype Registers = Registers(status: Word, transmStatus: Word) {
    predicate Transmitted() {
      transmStatus % 256 == DONE
    }

    predicate Received() {
      status % 256 == DONE
    }
  }

  /** calcDevNo on an interrupt line's bitmap; the kernel panics on an empty one. */
  function CalcDevNo(pending: seq<bool>): Option<nat>
    requires |pending| == 8
  {
    if pending[0] then Some(0)
    else if pending[1] then Some(1)
    else if pending[2] then Some(2)
    else if pending[3] then Some(3)
    else if pending[4] then Some(4)
    else if pending[5] then Some(5)
    else if pending[6] then Some(6)
    else if pending[7] then Some(7)
    else None
  }

  /** The lowest pending device is served, and one is whenever any is pending. */
  lemma LowestPending(pending: seq<bool>)
    requires |pending| == 8
    ensures CalcDevNo(pending) == None <==> forall d | 0 <= d < 8 :: !pending[d]
    ensures CalcDevNo(pending).Some? ==>
              var d := CalcDevNo(pending).value; d < 8 && pending[d] && forall j | 0 <= j < d :: !pending[j]
  {
  }
}
