/** The kernel state as a value, and what the kernel's operations do to it.

    A PCB is named by its index in pcbFree_table.  The methods of the classes PcbTable,
    Asl and Nucleus are proved against the functions of this module. */
module KernelState {
  import opened Seqs

  /** Address of a semaphore: an entry of deviceSemaphore, or any other word of memory.
      NULL is None where an address is optional. */
  datatype SemAddr = Dev(index: nat) | Usr(addr: nat)

  const PSEUDOINDEX: nat := 48
  const CLOCK: SemAddr := Dev(PSEUDOINDEX)

  const TWO32: nat := 0x1_0000_0000

  /** unsigned int and its arithmetic. */
  type Word = x: nat | x < TWO32

  function Add32(x: Word, y: nat): Word {
    (x + y) % TWO32
  }

  function Sub32(x: Word, y: nat): Word {
    (x - y) % TWO32
  }

  /** support is 0 for a NULL p_supportStruct; a0 is the saved register reg_a0. */
  datatype Pcb = Pcb(parent: Option<nat>, semAdd: Option<SemAddr>, prio: int, pid: nat, support: nat, a0: int)

  const ZEROPCB := Pcb(None, None, 0, 0, 0, 0)

  /** What the processor does after the handler: run currentProcess, WAIT, HALT or PANIC. */
  datatype Mode = Running | Waiting | Halted | Panicked

  datatype K = K(
    free: seq<nat>,
    ready: seq<nat>,
    blocked: map<SemAddr, seq<nat>>,
    kids: seq<seq<nat>>,
    pcb: seq<Pcb>,
    current: Option<nat>,
    mode: Mode,
    processCount: Word,
    softBlockCount: Word,
    sem: map<SemAddr, int>,
    nextPid: nat)

  /** The word at a semaphore's address; untouched memory holds 0. */
  function Val(sem: map<SemAddr, int>, a: SemAddr): int {
    if a in sem then sem[a] else 0
  }

  /** The PCBs waiting at a, longest waiting first. */
  function Queue(blocked: map<SemAddr, seq<nat>>, a: SemAddr): seq<nat> {
    if a in blocked then blocked[a] else []
  }

  // ---------------------------------------------------------------- process queues

  function Prio(pcb: seq<Pcb>, x: nat): int {
    if x < |pcb| then pcb[x].prio else 0
  }

  /** Where insertProcQ puts x: before the first PCB of lower priority. */
  function Slot(q: seq<nat>, pcb: seq<Pcb>, x: nat): (i: nat)
    ensures i <= |q|
    ensures forall j | 0 <= j < i :: Prio(pcb, q[j]) >= Prio(pcb, x)
    ensures i < |q| ==> Prio(pcb, q[i]) < Prio(pcb, x)
  {
    if q == [] || Prio(pcb, q[0]) < Prio(pcb, x) then 0 else 1 + Slot(q[1..], pcb, x)
  }

  function Enqueue(q: seq<nat>, pcb: seq<Pcb>, x: nat): seq<nat> {
    InsertAt(q, Slot(q, pcb, x), x)
  }

  /** The contract of Slot determines it. */
  lemma SlotUnique(q: seq<nat>, pcb: seq<Pcb>, x: nat, i: nat)
    requires i <= |q| && forall j | 0 <= j < i :: Prio(pcb, q[j]) >= Prio(pcb, x)
    requires i < |q| ==> Prio(pcb, q[i]) < Prio(pcb, x)
    ensures i == Slot(q, pcb, x)
  {
  }

  // ---------------------------------------------------------------- blocked processes

  /** p joins the tail of the queue keyed a. */
  function Block(blocked: map<SemAddr, seq<nat>>, a: SemAddr, p: nat): map<SemAddr, seq<nat>> {
    blocked[a := Queue(blocked, a) + [p]]
  }

  /** The waiting queues without the PCBs in gone; a queue left empty is not active any more. */
  ghost function Unblock(blocked: map<SemAddr, seq<nat>>, gone: set<nat>): map<SemAddr, seq<nat>> {
    map a | a in blocked && Minus(blocked[a], gone) != [] :: Minus(blocked[a], gone)
  }

  lemma UnblockTwice(blocked: map<SemAddr, seq<nat>>, g: set<nat>, h: set<nat>)
    ensures Unblock(Unblock(blocked, g), h) == Unblock(blocked, g + h)
  {
    forall a | a in blocked ensures Minus(Minus(blocked[a], g), h) == Minus(blocked[a], g + h) {
      MinusTwice(blocked[a], g, h);
    }
  }

  /** Nobody in gone is waiting. */
  lemma UnblockNothing(blocked: map<SemAddr, seq<nat>>, g: set<nat>)
    requires forall a, x | a in blocked && x in blocked[a] :: x !in g
    requires forall a | a in blocked :: blocked[a] != []
    ensures Unblock(blocked, g) == blocked
  {
    forall a | a in blocked ensures Minus(blocked[a], g) == blocked[a] {
      MinusNothing(blocked[a], g);
    }
  }

  // ---------------------------------------------------------------- well-formed queues

  /** Each PCB is in at most one of the free list, the ready queue and the semaphore queues;
      p_semAdd names exactly the queue it waits in. */
  ghost predicate QueuesOK(k: K) {
    && NoDup(k.free) && NoDup(k.ready)
    && (forall j | 0 <= j < |k.free| :: k.free[j] < |k.pcb| && k.free[j] !in k.ready && k.pcb[k.free[j]].semAdd == None)
    && (forall j | 0 <= j < |k.ready| :: k.ready[j] < |k.pcb| && k.pcb[k.ready[j]].semAdd == None)
    && WaitersOK(k.blocked, k.pcb)
  }

  ghost predicate WaitersOK(blocked: map<SemAddr, seq<nat>>, pcb: seq<Pcb>) {
    && (forall a | a in blocked :: blocked[a] != [] && NoDup(blocked[a]))
    && (forall a, j | a in blocked && 0 <= j < |blocked[a]| ::
          blocked[a][j] < |pcb| && pcb[blocked[a][j]].semAdd == Some(a))
    && (forall x {:trigger pcb[x].semAdd} | 0 <= x < |pcb| && pcb[x].semAdd.Some? ::
          pcb[x].semAdd.value in blocked && x in blocked[pcb[x].semAdd.value])
  }

  /** Taking x out of the only queue it is in. */
  lemma UnblockOne(w: map<SemAddr, seq<nat>>, pcb: seq<Pcb>, a: SemAddr, x: nat)
    requires WaitersOK(w, pcb) && a in w && x in w[a]
    ensures Unblock(w, {x}) == if Minus(w[a], {x}) == [] then w - {a} else w[a := Minus(w[a], {x})]
  {
    forall b | b in w && b != a ensures Minus(w[b], {x}) == w[b] {
      MinusNothing(w[b], {x});
    }
  }

  lemma UnblockedWaiters(w: map<SemAddr, seq<nat>>, pcb: seq<Pcb>, a: SemAddr, x: nat)
    requires WaitersOK(w, pcb) && a in w && x in w[a] && x < |pcb|
    ensures WaitersOK(Unblock(w, {x}), pcb[x := pcb[x].(semAdd := None)])
  {
    var w', pcb' := Unblock(w, {x}), pcb[x := pcb[x].(semAdd := None)];
    forall b | b in w' ensures NoDup(w'[b]) {
      MinusNoDup(w[b], {x});
    }
    forall b, j | b in w' && 0 <= j < |w'[b]| ensures w'[b][j] < |pcb'| && pcb'[w'[b][j]].semAdd == Some(b) {
      assert w'[b][j] in Minus(w[b], {x});
    }
    forall y {:trigger pcb'[y].semAdd} | 0 <= y < |pcb'| && pcb'[y].semAdd.Some?
      ensures pcb'[y].semAdd.value in w' && y in w'[pcb'[y].semAdd.value]
    {
      assert y in Minus(w[pcb[y].semAdd.value], {x});
    }
  }

  lemma BlockedWaiters(w: map<SemAddr, seq<nat>>, pcb: seq<Pcb>, a: SemAddr, p: nat)
    requires WaitersOK(w, pcb) && p < |pcb| && pcb[p].semAdd == None
    ensures WaitersOK(Block(w, a, p), pcb[p := pcb[p].(semAdd := Some(a))])
  {
    var w', pcb' := Block(w, a, p), pcb[p := pcb[p].(semAdd := Some(a))];
    forall b, j | b in w' && 0 <= j < |w'[b]| ensures w'[b][j] < |pcb'| && pcb'[w'[b][j]].semAdd == Some(b) {
      if b != a || j < |Queue(w, a)| {
        assert w'[b][j] == w[b][j];
      }
    }
    assert w'[a][|Queue(w, a)|] == p;
    forall y {:trigger pcb'[y].semAdd} | 0 <= y < |pcb'| && pcb'[y].semAdd.Some?
      ensures pcb'[y].semAdd.value in w' && y in w'[pcb'[y].semAdd.value]
    {
      if y != p && pcb[y].semAdd.value == a {
        var j :| 0 <= j < |w[a]| && w[a][j] == y;
        assert w'[a][j] == y;
      }
    }
  }

  // ---------------------------------------------------------------- the process forest

  /** p_parent and the child lists mirror each other, every PCB is younger than its parent. */
  ghost predicate ForestOK(k: K) {
    |k.kids| == |k.pcb| && ChildrenOK(k.kids, k.pcb) && ParentsOK(k.kids, k.pcb) && BirthsOK(k.pcb, k.nextPid)
  }

  /** A child list holds each child once; the children name its owner as parent and are younger. */
  ghost predicate ChildrenOK(kids: seq<seq<nat>>, pcb: seq<Pcb>)
    requires |kids| == |pcb|
  {
    && (forall q | 0 <= q < |kids| :: NoDup(kids[q]))
    && (forall q, j | 0 <= q < |kids| && 0 <= j < |kids[q]| ::
          kids[q][j] < |pcb| && pcb[kids[q][j]].parent == Some(q) && pcb[q].pid < pcb[kids[q][j]].pid)
  }

  /** A PCB is in the child list of the parent it names. */
  ghost predicate ParentsOK(kids: seq<seq<nat>>, pcb: seq<Pcb>) {
    forall c {:trigger pcb[c].parent} | 0 <= c < |pcb| && pcb[c].parent.Some? ::
      pcb[c].parent.value < |kids| && c in kids[pcb[c].parent.value]
  }

  ghost predicate BirthsOK(pcb: seq<Pcb>, nextPid: nat) {
    forall c {:trigger pcb[c].pid} | 0 <= c < |pcb| :: pcb[c].pid < nextPid
  }

  /** The subtree of p with children before parents: the order in which killProcess frees it. */
  ghost function PostOrder(k: K, p: nat): (r: seq<nat>)
    requires ForestOK(k) && p < |k.pcb|
    ensures forall j | 0 <= j < |r| :: r[j] < |k.pcb|
    decreases k.nextPid - k.pcb[p].pid, 1, 0
  {
    PostOrders(k, k.kids[p], k.pcb[p].pid) + [p]
  }

  /** The same for the trees of cs, one after the other; all of cs are younger than pid. */
  ghost function PostOrders(k: K, cs: seq<nat>, pid: nat): (r: seq<nat>)
    requires ForestOK(k) && forall j | 0 <= j < |cs| :: cs[j] < |k.pcb| && k.pcb[cs[j]].pid > pid
    requires pid < k.nextPid
    ensures forall j | 0 <= j < |r| :: r[j] < |k.pcb|
    decreases k.nextPid - pid, 0, |cs|
  {
    if cs == [] then [] else PostOrder(k, cs[0]) + PostOrders(k, cs[1..], pid)
  }

  /** p is x or a (transitive) parent of x. */
  ghost predicate Descends(k: K, p: nat, x: nat)
    requires ForestOK(k) && x < |k.pcb|
    decreases k.pcb[x].pid
  {
    x == p || (k.pcb[x].parent.Some? && Descends(k, p, k.pcb[x].parent.value))
  }

  // ---------------------------------------------------------------- killing

  ghost function ClockWaiters(pcb: seq<Pcb>, s: set<nat>): set<nat>
  {
    set x | x in s && x < |pcb| && pcb[x].semAdd == Some(CLOCK)
  }

  /** The child lists without gone, whose own lists are emptied. */
  ghost function KidsWithout(kids: seq<seq<nat>>, gone: set<nat>): (r: seq<seq<nat>>)
    ensures |r| == |kids|
    ensures forall q | 0 <= q < |kids| :: r[q] == if q in gone then [] else Minus(kids[q], gone)
  {
    seq(|kids|, q requires 0 <= q < |kids| => if q in gone then [] else Minus(kids[q], gone))
  }

  /** A killed PCB has no parent and waits nowhere. */
  ghost function Cleared(pcb: seq<Pcb>, gone: set<nat>): (r: seq<Pcb>)
    ensures |r| == |pcb|
    ensures forall x | 0 <= x < |pcb| ::
              r[x] == if x in gone then pcb[x].(parent := None, semAdd := None) else pcb[x]
  {
    seq(|pcb|, x requires 0 <= x < |pcb| => if x in gone then pcb[x].(parent := None, semAdd := None) else pcb[x])
  }

  /** The state after the PCBs of s have been taken out everywhere and freed in the order of s. */
  ghost function Without(k: K, s: seq<nat>): K
  {
    var gone := Elems(s);
    k.(free := Reverse(s) + k.free,
       ready := Minus(k.ready, gone),
       blocked := Unblock(k.blocked, gone),
       kids := KidsWithout(k.kids, gone),
       pcb := Cleared(k.pcb, gone),
       processCount := Sub32(k.processCount, |s|),
       softBlockCount := Sub32(k.softBlockCount, |ClockWaiters(k.pcb, gone)|))
  }

  /** killProcess(p). */
  ghost function Kill(k: K, p: nat): K
    requires ForestOK(k) && p < |k.pcb|
  {
    Without(k, PostOrder(k, p))
  }
}
