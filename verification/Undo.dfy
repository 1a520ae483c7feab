/** System calls that undo each other. */
module Undo {
  import opened Seqs
  import opened KernelState
  import opened Forest
  import opened Killing
  import opened KernelSteps
  import opened Stability
  import opened Runs

  /** r is k but for the contents of PCB x and the next pid. */
  ghost predicate SameBut(k: K, r: K, x: nat) {
    && r == k.(pcb := r.pcb, nextPid := r.nextPid)
    && |r.pcb| == |k.pcb| && forall y | 0 <= y < |k.pcb| && y != x :: r.pcb[y] == k.pcb[y]
  }

  lemma OneGone<T(!new)>(x: T)
    ensures Minus([x], {x}) == []
  {
  }

  /** Taking out what was just spliced in. */
  lemma InsertMinus<T(!new)>(q: seq<T>, i: nat, x: T)
    requires i <= |q| && x !in q
    ensures Minus(InsertAt(q, i, x), {x}) == q
  {
    hide Minus;
    MinusAppend(q[..i] + [x], q[i..], {x});
    MinusAppend(q[..i], [x], {x});
    MinusNothing(q[..i], {x});
    MinusNothing(q[i..], {x});
    OneGone(x);
    assert q[..i] + q[i..] == q;
  }

  lemma ChildlessSubtree(k: K, x: nat)
    requires ForestOK(k) && x < |k.pcb| && k.kids[x] == []
    ensures PostOrder(k, x) == [x]
  {
  }

  /** What CREATEPROCESS leaves, field by field. */
  lemma Created(k: K, prio: int, support: nat, a0: int)
    requires Inv(k) && k.mode == Running && k.current.Some? && k.free != []
    ensures var x, c, r := k.free[0], k.current.value, Next(k, Create(prio, support, a0));
            && x < |k.pcb| == |r.pcb| == |k.kids| && c < |k.pcb| && c != x && c !in k.free
            && x !in k.ready && k.kids[x] == [] && x !in k.kids[c]
            && (forall q | 0 <= q < |k.kids| :: x !in k.kids[q])
            && (forall a | a in k.blocked :: x !in k.blocked[a] && k.blocked[a] != [])
            && r.pcb == k.pcb[x := Pcb(k.current, None, prio, k.nextPid, support, a0)]
            && r.kids == k.kids[c := [x] + k.kids[c]]
            && r.ready == InsertAt(k.ready, Slot(k.ready, r.pcb, x), x)
            && r == k.(free := k.free[1..], ready := r.ready, kids := r.kids,
                       pcb := r.pcb, processCount := Add32(k.processCount, 1), nextPid := k.nextPid + 1)
            && x !in r.free
  {
    hide ParentsOK, BirthsOK, Counted, Slot, DevicesOK;
    AwayConsistent(k);
    AllocatedFacts(k);
    FreeHead(k);
    assert k.current.value in Current(k);
    forall a | a in k.blocked ensures k.free[0] !in k.blocked[a] {
      assert k.pcb[k.free[0]].semAdd == None;
    }
  }

  /** Killing a live PCB without children, in the state CREATEPROCESS leaves. */
  lemma CreatedKilled(k: K, c: K, x: nat, q: nat, i: nat)
    requires ForestOK(c) && x < |c.pcb| && c.kids[x] == []
    requires |k.pcb| == |c.pcb| == |k.kids| && q < |k.kids| && q != x && k.kids[x] == []
    requires (forall y | 0 <= y < |k.pcb| && y != x :: c.pcb[y] == k.pcb[y]) && c.pcb[x].semAdd == None
    requires (forall p | 0 <= p < |k.kids| :: x !in k.kids[p]) && c.kids == k.kids[q := [x] + k.kids[q]]
    requires k.free == [x] + c.free && c.blocked == k.blocked
    requires x !in k.ready && i <= |k.ready| && c.ready == InsertAt(k.ready, i, x)
    requires forall a | a in k.blocked :: x !in k.blocked[a] && k.blocked[a] != []
    ensures var r := Kill(c, x);
            && r.free == k.free && r.ready == k.ready && r.blocked == k.blocked && r.kids == k.kids
            && |r.pcb| == |k.pcb| && (forall y | 0 <= y < |k.pcb| && y != x :: r.pcb[y] == k.pcb[y])
            && r == c.(free := r.free, ready := r.ready, blocked := r.blocked, kids := r.kids, pcb := r.pcb,
                       processCount := Sub32(c.processCount, 1))
  {
    hide ChildrenOK, ParentsOK, BirthsOK, KidsWithout, Cleared, InsertAt, Minus, PostOrder, Unblock, Sub32;
    ChildlessSubtree(c, x);
    assert Elems([x]) == {x} && Reverse([x]) == [x];
    assert ClockWaiters(c.pcb, {x}) == {};
    SubNothing(c.softBlockCount);
    UnblockNothing(k.blocked, {x});
    InsertMinus(k.ready, i, x);
    forall p | 0 <= p < |k.kids| ensures KidsWithout(c.kids, {x})[p] == k.kids[p] {
      MinusNothing(k.kids[p], {x});
      MinusAppend([x], k.kids[p], {x});
      OneGone(x);
    }
    assert KidsWithout(c.kids, {x}) == k.kids;
  }

  lemma SubNothing(x: Word)
    ensures Sub32(x, 0) == x && Sub32(Add32(x, 1), 1) == x
  {
  }

  /** A process just created and killed again leaves the kernel as it was: every list in the
      same order, every counter, and every other PCB. */
  lemma CreateUndone(k: K, prio: int, support: nat, a0: int)
    requires Inv(k) && k.mode == Running && k.current.Some? && k.free != []
    ensures var x, c := k.free[0], Next(k, Create(prio, support, a0));
            && Inv(c) && Enabled(c, Terminate(Some(x)))
            && SameBut(k, Next(c, Terminate(Some(x))), x)
  {
    hide WellFormed, FreeClean, Homed, Counted, DevicesOK, CreateK, Descends, Slot, PostOrder, Kill, Sub32, Add32;
    CreateInv(k, prio, support, a0);
    Created(k, prio, support, a0);
    var x, c := k.free[0], Next(k, Create(prio, support, a0));
    AwayConsistent(c);
    ConsistentForest(c);
    ChildlessSubtree(c, x);
    PostOrderExact(c, x);
    CreatedKilled(k, c, x, k.current.value, Slot(k.ready, c.pcb, x));
    SubNothing(k.processCount);
  }

  /** V after a P that went through restores the kernel exactly, if nobody waits. */
  lemma PasserenUndone(k: K, addr: nat)
    requires Inv(k) && k.mode == Running && k.current.Some? && Val(k.sem, Usr(addr)) > 0 && Usr(addr) !in k.blocked
    ensures var p := Next(k, P(addr)); Inv(p) && Enabled(p, V(addr)) && Next(p, V(addr)) == k
  {
    hide Stable;
    AwayConsistent(k);
    PasserenInv(k, addr);
    var a := Usr(addr);
    assert k.sem[a := Val(k.sem, a) - 1][a := Val(k.sem, a)] == k.sem;
  }
}
