/** PCB allocation, process queues and process trees (phase1/pcb.c). */
module Pcbs {
  import opened Seqs
  import opened Listx
  import opened KernelState

  const FREE: nat := 0   // pcbFree_h
  const READY: nat := 1  // readyQueue
  const PROCQ: nat := 2  // PROCQ + s is s_procq of descriptor s

  class PcbTable {
    const n: nat            // MAXPROC
    const plinks: Arena     // p_list cells, with the heads above
    const tlinks: Arena     // p_sib cells; head x is p_child of PCB x
    const pcb: array<Pcb>   // pcbFree_table
    var nextPid: nat        // next_pid

    ghost const Repr: set<object>

    ghost predicate Valid()
      reads this, Repr
    {
      Layout() && Sound()
    }

    /** The objects the table is made of. */
    ghost predicate Layout()
      reads this, Repr
    {
      && Repr == {this, plinks, plinks.next, plinks.prev, tlinks, tlinks.next, tlinks.prev, pcb}
      && plinks != tlinks
      && plinks.next != tlinks.next && plinks.next != tlinks.prev
      && plinks.prev != tlinks.next && plinks.prev != tlinks.prev
      && plinks.n == n && plinks.m == n + PROCQ == |plinks.lists|
      && tlinks.n == n && tlinks.m == n == |tlinks.lists|
      && pcb.Length == n
    }

    /** Both link families are well-formed; every allocated PCB has its child list initialised. */
    ghost predicate Sound()
      reads plinks, plinks.next, plinks.prev, tlinks, tlinks.next, tlinks.prev
    {
      && plinks.Valid() && plinks.m == n + PROCQ && FREE in plinks.live
      && tlinks.Valid()
      && (forall x | 0 <= x < n && x !in plinks.lists[FREE] :: x in tlinks.live)
    }

    lemma HasChildList(x: nat)
      requires Valid() && x < n && x !in plinks.lists[FREE]
      ensures x in tlinks.live
    {
    }

    lemma ChildListsDistinct(x: nat)
      requires Valid() && x < n
      ensures NoDup(tlinks.lists[x])
    {
    }

    /** Static memory followed by initPcbs. */
    constructor (maxproc: nat)
      ensures Valid() && n == maxproc && fresh(Repr)
      ensures plinks.lists == Repeat([], n + PROCQ)[FREE := Descending(n)] && plinks.live == {FREE}
      ensures tlinks.lists == Repeat([], n)
      ensures pcb[..] == Repeat(ZEROPCB, n) && nextPid == 1
    {
      hide Arena.Valid, Descending;
      DescendingStep(0);
      n := maxproc;
      var pl := new Arena(maxproc, maxproc + PROCQ);
      var tl := new Arena(maxproc, maxproc);
      var table := new Pcb[maxproc](_ => ZEROPCB);
      pl.InitListHead(FREE);
      for c := 0 to maxproc
        invariant pl.Valid() && fresh(pl) && fresh(pl.next) && fresh(pl.prev) && pl.n == maxproc &&
            pl.m == maxproc + PROCQ
        invariant tl.Valid() && fresh(tl) && fresh(tl.next) && fresh(tl.prev)
        invariant tl.lists == Repeat([], maxproc)
        invariant pl.lists == Repeat([], maxproc + PROCQ)[FREE := Descending(c)] && pl.live == {FREE}
        invariant table[..] == Repeat(ZEROPCB, maxproc)
      {
        DescendingStep(c);
        assert pl.Loose(c);
        pl.ListAdd(c, maxproc + FREE, FREE, 0);
      }
      plinks, tlinks, pcb := pl, tl, table;
      nextPid := 1;
      Repr := {this, pl, pl.next, pl.prev, tl, tl.next, tl.prev, table};
      new;
      DescendingAll(n);
    }

    /** freePcb. */
    method FreePcb(p: nat)
      requires Valid() && p < n && plinks.Loose(p)
      modifies plinks, plinks.next, plinks.prev
      ensures Valid()
      ensures plinks.lists == old(plinks.lists)[FREE := [p] + old(plinks.lists)[FREE]] &&
          plinks.live == old(plinks.live)
    {
      ghost var f := plinks.lists[FREE];
      assert InsertAt(f, 0, p) == [p] + f;
      plinks.ListAdd(p, n + FREE, FREE, 0);
    }

    /** allocPcb: NULL iff no PCB is free, else the head of the free list, reset. */
    method AllocPcb() returns (r: Option<nat>)
      requires Valid()
      requires plinks.lists[FREE] != [] ==> tlinks.Loose(plinks.lists[FREE][0])
      modifies Repr
      ensures Valid()
      ensures old(plinks.lists)[FREE] == [] ==>
                r == None && plinks.lists == old(plinks.lists) && tlinks.lists == old(tlinks.lists) &&
                pcb[..] == old(pcb[..]) && nextPid == old(nextPid)
      ensures old(plinks.lists)[FREE] != [] ==>
                var p := old(plinks.lists)[FREE][0];
                && p < n && r == Some(p) && plinks.Loose(p)
                && plinks.lists == old(plinks.lists)[FREE := old(plinks.lists)[FREE][1..]]
                && tlinks.lists == old(tlinks.lists)[p := []]
                && pcb[..] == old(pcb[..])[p := Pcb(None, None, 0, old(nextPid), 0, 0)]
                && nextPid == old(nextPid) + 1
      ensures plinks.live == old(plinks.live)
    {
      var empty := plinks.ListEmpty(FREE);
      if empty {
        return None;
      }
      ghost var f := plinks.lists[FREE];
      plinks.Hop(FREE, 0);
      assert f[0] in f;
      var entry := plinks.next[n + FREE];
      assert RemoveAt(f, 0) == f[1..];
      plinks.ListDel(entry, FREE, 0);
      tlinks.InitListHead(entry);
      assert tlinks.Loose(entry);
      tlinks.InitCell(entry);
      pcb[entry] := Pcb(None, None, 0, nextPid, 0, 0);
      nextPid := nextPid + 1;
      r := Some(entry);
      forall x | 0 <= x < n && x !in plinks.lists[FREE] ensures x in tlinks.live {
        assert x in f ==> x == f[0];
      }
    }

    /** mkEmptyProcQ. */
    method MkEmptyProcQ(h: nat)
      requires Valid() && h < n + PROCQ && h != FREE
      modifies plinks, plinks.next, plinks.prev
      ensures Valid()
      ensures plinks.lists == old(plinks.lists)[h := []] && plinks.live == old(plinks.live) + {h}
    {
      plinks.InitListHead(h);
    }

    /** emptyProcQ. */
    method EmptyProcQ(h: nat) returns (empty: bool)
      requires Valid() && h in plinks.live && h < n + PROCQ
      ensures empty <==> plinks.lists[h] == []
    {
      empty := plinks.ListEmpty(h);
    }

    /** insertProcQ: p goes before the first PCB of lower priority, else to the tail. */
    method InsertProcQ(h: nat, p: nat)
      requires Valid() && h in plinks.live && h < n + PROCQ && h != FREE && p < n && plinks.Loose(p)
      modifies plinks, plinks.next, plinks.prev
      ensures Valid()
      ensures plinks.lists == old(plinks.lists)[h := Enqueue(old(plinks.lists)[h], pcb[..], p)]
      ensures plinks.live == old(plinks.live)
    {
      hide Arena.Valid, Slot;
      ghost var q, t := plinks.lists[h], pcb[..];
      plinks.Apart(h);
      plinks.Hop(h, 0);
      var iter := plinks.next[n + h];
      ghost var j := 0;
      while iter != n + h
        invariant unchanged(plinks, plinks.next, plinks.prev) && Valid()
        invariant j <= |q| && iter == Cell(n + h, q, j) && (j < |q| ==> q[j] in q)
        invariant forall i | 0 <= i < j :: Prio(t, q[i]) >= Prio(t, p)
        decreases |q| - j
      {
        if pcb[iter].prio < pcb[p].prio {
          SlotUnique(q, t, p, j);
          plinks.Hop(h, j);
          plinks.ListAdd(p, plinks.prev[iter], h, j);
          return;
        }
        plinks.Hop(h, j + 1);
        iter := plinks.next[iter];
        j := j + 1;
      }
      SlotUnique(q, t, p, j);
      assert InsertAt(q, j, p) == q + [p];
      plinks.ListAddTail(p, h);
    }

    /** list_add_tail(&p->p_list, head), as insertBlocked does. */
    method AppendProcQ(h: nat, p: nat)
      requires Valid() && h in plinks.live && h < n + PROCQ && h != FREE && p < n && plinks.Loose(p)
      modifies plinks, plinks.next, plinks.prev
      ensures Valid() && plinks.live == old(plinks.live)
      ensures plinks.lists == old(plinks.lists)[h := old(plinks.lists)[h] + [p]]
    {
      plinks.ListAddTail(p, h);
    }

    /** INIT_LIST_HEAD and list_add_tail on a queue that is not in use. */
    method StartProcQ(h: nat, p: nat)
      requires Valid() && PROCQ <= h < n + PROCQ && plinks.lists[h] == [] && p < n && plinks.Loose(p)
      modifies plinks, plinks.next, plinks.prev
      ensures Valid() && plinks.live == old(plinks.live) + {h}
      ensures plinks.lists == old(plinks.lists)[h := [p]]
    {
      plinks.InitListHead(h);
      plinks.ListAddTail(p, h);
      assert [] + [p] == [p];
    }

    /** headProcQ. */
    method HeadProcQ(h: nat) returns (r: Option<nat>)
      requires Valid() && h in plinks.live && h < n + PROCQ
      ensures r == if plinks.lists[h] == [] then None else Some(plinks.lists[h][0])
    {
      var empty := plinks.ListEmpty(h);
      if empty {
        return None;
      }
      plinks.Hop(h, 0);
      r := Some(plinks.next[n + h]);
    }

    /** removeProcQ. */
    method RemoveProcQ(h: nat) returns (r: Option<nat>)
      requires Valid() && h in plinks.live && h < n + PROCQ && h != FREE
      modifies plinks, plinks.next, plinks.prev
      ensures Valid() && plinks.live == old(plinks.live)
      ensures old(plinks.lists)[h] == [] ==> r == None && plinks.lists == old(plinks.lists)
      ensures old(plinks.lists)[h] != [] ==>
                && r == Some(old(plinks.lists)[h][0]) && plinks.Loose(r.value)
                && plinks.lists == old(plinks.lists)[h := old(plinks.lists)[h][1..]]
    {
      var empty := plinks.ListEmpty(h);
      if empty {
        return None;
      }
      plinks.Hop(h, 0);
      var entry := plinks.next[n + h];
      assert RemoveAt(plinks.lists[h], 0) == plinks.lists[h][1..];
      plinks.ListDel(entry, h, 0);
      r := Some(entry);
    }

    /** outProcQ: p is taken out wherever it is in the queue; NULL if it is not there. */
    method OutProcQ(h: nat, p: nat) returns (r: Option<nat>)
      requires Valid() && h in plinks.live && h < n + PROCQ && h != FREE && p < n
      modifies plinks, plinks.next, plinks.prev
      ensures Valid() && plinks.live == old(plinks.live)
      ensures plinks.lists == old(plinks.lists)[h := Minus(old(plinks.lists)[h], {p})]
      ensures r == if p in old(plinks.lists)[h] then Some(p) else None
      ensures r.Some? ==> plinks.Loose(p)
    {
      ghost var q := plinks.lists[h];
      plinks.Hop(h, 0);
      var iter := plinks.next[n + h];
      ghost var j := 0;
      while iter != n + h
        invariant unchanged(plinks, plinks.next, plinks.prev) && Valid()
        invariant j <= |q| && iter == Cell(n + h, q, j)
        invariant forall i | 0 <= i < j :: q[i] != p
        decreases |q| - j
      {
        assert q[j] in q;
        if iter == p {
          MinusOne(q, j);
          plinks.ListDel(iter, h, j);
          return Some(p);
        }
        plinks.Hop(h, j + 1);
        iter := plinks.next[iter];
        j := j + 1;
      }
      assert forall i | 0 <= i < |q| :: q[i] in q;
      MinusNothing(q, {p});
      assert plinks.lists == plinks.lists[h := q];
      r := None;
    }

    /** emptyChild. */
    method EmptyChild(p: Option<nat>) returns (empty: bool)
      requires Valid() && (p.Some? ==> p.value in tlinks.live)
      ensures empty <==> p == None || tlinks.lists[p.value] == []
    {
      if p == None {
        return true;
      }
      tlinks.Hop(p.value, 0);
      empty := tlinks.next[n + p.value] == n + p.value;
      assert tlinks.lists[p.value] != [] ==> tlinks.lists[p.value][0] in tlinks.lists[p.value];
    }

    /** insertChild: p becomes the first child of prnt. */
    method InsertChild(prnt: Option<nat>, p: Option<nat>)
      requires Valid() && (prnt.Some? ==> prnt.value in tlinks.live)
      requires p.Some? ==> p.value < n && tlinks.Loose(p.value)
      modifies tlinks, tlinks.next, tlinks.prev, pcb
      ensures Valid() && tlinks.live == old(tlinks.live)
      ensures prnt == None || p == None ==> tlinks.lists == old(tlinks.lists) && pcb[..] == old(pcb[..])
      ensures prnt.Some? && p.Some? ==>
                && tlinks.lists == old(tlinks.lists)[prnt.value := [p.value] + old(tlinks.lists)[prnt.value]]
                && pcb[..] == old(pcb[..])[p.value := old(pcb[p.value]).(parent := prnt)]
    {
      if prnt == None || p == None {
        return;
      }
      pcb[p.value] := pcb[p.value].(parent := prnt);
      ghost var cs := tlinks.lists[prnt.value];
      assert InsertAt(cs, 0, p.value) == [p.value] + cs;
      tlinks.ListAdd(p.value, n + prnt.value, prnt.value, 0);
    }

    /** removeChild: the first child, detached, or NULL. */
    method RemoveChild(p: Option<nat>) returns (r: Option<nat>)
      requires Valid() && (p.Some? ==> p.value in tlinks.live)
      modifies tlinks, tlinks.next, tlinks.prev, pcb
      ensures Valid() && tlinks.live == old(tlinks.live)
      ensures p == None || old(tlinks.lists)[p.value] == [] ==>
                r == None && tlinks.lists == old(tlinks.lists) && pcb[..] == old(pcb[..])
      ensures p.Some? && old(tlinks.lists)[p.value] != [] ==>
                var c := old(tlinks.lists)[p.value][0];
                && c < n && r == Some(c) && tlinks.Loose(c)
                && tlinks.lists == old(tlinks.lists)[p.value := old(tlinks.lists)[p.value][1..]]
                && pcb[..] == old(pcb[..])[c := old(pcb[c]).(parent := None)]
    {
      if p == None {
        return None;
      }
      var empty := EmptyChild(p);
      if empty {
        return None;
      }
      tlinks.Hop(p.value, 0);
      assert tlinks.lists[p.value][0] in tlinks.lists[p.value];
      var c := tlinks.next[n + p.value];
      assert RemoveAt(tlinks.lists[p.value], 0) == tlinks.lists[p.value][1..];
      tlinks.ListDel(c, p.value, 0);
      pcb[c] := pcb[c].(parent := None);
      tlinks.InitCell(c);
      r := Some(c);
    }

    /** outChild: p leaves its parent's child list; NULL if it has no parent. */
    method OutChild(p: Option<nat>) returns (r: Option<nat>)
      requires Valid() && (p.Some? ==> p.value < n)
      requires p.Some? && pcb[p.value].parent.Some? ==>
                 pcb[p.value].parent.value in tlinks.live && p.value in tlinks.lists[pcb[p.value].parent.value]
      modifies tlinks, tlinks.next, tlinks.prev, pcb
      ensures Valid() && tlinks.live == old(tlinks.live)
      ensures p == None || old(pcb[p.value]).parent == None ==>
                r == None && tlinks.lists == old(tlinks.lists) && pcb[..] == old(pcb[..])
      ensures p.Some? && old(pcb[p.value]).parent.Some? ==>
                var q := old(pcb[p.value]).parent.value;
                && r == p && tlinks.Loose(p.value)
                && tlinks.lists == old(tlinks.lists)[q := Minus(old(tlinks.lists)[q], {p.value})]
                && pcb[..] == old(pcb[..])[p.value := old(pcb[p.value]).(parent := None)]
    {
      if p == None || pcb[p.value].parent == None {
        return None;
      }
      ghost var q := pcb[p.value].parent.value;
      ghost var i :| 0 <= i < |tlinks.lists[q]| && tlinks.lists[q][i] == p.value;
      MinusOne(tlinks.lists[q], i);
      tlinks.ListDel(p.value, q, i);
      pcb[p.value] := pcb[p.value].(parent := None);
      tlinks.InitCell(p.value);
      r := p;
    }
  }
}
