/** The active semaphore list (phase1/asl.c). */
module Asls {
  import opened Seqs
  import opened Listx
  import opened KernelState
  import opened Pcbs

  const ACTIVE: nat := 0    // semd_h
  const INACTIVE: nat := 1  // semdFree_h

  /** How the descriptors stand for the map from semaphore addresses to waiting PCBs: desc
      names the one active descriptor of each address with waiters, whose s_procq is the
      queue of that address; inactive descriptors have an empty queue. */
  ghost predicate Describes(active: seq<nat>, inactive: seq<nat>, key: seq<Option<SemAddr>>, lists: seq<seq<nat>>,
                            waiting: map<SemAddr, seq<nat>>, desc: map<SemAddr, nat>)
  {
    && |active| + |inactive| == |key| == |lists| - PROCQ
    && |waiting| == |active| && desc.Keys == waiting.Keys
    && (forall a | a in waiting ::
          && desc[a] in active && desc[a] < |key| && key[desc[a]] == Some(a)
          && lists[PROCQ + desc[a]] == waiting[a])
    && (forall s | s in active :: s < |key| && key[s].Some? && key[s].value in desc && desc[key[s].value] == s)
    && (forall s | s in inactive :: s < |key| && lists[PROCQ + s] == [])
    && (forall s | 0 <= s < |key| :: s in active || s in inactive)
  }

  // ---------------------------------------------------------------- what each operation does to the description

  lemma DescribesNothing(inactive: seq<nat>, key: seq<Option<SemAddr>>, lists: seq<seq<nat>>)
    requires |inactive| == |key| == |lists| - PROCQ
    requires forall s :: s in inactive <==> 0 <= s < |key|
    requires forall h | PROCQ <= h < |lists| :: lists[h] == []
    ensures Describes([], inactive, key, lists, map[], map[])
  {
    var nobody: map<SemAddr, seq<nat>> := map[];
    assert |nobody| == 0;
  }

  lemma DescribesCount(active: seq<nat>, inactive: seq<nat>, key: seq<Option<SemAddr>>, lists: seq<seq<nat>>,
                       waiting: map<SemAddr, seq<nat>>, desc: map<SemAddr, nat>)
    requires Describes(active, inactive, key, lists, waiting, desc)
    ensures |waiting| + |inactive| == |key|
  {
  }

  /** A PCB that names no semaphore is in no descriptor's queue. */
  lemma DescribesNoOther(active: seq<nat>, inactive: seq<nat>, key: seq<Option<SemAddr>>, lists: seq<seq<nat>>,
                         waiting: map<SemAddr, seq<nat>>, desc: map<SemAddr, nat>, pcb: seq<Pcb>, p: nat, h: nat)
    requires Describes(active, inactive, key, lists, waiting, desc) && WaitersOK(waiting, pcb)
    requires p < |pcb| && pcb[p].semAdd == None && PROCQ <= h < |lists|
    ensures p !in lists[h]
  {
    hide NoDup;
    if h - PROCQ in active {
      assert waiting[key[h - PROCQ].value] == lists[h];
    }
  }

  /** The queue of an active descriptor changes but stays non-empty. */
  lemma DescribesRequeue(active: seq<nat>, inactive: seq<nat>, key: seq<Option<SemAddr>>, lists: seq<seq<nat>>,
                         waiting: map<SemAddr, seq<nat>>, desc: map<SemAddr, nat>, a: SemAddr, q: seq<nat>)
    requires Describes(active, inactive, key, lists, waiting, desc)
    requires a in waiting && desc[a] !in inactive
    ensures desc[a] < |lists| - PROCQ
    ensures Describes(active, inactive, key, lists[PROCQ + desc[a] := q], waiting[a := q], desc)
  {
    assert waiting[a := q].Keys == waiting.Keys;
  }

  /** An inactive descriptor is given the key a and its first waiter. */
  lemma DescribesActivate(active: seq<nat>, inactive: seq<nat>, key: seq<Option<SemAddr>>, lists: seq<seq<nat>>,
                          waiting: map<SemAddr, seq<nat>>, desc: map<SemAddr, nat>, a: SemAddr, q: seq<nat>, s: nat)
    requires Describes(active, inactive, key, lists, waiting, desc)
    requires inactive != [] && s == inactive[0] && s !in active && NoDup(inactive) && a !in waiting
    ensures s < |key| && lists[PROCQ + s] == []
    ensures Describes([s] + active, inactive[1..], key[s := Some(a)], lists[PROCQ + s := q], waiting[a := q],
        desc[a := s])
  {
    assert s in inactive;
    assert forall r {:trigger r in inactive[1..]} :: r in inactive[1..] <==> r in inactive && r != s;
  }

  /** The last waiter leaves: its descriptor becomes inactive. */
  lemma DescribesDeactivate(active: seq<nat>, inactive: seq<nat>, key: seq<Option<SemAddr>>, lists: seq<seq<nat>>,
                            waiting: map<SemAddr, seq<nat>>, desc: map<SemAddr, nat>, a: SemAddr, active': seq<nat>)
    requires Describes(active, inactive, key, lists, waiting, desc) && a in waiting
    requires |active'| == |active| - 1 && forall y {:trigger y in active'} ::
        y in active' <==> y in active && y != desc[a]
    ensures desc[a] < |lists| - PROCQ
    ensures Describes(active', [desc[a]] + inactive, key, lists[PROCQ + desc[a] := []], waiting - {a}, desc - {a})
  {
    var inactive' := [desc[a]] + inactive;
    assert forall s {:trigger s in inactive'} :: s in inactive' <==> s == desc[a] || s in inactive;
    assert (waiting - {a}).Keys == waiting.Keys - {a};
    assert (desc - {a}).Keys == desc.Keys - {a};
  }

  class Asl {
    const pcbs: PcbTable
    const slinks: Arena                    // s_link cells with the heads semd_h and semdFree_h
    const key: array<Option<SemAddr>>      // s_key of each descriptor of semd_table
    ghost var waiting: map<SemAddr, seq<nat>>
    ghost var desc: map<SemAddr, nat>      // the active descriptor of each address with waiters
    ghost const Repr: set<object>          // this file's statics; the PCBs are shared

    ghost predicate Valid()
      reads this, Repr, pcbs, pcbs.Repr
    {
      && pcbs.Valid()
      && Repr == {this, slinks, slinks.next, slinks.prev, key} && Repr !! pcbs.Repr
      && slinks.Valid() && slinks.n == pcbs.n && slinks.m == 2 == |slinks.lists| && slinks.live == {ACTIVE, INACTIVE}
      && key.Length == pcbs.n
      && (forall h | PROCQ <= h < pcbs.n + PROCQ :: h in pcbs.plinks.live)
      && Describes(slinks.lists[ACTIVE], slinks.lists[INACTIVE], key[..], pcbs.plinks.lists, waiting, desc)
      && WaitersOK(waiting, pcbs.pcb[..])
    }

    /** initASL, for a PCB table just initialised. */
    constructor (table: PcbTable)
      requires table.Valid() && table.plinks.live == {FREE}
      requires forall x | 0 <= x < table.n :: table.pcb[x].semAdd == None
      modifies table.plinks, table.plinks.next, table.plinks.prev
      ensures Valid() && pcbs == table && fresh(Repr) && waiting == map[]
      ensures table.plinks.lists[FREE] == old(table.plinks.lists)[FREE]
    {
      hide Describes, WaitersOK, Arena.Valid, PcbTable.Sound;
      pcbs := table;
      var n := table.n;
      var sl := new Arena(n, 2);
      slinks, waiting, desc := sl, map[], map[];
      var ks := new Option<SemAddr>[n](_ => None);
      key := ks;
      Repr := {this, sl, sl.next, sl.prev, ks};
      new;
      sl.InitListHead(INACTIVE);
      sl.InitListHead(ACTIVE);
      assert sl.lists == [[], []];
      FillInactive();
    }

    /** initASL's loop. */
    method FillInactive()
      requires pcbs.Valid() && pcbs.plinks.live == {FREE} && waiting == map[] && desc == map[]
      requires Repr == {this, slinks, slinks.next, slinks.prev, key} && Repr !! pcbs.Repr
      requires slinks.Valid() && slinks.n == pcbs.n && slinks.m == 2 && slinks.live == {ACTIVE, INACTIVE}
      requires slinks.lists == [[], []] && key.Length == pcbs.n
      requires forall x | 0 <= x < pcbs.n :: pcbs.pcb[x].semAdd == None
      modifies slinks, slinks.next, slinks.prev, key, pcbs.plinks, pcbs.plinks.next, pcbs.plinks.prev
      ensures Valid() && pcbs.plinks.lists[FREE] == old(pcbs.plinks.lists)[FREE]
    {
      hide Describes, Arena.Valid, PcbTable.Sound, Descending;
      DescendingStep(0);
      var n := pcbs.n;
      for c := 0 to n
        invariant pcbs.Valid() && slinks.Valid() && slinks.live == {ACTIVE, INACTIVE}
        invariant slinks.lists == [[], Descending(c)]
        invariant pcbs.plinks.lists[FREE] == old(pcbs.plinks.lists)[FREE]
        invariant forall h | PROCQ <= h < c + PROCQ :: h in pcbs.plinks.live && pcbs.plinks.lists[h] == []
      {
        DescendingStep(c);
        assert slinks.Loose(c);
        slinks.ListAdd(c, n + INACTIVE, INACTIVE, 0);
        key[c] := None;
        pcbs.MkEmptyProcQ(PROCQ + c);
      }
      DescendingAll(n);
      DescribesNothing(Descending(n), key[..], pcbs.plinks.lists);
    }

    lemma Shape()
      requires Valid()
      ensures pcbs.Valid() && WaitersOK(waiting, pcbs.pcb[..])
      ensures Repr == {this, slinks, slinks.next, slinks.prev, key} && Repr !! pcbs.Repr
    {
    }

    /** Changes to the PCB table that spare the semaphore queues and p_semAdd. */
    twostate lemma Undisturbed()
      requires old(Valid()) && pcbs.Valid() && unchanged(this, Repr)
      requires |pcbs.plinks.lists| == old(|pcbs.plinks.lists|) && old(pcbs.plinks.live) <= pcbs.plinks.live
      requires forall h | PROCQ <= h < |pcbs.plinks.lists| :: pcbs.plinks.lists[h] == old(pcbs.plinks.lists)[h]
      requires forall x | 0 <= x < pcbs.n :: pcbs.pcb[x].semAdd == old(pcbs.pcb[x].semAdd)
      ensures Valid()
    {
      hide PcbTable.Sound, Arena.Valid;
      var t: seq<Pcb> := old(pcbs.pcb[..]);
      assert forall x | 0 <= x < pcbs.n :: t[x].semAdd == pcbs.pcb[..][x].semAdd;
    }

    /** A PCB in no list of the kernel is chained nowhere. */
    lemma NotQueued(p: nat)
      requires Valid() && p < pcbs.n && pcbs.pcb[p].semAdd == None
      requires p !in pcbs.plinks.lists[FREE] && p !in pcbs.plinks.lists[READY]
      ensures pcbs.plinks.Loose(p)
    {
      hide Arena.Valid, PcbTable.Sound, Describes, WaitersOK;
      forall h | PROCQ <= h < |pcbs.plinks.lists| ensures p !in pcbs.plinks.lists[h] {
        DescribesNoOther(slinks.lists[ACTIVE], slinks.lists[INACTIVE], key[..], pcbs.plinks.lists, waiting, desc,
          pcbs.pcb[..], p, h);
      }
    }

    /** The search loop shared by the functions below: the cell of the active descriptor
        with the given key, or the head semd_h. */
    method FindActive(a: Option<SemAddr>) returns (iter: nat, ghost i: nat)
      requires Valid()
      ensures i <= |slinks.lists[ACTIVE]| && iter == Cell(pcbs.n + ACTIVE, slinks.lists[ACTIVE], i)
      ensures a == None || a.value !in waiting ==> iter == pcbs.n + ACTIVE
      ensures a.Some? && a.value in waiting ==>
                && a.value in desc && i < |slinks.lists[ACTIVE]| && iter == desc[a.value] < pcbs.n
                && iter !in slinks.lists[INACTIVE] && waiting[a.value] == pcbs.plinks.lists[PROCQ + iter]
    {
      hide WaitersOK, Arena.Chained, PcbTable.Sound, PcbTable.Valid, NoDup;
      ghost var act := slinks.lists[ACTIVE];
      slinks.Hop(ACTIVE, 0);
      iter := slinks.next[pcbs.n + ACTIVE];
      i := 0;
      while iter != pcbs.n + ACTIVE && key[iter] != a
        invariant i <= |act| && iter == Cell(pcbs.n + ACTIVE, act, i)
        invariant i < |act| ==> act[i] in act && iter < pcbs.n
        invariant forall j | 0 <= j < i :: act[j] < pcbs.n && key[act[j]] != a
        decreases |act| - i
      {
        slinks.Hop(ACTIVE, i + 1);
        iter := slinks.next[iter];
        i := i + 1;
      }
    }

    /** insertBlocked: TRUE (failure) iff a new descriptor is needed and none is left. */
    method InsertBlocked(a: SemAddr, p: nat) returns (failed: bool)
      requires Valid() && p < pcbs.n && pcbs.plinks.Loose(p) && pcbs.pcb[p].semAdd == None
      modifies Repr, pcbs.plinks, pcbs.plinks.next, pcbs.plinks.prev, pcbs.pcb
      ensures Valid()
      ensures failed <==> a !in old(waiting) && |old(waiting)| == pcbs.n
      ensures failed ==> waiting == old(waiting) && pcbs.pcb[..] == old(pcbs.pcb[..])
      ensures !failed ==> waiting == Block(old(waiting), a, p)
      ensures !failed ==> pcbs.pcb[..] == old(pcbs.pcb[..])[p := old(pcbs.pcb[p]).(semAdd := Some(a))]
      ensures pcbs.plinks.lists[FREE] == old(pcbs.plinks.lists)[FREE]
      ensures pcbs.plinks.lists[READY] == old(pcbs.plinks.lists)[READY]
      ensures pcbs.plinks.live == old(pcbs.plinks.live)
    {
      hide WaitersOK, Describes, Arena.Valid, PcbTable.Sound, Block;
      DescribesCount(slinks.lists[ACTIVE], slinks.lists[INACTIVE], key[..], pcbs.plinks.lists, waiting, desc);
      var iter, _ := FindActive(Some(a));
      if iter != pcbs.n + ACTIVE {
        JoinQueue(iter, a, p);
        return false;
      }
      var empty := slinks.ListEmpty(INACTIVE);
      if empty {
        return true;
      }
      OpenQueue(a, p);
      failed := false;
    }

    /** insertBlocked on an active semaphore. */
    method JoinQueue(iter: nat, a: SemAddr, p: nat)
      requires Valid() && p < pcbs.n && pcbs.plinks.Loose(p) && pcbs.pcb[p].semAdd == None
      requires a in waiting && a in desc && iter == desc[a] < pcbs.n && iter !in slinks.lists[INACTIVE]
      requires waiting[a] == pcbs.plinks.lists[PROCQ + iter]
      modifies Repr, pcbs.plinks, pcbs.plinks.next, pcbs.plinks.prev, pcbs.pcb
      ensures Valid() && waiting == Block(old(waiting), a, p)
      ensures pcbs.pcb[..] == old(pcbs.pcb[..])[p := old(pcbs.pcb[p]).(semAdd := Some(a))]
      ensures pcbs.plinks.lists[FREE] == old(pcbs.plinks.lists)[FREE]
      ensures pcbs.plinks.lists[READY] == old(pcbs.plinks.lists)[READY]
      ensures pcbs.plinks.live == old(pcbs.plinks.live)
    {
      hide WaitersOK, Describes, Arena.Valid, PcbTable.Sound;
      BlockedWaiters(waiting, pcbs.pcb[..], a, p);
      DescribesRequeue(slinks.lists[ACTIVE], slinks.lists[INACTIVE], key[..], pcbs.plinks.lists, waiting, desc,
                       a, waiting[a] + [p]);
      pcbs.AppendProcQ(PROCQ + iter, p);
      pcbs.pcb[p] := pcbs.pcb[p].(semAdd := Some(a));
      waiting := Block(waiting, a, p);
    }

    /** The head of semdFree_h moves to the head of semd_h with key a. */
    method Activate(a: SemAddr) returns (entry: nat)
      requires Valid() && slinks.lists[INACTIVE] != []
      modifies slinks, slinks.next, slinks.prev, key
      ensures entry == old(slinks.lists)[INACTIVE][0] && entry < pcbs.n && entry !in old(slinks.lists)[ACTIVE]
      ensures slinks.Valid() && slinks.live == old(slinks.live)
      ensures slinks.lists == [[entry] + old(slinks.lists)[ACTIVE], old(slinks.lists)[INACTIVE][1..]]
      ensures key[..] == old(key[..])[entry := Some(a)]
    {
      hide WaitersOK, Describes, Arena.Chained;
      ghost var act, ina := slinks.lists[ACTIVE], slinks.lists[INACTIVE];
      slinks.Hop(INACTIVE, 0);
      entry := slinks.next[pcbs.n + INACTIVE];
      assert ina[0] in ina && RemoveAt(ina, 0) == ina[1..] && InsertAt(act, 0, entry) == [entry] + act;
      slinks.ListDel(entry, INACTIVE, 0);
      key[entry] := Some(a);
      slinks.ListAdd(entry, pcbs.n + ACTIVE, ACTIVE, 0);
    }

    /** The descriptor at position i of semd_h moves to the head of semdFree_h. */
    method Deactivate(iter: nat, ghost i: nat)
      requires slinks.Valid() && slinks.m == 2 && slinks.live == {ACTIVE, INACTIVE}
      requires i < |slinks.lists[ACTIVE]| && slinks.lists[ACTIVE][i] == iter
      modifies slinks, slinks.next, slinks.prev
      ensures slinks.Valid() && slinks.live == old(slinks.live)
      ensures slinks.lists == [RemoveAt(old(slinks.lists)[ACTIVE], i), [iter] + old(slinks.lists)[INACTIVE]]
    {
      hide Arena.Chained;
      ghost var act, ina := slinks.lists[ACTIVE], slinks.lists[INACTIVE];
      assert act[i] in act && InsertAt(ina, 0, iter) == [iter] + ina;
      slinks.ListDel(iter, ACTIVE, i);
      slinks.ListAdd(iter, slinks.n + INACTIVE, INACTIVE, 0);
    }

    /** insertBlocked on a semaphore that gets its descriptor now. */
    method OpenQueue(a: SemAddr, p: nat)
      requires Valid() && p < pcbs.n && pcbs.plinks.Loose(p) && pcbs.pcb[p].semAdd == None
      requires a !in waiting && slinks.lists[INACTIVE] != []
      modifies Repr, pcbs.plinks, pcbs.plinks.next, pcbs.plinks.prev, pcbs.pcb
      ensures Valid() && waiting == Block(old(waiting), a, p)
      ensures pcbs.pcb[..] == old(pcbs.pcb[..])[p := old(pcbs.pcb[p]).(semAdd := Some(a))]
      ensures pcbs.plinks.lists[FREE] == old(pcbs.plinks.lists)[FREE]
      ensures pcbs.plinks.lists[READY] == old(pcbs.plinks.lists)[READY]
      ensures pcbs.plinks.live == old(pcbs.plinks.live)
    {
      hide WaitersOK, Describes, Arena.Valid, PcbTable.Sound;
      ghost var act, ina, ks, ls := slinks.lists[ACTIVE], slinks.lists[INACTIVE], key[..], pcbs.plinks.lists;
      BlockedWaiters(waiting, pcbs.pcb[..], a, p);
      slinks.Apart(INACTIVE);
      var entry := Activate(a);
      DescribesActivate(act, ina, ks, ls, waiting, desc, a, [p], entry);
      pcbs.StartProcQ(PROCQ + entry, p);
      pcbs.pcb[p] := pcbs.pcb[p].(semAdd := Some(a));
      waiting, desc := Block(waiting, a, p), desc[a := entry];
      assert [] + [p] == [p];
    }

    /** x has just left the queue of the descriptor in cell iter, which becomes inactive if
        that queue is now empty. */
    method Retire(iter: nat, x: nat, ghost i: nat, ghost a: SemAddr, ghost ls: seq<seq<nat>>)
      requires pcbs.Valid() && slinks != pcbs.plinks && slinks.next != pcbs.plinks.next &&
          slinks.next != pcbs.plinks.prev
      requires slinks.prev != pcbs.plinks.next && slinks.prev != pcbs.plinks.prev
      requires slinks.Valid() && slinks.n == pcbs.n && slinks.m == 2 == |slinks.lists| &&
          slinks.live == {ACTIVE, INACTIVE}
      requires PROCQ + iter in pcbs.plinks.live
      requires Describes(slinks.lists[ACTIVE], slinks.lists[INACTIVE], key[..], ls, waiting, desc)
      requires WaitersOK(waiting, pcbs.pcb[..])
      requires a in waiting && x in waiting[a] && a in desc && iter == desc[a] < pcbs.n
      requires i < |slinks.lists[ACTIVE]| && slinks.lists[ACTIVE][i] == iter && iter !in slinks.lists[INACTIVE]
      requires pcbs.plinks.lists == ls[PROCQ + iter := Minus(waiting[a], {x})]
      modifies slinks, slinks.next, slinks.prev, this`desc
      ensures slinks.Valid() && |slinks.lists| == 2 && slinks.live == {ACTIVE, INACTIVE}
      ensures Describes(slinks.lists[ACTIVE], slinks.lists[INACTIVE], key[..], pcbs.plinks.lists,
          Unblock(waiting, {x}), desc)
    {
      hide WaitersOK, Describes, Minus, Unblock, Arena.Valid, PcbTable.Sound, PcbTable.Layout;
      ghost var act, ina, q := slinks.lists[ACTIVE], slinks.lists[INACTIVE], Minus(waiting[a], {x});
      UnblockOne(waiting, pcbs.pcb[..], a, x);
      slinks.Apart(ACTIVE);
      var empty := pcbs.EmptyProcQ(PROCQ + iter);
      if empty {
        RemoveAtElems(act, i);
        DescribesDeactivate(act, ina, key[..], ls, waiting, desc, a, RemoveAt(act, i));
        Deactivate(iter, i);
        desc := desc - {a};
      } else {
        DescribesRequeue(act, ina, key[..], ls, waiting, desc, a, q);
      }
    }

    /** The common end of removeBlocked and outBlocked: x is out of its queue, so its
        p_semAdd becomes NULL and the descriptor is looked after. */
    method Settle(iter: nat, x: nat, ghost i: nat, ghost a: SemAddr, ghost ls: seq<seq<nat>>)
      requires pcbs.Valid() && x < pcbs.n
      requires Repr == {this, slinks, slinks.next, slinks.prev, key} && Repr !! pcbs.Repr
      requires slinks.Valid() && slinks.n == pcbs.n && slinks.m == 2 == |slinks.lists| &&
          slinks.live == {ACTIVE, INACTIVE}
      requires key.Length == pcbs.n && forall h | PROCQ <= h < pcbs.n + PROCQ :: h in pcbs.plinks.live
      requires Describes(slinks.lists[ACTIVE], slinks.lists[INACTIVE], key[..], ls, waiting, desc)
      requires WaitersOK(waiting, pcbs.pcb[..])
      requires a in waiting && x in waiting[a] && a in desc && iter == desc[a] < pcbs.n
      requires i < |slinks.lists[ACTIVE]| && slinks.lists[ACTIVE][i] == iter && iter !in slinks.lists[INACTIVE]
      requires pcbs.plinks.lists == ls[PROCQ + iter := Minus(waiting[a], {x})]
      modifies Repr, pcbs.pcb
      ensures Valid()
      ensures waiting == Unblock(old(waiting), {x})
      ensures pcbs.pcb[..] == old(pcbs.pcb[..])[x := old(pcbs.pcb[x]).(semAdd := None)]
    {
      hide WaitersOK, Describes, Minus, Unblock, Arena.Valid, PcbTable.Sound;
      UnblockedWaiters(waiting, pcbs.pcb[..], a, x);
      Retire(iter, x, i, a, ls);
      pcbs.pcb[x] := pcbs.pcb[x].(semAdd := None);
      waiting := Unblock(waiting, {x});
    }

    /** removeBlocked: the longest waiting PCB, or NULL if nobody waits at a. */
    method RemoveBlocked(a: SemAddr) returns (r: Option<nat>)
      requires Valid()
      modifies Repr, pcbs.plinks, pcbs.plinks.next, pcbs.plinks.prev, pcbs.pcb
      ensures Valid()
      ensures a !in old(waiting) ==> r == None && waiting == old(waiting) && pcbs.pcb[..] == old(pcbs.pcb[..])
      ensures a in old(waiting) ==>
                && old(waiting)[a] != [] && r == Some(old(waiting)[a][0]) && r.value < pcbs.n &&
                    pcbs.plinks.Loose(r.value)
                && waiting == Unblock(old(waiting), {r.value})
                && pcbs.pcb[..] == old(pcbs.pcb[..])[r.value := old(pcbs.pcb[..])[r.value].(semAdd := None)]
      ensures pcbs.plinks.lists[FREE] == old(pcbs.plinks.lists)[FREE]
      ensures pcbs.plinks.lists[READY] == old(pcbs.plinks.lists)[READY]
      ensures pcbs.plinks.live == old(pcbs.plinks.live)
    {
      hide Describes, Minus, Unblock, Arena.Valid, PcbTable.Sound;
      var iter, i := FindActive(Some(a));
      if iter == pcbs.n + ACTIVE {
        return None;
      }
      ghost var ls := pcbs.plinks.lists;
      MinusOne(waiting[a], 0);
      assert waiting[a][0] in waiting[a] && RemoveAt(waiting[a], 0) == waiting[a][1..];
      r := pcbs.RemoveProcQ(PROCQ + iter);
      Settle(iter, r.value, i, a, ls);
    }

    /** outBlocked: p leaves the queue it waits in; NULL if it waits nowhere. */
    method OutBlocked(p: nat) returns (r: Option<nat>)
      requires Valid() && p < pcbs.n
      modifies Repr, pcbs.plinks, pcbs.plinks.next, pcbs.plinks.prev, pcbs.pcb
      ensures Valid()
      ensures old(pcbs.pcb[p]).semAdd == None ==>
          r == None && waiting == old(waiting) && pcbs.pcb[..] == old(pcbs.pcb[..])
      ensures old(pcbs.pcb[p]).semAdd.Some? ==>
                && r == Some(p) && pcbs.plinks.Loose(p)
                && waiting == Unblock(old(waiting), {p})
                && pcbs.pcb[..] == old(pcbs.pcb[..])[p := old(pcbs.pcb[p]).(semAdd := None)]
      ensures pcbs.plinks.lists[FREE] == old(pcbs.plinks.lists)[FREE]
      ensures pcbs.plinks.lists[READY] == old(pcbs.plinks.lists)[READY]
      ensures pcbs.plinks.live == old(pcbs.plinks.live)
    {
      hide Describes, Minus, Unblock, Arena.Valid, PcbTable.Sound;
      assert pcbs.pcb[..][p].semAdd == pcbs.pcb[p].semAdd;
      var iter, i := FindActive(pcbs.pcb[p].semAdd);
      if iter == pcbs.n + ACTIVE {
        return None;
      }
      ghost var ls, a := pcbs.plinks.lists, pcbs.pcb[p].semAdd.value;
      r := pcbs.OutProcQ(PROCQ + iter, p);
      Settle(iter, p, i, a, ls);
    }

    /** headBlocked. */
    method HeadBlocked(a: SemAddr) returns (r: Option<nat>)
      requires Valid()
      ensures r == if a in waiting then Some(Queue(waiting, a)[0]) else None
    {
      hide Describes;
      var iter, _ := FindActive(Some(a));
      if iter == pcbs.n + ACTIVE {
        return None;
      }
      r := pcbs.HeadProcQ(PROCQ + iter);
    }
  }
}
