/** What every kernel move keeps: PCBs have one home at most, the process count is right, the
    forest and the queues are well-formed. */
module Stability {
  import opened Seqs
  import opened KernelState
  import opened Killing
  import opened KernelSteps

  /** Every PCB but those of away is in one of the free list, the ready queue and a semaphore
      queue; those of away are in none. */
  ghost predicate Homed(k: K, away: set<nat>) {
    && (forall x | x in away :: x < |k.pcb| && x !in k.free && x !in k.ready && k.pcb[x].semAdd == None)
    && (forall x | 0 <= x < |k.pcb| && x !in away :: x in k.free || x in k.ready || k.pcb[x].semAdd.Some?)
  }

  /** processCount is the number of live PCBs. */
  ghost predicate Counted(k: K) {
    k.processCount + |k.free| == |k.pcb| < TWO32
  }

  ghost predicate Stable(k: K, away: set<nat>) {
    WellFormed(k) && FreeClean(k) && Homed(k, away) && Counted(k)
  }

  // ---------------------------------------------------------------- counting

  /** Distinct numbers below n are at most n. */
  lemma NoDupBound(s: seq<nat>, n: nat)
    requires NoDup(s) && forall j | 0 <= j < |s| :: s[j] < n
    ensures |s| <= n
  {
    ElemsCard(s);
    SubsetCard(Elems(s), Range(n));
  }

  /** Distinct non-empty disjoint queues are no more than the PCBs that can be in them. */
  lemma {:induction false} KeysBound(w: map<SemAddr, seq<nat>>, keys: set<SemAddr>, home: set<nat>)
    requires keys <= w.Keys && forall a | a in keys :: w[a] != [] && w[a][0] in home
    requires forall a, b | a in keys && b in keys && a != b :: w[a][0] != w[b][0]
    ensures |keys| <= |home|
  {
    if keys != {} {
      var a :| a in keys;
      KeysBound(w, keys - {a}, home - {w[a][0]});
    }
  }

  /** insertBlocked never fails: while some PCB is outside the semaphore queues, fewer than
      MAXPROC semaphores are active. */
  lemma DescriptorLeft(k: K, c: nat)
    requires QueuesOK(k) && c < |k.pcb| && k.pcb[c].semAdd == None
    ensures |k.blocked| < |k.pcb|
  {
    var home := Range(|k.pcb|) - {c};
    forall a | a in k.blocked ensures k.blocked[a] != [] && k.blocked[a][0] in home &&
        k.pcb[k.blocked[a][0]].semAdd == Some(a) {
      assert k.blocked[a] != [] && k.pcb[k.blocked[a][0]].semAdd == Some(a);
    }
    KeysBound(k.blocked, k.blocked.Keys, home);
  }

  // ---------------------------------------------------------------- moves that leave links alone

  /** PCBs that differ only in registers and priority. */
  ghost predicate SameLinks(pcb: seq<Pcb>, pcb': seq<Pcb>) {
    |pcb| == |pcb'| && forall x | 0 <= x < |pcb| ::
      pcb'[x].parent == pcb[x].parent && pcb'[x].semAdd == pcb[x].semAdd && pcb'[x].pid == pcb[x].pid
  }

  lemma StableRegisters(k: K, away: set<nat>, pcb: seq<Pcb>)
    requires Stable(k, away) && SameLinks(k.pcb, pcb)
    ensures Stable(k.(pcb := pcb), away)
  {
    hide NoDup;
    var r := k.(pcb := pcb);
    ForestRegisters(k, pcb);
    assert WaitersOK(r.blocked, r.pcb);
  }

  lemma ForestRegisters(k: K, pcb: seq<Pcb>)
    requires ForestOK(k) && SameLinks(k.pcb, pcb)
    ensures ForestOK(k.(pcb := pcb))
  {
    hide NoDup;
  }

  lemma StableSave(k: K, away: set<nat>, a0: int)
    requires Stable(k, away) && k.current.Some? && k.current.value < |k.pcb|
    ensures Stable(Save(k, a0), away)
  {
    hide QueuesOK, ForestOK, FreeClean, Homed;
    var pcb := Save(k, a0).pcb;
    assert SameLinks(k.pcb, pcb);
    StableRegisters(k, away, pcb);
    StableCurrent(k.(pcb := pcb), away, None);
  }

  /** currentProcess, the mode, softBlockCount and semaphore values are not links. */
  lemma StableCurrent(k: K, away: set<nat>, c: Option<nat>)
    requires Stable(k, away)
    ensures Stable(k.(current := c), away)
  {
    hide ChildrenOK, ParentsOK, BirthsOK, WaitersOK, NoDup;
  }

  lemma StableOther(k: K, away: set<nat>, k': K)
    requires Stable(k, away)
    requires k' == k.(current := k'.current, mode := k'.mode, softBlockCount := k'.softBlockCount, sem := k'.sem)
    ensures Stable(k', away)
  {
    hide ChildrenOK, ParentsOK, BirthsOK, WaitersOK, NoDup;
  }

  // ---------------------------------------------------------------- queue moves

  lemma StableReady(k: K, away: set<nat>, x: nat)
    requires Stable(k, away) && x in away
    ensures Stable(MakeReady(k, x), away - {x})
  {
    hide ChildrenOK, ParentsOK, BirthsOK, WaitersOK, Slot;
    InsertAtElems(k.ready, Slot(k.ready, k.pcb, x), x);
    var r := MakeReady(k, x);
    forall j | 0 <= j < |r.ready| ensures r.ready[j] < |r.pcb| && r.pcb[r.ready[j]].semAdd == None {
      assert r.ready[j] in r.ready;
    }
    forall j | 0 <= j < |r.free| ensures r.free[j] !in r.ready {
      assert r.free[j] in k.free;
    }
    assert forall y {:trigger y in r.ready} :: y in r.ready <==> y in k.ready || y == x;
  }

  lemma StableSched(k: K, away: set<nat>)
    requires Stable(k, away)
    ensures k.ready == [] ==> Stable(Sched(k), away)
    ensures k.ready != [] ==> k.ready[0] !in away && Stable(Sched(k), away + {k.ready[0]})
  {
    hide ChildrenOK, ParentsOK, BirthsOK, WaitersOK;
    if k.ready != [] {
      var r := Sched(k);
      assert forall y {:trigger y in r.ready} :: y in r.ready <==> y in k.ready && y != k.ready[0];
      assert forall j | 0 <= j < |r.ready| :: r.ready[j] == k.ready[j + 1];
      assert k.ready[0] in k.ready;
      assert k.ready[0] !in k.free;
    }
  }

  /** Joining the ready queue at the tail. */
  lemma StableTail(k: K, away: set<nat>, x: nat)
    requires Stable(k, away) && x in away
    ensures Stable(k.(ready := k.ready + [x]), away - {x})
  {
    hide ChildrenOK, ParentsOK, BirthsOK, WaitersOK;
    var r := k.(ready := k.ready + [x]);
    assert forall y {:trigger y in r.ready} :: y in r.ready <==> y in k.ready || y == x;
    forall j | 0 <= j < |r.free| ensures r.free[j] !in r.ready {
      assert r.free[j] in k.free;
    }
  }

  lemma StableBlock(k: K, away: set<nat>, a: SemAddr)
    requires k.current.Some? && Stable(k, away) && k.current.value in away
    ensures k.current.value < |k.pcb| && Stable(BlockCurrent(k, a), away - {k.current.value})
    ensures BlockCurrent(k, a).pcb[k.current.value].semAdd == Some(a)
  {
    hide ChildrenOK, ParentsOK, BirthsOK, Block, NoDup, WaitersOK;
    var c, r := k.current.value, BlockCurrent(k, a);
    DescriptorLeft(k, c);
    BlockedWaiters(k.blocked, k.pcb, a, c);
    ForestSemAdd(k, c, Some(a));
    forall j | 0 <= j < |r.free| ensures r.pcb[r.free[j]].semAdd == None { assert r.free[j] in k.free; }
    forall j | 0 <= j < |r.ready| ensures r.pcb[r.ready[j]].semAdd == None { assert r.ready[j] in k.ready; }
  }

  lemma ForestSemAdd(k: K, c: nat, a: Option<SemAddr>)
    requires ForestOK(k) && c < |k.pcb|
    ensures ForestOK(k.(pcb := k.pcb[c := k.pcb[c].(semAdd := a)]))
  {
    hide NoDup;
  }

  lemma StableUnblock(k: K, away: set<nat>, a: SemAddr)
    requires Stable(k, away) && a in k.blocked && k.blocked[a] != []
    ensures var x := k.blocked[a][0];
            && x < |k.pcb| && x !in away && k.pcb[x].semAdd == Some(a)
            && Stable(k.(blocked := Unblock(k.blocked, {x}), pcb := k.pcb[x := k.pcb[x].(semAdd := None)]), away + {x})
  {
    hide ChildrenOK, ParentsOK, BirthsOK, Unblock, NoDup, Minus;
    var x := k.blocked[a][0];
    var r := k.(blocked := Unblock(k.blocked, {x}), pcb := k.pcb[x := k.pcb[x].(semAdd := None)]);
    assert x in k.blocked[a] && k.pcb[x].semAdd == Some(a);
    UnblockedWaiters(k.blocked, k.pcb, a, x);
    ForestSemAdd(k, x, None);
    forall j | 0 <= j < |r.free| ensures r.pcb[r.free[j]].semAdd == None { assert r.free[j] in k.free; }
    forall j | 0 <= j < |r.ready| ensures r.pcb[r.ready[j]].semAdd == None { assert r.ready[j] in k.ready; }
    assert x !in k.free && x !in k.ready;
  }

  lemma StableWake(k: K, away: set<nat>, a: SemAddr, a0: Option<int>)
    requires Stable(k, away) && a in k.blocked && k.blocked[a] != [] && k.blocked[a][0] < |k.pcb|
    ensures Stable(Wake(k, a, a0), away) && k.blocked[a][0] !in away
    ensures Wake(k, a, a0).current == k.current && |Wake(k, a, a0).pcb| == |k.pcb|
  {
    hide WellFormed, FreeClean, Homed, Unblock, Slot;
    var x := k.blocked[a][0];
    StableUnblock(k, away, a);
    var u := k.(blocked := Unblock(k.blocked, {x}), pcb := k.pcb[x := k.pcb[x].(semAdd := None)]);
    var pcb := u.pcb[x := u.pcb[x].(a0 := if a0.Some? then a0.value else u.pcb[x].a0)];
    assert SameLinks(u.pcb, pcb);
    StableRegisters(u, away + {x}, pcb);
    StableReady(u.(pcb := pcb), away + {x}, x);
    assert away + {x} - {x} == away;
    assert Wake(k, a, a0) == MakeReady(u.(pcb := pcb), x);
  }

  // ---------------------------------------------------------------- creation and death

  lemma StableAllocated(k: K, away: set<nat>)
    requires Stable(k, away) && k.free != [] && k.free[0] < |k.pcb| && k.free[0] < |k.kids|
    ensures Stable(Allocated(k).(processCount := Add32(k.processCount, 1)), away + {k.free[0]})
    ensures k.free[0] !in away && forall q | 0 <= q < |k.kids| :: k.free[0] !in k.kids[q]
  {
    hide WaitersOK;
    var x, r := k.free[0], Allocated(k).(processCount := Add32(k.processCount, 1));
    assert x in k.free && k.kids[x] == [] && k.pcb[x].parent == None;
    assert r.kids == k.kids;
    AllocatedForest(k);
    assert forall y {:trigger y in r.free} :: y in r.free <==> y in k.free && y != x;
    assert forall j | 0 <= j < |r.free| :: r.free[j] == k.free[j + 1];
    AllocatedWaiters(k);
  }

  lemma AllocatedForest(k: K)
    requires ForestOK(k) && FreeClean(k) && k.free != [] && k.free[0] < |k.pcb| && k.free[0] < |k.kids|
    ensures ForestOK(Allocated(k)) && forall q | 0 <= q < |k.kids| :: k.free[0] !in k.kids[q]
  {
    var x := k.free[0];
    assert x in k.free && k.kids[x] == [] && k.pcb[x].parent == None;
    assert k.kids[x := []] == k.kids;
  }

  lemma AllocatedWaiters(k: K)
    requires QueuesOK(k) && k.free != [] && k.free[0] < |k.pcb| && k.free[0] < |k.kids|
    ensures WaitersOK(Allocated(k).blocked, Allocated(k).pcb)
  {
    hide NoDup;
    assert k.pcb[k.free[0]].semAdd == None;
  }

  /** insertChild(c, x). */
  lemma StableAdopted(k: K, away: set<nat>, c: nat, x: nat, p: Pcb)
    requires Stable(k, away) && x in away && x < |k.pcb| && c < |k.pcb| && c != x && c !in k.free
    requires k.pcb[x].parent == None && forall q | 0 <= q < |k.kids| :: x !in k.kids[q]
    requires p.parent == Some(c) && p.semAdd == None && p.pid == k.pcb[x].pid && k.pcb[c].pid < p.pid
    requires |k.kids| == |k.pcb|
    ensures Stable(k.(kids := k.kids[c := [x] + k.kids[c]], pcb := k.pcb[x := p]), away)
  {
    hide WaitersOK, ForestOK;
    var r := k.(kids := k.kids[c := [x] + k.kids[c]], pcb := k.pcb[x := p]);
    AdoptedForest(k, c, x, p);
    AdoptedWaiters(k, x, p);
    assert k.pcb[x].semAdd == None;
  }

  lemma AdoptedForest(k: K, c: nat, x: nat, p: Pcb)
    requires ForestOK(k) && x < |k.pcb| && c < |k.pcb| && c != x
    requires k.pcb[x].parent == None && forall q | 0 <= q < |k.kids| :: x !in k.kids[q]
    requires p.parent == Some(c) && p.pid == k.pcb[x].pid && k.pcb[c].pid < p.pid
    ensures ForestOK(k.(kids := k.kids[c := [x] + k.kids[c]], pcb := k.pcb[x := p]))
  {
    var kids, pcb := k.kids[c := [x] + k.kids[c]], k.pcb[x := p];
    assert ChildrenOK(kids, pcb) by {
      forall q, j | 0 <= q < |kids| && 0 <= j < |kids[q]|
        ensures kids[q][j] < |pcb| && pcb[kids[q][j]].parent == Some(q) && pcb[q].pid < pcb[kids[q][j]].pid
      {
        var o := if q == c then j - 1 else j;
        if o >= 0 {
          assert kids[q][j] == k.kids[q][o] && k.kids[q][o] in k.kids[q];
        }
      }
    }
    assert ParentsOK(kids, pcb) by {
      forall y {:trigger pcb[y].parent} | 0 <= y < |pcb| && pcb[y].parent.Some?
        ensures pcb[y].parent.value < |kids| && y in kids[pcb[y].parent.value]
      {
        if y != x {
          assert y in k.kids[k.pcb[y].parent.value];
        } else {
          assert kids[c][0] == x;
        }
      }
    }
  }

  lemma AdoptedWaiters(k: K, x: nat, p: Pcb)
    requires WaitersOK(k.blocked, k.pcb) && x < |k.pcb| && k.pcb[x].semAdd == p.semAdd == None
    ensures WaitersOK(k.blocked, k.pcb[x := p])
  {
    hide NoDup;
  }

  /** Killing p takes its subtree out of the PCBs that are away. */
  lemma StableKill(k: K, away: set<nat>, p: nat)
    requires Stable(k, away) && p < |k.pcb| && p !in k.free
    ensures Stable(Kill(k, p), away - Elems(PostOrder(k, p)))
  {
    hide Minus, Reverse, Unblock, KidsWithout, Cleared, PostOrder, ForestOK, QueuesOK, WaitersOK;
    var s := PostOrder(k, p);
    Ages(k);
    SubtreeKillable(k, p);
    WithoutWellFormed(k, s);
    KillHomed(k, away, s);
    KillCount(k, s);
  }

  lemma KillHomed(k: K, away: set<nat>, s: seq<nat>)
    requires Homed(k, away) && FreeClean(k) && |k.kids| == |k.pcb| && forall x | x in s :: x < |k.pcb|
    ensures Homed(Without(k, s), away - Elems(s)) && FreeClean(Without(k, s))
  {
    hide Minus, Reverse, Unblock, KidsWithout, Cleared;
    var r := Without(k, s);
    forall x | x in r.free && x < |r.pcb| && x < |r.kids| ensures r.pcb[x].parent == None && r.kids[x] == [] {
      if x !in s {
        assert x in k.free;
        MinusNothing(k.kids[x], Elems(s));
      }
    }
  }

  lemma KillCount(k: K, s: seq<nat>)
    requires QueuesOK(k) && Counted(k) && Killable(k, s)
    ensures Counted(Without(k, s))
  {
    hide Minus, Reverse, Unblock, KidsWithout, Cleared, WaitersOK, Downward;
    var all := s + k.free;
    forall i, j | 0 <= i < j < |all| ensures all[i] != all[j] {
      if i < |s| <= j { assert all[j] == k.free[j - |s|]; }
    }
    NoDupBound(all, |k.pcb|);
  }
}
