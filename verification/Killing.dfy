/** Removing processes from the kernel state, and why killing children one after the other
    removes exactly a subtree. */
module Killing {
  import opened Seqs
  import opened KernelState
  import opened Forest

  /** Everything killProcess relies on, and keeps. */
  ghost predicate WellFormed(k: K) {
    QueuesOK(k) && ForestOK(k)
  }

  /** s can be killed: live PCBs, each once, together with all their descendants. */
  ghost predicate Killable(k: K, s: seq<nat>) {
    && NoDup(s)
    && (forall j | 0 <= j < |s| :: s[j] < |k.pcb| && s[j] !in k.free)
    && Downward(k.kids, s)
  }

  /** s contains the children of its members. */
  ghost predicate Downward(kids: seq<seq<nat>>, s: seq<nat>) {
    forall q, x | 0 <= q < |kids| && x in kids[q] && q in s :: x in s
  }

  /** removeChild and outChild: c leaves its parent's child list. */
  ghost function Detach(k: K, c: nat): K
    requires |k.kids| == |k.pcb| && c < |k.pcb|
  {
    if k.pcb[c].parent.None? || k.pcb[c].parent.value >= |k.kids| then k
    else
      var q := k.pcb[c].parent.value;
      k.(kids := k.kids[q := Minus(k.kids[q], {c})], pcb := k.pcb[c := k.pcb[c].(parent := None)])
  }

  lemma Sub32Twice(x: Word, a: nat, b: nat)
    ensures Sub32(Sub32(x, a), b) == Sub32(x, a + b)
  {
  }

  lemma ClockWaitersSplit(pcb: seq<Pcb>, pcb': seq<Pcb>, a: set<nat>, b: set<nat>)
    requires a !! b && |pcb| == |pcb'|
    requires forall x | x in b && x < |pcb| :: pcb'[x].semAdd == pcb[x].semAdd
    ensures |ClockWaiters(pcb, a + b)| == |ClockWaiters(pcb, a)| + |ClockWaiters(pcb', b)|
  {
    assert ClockWaiters(pcb, a + b) == ClockWaiters(pcb, a) + ClockWaiters(pcb', b);
    assert ClockWaiters(pcb, a) !! ClockWaiters(pcb', b);
  }

  lemma KidsWithoutTwice(kids: seq<seq<nat>>, a: set<nat>, b: set<nat>)
    ensures KidsWithout(KidsWithout(kids, a), b) == KidsWithout(kids, a + b)
  {
    hide KidsWithout, Minus;
    forall q | 0 <= q < |kids| ensures KidsWithout(KidsWithout(kids, a), b)[q] == KidsWithout(kids, a + b)[q] {
      MinusTwice(kids[q], a, b);
    }
  }

  lemma ClearedTwice(pcb: seq<Pcb>, a: set<nat>, b: set<nat>)
    ensures Cleared(Cleared(pcb, a), b) == Cleared(pcb, a + b)
  {
    hide Cleared;
  }

  /** Removing s and then t is removing s + t. */
  lemma WithoutTwice(k: K, s: seq<nat>, t: seq<nat>)
    requires Elems(s) !! Elems(t)
    ensures Without(Without(k, s), t) == Without(k, s + t)
  {
    hide Minus, Reverse, Unblock, KidsWithout, Cleared;
    var a, b, k1 := Elems(s), Elems(t), Without(k, s);
    ElemsAppend(s, t);
    ReverseAppend(s, t);
    assert Reverse(t) + (Reverse(s) + k.free) == Reverse(s + t) + k.free;
    MinusTwice(k.ready, a, b);
    UnblockTwice(k.blocked, a, b);
    KidsWithoutTwice(k.kids, a, b);
    ClearedTwice(k.pcb, a, b);
    Sub32Twice(k.processCount, |s|, |t|);
    ClockWaitersSplit(k.pcb, k1.pcb, a, b);
    Sub32Twice(k.softBlockCount, |ClockWaiters(k.pcb, a)|, |ClockWaiters(k1.pcb, b)|);
  }

  /** A child that is about to be killed may be detached first. */
  lemma WithoutDetached(k: K, c: nat, s: seq<nat>)
    requires ForestOK(k) && c in s && c < |k.pcb|
    ensures Without(Detach(k, c), s) == Without(k, s)
  {
    hide Minus, Reverse, Unblock, KidsWithout, Cleared, PostOrder;
    var d, g := Detach(k, c), Elems(s);
    if d != k {
      var q := k.pcb[c].parent.value;
      assert ClockWaiters(d.pcb, g) == ClockWaiters(k.pcb, g);
      MinusTwice(k.kids[q], {c}, g);
      assert {c} + g == g;
      assert KidsWithout(d.kids, g) == KidsWithout(k.kids, g);
      assert Cleared(d.pcb, g) == Cleared(k.pcb, g);
    }
  }

  lemma NonEmptyQueues(k: K)
    requires QueuesOK(k)
    ensures forall a | a in k.blocked :: k.blocked[a] != []
  {
  }

  lemma WithoutNone(k: K)
    requires WellFormed(k)
    ensures Without(k, []) == k
  {
    hide Minus, Unblock, QueuesOK, ChildrenOK, ParentsOK, BirthsOK, Cleared, KidsWithout;
    NonEmptyQueues(k);
    MinusNothing(k.ready, {});
    UnblockNothing(k.blocked, {});
    assert ClockWaiters(k.pcb, {}) == {};
    forall q | 0 <= q < |k.kids| ensures Minus(k.kids[q], {}) == k.kids[q] {
      MinusNothing(k.kids[q], {});
    }
    assert Elems<nat>([]) == {};
    assert KidsWithout(k.kids, {}) == k.kids;
    assert Cleared(k.pcb, {}) == k.pcb;
  }

  /** Killing a childless PCB, step by step. */
  lemma WithoutLeaf(k: K, p: nat)
    requires WellFormed(k) && p < |k.pcb| && p < |k.kids| && k.kids[p] == []
    ensures var d := Detach(k, p);
            Without(k, [p]) == d.(free := [p] + d.free,
                                  ready := Minus(d.ready, {p}),
                                  blocked := Unblock(d.blocked, {p}),
                                  pcb := d.pcb[p := d.pcb[p].(semAdd := None)],
                                  processCount := Sub32(d.processCount, 1),
                                  softBlockCount :=
                  if k.pcb[p].semAdd == Some(CLOCK) then Sub32(d.softBlockCount, 1) else d.softBlockCount)
  {
    hide Minus, Unblock, QueuesOK, KidsWithout, ChildrenOK, ParentsOK, BirthsOK, Cleared;
    var d := Detach(k, p);
    KidsWithoutLeaf(k, p);
    assert Elems([p]) == {p};
    assert Reverse([p]) == [p];
    assert ClockWaiters(k.pcb, {p}) == if k.pcb[p].semAdd == Some(CLOCK) then {p} else {};
    assert Cleared(k.pcb, {p}) == d.pcb[p := d.pcb[p].(semAdd := None)];
  }

  lemma KidsWithoutLeaf(k: K, p: nat)
    requires ForestOK(k) && p < |k.pcb| && k.kids[p] == []
    ensures KidsWithout(k.kids, {p}) == Detach(k, p).kids
    ensures Detach(k, p).pcb[p].parent == None
  {
    hide Minus, BirthsOK, Cleared, KidsWithout;
    forall q | 0 <= q < |k.kids| && k.pcb[p].parent != Some(q) ensures Minus(k.kids[q], {p}) == k.kids[q] {
      MinusNothing(k.kids[q], {p});
    }
  }

  lemma DetachWellFormed(k: K, c: nat)
    requires WellFormed(k) && c < |k.pcb|
    ensures WellFormed(Detach(k, c))
  {
    var d := Detach(k, c);
    if d != k {
      var q := k.pcb[c].parent.value;
      MinusNoDup(k.kids[q], {c});
      forall r, j | 0 <= r < |d.kids| && 0 <= j < |d.kids[r]|
        ensures d.kids[r][j] < |d.pcb| && d.pcb[d.kids[r][j]].parent == Some(r) &&
            d.pcb[r].pid < d.pcb[d.kids[r][j]].pid
      {
        assert d.kids[r][j] in d.kids[r] && d.kids[r][j] in k.kids[r];
      }
      assert WaitersOK(d.blocked, d.pcb);
    }
  }

  lemma WithoutQueues(k: K, s: seq<nat>)
    requires WellFormed(k) && Killable(k, s)
    ensures QueuesOK(Without(k, s))
  {
    hide Minus, Reverse, Unblock, KidsWithout, ChildrenOK, ParentsOK, BirthsOK, WaitersOK, Downward, Cleared;
    var r, g := Without(k, s), Elems(s);
    ReverseNoDup(s);
    MinusNoDup(k.ready, g);
    assert NoDup(r.free) by {
      var a := Reverse(s);
      forall i, j | 0 <= i < j < |r.free| ensures r.free[i] != r.free[j] {
        if i < |a| <= j {
          assert a[i] in a && r.free[j] == k.free[j - |a|];
        }
      }
    }
    forall j | 0 <= j < |r.free| ensures r.free[j] < |r.pcb| && r.free[j] !in r.ready &&
        r.pcb[r.free[j]].semAdd == None {
      assert r.free[j] in r.free && (r.free[j] in s || r.free[j] in k.free);
    }
    forall j | 0 <= j < |r.ready| ensures r.ready[j] < |r.pcb| && r.pcb[r.ready[j]].semAdd == None {
      assert r.ready[j] in r.ready && r.ready[j] in k.ready;
    }
    WithoutWaiters(k, s);
  }

  lemma WithoutWaiters(k: K, s: seq<nat>)
    requires WaitersOK(k.blocked, k.pcb)
    ensures WaitersOK(Without(k, s).blocked, Without(k, s).pcb)
  {
    hide Minus, Reverse, KidsWithout, Cleared;
    var r, g := Without(k, s), Elems(s);
    forall a | a in r.blocked ensures NoDup(r.blocked[a]) {
      MinusNoDup(k.blocked[a], g);
    }
    forall a, j | a in r.blocked && 0 <= j < |r.blocked[a]|
      ensures r.blocked[a][j] < |r.pcb| && r.pcb[r.blocked[a][j]].semAdd == Some(a)
    {
      assert r.blocked[a][j] in Minus(k.blocked[a], g);
    }
    forall x | 0 <= x < |r.pcb| && r.pcb[x].semAdd.Some?
      ensures r.pcb[x].semAdd.value in r.blocked && x in r.blocked[r.pcb[x].semAdd.value]
    {
      assert x in Minus(k.blocked[k.pcb[x].semAdd.value], g);
    }
  }

  lemma WithoutChildren(k: K, s: seq<nat>)
    requires ForestOK(k) && Killable(k, s)
    ensures ChildrenOK(KidsWithout(k.kids, Elems(s)), Cleared(k.pcb, Elems(s)))
  {
    hide Minus, Cleared, KidsWithout;
    var kids, pcb := KidsWithout(k.kids, Elems(s)), Cleared(k.pcb, Elems(s));
    forall q | 0 <= q < |kids| ensures NoDup(kids[q]) {
      MinusNoDup(k.kids[q], Elems(s));
    }
    forall q, j | 0 <= q < |kids| && 0 <= j < |kids[q]|
      ensures kids[q][j] < |pcb| && pcb[kids[q][j]].parent == Some(q) && pcb[q].pid < pcb[kids[q][j]].pid
    {
      assert kids[q][j] in kids[q] && kids[q][j] in k.kids[q];
    }
  }

  lemma WithoutParents(k: K, s: seq<nat>)
    requires ForestOK(k) && Killable(k, s)
    ensures ParentsOK(KidsWithout(k.kids, Elems(s)), Cleared(k.pcb, Elems(s)))
  {
    hide Minus, Cleared, KidsWithout;
  }

  lemma WithoutForest(k: K, s: seq<nat>)
    requires ForestOK(k) && Killable(k, s)
    ensures ForestOK(Without(k, s))
  {
    hide Killable, Minus, Reverse, Unblock, ChildrenOK, ParentsOK, Cleared, KidsWithout;
    WithoutChildren(k, s);
    WithoutParents(k, s);
  }

  lemma WithoutWellFormed(k: K, s: seq<nat>)
    requires WellFormed(k) && Killable(k, s)
    ensures WellFormed(Without(k, s))
  {
    WithoutQueues(k, s);
    WithoutForest(k, s);
  }

  /** Free PCBs have neither parent nor children. */
  ghost predicate FreeClean(k: K) {
    forall x | x in k.free && x < |k.pcb| && x < |k.kids| :: k.pcb[x].parent == None && k.kids[x] == []
  }

  lemma {:induction false} SubtreeLive(k: K, p: nat, x: nat)
    requires WellFormed(k) && FreeClean(k) && p < |k.pcb| && p !in k.free
    requires x in PostOrder(k, p)
    ensures x !in k.free
  {
    PostOrderSound(k, p, x);
  }

  lemma SubtreeKillable(k: K, p: nat)
    requires WellFormed(k) && FreeClean(k) && p < |k.pcb| && p !in k.free
    ensures Killable(k, PostOrder(k, p))
  {
    var s := PostOrder(k, p);
    PostOrderExact(k, p);
    forall j | 0 <= j < |s| ensures s[j] !in k.free {
      SubtreeLive(k, p, s[j]);
    }
    forall q, x | 0 <= q < |k.kids| && x in k.kids[q] && q in s ensures x in s {
      PostOrderClosed(k, p, q, x);
    }
  }

  /** The subtrees of the first j children of p. */
  ghost function Killed(k: K, p: nat, j: nat): seq<nat>
    requires ForestOK(k) && p < |k.pcb| && j <= |k.kids[p]|
  {
    PostOrders(k, k.kids[p][..j], k.pcb[p].pid)
  }

  /** What the first j children's subtrees are like, seen from child j and from p. */
  lemma KilledApart(k: K, p: nat, j: nat)
    requires ForestOK(k) && p < |k.pcb| && j <= |k.kids[p]|
    ensures p !in Killed(k, p, j)
    ensures forall i | j <= i < |k.kids[p]| :: forall x | x in PostOrder(k, k.kids[p][i]) :: x !in Killed(k, p, j)
    ensures forall i | 0 <= i < j :: k.kids[p][i] in Killed(k, p, j)
  {
    var cs := k.kids[p];
    if p in Killed(k, p, j) {
      var c := PostOrdersSound(k, cs[..j], k.pcb[p].pid, p);
      DescendsAge(k, c, p);
    }
    forall i, x | j <= i < |cs| && x in PostOrder(k, cs[i]) ensures x !in Killed(k, p, j) {
      if x in Killed(k, p, j) {
        PostOrderSound(k, cs[i], x);
        var c := PostOrdersSound(k, cs[..j], k.pcb[p].pid, x);
        var h :| 0 <= h < j && cs[h] == c;
        SiblingsApart(k, p, h, i, x);
      }
    }
    forall i | 0 <= i < j ensures cs[i] in Killed(k, p, j) {
      assert cs[i] in cs[..j];
      PostOrdersHasRoots(k, cs[..j], k.pcb[p].pid, cs[i]);
    }
  }

  lemma KilledKillable(k: K, p: nat, j: nat)
    requires WellFormed(k) && FreeClean(k) && p < |k.pcb| && p !in k.free && j <= |k.kids[p]|
    ensures Killable(k, Killed(k, p, j))
  {
    hide QueuesOK, ParentsOK, Descends, FreeClean, Cleared, KidsWithout;
    var s, cs := Killed(k, p, j), k.kids[p];
    SubtreeKillable(k, p);
    PostOrdersSplit(k, cs[..j], cs[j..], k.pcb[p].pid);
    assert cs[..j] + cs[j..] == cs;
    assert PostOrder(k, p) == s + (PostOrders(k, cs[j..], k.pcb[p].pid) + [p]);
    forall i | 0 <= i < |s| ensures s[i] !in k.free {
      assert s[i] == PostOrder(k, p)[i];
    }
    assert NoDup(s) by {
      forall u, v | 0 <= u < v < |s| ensures s[u] != s[v] {
        assert PostOrder(k, p)[u] != PostOrder(k, p)[v];
      }
    }
    forall q, x | 0 <= q < |k.kids| && x in k.kids[q] && q in s ensures x in s {
      PostOrdersClosed(k, cs[..j], k.pcb[p].pid, q, x);
    }
  }

  lemma {:induction false} PostOrdersSplit(k: K, cs: seq<nat>, ds: seq<nat>, pid: nat)
    requires ForestOK(k) && pid < k.nextPid
    requires forall j | 0 <= j < |cs| :: cs[j] < |k.pcb| && k.pcb[cs[j]].pid > pid
    requires forall j | 0 <= j < |ds| :: ds[j] < |k.pcb| && k.pcb[ds[j]].pid > pid
    ensures PostOrders(k, cs + ds, pid) == PostOrders(k, cs, pid) + PostOrders(k, ds, pid)
  {
    if cs == [] {
      assert cs + ds == ds;
    } else {
      assert (cs + ds)[1..] == cs[1..] + ds;
      PostOrdersSplit(k, cs[1..], ds, pid);
    }
  }

  lemma Child(k: K, p: nat, j: nat)
    requires ForestOK(k) && p < |k.pcb| && p < |k.kids| && j < |k.kids[p]|
    ensures var c := k.kids[p][j];
            c < |k.pcb| && c < |k.kids| && k.pcb[c].parent == Some(p) && k.pcb[c].pid > k.pcb[p].pid
  {
  }

  lemma KidsLeft(k: K, p: nat, j: nat)
    requires ForestOK(k) && p < |k.pcb| && j <= |k.kids[p]|
    ensures Without(k, Killed(k, p, j)).kids[p] == k.kids[p][j..]
  {
    hide Minus, Reverse, Unblock, PostOrder, PostOrders, Descends, Cleared, KidsWithout;
    var s, cs := Killed(k, p, j), k.kids[p];
    KilledApart(k, p, j);
    forall i | j <= i < |cs| ensures cs[i] !in s {
      PostOrderExact(k, cs[i]);
      assert cs[i] in PostOrder(k, cs[i]);
    }
    MinusPrefix(cs, j, Elems(s));
  }

  /** The state in which round j of killProcess's loop recurses. */
  ghost function AtRound(k: K, p: nat, j: nat): K
    requires ForestOK(k) && p < |k.pcb| && j < |k.kids[p]|
  {
    Detach(Without(k, Killed(k, p, j)), k.kids[p][j])
  }

  lemma RoundKids(k: K, p: nat, j: nat, x: nat)
    requires ForestOK(k) && p < |k.pcb| && j < |k.kids[p]| && x < |k.pcb|
    requires x in PostOrder(k, k.kids[p][j])
    ensures AtRound(k, p, j).kids[x] == k.kids[x]
  {
    hide Minus, Reverse, Unblock, PostOrder, PostOrders, Descends, Cleared, KidsWithout;
    var s, c := Killed(k, p, j), k.kids[p][j];
    KilledApart(k, p, j);
    forall y | y in k.kids[x] ensures y !in s {
      PostOrderClosed(k, c, x, y);
    }
    MinusNothing(k.kids[x], Elems(s));
    PostOrderSound(k, c, x);
    DescendsAge(k, c, x);
  }

  /** At round j the subtree of child j is still whole. */
  lemma RoundSubtree(k: K, p: nat, j: nat)
    requires ForestOK(k) && p < |k.pcb| && j < |k.kids[p]| && ForestOK(AtRound(k, p, j))
    ensures PostOrder(AtRound(k, p, j), k.kids[p][j]) == PostOrder(k, k.kids[p][j])
  {
    hide Minus, Reverse, Unblock, KidsWithout, Cleared, PostOrder, PostOrders, Descends, ChildrenOK, ParentsOK,
      BirthsOK;
    var c := k.kids[p][j];
    Child(k, p, j);
    assert SameAge(k, AtRound(k, p, j));
    forall x | x in PostOrder(k, c) && x < |k.pcb| ensures AtRound(k, p, j).kids[x] == k.kids[x] {
      RoundKids(k, p, j, x);
    }
    PostOrderFrame(k, AtRound(k, p, j), c);
  }

  lemma RoundWellFormed(k: K, p: nat, j: nat)
    requires WellFormed(k) && FreeClean(k) && p < |k.pcb| && p !in k.free && p < |k.kids| && j < |k.kids[p]|
    ensures WellFormed(Without(k, Killed(k, p, j))) && WellFormed(AtRound(k, p, j))
    ensures FreeClean(AtRound(k, p, j)) && k.kids[p][j] !in AtRound(k, p, j).free
    ensures Without(k, Killed(k, p, j)).pcb[k.kids[p][j]].parent == Some(p)
  {
    hide Minus, Reverse, Unblock, PostOrder, PostOrders, Descends, QueuesOK, ForestOK, Cleared, KidsWithout;
    var s, c := Killed(k, p, j), k.kids[p][j];
    Child(k, p, j);
    KilledKillable(k, p, j);
    WithoutWellFormed(k, s);
    KilledApart(k, p, j);
    PostOrderExact(k, c);
    assert c in PostOrder(k, c) && c !in s && c !in k.free;
    DetachWellFormed(Without(k, s), c);
  }

  lemma RoundKill(k: K, p: nat, j: nat)
    requires WellFormed(k) && FreeClean(k) && p < |k.pcb| && p < |k.kids| && j < |k.kids[p]|
    requires ForestOK(Without(k, Killed(k, p, j)))
    ensures Without(AtRound(k, p, j), PostOrder(k, k.kids[p][j])) == Without(k, Killed(k, p, j + 1))
  {
    hide Minus, Reverse, Unblock, KidsWithout, Cleared, PostOrder, PostOrders, Descends, ForestOK, QueuesOK;
    Child(k, p, j);
    var s, c, cs := Killed(k, p, j), k.kids[p][j], k.kids[p];
    var t := PostOrder(k, c);
    KilledApart(k, p, j);
    PostOrderExact(k, c);
    RoundPrefix(k, p, j);
    WithoutDetached(Without(k, s), c, t);
    WithoutTwice(k, s, t);
  }

  lemma RoundPrefix(k: K, p: nat, j: nat)
    requires ForestOK(k) && p < |k.pcb| && j < |k.kids[p]|
    ensures Killed(k, p, j + 1) == Killed(k, p, j) + PostOrder(k, k.kids[p][j])
  {
    var cs := k.kids[p];
    assert cs[..j + 1] == cs[..j] + [cs[j]];
    PostOrdersAppend(k, cs[..j], cs[j], k.pcb[p].pid);
  }

  lemma Ages(k: K)
    requires ForestOK(k)
    ensures |k.kids| == |k.pcb| && forall x | 0 <= x < |k.pcb| :: k.pcb[x].pid < k.nextPid
  {
  }

  /** One round of killProcess's loop: with the first j subtrees gone, child j heads the list,
      its subtree is still whole, and killing it detached leaves the first j + 1 subtrees gone. */
  lemma KillRound(k: K, p: nat, j: nat)
    requires WellFormed(k) && FreeClean(k) && p < |k.pcb| && p !in k.free && p < |k.kids| && j < |k.kids[p]|
    ensures var kj, c, d := Without(k, Killed(k, p, j)), k.kids[p][j], AtRound(k, p, j);
            && |kj.pcb| == |kj.kids| == |k.pcb| && kj.kids[p] == k.kids[p][j..]
            && WellFormed(kj) && WellFormed(d) && FreeClean(d) && c !in d.free
            && k.pcb[p].pid < d.pcb[c].pid < d.nextPid == k.nextPid && c < |d.pcb| == |d.kids| == |k.pcb|
            && Kill(d, c) == Without(k, Killed(k, p, j + 1))
  {
    hide Minus, Reverse, Unblock, KidsWithout, Cleared, PostOrder, PostOrders, Descends, QueuesOK, ForestOK;
    Child(k, p, j);
    Ages(k);
    RoundWellFormed(k, p, j);
    KidsLeft(k, p, j);
    RoundSubtree(k, p, j);
    RoundKill(k, p, j);
  }

  /** A blocked PCB is not ready, any other one waits nowhere. */
  lemma NotElsewhere(k: K, p: nat)
    requires QueuesOK(k) && p < |k.pcb|
    ensures k.pcb[p].semAdd.Some? ==> Minus(k.ready, {p}) == k.ready
    ensures k.pcb[p].semAdd == None ==> Unblock(k.blocked, {p}) == k.blocked
    ensures k.pcb[p].semAdd == None ==> k.pcb[p := k.pcb[p].(semAdd := None)] == k.pcb
  {
    hide Minus, Unblock;
    if k.pcb[p].semAdd.Some? {
      MinusNothing(k.ready, {p});
    } else {
      UnblockNothing(k.blocked, {p});
    }
  }

  lemma KillStart(k: K, p: nat)
    requires WellFormed(k) && p < |k.pcb| && p < |k.kids|
    ensures Without(k, Killed(k, p, 0)) == k
  {
    WithoutNone(k);
    assert k.kids[p][..0] == [];
  }

  /** Between rounds p is still alive, and the children left are the last ones. */
  lemma KillFrame(k: K, p: nat, j: nat)
    requires WellFormed(k) && FreeClean(k) && p < |k.pcb| && p !in k.free && p < |k.kids| && j <= |k.kids[p]|
    ensures var kj := Without(k, Killed(k, p, j));
            && WellFormed(kj) && FreeClean(kj) && p !in kj.free && |kj.pcb| == |kj.kids| == |k.pcb|
            && kj.kids[p] == k.kids[p][j..]
  {
    hide Minus, Reverse, Unblock, KidsWithout, Cleared, PostOrder, PostOrders, Descends, QueuesOK, ForestOK;
    Ages(k);
    KilledKillable(k, p, j);
    WithoutWellFormed(k, Killed(k, p, j));
    KilledApart(k, p, j);
    KidsLeft(k, p, j);
  }

  /** With all children's subtrees gone, killing p alone completes the subtree. */
  lemma KillEnd(k: K, p: nat)
    requires WellFormed(k) && FreeClean(k) && p < |k.pcb| && p !in k.free && p < |k.kids|
    ensures var kn := Without(k, Killed(k, p, |k.kids[p]|)); var d := Detach(kn, p);
            && WellFormed(kn) && FreeClean(kn) && WellFormed(d) && p !in d.free && |d.pcb| == |k.pcb|
            && Kill(k, p) == d.(free := [p] + d.free,
                                ready := Minus(d.ready, {p}),
                                blocked := Unblock(d.blocked, {p}),
                                pcb := d.pcb[p := d.pcb[p].(semAdd := None)],
                                processCount := Sub32(d.processCount, 1),
                                softBlockCount :=
                  if d.pcb[p].semAdd == Some(CLOCK) then Sub32(d.softBlockCount, 1) else d.softBlockCount)
  {
    hide Minus, Reverse, Unblock, KidsWithout, Cleared, Descends, QueuesOK, ForestOK;
    var cs := k.kids[p];
    var s := Killed(k, p, |cs|);
    var kn := Without(k, s);
    KillFrame(k, p, |cs|);
    KilledApart(k, p, |cs|);
    assert cs[..|cs|] == cs;
    WithoutTwice(k, s, [p]);
    WithoutLeaf(kn, p);
    DetachWellFormed(kn, p);
  }

  // ---------------------------------------------------------------- what killing means for the forest

  /** p and everything below it. */
  ghost function Subtree(k: K, p: nat): set<nat>
    requires ForestOK(k)
  {
    set x | 0 <= x < |k.pcb| && Descends(k, p, x)
  }

  lemma SubtreeElems(k: K, p: nat)
    requires ForestOK(k) && p < |k.pcb|
    ensures Elems(PostOrder(k, p)) == Subtree(k, p) && |PostOrder(k, p)| == |Subtree(k, p)|
  {
    hide ChildrenOK, ParentsOK, BirthsOK, Descends;
    var s := PostOrder(k, p);
    PostOrderExact(k, p);
    ElemsCard(s);
    forall x | x in Elems(s) ensures x in Subtree(k, p) {
      var j :| 0 <= j < |s| && s[j] == x;
    }
  }

  /** A child that dies while its parent lives is p itself. */
  lemma SurvivorsChildren(k: K, p: nat, q: nat)
    requires ForestOK(k) && p < |k.pcb| && q < |k.pcb| && !Descends(k, p, q)
    ensures Minus(k.kids[q], Subtree(k, p)) == Minus(k.kids[q], {p})
  {
    hide BirthsOK;
    assert forall c | c in k.kids[q] && c < |k.pcb| && Descends(k, p, c) :: c == p by {
      forall c | c in k.kids[q] && c < |k.pcb| && Descends(k, p, c) ensures c == p {
        assert k.pcb[c].parent == Some(q);
      }
    }
    assert Descends(k, p, p);
    MinusAgree(k.kids[q], Subtree(k, p), {p});
  }

  lemma {:induction false} MinusAgree<T(!new)>(s: seq<T>, a: set<T>, b: set<T>)
    requires forall x | x in s :: x in a <==> x in b
    ensures Minus(s, a) == Minus(s, b)
  {
    if s != [] {
      MinusAgree(s[1..], a, b);
    }
  }

  /** r's free list is k's with the members of dead in front, p first and every process before
      its descendants. */
  ghost predicate FreedInFront(k: K, p: nat, dead: set<nat>, free: seq<nat>)
    requires ForestOK(k) && forall x | x in dead :: x < |k.pcb|
  {
    && 0 < |dead| <= |free| && free[|dead|..] == k.free && Elems(free[..|dead|]) == dead && free[0] == p
    && forall u, v | 0 <= u < v < |dead| :: free[u] in dead && free[v] in dead && !Descends(k, free[v], free[u])
  }

  /** killProcess(p) takes away exactly the subtree of p: its members leave the ready queue and
      the semaphore queues, where the others keep their order, and queues that become empty are
      not active any more; the free list gains them in front, p first and parents before
      children (so children were freed first). */
  lemma KillsSubtree(k: K, p: nat)
    requires WellFormed(k) && FreeClean(k) && p < |k.pcb| && p !in k.free
    ensures var r, dead := Kill(k, p), Subtree(k, p);
            && WellFormed(r)
            && r.ready == Minus(k.ready, dead)
            && (forall a :: Queue(r.blocked, a) == Minus(Queue(k.blocked, a), dead))
            && (forall a :: a in r.blocked <==> Queue(r.blocked, a) != [])
            && FreedInFront(k, p, dead, r.free)
            && r.processCount == Sub32(k.processCount, |dead|)
  {
    hide ChildrenOK, ParentsOK, BirthsOK, Descends, QueuesOK, FreeClean, KidsWithout, Cleared, ClockWaiters;
    var r, s := Kill(k, p), PostOrder(k, p);
    SubtreeElems(k, p);
    SubtreeKillable(k, p);
    WithoutWellFormed(k, s);
    PostOrderExact(k, p);
    PostOrderChildrenFirst(k, p);
    NonEmptyQueues(k);
    forall u | 0 <= u < |s| ensures r.free[u] == s[|s| - 1 - u] && r.free[u] in s {
      ReverseAt(s, u);
    }
    assert r.free[..|s|] == Reverse(s);
  }

  /** The survivors are as before, but that p is no longer a child. */
  lemma KillSpares(k: K, p: nat, x: nat)
    requires WellFormed(k) && p < |k.pcb| && x < |k.pcb| && !Descends(k, p, x)
    ensures var r := Kill(k, p);
            |r.kids| == |r.pcb| == |k.pcb| && r.pcb[x] == k.pcb[x] && r.kids[x] == Minus(k.kids[x], {p})
  {
    hide QueuesOK;
    SubtreeElems(k, p);
    SurvivorsChildren(k, p, x);
  }
}
