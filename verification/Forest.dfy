/** Subtrees of the process forest. */
module Forest {
  import opened Seqs
  import opened KernelState

  lemma {:induction false} DescendsAge(k: K, p: nat, x: nat)
    requires ForestOK(k) && x < |k.pcb| && Descends(k, p, x)
    ensures p < |k.pcb| && k.pcb[p].pid <= k.pcb[x].pid
    ensures p != x ==> k.pcb[p].pid < k.pcb[x].pid
    decreases k.pcb[x].pid
  {
    if x != p {
      DescendsAge(k, p, k.pcb[x].parent.value);
    }
  }

  lemma {:induction false} DescendsTrans(k: K, p: nat, c: nat, x: nat)
    requires ForestOK(k) && x < |k.pcb| && c < |k.pcb| && Descends(k, p, c) && Descends(k, c, x)
    ensures Descends(k, p, x)
    decreases k.pcb[x].pid
  {
    if x != c {
      DescendsTrans(k, p, c, k.pcb[x].parent.value);
    }
  }

  /** The ancestors of x form a chain. */
  lemma {:induction false} AncestorsChain(k: K, a: nat, b: nat, x: nat)
    requires ForestOK(k) && x < |k.pcb| && a < |k.pcb| && b < |k.pcb| && Descends(k, a, x) && Descends(k, b, x)
    ensures Descends(k, a, b) || Descends(k, b, a)
    decreases k.pcb[x].pid
  {
    if x != a && x != b {
      AncestorsChain(k, a, b, k.pcb[x].parent.value);
    }
  }

  /** Two children of one parent have no common descendant. */
  lemma SiblingsApart(k: K, q: nat, i: nat, j: nat, x: nat)
    requires ForestOK(k) && q < |k.kids| && i < j < |k.kids[q]| && x < |k.pcb|
    ensures !(Descends(k, k.kids[q][i], x) && Descends(k, k.kids[q][j], x))
  {
    var a, b := k.kids[q][i], k.kids[q][j];
    if Descends(k, a, x) && Descends(k, b, x) {
      AncestorsChain(k, a, b, x);
      if Descends(k, a, b) {
        DescendsAge(k, a, q);
      } else {
        DescendsAge(k, b, q);
      }
    }
  }

  lemma {:induction false} PostOrdersAppend(k: K, cs: seq<nat>, c: nat, pid: nat)
    requires ForestOK(k) && pid < k.nextPid
    requires forall j | 0 <= j < |cs| :: cs[j] < |k.pcb| && k.pcb[cs[j]].pid > pid
    requires c < |k.pcb| && k.pcb[c].pid > pid
    ensures PostOrders(k, cs + [c], pid) == PostOrders(k, cs, pid) + PostOrder(k, c)
  {
    if cs == [] {
      assert cs + [c] == [c] && [c][1..] == [];
    } else {
      assert (cs + [c])[1..] == cs[1..] + [c];
      PostOrdersAppend(k, cs[1..], c, pid);
    }
  }

  // ---------------------------------------------------------------- the post-order is exactly the subtree

  lemma {:induction false} PostOrderSound(k: K, p: nat, x: nat)
    requires ForestOK(k) && p < |k.pcb| && x in PostOrder(k, p)
    ensures x < |k.pcb| && Descends(k, p, x)
    decreases k.nextPid - k.pcb[p].pid, 1, 0
  {
    if x != p {
      var c := PostOrdersSound(k, k.kids[p], k.pcb[p].pid, x);
      assert Descends(k, p, p);
      DescendsTrans(k, p, c, x);
    }
  }

  lemma {:induction false} PostOrdersSound(k: K, cs: seq<nat>, pid: nat, x: nat) returns (c: nat)
    requires ForestOK(k) && pid < k.nextPid
    requires forall j | 0 <= j < |cs| :: cs[j] < |k.pcb| && k.pcb[cs[j]].pid > pid
    requires x in PostOrders(k, cs, pid)
    ensures x < |k.pcb| && c in cs && c < |k.pcb| && Descends(k, c, x)
    decreases k.nextPid - pid, 0, |cs|
  {
    if x in PostOrder(k, cs[0]) {
      PostOrderSound(k, cs[0], x);
      c := cs[0];
    } else {
      c := PostOrdersSound(k, cs[1..], pid, x);
    }
  }

  lemma {:induction false} PostOrderClosed(k: K, p: nat, y: nat, x: nat)
    requires ForestOK(k) && p < |k.pcb| && y < |k.pcb| && y in PostOrder(k, p) && x in k.kids[y]
    ensures x in PostOrder(k, p)
    decreases k.nextPid - k.pcb[p].pid, 1, 0
  {
    if y == p {
      PostOrdersHasRoots(k, k.kids[p], k.pcb[p].pid, x);
    } else {
      PostOrdersClosed(k, k.kids[p], k.pcb[p].pid, y, x);
    }
  }

  lemma {:induction false} PostOrdersClosed(k: K, cs: seq<nat>, pid: nat, y: nat, x: nat)
    requires ForestOK(k) && pid < k.nextPid
    requires forall j | 0 <= j < |cs| :: cs[j] < |k.pcb| && k.pcb[cs[j]].pid > pid
    requires y < |k.pcb| && y in PostOrders(k, cs, pid) && x in k.kids[y]
    ensures x in PostOrders(k, cs, pid)
    decreases k.nextPid - pid, 0, |cs|
  {
    if y in PostOrder(k, cs[0]) {
      PostOrderClosed(k, cs[0], y, x);
    } else {
      PostOrdersClosed(k, cs[1..], pid, y, x);
    }
  }

  lemma {:induction false} PostOrdersHasRoots(k: K, cs: seq<nat>, pid: nat, x: nat)
    requires ForestOK(k) && pid < k.nextPid
    requires forall j | 0 <= j < |cs| :: cs[j] < |k.pcb| && k.pcb[cs[j]].pid > pid
    requires x in cs
    ensures x in PostOrders(k, cs, pid)
    decreases |cs|
  {
    if x == cs[0] {
      assert PostOrder(k, x)[|PostOrder(k, x)| - 1] == x;
    } else {
      PostOrdersHasRoots(k, cs[1..], pid, x);
    }
  }

  lemma {:induction false} PostOrderComplete(k: K, p: nat, x: nat)
    requires ForestOK(k) && p < |k.pcb| && x < |k.pcb| && Descends(k, p, x)
    ensures x in PostOrder(k, p)
    decreases k.pcb[x].pid
  {
    if x == p {
      assert PostOrder(k, p)[|PostOrder(k, p)| - 1] == p;
    } else {
      var y := k.pcb[x].parent.value;
      PostOrderComplete(k, p, y);
      PostOrderClosed(k, p, y, x);
    }
  }

  /** PostOrder lists the descendants of p, each once. */
  lemma {:induction false} PostOrderExact(k: K, p: nat)
    requires ForestOK(k) && p < |k.pcb|
    ensures forall x | 0 <= x < |k.pcb| :: x in PostOrder(k, p) <==> Descends(k, p, x)
    ensures NoDup(PostOrder(k, p))
    ensures |PostOrder(k, p)| > 0 && PostOrder(k, p)[|PostOrder(k, p)| - 1] == p
    decreases k.nextPid - k.pcb[p].pid, 1, 0
  {
    forall x | 0 <= x < |k.pcb| ensures x in PostOrder(k, p) <==> Descends(k, p, x) {
      if x in PostOrder(k, p) { PostOrderSound(k, p, x); }
      if Descends(k, p, x) { PostOrderComplete(k, p, x); }
    }
    var cs := k.kids[p];
    PostOrdersNoDup(k, p, 0);
    assert cs[0..] == cs;
    if p in PostOrders(k, cs, k.pcb[p].pid) {
      var c := PostOrdersSound(k, cs, k.pcb[p].pid, p);
      DescendsAge(k, c, p);
    }
  }

  /** The subtrees of the children from position i on do not overlap. */
  lemma {:induction false} PostOrdersNoDup(k: K, q: nat, i: nat)
    requires ForestOK(k) && q < |k.pcb| && i <= |k.kids[q]|
    ensures NoDup(PostOrders(k, k.kids[q][i..], k.pcb[q].pid))
    decreases k.nextPid - k.pcb[q].pid, 0, |k.kids[q]| - i
  {
    var cs := k.kids[q];
    if i < |cs| {
      PostOrderExact(k, cs[i]);
      PostOrdersNoDup(k, q, i + 1);
      assert cs[i..][1..] == cs[i + 1..];
      LaterSiblingsApart(k, q, i);
      var a, b := PostOrder(k, cs[i]), PostOrders(k, cs[i + 1..], k.pcb[q].pid);
      forall u, v | 0 <= u < v < |a + b| ensures (a + b)[u] != (a + b)[v] {
        if u < |a| <= v {
          assert a[u] in a && b[v - |a|] in b;
        }
      }
    }
  }

  /** A member of child i's subtree is in no later child's subtree. */
  lemma LaterSiblingsApart(k: K, q: nat, i: nat)
    requires ForestOK(k) && q < |k.pcb| && i < |k.kids[q]|
    ensures forall x | x in PostOrder(k, k.kids[q][i]) :: x !in PostOrders(k, k.kids[q][i + 1..], k.pcb[q].pid)
  {
    var cs := k.kids[q];
    forall x | x in PostOrder(k, cs[i])
      ensures x !in PostOrders(k, cs[i + 1..], k.pcb[q].pid)
    {
      if x in PostOrders(k, cs[i + 1..], k.pcb[q].pid) {
        PostOrderSound(k, cs[i], x);
        var c := PostOrdersSound(k, cs[i + 1..], k.pcb[q].pid, x);
        var j :| i + 1 <= j < |cs| && cs[j] == c;
        SiblingsApart(k, q, i, j, x);
      }
    }
  }

  // ---------------------------------------------------------------- children before parents

  /** No element of s comes before one of its descendants. */
  ghost predicate ChildrenFirst(k: K, s: seq<nat>)
    requires ForestOK(k) && forall j | 0 <= j < |s| :: s[j] < |k.pcb|
  {
    forall u, v | 0 <= u < v < |s| :: !Descends(k, s[u], s[v])
  }

  lemma {:induction false} PostOrderChildrenFirst(k: K, p: nat)
    requires ForestOK(k) && p < |k.pcb|
    ensures ChildrenFirst(k, PostOrder(k, p))
    decreases k.nextPid - k.pcb[p].pid, 1, 0
  {
    hide ChildrenOK, ParentsOK, Descends;
    KidsInRange(k, p);
    var cs := k.kids[p];
    var s := PostOrders(k, cs, k.pcb[p].pid);
    assert cs[0..] == cs;
    PostOrdersChildrenFirst(k, p, 0);
    forall u | 0 <= u < |s| ensures !Descends(k, s[u], p) {
      var c := PostOrdersSound(k, cs, k.pcb[p].pid, s[u]);
      DescendsAge(k, c, s[u]);
      if Descends(k, s[u], p) { DescendsAge(k, s[u], p); }
    }
  }

  lemma KidsInRange(k: K, q: nat)
    requires ForestOK(k) && q < |k.pcb|
    ensures q < |k.kids| && forall j | 0 <= j < |k.kids[q]| ::
        k.kids[q][j] < |k.pcb| && k.pcb[k.kids[q][j]].pid > k.pcb[q].pid
    ensures k.pcb[q].pid < k.nextPid
    ensures forall x | 0 <= x < |k.pcb| :: k.pcb[x].pid < k.nextPid
  {
  }

  lemma {:induction false} PostOrdersChildrenFirst(k: K, q: nat, i: nat)
    requires ForestOK(k) && q < |k.pcb| && i <= |k.kids[q]|
    ensures forall j | i <= j < |k.kids[q]| :: k.kids[q][j] < |k.pcb| && k.pcb[k.kids[q][j]].pid > k.pcb[q].pid
    ensures k.pcb[q].pid < k.nextPid && ChildrenFirst(k, PostOrders(k, k.kids[q][i..], k.pcb[q].pid))
    decreases k.nextPid - k.pcb[q].pid, 0, |k.kids[q]| - i
  {
    hide ChildrenOK, ParentsOK, Descends;
    KidsInRange(k, q);
    var cs := k.kids[q];
    if i < |cs| {
      PostOrderChildrenFirst(k, cs[i]);
      PostOrdersChildrenFirst(k, q, i + 1);
      assert cs[i..][1..] == cs[i + 1..];
      var a, b := PostOrder(k, cs[i]), PostOrders(k, cs[i + 1..], k.pcb[q].pid);
      assert PostOrders(k, cs[i..], k.pcb[q].pid) == a + b;
      forall u, v | 0 <= u < |a| && 0 <= v < |b| ensures !Descends(k, a[u], b[v]) {
        PostOrderSound(k, cs[i], a[u]);
        var c := PostOrdersSound(k, cs[i + 1..], k.pcb[q].pid, b[v]);
        var j :| i + 1 <= j < |cs| && cs[j] == c;
        if Descends(k, a[u], b[v]) {
          DescendsTrans(k, cs[i], a[u], b[v]);
          SiblingsApart(k, q, i, j, b[v]);
        }
      }
      forall u, v | 0 <= u < v < |a + b| ensures !Descends(k, (a + b)[u], (a + b)[v]) {
        if u < |a| <= v {
          assert (a + b)[v] == b[v - |a|];
        }
      }
    }
  }

  // ---------------------------------------------------------------- unchanged subtrees

  ghost predicate SameAge(k: K, k': K) {
    |k.pcb| == |k'.pcb| && forall x | 0 <= x < |k.pcb| :: k'.pcb[x].pid == k.pcb[x].pid
  }

  /** The post-order of p only depends on the child lists inside its subtree. */
  lemma {:induction false} PostOrderFrame(k: K, k': K, p: nat)
    requires ForestOK(k) && ForestOK(k') && SameAge(k, k') && p < |k.pcb|
    requires forall x | x in PostOrder(k, p) && x < |k.pcb| :: k'.kids[x] == k.kids[x]
    ensures PostOrder(k', p) == PostOrder(k, p)
    decreases k.nextPid - k.pcb[p].pid, 1, 0
  {
    assert PostOrder(k, p)[|PostOrder(k, p)| - 1] == p;
    PostOrdersFrame(k, k', k.kids[p], k.pcb[p].pid);
  }

  lemma {:induction false} PostOrdersFrame(k: K, k': K, cs: seq<nat>, pid: nat)
    requires ForestOK(k) && ForestOK(k') && SameAge(k, k') && pid < k.nextPid && pid < k'.nextPid
    requires forall j | 0 <= j < |cs| :: cs[j] < |k.pcb| && k.pcb[cs[j]].pid > pid
    requires forall x | x in PostOrders(k, cs, pid) && x < |k.pcb| :: k'.kids[x] == k.kids[x]
    ensures PostOrders(k', cs, pid) == PostOrders(k, cs, pid)
    decreases k.nextPid - pid, 0, |cs|
  {
    if cs != [] {
      PostOrderFrame(k, k', cs[0]);
      PostOrdersFrame(k, k', cs[1..], pid);
    }
  }
}
