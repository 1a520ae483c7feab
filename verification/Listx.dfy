/** Circular intrusive doubly linked lists (headers/listx.h).

    An Arena holds every list_head cell of one link family, for instance all the cells
    that a PCB's p_list may be chained with.  Cell numbers play the part of addresses:
    cells 0..n-1 are embedded in the n records of a static table, so container_of is the
    identity on them, and cells n..n+m-1 are the m sentinel heads. */
module Listx {
  import opened Seqs

  /** Cell at position j of the ring h, s[0], .., s[|s|-1], h. */
  ghost function Cell(h: nat, s: seq<nat>, j: int): nat
    requires -1 <= j <= |s|
  {
    if 0 <= j < |s| then s[j] else h
  }

  /** The ring is linked both ways between positions j-1 and j. */
  ghost predicate Linked(next: seq<nat>, prev: seq<nat>, h: nat, s: seq<nat>, j: nat)
    requires j <= |s|
  {
    var p, q := Cell(h, s, j - 1), Cell(h, s, j);
    p < |next| && q < |prev| && next[p] == q && prev[q] == p
  }

  /** Following next from h visits exactly s and comes back, and prev is its inverse. */
  ghost predicate Ring(next: seq<nat>, prev: seq<nat>, h: nat, s: seq<nat>) {
    |next| == |prev| && forall j | 0 <= j <= |s| :: Linked(next, prev, h, s, j)
  }

  /** Positions of a ring are different cells, except that the head is at both ends. */
  lemma CellsDiffer(h: nat, s: seq<nat>, i: int, j: int)
    requires NoDup(s) && h !in s && -1 <= i < j <= |s| && (0 <= i || j < |s|)
    ensures Cell(h, s, i) != Cell(h, s, j)
  {
    if 0 <= i && j < |s| {
      assert s[i] != s[j];
    }
  }

  lemma RingFrame(next: seq<nat>, prev: seq<nat>, next': seq<nat>, prev': seq<nat>, h: nat, s: seq<nat>)
    requires Ring(next, prev, h, s)
    requires |next'| == |prev'| == |next|
    requires h < |next| && next'[h] == next[h] && prev'[h] == prev[h]
    requires forall x | x in s :: x < |next| && next'[x] == next[x] && prev'[x] == prev[x]
    ensures Ring(next', prev', h, s)
  {
    forall j | 0 <= j <= |s| ensures Linked(next', prev', h, s, j) {
      assert Linked(next, prev, h, s, j);
      assert j > 0 ==> s[j - 1] in s;
      assert j < |s| ==> s[j] in s;
    }
  }

  /** The four assignments of __list_add splice x in at position i. */
  lemma RingInsert(next: seq<nat>, prev: seq<nat>, h: nat, s: seq<nat>, i: nat, x: nat, p: nat, q: nat)
    requires Ring(next, prev, h, s) && NoDup(s) && h !in s
    requires i <= |s| && x !in s && x != h && x < |next|
    requires p == Cell(h, s, i - 1) && q == Cell(h, s, i)
    ensures p < |next| && q < |next|
    ensures Ring(next[x := q][p := x], prev[q := x][x := p], h, InsertAt(s, i, x))
  {
    assert Linked(next, prev, h, s, i);
    var t, nx, pv := InsertAt(s, i, x), next[x := q][p := x], prev[q := x][x := p];
    forall j | 0 <= j <= |t| ensures Linked(nx, pv, h, t, j) {
      if j < i {
        assert Linked(next, prev, h, s, j);
        CellsDiffer(h, s, j - 1, i - 1);
        CellsDiffer(h, s, j, i);
      } else if j > i + 1 {
        assert Linked(next, prev, h, s, j - 1);
        CellsDiffer(h, s, i - 1, j - 2);
        CellsDiffer(h, s, i, j - 1);
      }
    }
  }

  /** The assignments of list_del close the ring over position i and leave x looping on itself. */
  lemma RingRemove(next: seq<nat>, prev: seq<nat>, h: nat, s: seq<nat>, i: nat, x: nat, p: nat, q: nat)
    requires Ring(next, prev, h, s) && NoDup(s) && h !in s && i < |s|
    requires x == s[i] && p == Cell(h, s, i - 1) && q == Cell(h, s, i + 1)
    ensures x < |next| && p < |next| && q < |next|
    ensures next[x] == q && prev[x] == p
    ensures Ring(next[p := q][x := x], prev[q := p][x := x], h, RemoveAt(s, i))
  {
    assert Linked(next, prev, h, s, i) && Linked(next, prev, h, s, i + 1);
    var t, nx, pv := RemoveAt(s, i), next[p := q][x := x], prev[q := p][x := x];
    CellsDiffer(h, s, i - 1, i);
    CellsDiffer(h, s, i, i + 1);
    forall j | 0 <= j <= |t| ensures Linked(nx, pv, h, t, j) {
      if j < i {
        assert Linked(next, prev, h, s, j);
        CellsDiffer(h, s, j - 1, i - 1);
        CellsDiffer(h, s, j - 1, i);
        CellsDiffer(h, s, j, i);
        CellsDiffer(h, s, j, i + 1);
      } else if j > i {
        assert Linked(next, prev, h, s, j + 1);
        CellsDiffer(h, s, i - 1, j);
        CellsDiffer(h, s, i, j);
        CellsDiffer(h, s, i, j + 1);
        CellsDiffer(h, s, i + 1, j + 1);
      }
    }
  }

  /** Only table cells are chained, none twice and none in two lists. */
  ghost predicate Separate(n: nat, lists: seq<seq<nat>>, live: set<nat>) {
    && (forall h, x | 0 <= h < |lists| && x in lists[h] :: x < n && h in live)
    && (forall h | 0 <= h < |lists| :: NoDup(lists[h]))
    && (forall h, g, x | 0 <= h < |lists| && 0 <= g < |lists| && x in lists[h] && x in lists[g] :: h == g)
  }

  lemma SeparateInsert(n: nat, lists: seq<seq<nat>>, live: set<nat>, h: nat, i: nat, x: nat)
    requires Separate(n, lists, live) && h < |lists| && h in live && i <= |lists[h]| && x < n
    requires forall g | 0 <= g < |lists| :: x !in lists[g]
    ensures Separate(n, lists[h := InsertAt(lists[h], i, x)], live)
  {
    InsertAtElems(lists[h], i, x);
  }

  lemma SeparateRemove(n: nat, lists: seq<seq<nat>>, live: set<nat>, h: nat, i: nat)
    requires Separate(n, lists, live) && h < |lists| && i < |lists[h]|
    ensures Separate(n, lists[h := RemoveAt(lists[h], i)], live)
    ensures var after := lists[h := RemoveAt(lists[h], i)]; forall g | 0 <= g < |lists| :: lists[h][i] !in after[g]
  {
    RemoveAtElems(lists[h], i);
    assert lists[h][i] in lists[h];
  }

  /** A cell of list h is neither the head nor an element of another list. */
  lemma OwnCell(n: nat, lists: seq<seq<nat>>, live: set<nat>, h: nat, j: int)
    requires Separate(n, lists, live) && h < |lists| && -1 <= j <= |lists[h]|
    ensures forall g | 0 <= g < |lists| && g != h :: Cell(n + h, lists[h], j) !in [n + g] + lists[g]
  {
    assert 0 <= j < |lists[h]| ==> lists[h][j] in lists[h];
  }

  class Arena {
    const n: nat
    const m: nat
    const next: array<nat>
    const prev: array<nat>
    ghost var lists: seq<seq<nat>>  // lists[h] is what is chained behind head n + h
    ghost var live: set<nat>        // heads that went through INIT_LIST_HEAD

    ghost predicate Valid()
      reads this, next, prev
    {
      && next.Length == prev.Length == n + m
      && next != prev
      && |lists| == m
      && Separate(n, lists, live)
      && (forall h | h in live :: h < m)
      && Chained()
    }

    /** Every initialised head is a ring through its list. */
    ghost predicate Chained()
      requires next.Length == prev.Length == n + m && |lists| == m
      reads this, next, prev
    {
      forall h | h in live && h < m :: Ring(next[..], prev[..], n + h, lists[h])
    }

    /** x is chained in no list. */
    ghost predicate Loose(x: nat)
      reads this
    {
      forall h | 0 <= h < |lists| :: x !in lists[h]
    }

    lemma Apart(h: nat)
      requires Valid() && h < m
      ensures NoDup(lists[h]) && forall x | x in lists[h] :: x < n && forall g | 0 <= g < m && g != h :: x !in lists[g]
    {
    }

    /** Positions j-1 and j of an initialised list are next and prev of each other. */
    lemma Hop(h: nat, j: nat)
      requires Valid() && h in live && j <= |lists[h]|
      ensures next.Length == prev.Length == n + m
      ensures Cell(n + h, lists[h], j - 1) < n + m && Cell(n + h, lists[h], j) < n + m
      ensures next[Cell(n + h, lists[h], j - 1)] == Cell(n + h, lists[h], j)
      ensures prev[Cell(n + h, lists[h], j)] == Cell(n + h, lists[h], j - 1)
    {
      assert Linked(next[..], prev[..], n + h, lists[h], j);
    }

    /** Statically allocated, hence zeroed, cells: no head is initialised yet. */
    constructor (elements: nat, heads: nat)
      ensures Valid() && n == elements && m == heads
      ensures fresh(this) && fresh(next) && fresh(prev)
      ensures live == {} && lists == Repeat([], heads)
    {
      n, m := elements, heads;
      next, prev := new nat[elements + heads](_ => 0), new nat[elements + heads](_ => 0);
      lists, live := Repeat([], heads), {};
    }

    /** INIT_LIST_HEAD on a head: whatever was chained behind it is forgotten. */
    method InitListHead(h: nat)
      requires Valid() && h < m
      modifies this, next, prev
      ensures Valid()
      ensures lists == old(lists)[h := []] && live == old(live) + {h}
    {
      ghost var nx: seq<nat>, pv: seq<nat> := next[..], prev[..];
      next[n + h] := n + h;
      prev[n + h] := n + h;
      lists, live := lists[h := []], live + {h};
      forall g | g in live && g != h ensures g < m && Ring(next[..], prev[..], n + g, lists[g]) {
        RingFrame(nx, pv, next[..], prev[..], n + g, lists[g]);
      }
    }

    /** INIT_LIST_HEAD on a table cell that is chained nowhere. */
    method InitCell(x: nat)
      requires Valid() && x < n && Loose(x)
      modifies next, prev
      ensures Valid()
    {
      ghost var nx: seq<nat>, pv: seq<nat> := next[..], prev[..];
      next[x] := x;
      prev[x] := x;
      forall g | g in live ensures Ring(next[..], prev[..], n + g, lists[g]) {
        RingFrame(nx, pv, next[..], prev[..], n + g, lists[g]);
      }
    }

    /** __list_add(new, prev, next), between positions i-1 and i of list h. */
    method ListAddBetween(x: nat, p: nat, q: nat, ghost h: nat, ghost i: nat)
      requires Valid() && h in live && x < n && Loose(x) && i <= |lists[h]|
      requires p == Cell(n + h, lists[h], i - 1) && q == Cell(n + h, lists[h], i)
      modifies this, next, prev
      ensures Valid()
      ensures lists == old(lists)[h := InsertAt(old(lists)[h], i, x)] && live == old(live)
    {
      ghost var nx: seq<nat>, pv: seq<nat>, ls := next[..], prev[..], lists;
      RingInsert(nx, pv, n + h, ls[h], i, x, p, q);
      OwnCell(n, ls, live, h, i - 1);
      OwnCell(n, ls, live, h, i);
      SeparateInsert(n, ls, live, h, i, x);
      prev[q] := x;
      next[x] := q;
      prev[x] := p;
      next[p] := x;
      lists := lists[h := InsertAt(lists[h], i, x)];
      assert next[..] == nx[x := q][p := x] && prev[..] == pv[q := x][x := p];
      forall g | g in live && g != h ensures Ring(next[..], prev[..], n + g, lists[g]) {
        RingFrame(nx, pv, next[..], prev[..], n + g, lists[g]);
      }
    }

    /** list_add(new, at): x goes right behind the cell at, which is position i-1 of list h. */
    method ListAdd(x: nat, at: nat, ghost h: nat, ghost i: nat)
      requires Valid() && h in live && x < n && Loose(x) && i <= |lists[h]|
      requires at == Cell(n + h, lists[h], i - 1)
      modifies this, next, prev
      ensures Valid()
      ensures lists == old(lists)[h := InsertAt(old(lists)[h], i, x)] && live == old(live)
    {
      assert Linked(next[..], prev[..], n + h, lists[h], i);
      ListAddBetween(x, at, next[at], h, i);
    }

    /** list_add_tail(new, head). */
    method ListAddTail(x: nat, h: nat)
      requires Valid() && h in live && x < n && Loose(x)
      modifies this, next, prev
      ensures Valid()
      ensures lists == old(lists)[h := old(lists)[h] + [x]] && live == old(live)
    {
      ghost var k := |lists[h]|;
      assert InsertAt(lists[h], k, x) == lists[h] + [x];
      assert Linked(next[..], prev[..], n + h, lists[h], k);
      ListAddBetween(x, prev[n + h], n + h, h, k);
    }

    /** list_del(entry): position i of list h is unchained and left looping on itself. */
    method ListDel(x: nat, ghost h: nat, ghost i: nat)
      requires Valid() && h in live && i < |lists[h]| && lists[h][i] == x
      modifies this, next, prev
      ensures Valid() && x < n && next[x] == x && prev[x] == x
      ensures lists == old(lists)[h := RemoveAt(old(lists)[h], i)] && live == old(live)
      ensures Loose(x)
    {
      ghost var nx: seq<nat>, pv: seq<nat>, ls := next[..], prev[..], lists;
      ghost var before, after := Cell(n + h, ls[h], i - 1), Cell(n + h, ls[h], i + 1);
      RingRemove(nx, pv, n + h, ls[h], i, x, before, after);
      OwnCell(n, ls, live, h, i - 1);
      OwnCell(n, ls, live, h, i + 1);
      SeparateRemove(n, ls, live, h, i);
      assert x in ls[h];
      var p, q := prev[x], next[x];
      prev[q] := p;
      next[p] := q;
      next[x] := x;
      prev[x] := x;
      lists := lists[h := RemoveAt(lists[h], i)];
      assert next[..] == nx[p := q][x := x] && prev[..] == pv[q := p][x := x];
      forall g | g in live && g != h ensures Ring(next[..], prev[..], n + g, lists[g]) {
        RingFrame(nx, pv, next[..], prev[..], n + g, lists[g]);
      }
    }

    /** list_empty(head). */
    method ListEmpty(h: nat) returns (empty: bool)
      requires Valid() && h in live
      ensures empty <==> lists[h] == []
    {
      assert Linked(next[..], prev[..], n + h, lists[h], 0);
      empty := next[n + h] == n + h;
      assert lists[h] != [] ==> lists[h][0] in lists[h];
    }
  }
}
