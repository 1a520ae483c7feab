/** Positions of elements in queues. */
module Positions {
  import opened Seqs

  /** How many elements stand before the first x. */
  ghost function Pos<T>(q: seq<T>, x: T): (i: nat)
    requires x in q
    ensures i < |q| && q[i] == x
  {
    if q[0] == x then 0 else 1 + Pos(q[1..], x)
  }

  /** x and y wait in q, x first. */
  ghost predicate Before<T>(q: seq<T>, x: T, y: T) {
    x in q && y in q && Pos(q, x) < Pos(q, y)
  }

  lemma {:induction false} PosAt<T>(q: seq<T>, i: nat)
    requires NoDup(q) && i < |q|
    ensures Pos(q, q[i]) == i
  {
    if i > 0 {
      assert q[0] != q[i] && q[1..][i - 1] == q[i];
      PosAt(q[1..], i - 1);
    }
  }

  lemma {:induction false} PosAppend<T>(q: seq<T>, r: seq<T>, x: T)
    requires x in q
    ensures x in q + r && Pos(q + r, x) == Pos(q, x)
  {
    assert (q + r)[Pos(q, x)] == x;
    if q[0] != x {
      assert (q + r)[1..] == q[1..] + r;
      PosAppend(q[1..], r, x);
    }
  }

  lemma PosTail<T>(q: seq<T>, x: T)
    requires x in q && q[0] != x
    ensures x in q[1..] && Pos(q[1..], x) == Pos(q, x) - 1
  {
  }

  /** Filtering can only move survivors forward, and keeps their order. */
  lemma {:induction false} PosMinus<T(!new)>(q: seq<T>, gone: set<T>, x: T)
    requires x in q && x !in gone
    ensures x in Minus(q, gone) && Pos(Minus(q, gone), x) <= Pos(q, x)
  {
    if q[0] != x {
      PosMinus(q[1..], gone, x);
      if q[0] !in gone {
        assert Minus(q, gone)[1..] == Minus(q[1..], gone);
      }
    }
  }

  lemma {:induction false} BeforeMinus<T(!new)>(q: seq<T>, gone: set<T>, x: T, y: T)
    requires Before(q, x, y) && x !in gone && y !in gone
    ensures Before(Minus(q, gone), x, y)
  {
    PosMinus(q, gone, x);
    PosMinus(q, gone, y);
    if q[0] == x {
      if Minus(q, gone)[0] == y { assert false; }
    } else {
      BeforeMinus(q[1..], gone, x, y);
      if q[0] !in gone {
        assert Minus(q, gone)[1..] == Minus(q[1..], gone);
      }
    }
  }

  /** Splicing z in at position i shifts exactly what stood at i or later. */
  lemma {:induction false} PosInsert<T(!new)>(q: seq<T>, i: nat, z: T, x: T)
    requires i <= |q| && x in q && x != z
    ensures x in InsertAt(q, i, z)
    ensures Pos(InsertAt(q, i, z), x) == if Pos(q, x) < i then Pos(q, x) else Pos(q, x) + 1
  {
    var r := InsertAt(q, i, z);
    InsertAtElems(q, i, z);
    if i == 0 {
      assert r[1..] == q;
    } else if q[0] != x {
      assert r[1..] == InsertAt(q[1..], i - 1, z);
      PosInsert(q[1..], i - 1, z, x);
    }
  }

  lemma {:induction false} PosInserted<T(!new)>(q: seq<T>, i: nat, z: T)
    requires i <= |q| && z !in q
    ensures z in InsertAt(q, i, z) && Pos(InsertAt(q, i, z), z) == i
  {
    var r := InsertAt(q, i, z);
    InsertAtElems(q, i, z);
    if i > 0 {
      assert r[1..] == InsertAt(q[1..], i - 1, z);
      PosInserted(q[1..], i - 1, z);
    }
  }
}
