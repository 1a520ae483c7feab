/** Sequence vocabulary shared by the list, kernel and paging models. */
module Seqs {

  datatype Option<+T> = None | Some(value: T) {
    function GetOr(default: T): T {
      if Some? then value else default
    }
  }

  /** No element occurs twice. */
  ghost predicate NoDup<T>(s: seq<T>) {
    forall i, j | 0 <= i < j < |s| :: s[i] != s[j]
  }

  function InsertAt<T>(s: seq<T>, i: nat, x: T): (r: seq<T>)
    requires i <= |s|
  {
    s[..i] + [x] + s[i..]
  }

  function RemoveAt<T>(s: seq<T>, i: nat): (r: seq<T>)
    requires i < |s|
  {
    s[..i] + s[i + 1..]
  }

  function Repeat<T>(x: T, n: nat): (r: seq<T>)
    ensures |r| == n && forall i | 0 <= i < n :: r[i] == x
  {
    seq(n, _ => x)
  }

  ghost function Elems<T>(s: seq<T>): set<T> {
    set x | x in s
  }

  /** The elements of s outside gone, in their old order. */
  ghost function Minus<T(!new)>(s: seq<T>, gone: set<T>): (r: seq<T>)
    ensures forall x {:trigger x in r} :: x in r <==> x in s && x !in gone
    ensures |r| <= |s|
  {
    if s == [] then []
    else if s[0] in gone then Minus(s[1..], gone)
    else [s[0]] + Minus(s[1..], gone)
  }

  ghost function Reverse<T(!new)>(s: seq<T>): (r: seq<T>)
    ensures |r| == |s|
    ensures forall x {:trigger x in r} :: x in r <==> x in s
  {
    if s == [] then [] else Reverse(s[1..]) + [s[0]]
  }

  lemma {:induction false} ReverseAt<T(!new)>(s: seq<T>, i: nat)
    requires i < |s|
    ensures Reverse(s)[i] == s[|s| - 1 - i]
  {
    if i < |s| - 1 {
      ReverseAt(s[1..], i);
    }
  }

  lemma {:induction false} ReverseAppend<T(!new)>(s: seq<T>, t: seq<T>)
    ensures Reverse(s + t) == Reverse(t) + Reverse(s)
  {
    if s == [] {
      assert s + t == t;
    } else {
      assert (s + t)[1..] == s[1..] + t;
      ReverseAppend(s[1..], t);
    }
  }

  lemma {:induction false} ReverseNoDup<T(!new)>(s: seq<T>)
    requires NoDup(s)
    ensures NoDup(Reverse(s))
  {
    if s != [] {
      var r := Reverse(s[1..]);
      ReverseNoDup(s[1..]);
      forall j | 0 <= j < |r| ensures r[j] != s[0] {
        assert r[j] in r;
      }
    }
  }

  lemma InsertAtElems<T(!new)>(s: seq<T>, i: nat, x: T)
    requires i <= |s|
    ensures forall y {:trigger y in InsertAt(s, i, x)} :: y in InsertAt(s, i, x) <==> y in s || y == x
    ensures NoDup(s) && x !in s ==> NoDup(InsertAt(s, i, x))
  {
    var r := InsertAt(s, i, x);
    forall y | y in s ensures y in r {
      var j :| 0 <= j < |s| && s[j] == y;
      assert r[if j < i then j else j + 1] == y;
    }
    assert r[i] == x;
  }

  lemma RemoveAtElems<T(!new)>(s: seq<T>, i: nat)
    requires i < |s| && NoDup(s)
    ensures forall y {:trigger y in RemoveAt(s, i)} :: y in RemoveAt(s, i) <==> y in s && y != s[i]
    ensures NoDup(RemoveAt(s, i))
  {
    var r := RemoveAt(s, i);
    forall y | y in s && y != s[i] ensures y in r {
      var j :| 0 <= j < |s| && s[j] == y;
      assert r[if j < i then j else j - 1] == y;
    }
  }

  lemma {:induction false} MinusNothing<T(!new)>(s: seq<T>, gone: set<T>)
    requires forall x | x in s :: x !in gone
    ensures Minus(s, gone) == s
  {
    if s != [] {
      MinusNothing(s[1..], gone);
    }
  }

  lemma {:induction false} MinusTwice<T(!new)>(s: seq<T>, a: set<T>, b: set<T>)
    ensures Minus(Minus(s, a), b) == Minus(s, a + b)
  {
    if s != [] {
      MinusTwice(s[1..], a, b);
      if s[0] !in a {
        assert Minus(s, a)[1..] == Minus(s[1..], a);
      }
    }
  }

  lemma {:induction false} MinusNoDup<T(!new)>(s: seq<T>, gone: set<T>)
    requires NoDup(s)
    ensures NoDup(Minus(s, gone))
  {
    if s != [] {
      var r := Minus(s[1..], gone);
      MinusNoDup(s[1..], gone);
      forall j | 0 <= j < |r| ensures r[j] != s[0] {
        assert r[j] in r;
      }
    }
  }

  lemma {:induction false} MinusAppend<T(!new)>(s: seq<T>, t: seq<T>, gone: set<T>)
    ensures Minus(s + t, gone) == Minus(s, gone) + Minus(t, gone)
  {
    if s == [] {
      assert s + t == t;
    } else {
      assert (s + t)[1..] == s[1..] + t;
      MinusAppend(s[1..], t, gone);
    }
  }

  /** Filtering out exactly a prefix leaves the rest. */
  lemma {:induction false} MinusPrefix<T(!new)>(s: seq<T>, j: nat, gone: set<T>)
    requires j <= |s|
    requires forall i | 0 <= i < j :: s[i] in gone
    requires forall i | j <= i < |s| :: s[i] !in gone
    ensures Minus(s, gone) == s[j..]
  {
    if j == 0 {
      MinusNothing(s, gone);
    } else {
      MinusPrefix(s[1..], j - 1, gone);
    }
  }

  /** Taking out the one occurrence of s[i] is the same as filtering it out. */
  lemma {:induction false} MinusOne<T(!new)>(s: seq<T>, i: nat)
    requires i < |s| && NoDup(s)
    ensures Minus(s, {s[i]}) == RemoveAt(s, i)
  {
    assert s == s[..i] + ([s[i]] + s[i + 1..]);
    MinusAppend(s[..i], [s[i]] + s[i + 1..], {s[i]});
    MinusAppend([s[i]], s[i + 1..], {s[i]});
    MinusNothing(s[..i], {s[i]});
    MinusNothing(s[i + 1..], {s[i]});
  }

  /** A repetition-free sequence is as long as its element set is large. */
  lemma {:induction false} ElemsCard<T>(s: seq<T>)
    requires NoDup(s)
    ensures |Elems(s)| == |s|
  {
    if s == [] {
      assert Elems(s) == {};
    } else {
      ElemsCard(s[1..]);
      assert Elems(s) == {s[0]} + Elems(s[1..]);
      assert s[0] !in Elems(s[1..]);
    }
  }

  ghost function Range(n: nat): (r: set<nat>)
    ensures forall x: nat :: x in r <==> x < n
    ensures |r| == n
  {
    if n == 0 then {} else Range(n - 1) + {n - 1}
  }

  lemma SubsetCard<T>(a: set<T>, b: set<T>)
    requires a <= b
    ensures |a| <= |b|
  {
    assert b == a + (b - a);
  }

  lemma ElemsAppend<T>(s: seq<T>, t: seq<T>)
    ensures Elems(s + t) == Elems(s) + Elems(t)
  {
  }

  /** n - 1, n - 2, .., 0. */
  function Descending(n: nat): (r: seq<nat>)
    ensures |r| == n
    ensures forall j | 0 <= j < n :: r[j] == n - 1 - j
  {
    if n == 0 then [] else [n - 1] + Descending(n - 1)
  }

  lemma DescendingStep(c: nat)
    ensures Descending(0) == []
    ensures Descending(c + 1) == [c] + Descending(c) == InsertAt(Descending(c), 0, c)
  {
  }

  lemma DescendingAll(n: nat)
    ensures forall x :: x in Descending(n) <==> 0 <= x < n
  {
    forall x | 0 <= x < n ensures x in Descending(n) {
      assert Descending(n)[n - 1 - x] == x;
    }
  }
}
