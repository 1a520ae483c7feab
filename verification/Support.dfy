/** The pool of support structures (phase3/initProc.c). */
module Supports {
  import opened Seqs
  import opened Listx

  class SupportPool {
    const links: Arena   // s_list cells with the head supportFree_h

    ghost predicate Valid()
      reads this, links, links.next, links.prev
    {
      links.Valid() && links.m == 1 && links.live == {0}
    }

    /** The structures not assigned, first to be allocated first. */
    ghost function Free(): seq<nat>
      requires links.m == |links.lists| == 1
      reads this, links
    {
      links.lists[0]
    }

    /** test()'s loop over supportPool. */
    constructor (uprocmax: nat)
      ensures Valid() && links.n == uprocmax && Free() == Descending(uprocmax)
      ensures fresh(links) && fresh(links.next) && fresh(links.prev)
    {
      hide Arena.Valid, Descending;
      var l := new Arena(uprocmax, 1);
      links := l;
      new;
      l.InitListHead(0);
      DescendingStep(0);
      for i := 0 to uprocmax
        invariant l.Valid() && l.n == uprocmax && l.m == 1 && l.live == {0}
        invariant l.lists == [Descending(i)]
        invariant fresh(l) && fresh(l.next) && fresh(l.prev)
      {
        DescendingStep(i);
        assert l.Loose(i);
        l.ListAdd(i, uprocmax, 0, 0);
      }
    }

    /** deallocateSupport. */
    method Deallocate(sup: nat)
      requires Valid() && sup < links.n && |links.lists| == 1 && sup !in Free()
      modifies links, links.next, links.prev
      ensures Valid() && |links.lists| == 1 && Free() == [sup] + old(Free())
    {
      assert InsertAt(Free(), 0, sup) == [sup] + Free();
      links.ListAdd(sup, links.n, 0, 0);
    }

    /** allocateSupport: NULL iff none is free. */
    method Allocate() returns (r: Option<nat>)
      requires Valid() && |links.lists| == 1
      modifies links, links.next, links.prev
      ensures Valid() && |links.lists| == 1
      ensures old(Free()) == [] ==> r == None && Free() == []
      ensures old(Free()) != [] ==> r == Some(old(Free())[0]) && Free() == old(Free())[1..]
    {
      var empty := links.ListEmpty(0);
      if empty {
        return None;
      }
      links.Hop(0, 0);
      var entry := links.next[links.n];
      assert RemoveAt(Free(), 0) == Free()[1..];
      links.ListDel(entry, 0, 0);
      r := Some(entry);
    }
  }
}
