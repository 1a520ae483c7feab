/** The pager's data and the pieces of code between its blocking points
    (phase3/vmSupport.c, uTLB_RefillHandler), as they change it in place. */
module Pagers {
  import opened Seqs
  import opened VmState

  class Pager {
    const swapPool: array<Option<Key>>
    var frames: seq<Page>
    var pgTbl: map<Key, Pte>            // the sup_privatePgTbl of all support structures
    var flash: map<Key, Page>
    var tlb: seq<Option<TlbEntry>>
    var frameIndex: nat

    ghost predicate Valid()
      reads this
    {
      |frames| == swapPool.Length > 0
    }

    ghost function Abs(): Mem
      reads this, swapPool
    {
      Mem(swapPool[..], frames, pgTbl, flash, tlb, frameIndex)
    }

    /** initSwapStructs, with the swap frames, the flash devices and the TLB as found. */
    constructor (frames: seq<Page>, flash: map<Key, Page>, tlb: seq<Option<TlbEntry>>)
      requires |frames| > 0
      ensures Valid() && fresh(swapPool)
      ensures Abs() == Mem(Repeat(None, |frames|), frames, map[], flash, tlb, 0)
    {
      swapPool := new Option<Key>[|frames|](_ => Some(Key(0, 0)));
      this.frames, this.flash, this.tlb := frames, flash, tlb;
      pgTbl, frameIndex := map[], 0;
      new;
      for i := 0 to swapPool.Length
        invariant swapPool[..i] == Repeat(None, i)
        invariant this.frames == frames && this.flash == flash && this.tlb == tlb && pgTbl == map[] && frameIndex == 0
      {
        swapPool[i] := None;
        assert swapPool[..i + 1] == swapPool[..i] + [None];
      }
      assert swapPool[..] == swapPool[..swapPool.Length];
    }

    /** pageReplacement: the least free frame if there is one, frameIndex staying as it is, else
        the next one round robin. */
    method PageReplacement() returns (c: nat)
      requires Valid()
      modifies this`frameIndex
      ensures Valid() && (Abs(), c) == Choose(old(Abs()))
      ensures c < swapPool.Length
      ensures (exists d :: 0 <= d < swapPool.Length && swapPool[d] == None) ==>
                swapPool[c] == None && (forall d | 0 <= d < c :: swapPool[d] != None) && frameIndex == old(frameIndex)
      ensures (forall d | 0 <= d < swapPool.Length :: swapPool[d] != None) ==>
                frameIndex == old(frameIndex) + 1 && c == frameIndex % swapPool.Length
    {
      ghost var pool := swapPool[..];
      for i := 0 to swapPool.Length
        invariant FreeFrom(pool, 0) == FreeFrom(pool, i)
        invariant unchanged(this)
      {
        if swapPool[i] == None {
          return i;
        }
      }
      frameIndex := frameIndex + 1;
      c := frameIndex % swapPool.Length;
    }

    /** writeToDevice up to the write command: the page in frame c has no valid entry any more,
        in the page table or in the TLB; its frame and all other entries are as before. */
    method ClearValid(c: nat)
      requires Valid() && c < swapPool.Length && swapPool[c].Some?
      modifies this`pgTbl, this`tlb
      ensures Valid() && Abs() == Invalidate(old(Abs()), c)
      ensures var k := swapPool[c].value;
              && (forall j: Key :: PteOf(pgTbl, j) ==
                                   if j == k then Pte(false, old(PteOf(pgTbl, k)).frame) else old(PteOf(pgTbl, j)))
              && (TlbUnique(old(tlb)) ==> TlbUnique(tlb) && forall i: nat | Maps(tlb, i, k) :: !tlb[i].value.pte.valid)
              && |tlb| == old(|tlb|)
              && (forall i | 0 <= i < |tlb| :: tlb[i] == old(tlb)[i] || (Maps(tlb, i, k) && Maps(old(tlb), i, k)))
    {
      var k := swapPool[c].value;
      pgTbl := pgTbl[k := PteOf(pgTbl, k).(valid := false)];
      var index := Probe(tlb, k);
      if index != None {
        tlb := tlb[index.value := Some(TlbEntry(k, PteOf(pgTbl, k)))];
      }
    }

    /** The write command completes: the owner's block holds the frame, other blocks are as before. */
    method FlashWrite(c: nat)
      requires Valid() && c < swapPool.Length && swapPool[c].Some?
      modifies this`flash
      ensures Valid() && Abs() == WriteBack(old(Abs()), c)
      ensures forall j: Key :: PageAt(flash, j) == if Some(j) == swapPool[c] then frames[c] else old(PageAt(flash, j))
    {
      flash := flash[swapPool[c].value := frames[c]];
    }

    /** The read command of readFromDevice completes: frame c holds the block of k, other frames
        are as before. */
    method FlashRead(k: Key, c: nat)
      requires Valid() && c < swapPool.Length
      modifies this`frames
      ensures Valid() && Abs() == ReadIn(old(Abs()), k, c)
      ensures forall d | 0 <= d < |frames| :: frames[d] == if d == c then PageAt(flash, k) else old(frames)[d]
    {
      frames := frames[c := PageAt(flash, k)];
    }

    /** The atomic section that ends pager: frame c belongs to k, whose page table entry and
        whose one TLB entry are valid and name c; everything else is as before, but for the TLB
        slot the hardware picked if k had none. */
    method InstallPage(k: Key, c: nat, random: nat)
      requires Valid() && c < swapPool.Length && random < |tlb|
      modifies this`pgTbl, this`tlb, swapPool
      ensures Valid() && Abs() == Install(old(Abs()), k, c, random)
      ensures forall d | 0 <= d < swapPool.Length :: swapPool[d] == if d == c then Some(k) else old(swapPool[d])
      ensures forall j: Key :: PteOf(pgTbl, j) == if j == k then Pte(true, c) else old(PteOf(pgTbl, j))
      ensures TlbUnique(old(tlb)) ==>
                && TlbUnique(tlb) && (forall i: nat | Maps(tlb, i, k) :: tlb[i].value.pte == Pte(true, c))
                && exists i: nat :: Maps(tlb, i, k)
      ensures |tlb| == old(|tlb|)
      ensures forall i | 0 <= i < |tlb| ::
                tlb[i] == old(tlb)[i] || (Maps(tlb, i, k) && (Maps(old(tlb), i, k) || i == random))
    {
      swapPool[c] := Some(k);
      pgTbl := pgTbl[k := PteOf(pgTbl, k).(valid := true)];
      pgTbl := pgTbl[k := pgTbl[k].(frame := c)];
      var newIndex := Probe(tlb, k);
      if newIndex != None {
        tlb := tlb[newIndex.value := Some(TlbEntry(k, pgTbl[k]))];
        assert Maps(tlb, newIndex.value, k);
      } else {
        tlb := tlb[random := Some(TlbEntry(k, pgTbl[k]))];
        assert Maps(tlb, random, k);
      }
    }

    /** uTLB_RefillHandler: after a TLB miss on k its one entry is the page table's, the other
        slots are as before. */
    method RefillTlb(k: Key, random: nat)
      requires Valid() && random < |tlb|
      modifies this`tlb
      ensures Valid() && Abs() == Refill(old(Abs()), k, random)
      ensures Maps(tlb, random, k) && tlb[random].value.pte == PteOf(pgTbl, k)
      ensures |tlb| == old(|tlb|) && forall i | 0 <= i < |tlb| && i != random :: tlb[i] == old(tlb)[i]
      ensures TlbUnique(old(tlb)) && (forall i: nat :: !Maps(old(tlb), i, k)) ==>
                TlbUnique(tlb) && forall i: nat | Maps(tlb, i, k) :: i == random
    {
      tlb := tlb[random := Some(TlbEntry(k, PteOf(pgTbl, k)))];
      assert forall i | 0 <= i < |tlb| && i != random && tlb[i].Some? :: Maps(old(tlb), i, tlb[i].value.key);
    }

    /** pager from PASSEREN to VERHOGEN, undisturbed, with the ASIDs in live: k is paged in, and
        no page of any of them has changed. */
    method PageFault(k: Key, random: nat, ghost live: set<nat>)
      requires Valid() && random < |tlb| && k.asid in live
      requires Inverse(Abs(), live) && TlbUnique(tlb) && !PteOf(pgTbl, k).valid
      modifies this, swapPool
      ensures Valid() && Inverse(Abs(), live) && TlbUnique(tlb) && PteOf(pgTbl, k).valid
      ensures forall j: Key | j.asid in live :: Contents(Abs(), j) == Contents(old(Abs()), j)
      ensures forall i: nat | Maps(tlb, i, k) :: tlb[i].value.pte == PteOf(pgTbl, k)
    {
      hide Invalidate, WriteBack, ReadIn, Install, Choose, Contents, Inverse, TlbUnique;
      ghost var m := Abs();
      var c := PageReplacement();
      HandAside(m, Abs(), live);
      m := Abs();
      if swapPool[c] != None {
        ClearValid(c);
        FlashWrite(c);
      }
      FlashRead(k, c);
      InstallPage(k, c, random);
      ServedKeeps(m, k, c, random, live);
    }

    /** freeSwapFrames. */
    method FreeSwapFrames(asid: nat)
      requires Valid()
      modifies swapPool
      ensures Valid() && Abs() == old(Abs()).(pool := FreeFrames(old(Abs()).pool, asid))
    {
      ghost var pool := swapPool[..];
      for c := 0 to swapPool.Length
        invariant swapPool[..c] == FreeFrames(pool, asid)[..c] && swapPool[c..] == pool[c..]
      {
        assert swapPool[c] == pool[c] by { assert swapPool[c..][0] == pool[c..][0]; }
        assert swapPool[c + 1..] == swapPool[c..][1..] && pool[c + 1..] == pool[c..][1..];
        if swapPool[c].Some? && swapPool[c].value.asid == asid {
          swapPool[c] := None;
        }
        assert swapPool[..c + 1] == swapPool[..c] + [swapPool[c]];
      }
      assert swapPool[..] == FreeFrames(pool, asid);
    }
  }
}
