/** Page tables, swap pool, TLB and backing store (phase3/vmSupport.c, phase3/initProc.c). */
module VmState {
  import opened Seqs

  const USERPGTBLSIZE: nat := 32
  const STACK_PAGE: nat := 0xBFFFF
  const FIRST_PAGE: nat := 0x80000

  // ---------------------------------------------------------------- page numbers

  /** pte_entryHI of page table entry i, as initSupportStructure fills it in. */
  function EntryHi(i: nat, asid: nat): nat {
    (if i == USERPGTBLSIZE - 1 then STACK_PAGE else FIRST_PAGE + i) * 0x1000 + asid * 0x40
  }

  /** findPageIndex. */
  function FindPageIndex(entryHi: nat): int {
    var vpn := entryHi / 0x1000;
    if vpn == STACK_PAGE then USERPGTBLSIZE - 1 else vpn - FIRST_PAGE
  }

  /** The ASID readFromDevice takes out of an entry. */
  function AsidOf(entryHi: nat): nat {
    entryHi % 0x1000 / 0x40
  }

  /** The page index and the ASID of an entry are recovered from its pte_entryHI. */
  lemma EntryHiRoundTrip(i: nat, asid: nat)
    requires i < USERPGTBLSIZE && asid < 0x40
    ensures FindPageIndex(EntryHi(i, asid)) == i && AsidOf(EntryHi(i, asid)) == asid
    ensures EntryHi(i, asid) / 0x1000 == if i == 31 then 0xBFFFF else 0x80000 + i
    ensures EntryHi(i, asid) % 0x1000 == 64 * asid
  {
    var vpn := if i == USERPGTBLSIZE - 1 then STACK_PAGE else FIRST_PAGE + i;
    var low := asid * 0x40;
    assert EntryHi(i, asid) == vpn * 0x1000 + low && low < 0x1000;
    assert EntryHi(i, asid) / 0x1000 == vpn;
    assert EntryHi(i, asid) % 0x1000 == low;
  }

  // ---------------------------------------------------------------- memory

  /** A page of a process's address space, and so its page table entry. */
  datatype Key = Key(asid: nat, page: nat)

  /** pte_entryLO: the VALID bit and the swap pool frame. */
  datatype Pte = Pte(valid: bool, frame: nat)

  datatype TlbEntry = TlbEntry(key: Key, pte: Pte)

  type Page = seq<int>

  /** swap_pool, the frames, the page tables, the flash devices, the TLB and frameIndex.
      A frame's sw_asid, sw_pageNo and sw_pte are one key, None standing for sw_asid == -1. */
  datatype Mem = Mem(
    pool: seq<Option<Key>>,
    frames: seq<Page>,
    pt: map<Key, Pte>,
    flash: map<Key, Page>,
    tlb: seq<Option<TlbEntry>>,
    hand: nat)

  /** initSupportStructure leaves every entry without VALID. */
  function PteOf(pt: map<Key, Pte>, k: Key): Pte {
    if k in pt then pt[k] else Pte(false, 0)
  }

  /** The contents of a flash block, or of a page of flat memory. */
  function PageAt(m: map<Key, Page>, k: Key): Page {
    if k in m then m[k] else []
  }

  // ---------------------------------------------------------------- the TLB

  /** Both invalid, or the same mapping; frames of invalid entries mean nothing. */
  predicate Agree(p: Pte, q: Pte) {
    p.valid == q.valid && (p.valid ==> p.frame == q.frame)
  }

  /** Entry i is for page k. */
  predicate Maps(tlb: seq<Option<TlbEntry>>, i: nat, k: Key) {
    i < |tlb| && tlb[i].Some? && tlb[i].value.key == k
  }

  /** No page has two TLB entries. */
  ghost predicate TlbUnique(tlb: seq<Option<TlbEntry>>) {
    forall i, j | 0 <= i < j < |tlb| && tlb[i].Some? && tlb[j].Some? :: tlb[i].value.key != tlb[j].value.key
  }

  /** TLBP: the first entry for k. */
  function Probe(tlb: seq<Option<TlbEntry>>, k: Key): (r: Option<nat>)
    ensures r.Some? ==> r.value < |tlb| && tlb[r.value].Some? && tlb[r.value].value.key == k
    ensures r == None ==> forall i | 0 <= i < |tlb| && tlb[i].Some? :: tlb[i].value.key != k
  {
    if tlb == [] then None
    else if tlb[0].Some? && tlb[0].value.key == k then Some(0)
    else
      var r := Probe(tlb[1..], k);
      if r == None then (assert forall i | 1 <= i < |tlb| :: tlb[i] == tlb[1..][i - 1]; None) else Some(r.value + 1)
  }

  /** TLBWI if k is present. */
  function Rewrite(tlb: seq<Option<TlbEntry>>, k: Key, pte: Pte): seq<Option<TlbEntry>> {
    var i := Probe(tlb, k);
    if i == None then tlb else tlb[i.value := Some(TlbEntry(k, pte))]
  }

  /** TLBWI if k is present, else TLBWR, the hardware choosing slot. */
  function Enter(tlb: seq<Option<TlbEntry>>, k: Key, pte: Pte, slot: nat): seq<Option<TlbEntry>>
    requires slot < |tlb|
  {
    if Probe(tlb, k) == None then tlb[slot := Some(TlbEntry(k, pte))] else Rewrite(tlb, k, pte)
  }

  // ---------------------------------------------------------------- what the pager does

  /** The first free frame at or after c. */
  function FreeFrom(pool: seq<Option<Key>>, c: nat): (r: Option<nat>)
    requires c <= |pool|
    ensures r.Some? ==> c <= r.value < |pool| && pool[r.value] == None && forall i | c <= i < r.value :: pool[i].Some?
    ensures r == None ==> forall i | c <= i < |pool| :: pool[i].Some?
    decreases |pool| - c
  {
    if c == |pool| then None else if pool[c] == None then Some(c) else FreeFrom(pool, c + 1)
  }

  /** Every frame is occupied. */
  ghost predicate Full(pool: seq<Option<Key>>) {
    forall d | 0 <= d < |pool| :: pool[d].Some?
  }

  /** c is the least free frame. */
  ghost predicate FirstFree(pool: seq<Option<Key>>, c: nat) {
    c < |pool| && pool[c] == None && forall d | 0 <= d < c :: pool[d].Some?
  }

  /** pageReplacement: a free frame if there is one, else the next one round robin. */
  function Choose(m: Mem): (r: (Mem, nat))
    requires |m.pool| > 0
    ensures r.1 < |m.pool| && r.0 == m.(hand := r.0.hand)
    ensures FirstFree(m.pool, r.1) ==> r.0.hand == m.hand
    ensures Full(m.pool) ==> r.0.hand == m.hand + 1 && r.1 == r.0.hand % |m.pool|
    ensures FirstFree(m.pool, r.1) || Full(m.pool)
  {
    var free := FreeFrom(m.pool, 0);
    if free.Some? then (m, free.value) else (m.(hand := m.hand + 1), (m.hand + 1) % |m.pool|)
  }

  /** The atomic part of writeToDevice: the old owner's entry loses VALID, in the TLB too. */
  function Invalidate(m: Mem, c: nat): Mem
    requires c < |m.pool| && m.pool[c].Some?
  {
    var k := m.pool[c].value;
    var pte := PteOf(m.pt, k).(valid := false);
    m.(pt := m.pt[k := pte], tlb := Rewrite(m.tlb, k, pte))
  }

  /** The flash device has stored frame c in its owner's block. */
  function WriteBack(m: Mem, c: nat): Mem
    requires c < |m.pool| && c < |m.frames| && m.pool[c].Some?
  {
    m.(flash := m.flash[m.pool[c].value := m.frames[c]])
  }

  /** The flash device has filled frame c with the block of k. */
  function ReadIn(m: Mem, k: Key, c: nat): Mem
    requires c < |m.frames|
  {
    m.(frames := m.frames[c := PageAt(m.flash, k)])
  }

  /** The atomic end of pager: frame c now belongs to k, whose entry becomes valid. */
  function Install(m: Mem, k: Key, c: nat, slot: nat): Mem
    requires c < |m.pool| && slot < |m.tlb|
  {
    m.(pool := m.pool[c := Some(k)], pt := m.pt[k := Pte(true, c)], tlb := Enter(m.tlb, k, Pte(true, c), slot))
  }

  /** uTLB_RefillHandler. */
  function Refill(m: Mem, k: Key, slot: nat): Mem
    requires slot < |m.tlb|
  {
    m.(tlb := m.tlb[slot := Some(TlbEntry(k, PteOf(m.pt, k)))])
  }

  /** freeSwapFrames. */
  function FreeFrames(pool: seq<Option<Key>>, asid: nat): (r: seq<Option<Key>>)
    ensures |r| == |pool|
    ensures forall c | 0 <= c < |pool| ::
              r[c] == if pool[c].Some? && pool[c].value.asid == asid then None else pool[c]
  {
    if pool == [] then []
    else
      var c := |pool| - 1;
      FreeFrames(pool[..c], asid) + [if pool[c].Some? && pool[c].value.asid == asid then None else pool[c]]
  }

  // ---------------------------------------------------------------- what a whole pager call keeps

  /** The page a program sees. */
  function Contents(m: Mem, k: Key): Page {
    var pte := PteOf(m.pt, k);
    if pte.valid && pte.frame < |m.frames| then m.frames[pte.frame] else PageAt(m.flash, k)
  }

  /** Swap pool and the page tables of the ASIDs in live are inverse to each other. */
  ghost predicate Inverse(m: Mem, live: set<nat>) {
    && (forall c | 0 <= c < |m.pool| && m.pool[c].Some? ::
          m.pool[c].value.asid in live && PteOf(m.pt, m.pool[c].value) == Pte(true, c))
    && (forall k: Key | k.asid in live && PteOf(m.pt, k).valid ::
          PteOf(m.pt, k).frame < |m.pool| && m.pool[PteOf(m.pt, k).frame] == Some(k))
  }

  /** The owner of frame c, if any, written out and unmapped. */
  function Evicted(m: Mem, c: nat): (n: Mem)
    requires c < |m.pool| == |m.frames|
    ensures |n.pool| == |n.frames| && |n.pool| == |m.pool| && |n.tlb| == |m.tlb|
  {
    if m.pool[c] == None then m else WriteBack(Invalidate(m, c), c)
  }

  /** Frame c taken away from its owner and given to page k. */
  function Served(m: Mem, k: Key, c: nat, slot: nat): Mem
    requires c < |m.pool| == |m.frames| && slot < |m.tlb|
  {
    Install(ReadIn(Evicted(m, c), k, c), k, c, slot)
  }

  /** The evicted page's contents are in the flash device, nobody else's have moved. */
  lemma EvictionKeeps(m: Mem, c: nat, live: set<nat>)
    requires c < |m.pool| == |m.frames| && Inverse(m, live)
    ensures var n := Evicted(m, c);
            && n.pool == m.pool
            && (forall j: Key | j.asid in live :: Contents(n, j) == Contents(m, j))
            && (forall j: Key :: PteOf(n.pt, j) == if Some(j) == m.pool[c] then Pte(false, c) else PteOf(m.pt, j))
            && (forall j: Key | j.asid in live && PteOf(n.pt, j).valid :: PteOf(n.pt, j).frame != c)
  {
    hide Rewrite;
  }

  /** A whole pager call: k is mapped, every page keeps its contents, and the swap pool stays
      inverse to the page tables. */
  lemma ServedKeeps(m: Mem, k: Key, c: nat, slot: nat, live: set<nat>)
    requires c < |m.pool| == |m.frames| && slot < |m.tlb| && Inverse(m, live) && k.asid in live && !PteOf(m.pt, k).valid
    ensures var n := Served(m, k, c, slot);
            && Inverse(n, live) && PteOf(n.pt, k) == Pte(true, c)
            && forall j: Key | j.asid in live :: Contents(n, j) == Contents(m, j)
  {
    hide Enter, Evicted;
    EvictionKeeps(m, c, live);
    var e, n := Evicted(m, c), Served(m, k, c, slot);
    assert forall j: Key :: PteOf(n.pt, j) == if j == k then Pte(true, c) else PteOf(e.pt, j);
    forall j: Key | j.asid in live ensures Contents(n, j) == Contents(e, j) {
    }
  }

  /** frameIndex is no part of anybody's memory. */
  lemma HandAside(m: Mem, n: Mem, live: set<nat>)
    requires n == m.(hand := n.hand)
    ensures (Inverse(n, live) <==> Inverse(m, live)) && forall j: Key :: Contents(n, j) == Contents(m, j)
  {
  }

  // ---------------------------------------------------------------- round robin

  /** Faults one after the other with all n frames occupied: whatever happens to the memory in
      between, frameIndex is where the last one left it. */
  ghost predicate Consecutive(ms: seq<Mem>, n: nat) {
    && n > 0 && (forall i | 0 <= i < |ms| :: |ms[i].pool| == n && Full(ms[i].pool))
    && (forall i | 0 <= i < |ms| - 1 :: ms[i + 1].hand == Choose(ms[i]).0.hand)
  }

  lemma {:induction false} HandAt(ms: seq<Mem>, n: nat, i: nat)
    requires Consecutive(ms, n) && i < |ms|
    ensures ms[i].hand == ms[0].hand + i && Choose(ms[i]).1 == (ms[0].hand + i + 1) % n
  {
    hide Choose;
    if i > 0 {
      HandAt(ms, n, i - 1);
      assert ms[i - 1 + 1].hand == Choose(ms[i - 1]).0.hand;
    }
  }

  /** Numbers less than n apart leave different remainders. */
  lemma RemaindersDiffer(a: nat, b: nat, n: nat)
    requires a < b < a + n
    ensures a % n != b % n
  {
    var q := b / n - a / n;
    assert b - a == n * q + (b % n - a % n);
    Multiples(q, n);
  }

  lemma Multiples(q: int, n: nat)
    ensures n * q <= 0 || n * q >= n
  {
    if q >= 1 {
      assert n * q == n * (q - 1) + n;
    }
  }

  /** The frames picked. */
  ghost function Picks(ms: seq<Mem>): (cs: seq<nat>)
    requires forall i | 0 <= i < |ms| :: |ms[i].pool| > 0
    ensures |cs| == |ms| && forall i | 0 <= i < |ms| :: cs[i] == Choose(ms[i]).1
  {
    seq(|ms|, i requires 0 <= i < |ms| => Choose(ms[i]).1)
  }

  /** Any n consecutive replacements with all n frames occupied take every frame exactly once. */
  lemma RoundRobin(ms: seq<Mem>, n: nat)
    requires Consecutive(ms, n) && |ms| == n
    ensures NoDup(Picks(ms)) && Elems(Picks(ms)) == Range(n)
  {
    hide Choose, Picks;
    var cs := Picks(ms);
    forall i, j | 0 <= i < j < n ensures cs[i] != cs[j] {
      HandAt(ms, n, i);
      HandAt(ms, n, j);
      RemaindersDiffer(ms[0].hand + i + 1, ms[0].hand + j + 1, n);
    }
    ElemsCard(cs);
    AllOfThem(Elems(cs), n);
  }

  /** n different numbers below n are all of them. */
  lemma AllOfThem(s: set<nat>, n: nat)
    requires |s| == n && forall x | x in s :: x < n
    ensures s == Range(n)
  {
    var rest := Range(n) - s;
    assert Range(n) == s + rest;
    assert |rest| == 0;
  }
}
