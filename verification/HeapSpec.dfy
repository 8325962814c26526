/**
 * The allocator as a state machine on two values: the live blocks and the roving start node.  The
 * free list does not appear: it is the gaps between the live blocks.
 */
module HeapSpec {
  import opened Units
  import opened Tiling
  import opened FreeRing

  datatype Option<T> = None | Some(value: T)

  /** The live blocks (header unit to length in units) and the node where the next search starts. */
  datatype Heap = Heap(live: Blocks, freep: nat)

  ghost predicate HeapInv(s: Heap, n: nat) {
    Separate(s.live, n) && (s.freep == 0 || s.freep in Gaps(s.live, n))
  }

  /** Going round the ring from `origin` (which comes last), node a comes before node b. */
  predicate Before(origin: nat, a: nat, b: nat) {
    if b > origin then origin < a < b else a > origin || a < b
  }

  /** The lowest chunk in lo..hi that has at least `need` units. */
  ghost function FirstFit(free: Blocks, need: nat, lo: nat, hi: nat): (r: Option<nat>)
    ensures r.Some? ==> r.value in free && free[r.value] >= need && lo <= r.value < hi
    ensures r.Some? ==> forall f :: f in free && lo <= f < r.value ==> free[f] < need
    ensures r.None? ==> forall f :: f in free && lo <= f < hi ==> free[f] < need
    decreases hi - lo
  {
    if lo >= hi then None
    else if lo in free && free[lo] >= need then Some(lo)
    else FirstFit(free, need, lo + 1, hi)
  }

  /** The search of an allocation: the nodes above `freep` first, then those up to and with `freep`. */
  ghost function Chosen(free: Blocks, freep: nat, need: nat, n: nat): (r: Option<nat>)
    ensures r.Some? ==> r.value in free && free[r.value] >= need && r.value >= 1
  {
    var above := FirstFit(free, need, freep + 1, n + 1);
    if above.Some? then above else FirstFit(free, need, 1, freep + 1)
  }

  /** An allocation: the block taken is the tail of the chosen chunk. */
  ghost function Malloc(s: Heap, nbytes: nat, h: HeaderSize): (Heap, Option<nat>) {
    var free := Gaps(s.live, HeapUnits(h));
    var need := UnitsFor(nbytes, h);
    if nbytes > SIZE_ALLOC then (s, None)
    else
      match Chosen(free, s.freep, need, HeapUnits(h))
      case None => (s, None)
      case Some(c) =>
        var b := c + free[c] - need;
        (Heap(s.live[b := need], Pred(free, c)), Some(b))
  }

  lemma MallocNone(s: Heap, nbytes: nat, h: HeaderSize)
    requires nbytes > SIZE_ALLOC || Chosen(Gaps(s.live, HeapUnits(h)), s.freep, UnitsFor(nbytes, h), HeapUnits(h)).None?
    ensures Malloc(s, nbytes, h) == (s, None)
  {
  }

  lemma MallocSome(s: Heap, nbytes: nat, h: HeaderSize, c: nat)
    requires nbytes <= SIZE_ALLOC && Chosen(Gaps(s.live, HeapUnits(h)), s.freep, UnitsFor(nbytes, h), HeapUnits(h)) == Some(c)
    ensures var free, need := Gaps(s.live, HeapUnits(h)), UnitsFor(nbytes, h);
            && c in free && free[c] >= need && c >= 1
            && Malloc(s, nbytes, h).0 == Heap(s.live[c + free[c] - need := need], Pred(free, c))
            && Malloc(s, nbytes, h).1.Some? && Malloc(s, nbytes, h).1.value == c + free[c] - need
  {
  }

  /** p is the last node below b: a free chunk, or the sentinel. */
  ghost predicate LastBelow(free: Blocks, p: nat, b: nat) {
    && p < b && (p == 0 || p in free)
    && forall f :: f in free && f < b ==> f <= p
  }

  /** Giving a live block back; the next search starts at the node before it. */
  ghost function Release(s: Heap, b: nat, n: nat): (r: Heap)
    requires b in s.live && b >= 1
    ensures b !in r.live && LastBelow(Gaps(s.live, n), r.freep, b)
  {
    Heap(s.live - {b}, Pred(Gaps(s.live, n), b))
  }

  /** The chosen chunk is the first one in ring order that is large enough. */
  lemma ChosenIs(free: Blocks, n: nat, freep: nat, need: nat, c: nat)
    requires forall f :: f in free ==> 1 <= f <= n
    requires c in free && free[c] >= need
    requires forall f :: f in free && Before(freep, f, c) ==> free[f] < need
    ensures Chosen(free, freep, need, n) == Some(c)
  {
    var r := Chosen(free, freep, need, n).value;
    assert r != c ==> Before(freep, r, c) || Before(freep, c, r);
  }

  /** No chunk is chosen when none is large enough. */
  lemma ChosenNone(free: Blocks, n: nat, freep: nat, need: nat)
    requires forall f :: f in free ==> free[f] < need
    ensures Chosen(free, freep, need, n) == None
  {
  }
}
