/** Whole runs of the allocator. */
module HeapRuns {
  import opened Units
  import opened Tiling
  import opened FreeRing
  import opened HeapSpec
  import opened Merging
  import opened Accounting
  import opened Allocators

  datatype Op = Allocate(nbytes: nat) | Dispose(block: nat)

  /** Clients give back live blocks only (memory.h:29). */
  predicate Allowed(s: Heap, op: Op) {
    op.Dispose? ==> op.block in s.live && op.block >= 1
  }

  ghost function Step(s: Heap, op: Op, h: HeaderSize): Heap
    requires Allowed(s, op)
  {
    match op
    case Allocate(nbytes) => Malloc(s, nbytes, h).0
    case Dispose(b) => Release(s, b, HeapUnits(h))
  }

  ghost predicate Legal(s: Heap, ops: seq<Op>, h: HeaderSize)
    decreases |ops|
  {
    ops == [] || (Allowed(s, ops[0]) && Legal(Step(s, ops[0], h), ops[1..], h))
  }

  ghost function Run(s: Heap, ops: seq<Op>, h: HeaderSize): Heap
    requires Legal(s, ops, h)
    decreases |ops|
  {
    if ops == [] then s else Run(Step(s, ops[0], h), ops[1..], h)
  }

  /** The state that `initMemory` leaves. */
  const Initial := Heap(map[], 0)

  /** An empty heap is one free chunk. */
  lemma EmptyHeap(n: nat)
    requires n >= 1
    ensures Gaps(map[], n) == map[1 := n]
    ensures HeapInv(Initial, n)
  {
    var whole := map[1 := n];
    var m := whole + map[];
    assert m == whole;
    assert WellTiled(whole, map[], n);
    FreeChunksAreGaps(whole, map[], n);
  }

  /** The block an allocation yields lies in a former gap; nothing else changes. */
  lemma MallocBlock(s: Heap, nbytes: nat, h: HeaderSize)
    requires HeapInv(s, HeapUnits(h)) && Malloc(s, nbytes, h).1.Some?
    ensures var (s', r) := Malloc(s, nbytes, h);
            var b, need := r.value, UnitsFor(nbytes, h);
            && s'.live == s.live[b := need] && b !in s.live
            && 1 <= b && b + need <= HeapUnits(h) + 1
            && (forall u :: b <= u < b + need ==> !Covered(s.live, u))
            && nbytes <= (need - 1) * h < nbytes + h
            && 0 < b * h < SIZE_ALLOC
            && WellTiled(Taken(Gaps(s.live, HeapUnits(h)), Chosen(Gaps(s.live, HeapUnits(h)), s.freep, need, HeapUnits(h)).value, need),
                         s'.live, HeapUnits(h))
  {
    hide HeapInv, Gaps, Taken, Chosen, WellTiled, UnitsFor, Covered, HeapUnits;
    var n, need := HeapUnits(h), UnitsFor(nbytes, h);
    var free := Gaps(s.live, n);
    var c := Chosen(free, s.freep, need, n).value;
    ManyUnits(h);
    InvGaps(s, n);
    PayloadFits(nbytes, h);
    TailBlock(free, s.live, n, c, need);
    PayloadInHeap(c + free[c] - need, h);
  }

  lemma InvGaps(s: Heap, n: nat)
    requires HeapInv(s, n) && n >= 1
    ensures WellTiled(Gaps(s.live, n), s.live, n)
  {
    hide Gaps, WellTiled;
    GapsComplete(s.live, n);
  }

  lemma ManyUnits(h: HeaderSize)
    ensures HeapUnits(h) >= 1
  {
  }

  /** The last units of a chunk, as a block. */
  lemma TailBlock(free: Blocks, live: Blocks, n: nat, c: nat, need: nat)
    requires WellTiled(free, live, n) && c in free && 1 <= need <= free[c]
    ensures var b := c + free[c] - need;
            && b !in live && 1 <= b && b + need <= n + 1
            && (forall u :: b <= u < b + need ==> !Covered(live, u))
            && WellTiled(Taken(free, c, need), live[b := need], n)
  {
    hide WellTiled, Covered, Taken;
    var b := c + free[c] - need;
    TakenWellTiled(free, live, n, c, need);
    TakenFresh(free, live, n, c, need);
    ChunkFacts(free, live, n, c);
    forall u | b <= u < b + need ensures !Covered(live, u) {
      FreeUncovered(free, live, n, c, u);
    }
  }

  /** The gaps after an allocation are the old ones with the tail of one chunk taken. */
  lemma MallocKeeps(s: Heap, nbytes: nat, h: HeaderSize)
    requires HeapInv(s, HeapUnits(h))
    ensures HeapInv(Malloc(s, nbytes, h).0, HeapUnits(h))
    ensures Malloc(s, nbytes, h).1.Some? ==>
              var need := UnitsFor(nbytes, h);
              var free := Gaps(s.live, HeapUnits(h));
              Gaps(Malloc(s, nbytes, h).0.live, HeapUnits(h)) ==
              Taken(free, Chosen(free, s.freep, need, HeapUnits(h)).value, need)
  {
    if Malloc(s, nbytes, h).1.Some? {
      MallocBlock(s, nbytes, h);
      var n, need := HeapUnits(h), UnitsFor(nbytes, h);
      var free := Gaps(s.live, n);
      var c := Chosen(free, s.freep, need, n).value;
      FreeChunksAreGaps(Taken(free, c, need), Malloc(s, nbytes, h).0.live, n);
    }
  }

  /** The gaps after a block is given back are the old ones with the block merged in. */
  lemma ReleaseKeeps(s: Heap, b: nat, n: nat)
    requires HeapInv(s, n) && n >= 1 && b in s.live && b >= 1
    ensures HeapInv(Release(s, b, n), n)
    ensures Gaps(s.live - {b}, n) == Merged(Gaps(s.live, n), s.live, b)
  {
    hide Gaps, WellTiled;
    var free := Gaps(s.live, n);
    GapsComplete(s.live, n);
    MergedWellTiled(free, s.live, n, b);
    FreeChunksAreGaps(Merged(free, s.live, b), s.live - {b}, n);
    PredStays(free, s.live, b);
  }

  /** The node before b is still a node once b is merged in. */
  lemma PredStays(free: Blocks, live: Blocks, b: nat)
    requires b in live && b >= 1
    ensures Pred(free, b) == 0 || Pred(free, b) in Merged(free, live, b)
  {
    var p := Pred(free, b);
    assert p < b <= End(live, b);
  }

  lemma {:induction false} RunKeeps(s: Heap, ops: seq<Op>, h: HeaderSize)
    requires HeapInv(s, HeapUnits(h)) && Legal(s, ops, h)
    ensures HeapInv(Run(s, ops, h), HeapUnits(h))
    decreases |ops|
  {
    if ops != [] {
      match ops[0] {
        case Allocate(nbytes) => MallocKeeps(s, nbytes, h);
        case Dispose(b) => ReleaseKeeps(s, b, HeapUnits(h));
      }
      RunKeeps(Step(s, ops[0], h), ops[1..], h);
    }
  }

  /**
   * Safety over every run: the free chunks and the live blocks tile the heap exactly, no two free
   * chunks touch, and the next search starts at a node of the ring.
   */
  lemma RunTiles(ops: seq<Op>, h: HeaderSize)
    requires Legal(Initial, ops, h)
    ensures var s := Run(Initial, ops, h);
            var n := HeapUnits(h);
            && WellTiled(Gaps(s.live, n), s.live, n)
            && (s.freep == 0 || s.freep in Gaps(s.live, n))
            && forall u :: 1 <= u <= n ==> InOneBlock(Gaps(s.live, n) + s.live, u)
  {
    var n := HeapUnits(h);
    EmptyHeap(n);
    RunKeeps(Initial, ops, h);
    var s := Run(Initial, ops, h);
    GapsComplete(s.live, n);
    hide InOneBlock, Gaps, Run, Legal;
    forall u | 1 <= u <= n ensures InOneBlock(Gaps(s.live, n) + s.live, u) {
      TilesPartition(Gaps(s.live, n) + s.live, n, u);
    }
  }

  /** An allocation fails exactly when the request exceeds the heap or no free chunk is large enough. */
  lemma MallocFails(s: Heap, nbytes: nat, h: HeaderSize)
    requires HeapInv(s, HeapUnits(h))
    ensures var free := Gaps(s.live, HeapUnits(h));
            Malloc(s, nbytes, h).1.None? <==>
              nbytes > SIZE_ALLOC || forall f :: f in free ==> free[f] < UnitsFor(nbytes, h)
  {
    hide Gaps, Taken, Pred;
    var free := Gaps(s.live, HeapUnits(h));
    forall f | f in free ensures 1 <= f <= HeapUnits(h) {
      GapIn(s.live, HeapUnits(h), f);
    }
    if forall f :: f in free ==> free[f] < UnitsFor(nbytes, h) {
      ChosenNone(free, HeapUnits(h), s.freep, UnitsFor(nbytes, h));
    }
  }

  /** First fit in ring order: every chunk met before the chosen one is too small. */
  lemma MallocFirstFit(s: Heap, nbytes: nat, h: HeaderSize)
    requires HeapInv(s, HeapUnits(h)) && Malloc(s, nbytes, h).1.Some?
    ensures var free := Gaps(s.live, HeapUnits(h));
            var need := UnitsFor(nbytes, h);
            exists c :: c in free && Malloc(s, nbytes, h).1.value == End(free, c) - need
              && free[c] >= need
              && (forall f :: f in free && Before(s.freep, f, c) ==> free[f] < need)
              && Malloc(s, nbytes, h).0.freep == Pred(free, c)
  {
    var n, free, need := HeapUnits(h), Gaps(s.live, HeapUnits(h)), UnitsFor(nbytes, h);
    var c := Chosen(free, s.freep, need, n).value;
    assert Malloc(s, nbytes, h).1.value == End(free, c) - need;
  }

  /** Round trip: giving an allocated block back at once restores every chunk; only `freep` may move. */
  lemma RoundTrip(s: Heap, nbytes: nat, h: HeaderSize)
    requires HeapInv(s, HeapUnits(h)) && Malloc(s, nbytes, h).1.Some?
    ensures var (s', r) := Malloc(s, nbytes, h);
            && r.value in s'.live && r.value >= 1
            && Release(s', r.value, HeapUnits(h)).live == s.live
            && Gaps(Release(s', r.value, HeapUnits(h)).live, HeapUnits(h)) == Gaps(s.live, HeapUnits(h))
  {
    hide Gaps, Malloc;
    MallocBlock(s, nbytes, h);
    var (s', r) := Malloc(s, nbytes, h);
    assert s'.live - {r.value} == s.live;
  }

  /** What a release leaves at the block: a chunk of its own, or the end of the chunk before it. */
  lemma ReleasedChunk(s: Heap, b: nat, n: nat)
    requires HeapInv(s, n) && n >= 1 && b in s.live && b >= 1
    ensures var s' := Release(s, b, n);
            var free := Gaps(s'.live, n);
            && LastBelow(free, s'.freep, b)
            && (b !in free ==> s'.freep in free && End(free, s'.freep) > b)
  {
    hide Gaps, WellTiled, MergedPrev, MergedNext;
    var free, p := Gaps(s.live, n), Pred(Gaps(s.live, n), b);
    GapsComplete(s.live, n);
    ReleaseKeeps(s, b, n);
    LongTile(free, s.live, n, b);
    MergedKeys(free, s.live, n, b, b);
    MergedKeys(free, s.live, n, b, p);
    forall f | f in Merged(free, s.live, b) && f < b ensures f <= p {
      MergedKeys(free, s.live, n, b, f);
    }
    if b !in Merged(free, s.live, b) {
      MergedLength(free, s.live, n, b, p);
    }
  }

  /** Another chunk that is large enough comes before the one where the search starts. */
  lemma OtherFirst(free: Blocks, n: nat, freep: nat, need: nat, f: nat)
    requires forall g :: g in free ==> 1 <= g <= n
    requires f in free && f != freep && free[f] >= need
    ensures Chosen(free, freep, need, n).Some? && Chosen(free, freep, need, n).value != freep
  {
  }

  /**
   * Where a request goes after a release: the search meets the chunk of the released block first,
   * unless the block was merged with the chunk before it; then it comes to that chunk last.
   */
  lemma MallocAfterRelease(s: Heap, b: nat, nbytes: nat, h: HeaderSize)
    requires HeapInv(s, HeapUnits(h)) && b in s.live && b >= 1 && nbytes <= SIZE_ALLOC
    ensures var n, need := HeapUnits(h), UnitsFor(nbytes, h);
            var s' := Release(s, b, n);
            var free := Gaps(s'.live, n);
            var r := Malloc(s', nbytes, h).1;
            if b in free then
              free[b] >= need ==> r == Some(End(free, b) - need)
            else
              && s'.freep in free && s'.freep < b < End(free, s'.freep)
              && ((exists f :: f in free && f != s'.freep && free[f] >= need) ==>
                    exists f :: f in free && f != s'.freep && free[f] >= need && r == Some(End(free, f) - need))
  {
    hide Gaps, HeapInv, UnitsFor, Chosen, Release, Malloc, HeapUnits;
    var n, need := HeapUnits(h), UnitsFor(nbytes, h);
    var s' := Release(s, b, n);
    var free := Gaps(s'.live, n);
    ManyUnits(h);
    ReleasedChunk(s, b, n);
    forall f | f in free ensures 1 <= f <= n {
      GapIn(s'.live, n, f);
    }
    if b in free && free[b] >= need {
      ChosenIs(free, n, s'.freep, need, b);
      MallocSome(s', nbytes, h, b);
    } else if f :| b !in free && f in free && f != s'.freep && free[f] >= need {
      OtherFirst(free, n, s'.freep, need, f);
      MallocSome(s', nbytes, h, Chosen(free, s'.freep, need, n).value);
    }
  }

  /** A sequence of blocks to give back, as operations. */
  function Disposals(order: seq<nat>): seq<Op> {
    if order == [] then [] else [Dispose(order[0])] + Disposals(order[1..])
  }

  /**
   * Blocks may be given back in any order: the outcome depends on the set of blocks only.  Two
   * orders leave the same live blocks, hence the same gaps.
   */
  lemma {:induction false} DisposeAnyOrder(s: Heap, order: seq<nat>, h: HeaderSize)
    requires HeapInv(s, HeapUnits(h))
    requires forall i :: 0 <= i < |order| ==> order[i] in s.live
    requires forall i, j :: 0 <= i < j < |order| ==> order[i] != order[j]
    ensures Legal(s, Disposals(order), h)
    ensures Run(s, Disposals(order), h).live == s.live - (set b | b in order)
    decreases |order|
  {
    hide Gaps, HeapInv, Pred;
    if order == [] {
      assert s.live - (set b | b in order) == s.live;
    } else {
      var b, rest := order[0], order[1..];
      LiveAboveBase(s, b, HeapUnits(h));
      ReleaseKeeps(s, b, HeapUnits(h));
      var s' := Release(s, b, HeapUnits(h));
      forall i | 0 <= i < |rest| ensures rest[i] in s'.live {
        assert rest[i] == order[i + 1];
      }
      DisposeAnyOrder(s', rest, h);
      assert Disposals(order)[0] == Dispose(b) && Disposals(order)[1..] == Disposals(rest);
      DisposedSets(s.live, order);
    }
  }

  lemma LiveAboveBase(s: Heap, b: nat, n: nat)
    requires HeapInv(s, n) && b in s.live
    ensures b >= 1
  {
  }

  lemma DisposedSets(live: Blocks, order: seq<nat>)
    requires order != []
    ensures live - (set b | b in order) == live - {order[0]} - (set b | b in order[1..])
  {
    forall x ensures x in order <==> x == order[0] || x in order[1..] {
      assert order == [order[0]] + order[1..];
    }
  }

  /** Giving back everything, in any order and after any run, leaves the one initial chunk. */
  lemma DisposeEverything(ops: seq<Op>, order: seq<nat>, h: HeaderSize)
    requires Legal(Initial, ops, h)
    requires forall b :: b in order <==> b in Run(Initial, ops, h).live
    requires forall i, j :: 0 <= i < j < |order| ==> order[i] != order[j]
    ensures var s := Run(Initial, ops, h);
            Legal(s, Disposals(order), h)
            && Gaps(Run(s, Disposals(order), h).live, HeapUnits(h)) == map[1 := HeapUnits(h)]
  {
    EmptyHeap(HeapUnits(h));
    RunKeeps(Initial, ops, h);
    var s := Run(Initial, ops, h);
    DisposeAnyOrder(s, order, h);
    assert s.live - (set b | b in order) == map[];
  }

  /** The free chunks end at live blocks or at the end of the heap, and no two end together. */
  lemma ChunkEnds(free: Blocks, live: Blocks, n: nat)
    requires WellTiled(free, live, n)
    ensures forall f :: f in free ==> End(free, f) in live.Keys + {n + 1}
    ensures forall f, g {:trigger End(free, f), End(free, g)} :: f in free && g in free && f < g ==> End(free, f) < End(free, g)
  {
    forall f | f in free ensures End(free, f) in live.Keys + {n + 1} {
      ChunkEnd(free, live, n, f);
    }
    forall f, g | f in free && g in free && f < g ensures End(free, f) < End(free, g) {
      ChunkFacts(free, live, n, g);
      assert f in free + live && g in free + live;
      assert (free + live)[f] == free[f];
    }
  }

  lemma ChunkEnd(free: Blocks, live: Blocks, n: nat, f: nat)
    requires WellTiled(free, live, n) && f in free
    ensures End(free, f) in live || End(free, f) == n + 1
  {
    assert End(free + live, f) == End(free, f);
    assert f in free + live;
  }

  /** Different ends, so as many ends as chunks. */
  lemma {:induction false} DistinctEnds(free: Blocks, some: set<nat>)
    requires some <= free.Keys
    requires forall f, g {:trigger End(free, f), End(free, g)} :: f in free && g in free && f < g ==> End(free, f) < End(free, g)
    ensures |set f | f in some :: End(free, f)| == |some|
  {
    if some == {} {
      assert (set f | f in some :: End(free, f)) == {};
    } else {
      var x :| x in some;
      DistinctEnds(free, some - {x});
      OneMoreEnd(free, some, x);
    }
  }

  lemma OneMoreEnd(free: Blocks, some: set<nat>, x: nat)
    requires some <= free.Keys && x in some
    requires forall f, g {:trigger End(free, f), End(free, g)} :: f in free && g in free && f < g ==> End(free, f) < End(free, g)
    ensures var rest := set f | f in some - {x} :: End(free, f);
            (set f | f in some :: End(free, f)) == rest + {End(free, x)} && End(free, x) !in rest
  {
    hide End;
    var ends, rest := set f | f in some :: End(free, f), set f | f in some - {x} :: End(free, f);
    forall e | e in ends ensures e in rest + {End(free, x)} {
      var f :| f in some && End(free, f) == e;
      assert f != x ==> f in some - {x};
    }
    forall f | f in some - {x} ensures End(free, f) in ends {
      assert f in some;
    }
  }

  lemma FewChunks(free: Blocks, live: Blocks, n: nat)
    requires WellTiled(free, live, n)
    ensures |free| <= |live| + 1
  {
    ChunkEnds(free, live, n);
    hide WellTiled;
    DistinctEnds(free, free.Keys);
    FewEnds(free, live, n);
  }

  lemma FewEnds(free: Blocks, live: Blocks, n: nat)
    requires forall f :: f in free ==> End(free, f) in live.Keys + {n + 1}
    ensures |set f | f in free.Keys :: End(free, f)| <= |live| + 1
  {
    hide End;
    SubsetSize(set f | f in free.Keys :: End(free, f), live.Keys + {n + 1});
  }

  /** Fragmentation bound: there is at most one more free chunk than there are live blocks. */
  lemma Fragmentation(live: Blocks, n: nat)
    requires Separate(live, n) && n >= 1
    ensures |Gaps(live, n)| <= |live| + 1
  {
    hide *;
    GapsComplete(live, n);
    FewChunks(Gaps(live, n), live, n);
  }

  lemma {:induction false} SubsetSize(a: set<nat>, b: set<nat>)
    requires a <= b
    ensures |a| <= |b|
  {
    if a != {} {
      var x :| x in a;
      SubsetSize(a - {x}, b - {x});
    }
  }

  /** Chunks of at most k units each add up to at most k times their number. */
  lemma {:induction false} TotalBound(m: Blocks, k: nat, u: nat)
    requires forall b :: b in m ==> m[b] <= k
    ensures Total(m, u) <= |m| * k
    decreases |m|
  {
    if m == map[] {
      TotalSkips(m, 0, u);
    } else {
      var b :| b in m;
      TotalRemove(m, b, u);
      assert |m - {b}| == |m| - 1 by {
        assert (m - {b}).Keys == m.Keys - {b};
      }
      TotalBound(m - {b}, k, u);
      OneMore(|m|, k);
    }
  }

  lemma OneMore(c: nat, k: nat)
    requires c >= 1
    ensures (c - 1) * k + k == c * k
  {
  }

  lemma MulMonotone(a: nat, b: nat, k: nat)
    requires a <= b
    ensures a * k <= b * k
  {
  }

  /**
   * With L live blocks a request cannot fail for fragmentation as long as more than
   * (L + 1) * (units - 1) units are free.
   */
  lemma MallocSucceeds(s: Heap, nbytes: nat, h: HeaderSize)
    requires HeapInv(s, HeapUnits(h)) && nbytes <= SIZE_ALLOC
    requires Total(Gaps(s.live, HeapUnits(h)), HeapUnits(h) + 1) > (|s.live| + 1) * (UnitsFor(nbytes, h) - 1)
    ensures Malloc(s, nbytes, h).1.Some?
  {
    hide Gaps, Malloc, Total, UnitsFor, Separate;
    PayloadFits(nbytes, h);
    var n, free, k := HeapUnits(h), Gaps(s.live, HeapUnits(h)), UnitsFor(nbytes, h) - 1;
    MallocFails(s, nbytes, h);
    Fragmentation(s.live, n);
    if forall f :: f in free ==> free[f] < k + 1 {
      TotalBound(free, k, n + 1);
      MulMonotone(|free|, |s.live| + 1, k);
    }
  }

  /** Conservation over every run: free and live units always add up to the whole heap. */
  lemma RunConserves(ops: seq<Op>, h: HeaderSize)
    requires Legal(Initial, ops, h)
    ensures var s := Run(Initial, ops, h);
            Total(Gaps(s.live, HeapUnits(h)), HeapUnits(h) + 1) + Total(s.live, HeapUnits(h) + 1) == HeapUnits(h)
  {
    RunTiles(ops, h);
    var s := Run(Initial, ops, h);
    FreePlusLive(Gaps(s.live, HeapUnits(h)), s.live, HeapUnits(h));
  }

  /**
   * Canonical memory: two representations of the same live blocks have the same ring, the same
   * links and the same chunk lengths, whatever the calls that led to them.
   */
  lemma SameMemory(ring: seq<nat>, free: Blocks, ptr: seq<int>, size: seq<int>, code: seq<int>,
                   ring': seq<nat>, free': Blocks, ptr': seq<int>, size': seq<int>, code': seq<int>,
                   live: Blocks, n: nat)
    requires Represents(ring, free, live, n, ptr, size, code)
    requires Represents(ring', free', live, n, ptr', size', code')
    ensures ring == ring' && free == free'
    ensures forall i :: 0 <= i < |ring| ==> ptr[ring[i]] == ptr'[ring[i]] && size[ring[i]] == size'[ring[i]]
  {
    RepresentsGaps(ring, free, live, n, ptr, size, code);
    RepresentsGaps(ring', free', live, n, ptr', size', code');
    forall x ensures x in ring <==> x in ring' {
      NodesAre(ring, free);
      NodesAre(ring', free);
    }
    RingUnique(ring, ring');
    forall i | 0 <= i < |ring| ensures ptr[ring[i]] == ptr'[ring[i]] && size[ring[i]] == size'[ring[i]] {
      assert ptr[ring[i]] == After(ring, i) && ptr'[ring[i]] == After(ring, i);
      assert i > 0 ==> ring[i] in free;
    }
  }

  /** The round trip in memory: the same nodes with the same links and lengths as before. */
  method MallocThenFree(a: Allocator, nbytes: nat) returns (r: Option<nat>)
    requires a.Valid() && a.freep != NULL
    modifies a, a.ptr, a.size, a.code
    ensures a.Valid() && a.freep != NULL
    ensures a.live == old(a.live) && a.free == old(a.free) && a.ring == old(a.ring)
    ensures forall i :: 0 <= i < |a.ring| ==>
              a.ptr[..][a.ring[i]] == old(a.ptr[..])[a.ring[i]] && a.size[..][a.ring[i]] == old(a.size[..])[a.ring[i]]
  {
    hide Represents, Gaps, Malloc, Release, HeapInv, Separate, Ascending, Linked, Nodes, Disjoint, Allocator.MayFree, Allocator.Refused;
    a.AbsInv();
    ghost var ring, free := a.ring, a.free;
    ghost var links, sizes, codes := a.ptr[..], a.size[..], a.code[..];
    ghost var s := a.Abs();
    r := a.GMalloc(nbytes);
    if r.Some? {
      RoundTrip(s, nbytes, a.h);
      a.LivePointerAccepted(Malloc(s, nbytes, a.h).1.value);
      a.GFree(r);
    }
    a.AbsInv();
    SameMemory(ring, free, links, sizes, codes, a.ring, a.free, a.ptr[..], a.size[..], a.code[..], a.live, a.N());
  }

  /**
   * Every run of the allocator on its arrays is the run of the specification with the same calls:
   * what is proved of all runs holds of the memory.
   */
  method Execute(a: Allocator, ops: seq<Op>)
    requires a.Valid() && a.freep != NULL && Legal(a.Abs(), ops, a.h)
    modifies a, a.ptr, a.size, a.code
    ensures a.Valid() && a.freep != NULL && a.Abs() == Run(old(a.Abs()), ops, a.h)
    decreases |ops|
  {
    hide Represents, Malloc, Release, Allocator.MayFree, Allocator.Refused;
    if ops != [] {
      ghost var s := a.Abs();
      match ops[0] {
        case Allocate(nbytes) =>
          var r := a.GMalloc(nbytes);
        case Dispose(b) =>
          a.LivePointerAccepted(b);
          a.GFree(Some(b * a.h));
      }
      assert a.Abs() == Step(s, ops[0], a.h);
      Execute(a, ops[1..]);
    }
  }

  /** From initMemory on: the heap that any calls leave is tiled, and what is free is what they did not keep. */
  method RunAllocator(h: HeaderSize, ops: seq<Op>) returns (a: Allocator)
    requires Legal(Initial, ops, h)
    ensures fresh(a) && a.Valid() && a.freep != NULL && a.h == h && a.Abs() == Run(Initial, ops, h)
    ensures WellTiled(a.free, a.live, HeapUnits(h))
  {
    hide Represents, Run, Legal, Gaps;
    a := new Allocator(h);
    a.InitMemory();
    Execute(a, ops);
    a.AbsInv();
    RunTiles(ops, h);
  }
}
