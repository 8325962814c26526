/**
 * The allocator itself: kernel/memory/memory.c, loop by loop.  A `Header *` is a unit number: 0 is
 * the sentinel `base`, which lies below the heap, and 1..N are the headers of the heap.
 */
module Allocators {
  import opened Units
  import opened Tiling
  import opened FreeRing
  import opened HeapSpec
  import opened Merging
  import opened Accounting

  const NULL := -1

  /** Every block header holds the length and the cookie. */
  ghost predicate Headers(m: Blocks, size: seq<int>, code: seq<int>) {
    forall b :: b in m ==> b < |size| == |code| && size[b] == m[b] && code[b] == SECRET_CODE
  }

  /** The free list in memory, its nodes, and the tiling of the heap by its chunks and the live blocks. */
  ghost predicate Represents(ring: seq<nat>, free: Blocks, live: Blocks, n: nat,
                             ptr: seq<int>, size: seq<int>, code: seq<int>) {
    && |ptr| == |size| == |code| == n + 1
    && Ascending(ring) && Linked(ring, ptr) && Nodes(ring, free)
    && WellTiled(free, live, n)
    && size[0] == 0
    && Headers(free, size, code)
    && Headers(live, size, code)
  }

  /** The new free chunks once the live block b is given back. */
  ghost function Merged(free: Blocks, live: Blocks, b: nat): Blocks
    requires b in live && b >= 1
  {
    MergedPrev(MergedNext(free, live, b), Pred(free, b), b)
  }

  /** The links after lines 126-146; `next` says whether the following chunk was swallowed, `prev` whether b was. */
  ghost function LinksAfter(ptr: seq<int>, b: nat, p: nat, next: bool, prev: bool): seq<int>
    requires b < |ptr| && p < |ptr| && (next ==> 0 <= ptr[p] < |ptr|)
  {
    var exit := if next then ptr[ptr[p]] else ptr[p];
    if prev then ptr[b := exit][p := exit] else ptr[b := exit][p := b]
  }

  /** The lengths after lines 126-146. */
  ghost function SizesAfter(size: seq<int>, b: nat, p: nat, e: int, next: bool, prev: bool): seq<int>
    requires b < |size| && p < |size| && (next ==> 0 <= e < |size|)
  {
    var len := if next then size[b] + size[e] else size[b];
    if prev then size[b := len][p := size[p] + len] else size[b := len]
  }

  /** The ring after b has been put behind node j, with the merges done. */
  ghost function RingAfter(ring: seq<nat>, j: nat, b: nat, next: bool, prev: bool): seq<nat>
    requires j < |ring| && (next ==> j + 1 < |ring|)
  {
    Splice(ring, j, if next then 1 else 0, if prev then [] else [b])
  }

  /** The merged list is linked and sorted. */
  lemma InsertLinks(ring: seq<nat>, ptr: seq<int>, b: nat, j: nat, next: bool, prev: bool)
    requires Ascending(ring) && Linked(ring, ptr) && b < |ptr| && j < |ring|
    requires ring[j] < b && (j + 1 < |ring| ==> b < ring[j + 1]) && (next ==> j + 1 < |ring|)
    requires next ==> 0 <= ptr[ring[j]] < |ptr|
    ensures Ascending(RingAfter(ring, j, b, next, prev))
    ensures Linked(RingAfter(ring, j, b, next, prev), LinksAfter(ptr, b, ring[j], next, prev))
  {
    var ptr' := LinksAfter(ptr, b, ring[j], next, prev);
    assert ptr[ring[j]] == After(ring, j);
    assert next ==> ptr[ring[j + 1]] == After(ring, j + 1);
    forall i | 0 <= i < |ring| && i != j ensures ptr'[ring[i]] == ptr[ring[i]] {
      assert if i < j then ring[i] < ring[j] else ring[j] < ring[i];
      assert i > j + 1 ==> ring[j + 1] < ring[i];
    }
    if prev {
      SpliceOut(ring, ptr, ptr', j, if next then 1 else 0);
    } else {
      SpliceIn(ring, ptr, ptr', j, if next then 1 else 0, b);
    }
  }

  /** The nodes of the ring after the merges. */
  lemma InsertMembers(ring: seq<nat>, j: nat, b: nat, next: bool, prev: bool)
    requires Ascending(ring) && j < |ring| && (next ==> j + 1 < |ring|)
    ensures forall x {:trigger x in RingAfter(ring, j, b, next, prev)} ::
              x in RingAfter(ring, j, b, next, prev) <==> (x == b && !prev) || (x in ring && !(next && x == ring[j + 1]))
    ensures RingAfter(ring, j, b, next, prev) != [] && RingAfter(ring, j, b, next, prev)[0] == ring[0]
    ensures ring[j] in RingAfter(ring, j, b, next, prev)
  {
    var ring' := RingAfter(ring, j, b, next, prev);
    assert ring'[j] == ring[j] && ring'[0] == ring[0];
    hide Splice;
    forall x ensures x in ring' <==> (x == b && !prev) || (x in ring && !(next && x == ring[j + 1])) {
      SpliceMembers(ring, j, if next then 1 else 0, if prev then [] else [b], x);
    }
  }

  /** The nodes of the new ring are the merged chunks. */
  lemma InsertNodes(ring: seq<nat>, free: Blocks, live: Blocks, n: nat, b: nat, j: nat, next: bool, prev: bool)
    requires Ascending(ring) && Nodes(ring, free) && WellTiled(free, live, n) && b in live && b >= 1
    requires j < |ring| && (next ==> j + 1 < |ring| && ring[j + 1] == End(live, b)) && ring[j] == Pred(free, b)
    requires ring[j] < b && (j + 1 < |ring| ==> b < ring[j + 1])
    requires next <==> End(live, b) in free
    requires prev <==> ring[j] in free && End(free, ring[j]) == b
    ensures Nodes(RingAfter(ring, j, b, next, prev), Merged(free, live, b))
    ensures ring[j] in RingAfter(ring, j, b, next, prev)
  {
    var ring' := RingAfter(ring, j, b, next, prev);
    var free' := Merged(free, live, b);
    InsertAscending(ring, j, b, next, prev);
    InsertMembers(ring, j, b, next, prev);
    hide WellTiled, RingAfter, Merged;
    forall x ensures x in free' <==> (x == b && !prev) || (x in free && x != End(live, b)) {
      MergedKeys(free, live, n, b, x);
    }
    NodesAre(ring, free);
    AreNodes(ring', free');
  }

  lemma InsertAscending(ring: seq<nat>, j: nat, b: nat, next: bool, prev: bool)
    requires Ascending(ring) && j < |ring| && (next ==> j + 1 < |ring|)
    requires ring[j] < b && (j + 1 < |ring| ==> b < ring[j + 1])
    ensures Ascending(RingAfter(ring, j, b, next, prev))
  {
    SpliceAscending(ring, j, if next then 1 else 0, if prev then [] else [b]);
  }

  lemma NodesAre(ring: seq<nat>, free: Blocks)
    requires Ascending(ring) && Nodes(ring, free)
    ensures forall x :: x in ring <==> x == 0 || x in free
    ensures 0 !in free
  {
    forall x | x in ring ensures x == 0 || x in free {
      var i :| 0 <= i < |ring| && ring[i] == x;
      assert i > 0 ==> ring[i] in free;
    }
  }

  lemma AreNodes(ring: seq<nat>, free: Blocks)
    requires Ascending(ring) && 0 !in free && forall x :: x in ring <==> x == 0 || x in free
    ensures Nodes(ring, free)
  {
    forall i | 1 <= i < |ring| ensures ring[i] in free {
      assert ring[0] < ring[i];
    }
    forall f | f in free ensures 1 <= f && f in ring {
    }
  }

  /** The headers stay right: only those of b and of its predecessor change. */
  lemma InsertHeaders(free: Blocks, live: Blocks, n: nat, size: seq<int>, code: seq<int>, b: nat, p: nat, next: bool, prev: bool)
    requires WellTiled(free, live, n) && Headers(free, size, code) && Headers(live, size, code)
    requires |size| == |code| == n + 1 && size[0] == 0 && b in live && 1 <= b < |size| && p < |size| && b !in free
    requires p == Pred(free, b)
    requires next <==> End(live, b) in free
    requires prev <==> p in free && End(free, p) == b
    ensures next ==> End(live, b) < |size|
    ensures var size' := SizesAfter(size, b, p, End(live, b), next, prev);
            && Headers(Merged(free, live, b), size', code)
            && Headers(live - {b}, size', code)
            && |size'| == |size| && size'[0] == 0
  {
    NotStarts(free, live, n, p);
    LongTile(free, live, n, b);
    hide WellTiled;
    var size' := SizesAfter(size, b, p, End(live, b), next, prev);
    var free' := Merged(free, live, b);
    forall f | f in free' ensures f < |size'| && size'[f] == free'[f] && code[f] == SECRET_CODE {
      hide Merged;
      InsertHeader(free, live, n, size, code, b, p, next, prev, f);
    }
  }

  lemma InsertHeader(free: Blocks, live: Blocks, n: nat, size: seq<int>, code: seq<int>, b: nat, p: nat, next: bool, prev: bool, f: nat)
    requires WellTiled(free, live, n) && Headers(free, size, code) && Headers(live, size, code)
    requires |size| == |code| == n + 1 && b in live && 1 <= b < |size| && p == Pred(free, b) && b !in free
    requires next <==> End(live, b) in free
    requires next ==> End(live, b) < |size|
    requires prev <==> p in free && End(free, p) == b
    requires f in Merged(free, live, b)
    ensures f < |size| && SizesAfter(size, b, p, End(live, b), next, prev)[f] == Merged(free, live, b)[f] && code[f] == SECRET_CODE
  {
    hide WellTiled;
    MergedLength(free, live, n, b, f);
    MergedKeys(free, live, n, b, f);
    MergedKeys(free, live, n, b, p);
    hide MergedPrev, MergedNext;
  }

  /** The sentinel and the free chunks are not live blocks. */
  lemma NotStarts(free: Blocks, live: Blocks, n: nat, p: nat)
    requires WellTiled(free, live, n) && (p == 0 || p in free)
    ensures p !in live && 0 !in free
  {
    assert p in live ==> p in free + live;
    assert 0 in free ==> 0 in free + live;
  }

  /** The tests on lines 127 and 138, read off memory, find the free neighbours of b. */
  lemma InsertTests(ring: seq<nat>, free: Blocks, live: Blocks, n: nat,
                    ptr: seq<int>, size: seq<int>, code: seq<int>, b: nat, j: nat)
    requires Represents(ring, free, live, n, ptr, size, code)
    requires b in live && 1 <= b && j < |ring| && ring[j] == Pred(free, b)
    requires forall i :: 0 <= i < |ring| ==> (i <= j <==> ring[i] < b)
    ensures |ptr| == |size| == |code| == n + 1
    ensures ring[j] < b < |size| && b !in free && 0 <= ptr[ring[j]] < |ptr|
    ensures j + 1 < |ring| ==> b < ring[j + 1]
    ensures b + size[b] == End(live, b)
    ensures b + size[b] == ptr[ring[j]] <==> End(live, b) in free
    ensures ring[j] + size[ring[j]] == b <==> ring[j] in free && End(free, ring[j]) == b
    ensures End(live, b) in free ==> j + 1 < |ring| && ring[j + 1] == End(live, b)
  {
    Neighbours(ring, free, live, n, b, j);
    assert ptr[ring[j]] == After(ring, j);
    assert size[b] == live[b];
  }

  /** Giving back a live block, on the representation. */
  lemma InsertRepresents(ring: seq<nat>, free: Blocks, live: Blocks, n: nat,
                         ptr: seq<int>, size: seq<int>, code: seq<int>, b: nat, j: nat, next: bool, prev: bool)
    requires Represents(ring, free, live, n, ptr, size, code)
    requires b in live && 1 <= b < |size| && b !in free && j < |ring| && ring[j] == Pred(free, b)
    requires ring[j] < b && (j + 1 < |ring| ==> b < ring[j + 1])
    requires 0 <= ptr[ring[j]] < |ptr|
    requires next <==> End(live, b) in free
    requires next ==> j + 1 < |ring| && ring[j + 1] == End(live, b)
    requires prev <==> ring[j] in free && End(free, ring[j]) == b
    ensures ring[j] in RingAfter(ring, j, b, next, prev)
    ensures next ==> End(live, b) < |size|
    ensures Represents(RingAfter(ring, j, b, next, prev), Merged(free, live, b), live - {b}, n,
                       LinksAfter(ptr, b, ring[j], next, prev),
                       SizesAfter(size, b, ring[j], End(live, b), next, prev), code)
  {
    hide WellTiled, Headers, Ascending, Linked, Nodes, RingAfter, Merged, LinksAfter, SizesAfter;
    InsertHeaders(free, live, n, size, code, b, ring[j], next, prev);
    InsertNodes(ring, free, live, n, b, j, next, prev);
    InsertLinks(ring, ptr, b, j, next, prev);
    InsertAscending(ring, j, b, next, prev);
    InsertTiles(free, live, n, b);
    AfterLength(ptr, b, ring[j], next, prev);
  }

  lemma InsertTiles(free: Blocks, live: Blocks, n: nat, b: nat)
    requires WellTiled(free, live, n) && b in live && b >= 1
    ensures WellTiled(Merged(free, live, b), live - {b}, n)
  {
    MergedWellTiled(free, live, n, b);
  }

  lemma AfterLength(ptr: seq<int>, b: nat, p: nat, next: bool, prev: bool)
    requires b < |ptr| && p < |ptr| && (next ==> 0 <= ptr[p] < |ptr|)
    ensures |LinksAfter(ptr, b, p, next, prev)| == |ptr|
  {
  }

  /** What the representation says about the free chunks and the live blocks. */
  lemma RepresentsGaps(ring: seq<nat>, free: Blocks, live: Blocks, n: nat,
                       ptr: seq<int>, size: seq<int>, code: seq<int>)
    requires Represents(ring, free, live, n, ptr, size, code)
    ensures free == Gaps(live, n) && Separate(live, n)
    ensures Ascending(ring) && Linked(ring, ptr) && Nodes(ring, free)
    ensures Disjoint(free, live)
  {
    FreeChunksAreGaps(free, live, n);
  }

  /** The units of a live block hold no other header. */
  lemma NoHeaderInside(ring: seq<nat>, free: Blocks, live: Blocks, n: nat,
                       ptr: seq<int>, size: seq<int>, code: seq<int>)
    requires Represents(ring, free, live, n, ptr, size, code)
    ensures forall l, u :: l in live && l <= u < l + live[l] ==> 1 <= u <= n && u !in free && (u in live ==> u == l)
  {
    forall l, u | l in live && l <= u < l + live[l]
      ensures 1 <= u <= n && u !in free && (u in live ==> u == l)
    {
      LiveTile(free, live, n, l);
      if u in live {
        LiveTile(free, live, n, u);
      }
      assert u in free ==> u in free + live;
    }
  }

  /** Seen from node k, the chunks that come before its successor are those before node k, and node k. */
  lemma StepBefore(ring: seq<nat>, free: Blocks, origin: nat, k: nat, f: nat)
    requires Ascending(ring) && Nodes(ring, free) && k < |ring| && f in free
    requires Before(origin, f, After(ring, k))
    requires ring[k] != origin
    requires origin in ring
    ensures f == ring[k] || Before(origin, f, ring[k])
  {
    var i :| 0 <= i < |ring| && ring[i] == f;
    var o :| 0 <= o < |ring| && ring[o] == origin;
    assert i < k ==> f < ring[k];
    assert i > k ==> k + 1 <= i && ring[k + 1] <= f;
    assert o < k ==> origin < ring[k];
    assert o > k ==> k + 1 <= o && ring[k + 1] <= origin;
  }

  /** No chunk lies between the origin and its successor. */
  lemma NoneBefore(ring: seq<nat>, free: Blocks, k: nat, f: nat)
    requires Ascending(ring) && Nodes(ring, free) && k < |ring| && f in free
    ensures !Before(ring[k], f, After(ring, k))
  {
    var i :| 0 <= i < |ring| && ring[i] == f;
    assert i < k ==> f < ring[k];
    assert i > k ==> k + 1 <= i && ring[k + 1] <= f;
    assert k + 1 < |ring| ==> ring[k] < ring[k + 1];
  }

  /** The ring without node k, and the nodes that are left. */
  lemma UnlinkNode(ring: seq<nat>, free: Blocks, ptr: seq<int>, k: nat)
    requires Ascending(ring) && Linked(ring, ptr) && Nodes(ring, free) && 1 <= k < |ring|
    ensures ring[k - 1] < |ptr| && ring[k] < |ptr| && ring[k] in free
    ensures var ring' := Splice(ring, k - 1, 1, []);
            && ring[k - 1] in ring'
            && Ascending(ring') && Linked(ring', ptr[ring[k - 1] := ptr[ring[k]]]) && Nodes(ring', free - {ring[k]})
  {
    var ring', ptr' := Splice(ring, k - 1, 1, []), ptr[ring[k - 1] := ptr[ring[k]]];
    assert ptr[ring[k]] == After(ring, k);
    forall i | 0 <= i < |ring| && i != k - 1 ensures ptr'[ring[i]] == ptr[ring[i]] {
      assert if i < k - 1 then ring[i] < ring[k - 1] else ring[k - 1] < ring[i];
    }
    SpliceOut(ring, ptr, ptr', k - 1, 1);
    UnlinkMembers(ring, free, k);
  }

  lemma UnlinkMembers(ring: seq<nat>, free: Blocks, k: nat)
    requires Ascending(ring) && Nodes(ring, free) && 1 <= k < |ring| && Ascending(Splice(ring, k - 1, 1, []))
    ensures ring[k - 1] in Splice(ring, k - 1, 1, []) && Nodes(Splice(ring, k - 1, 1, []), free - {ring[k]})
  {
    var ring' := Splice(ring, k - 1, 1, []);
    assert ring'[k - 1] == ring[k - 1];
    assert ring[0] < ring[k];
    hide Splice;
    NodesAre(ring, free);
    hide Nodes;
    forall x ensures x in ring' <==> x in ring && x != ring[k] {
      SpliceMembers(ring, k - 1, 1, [], x);
    }
    AreNodes(ring', free - {ring[k]});
  }

  /** Line 182: taking a whole chunk out of the list. */
  lemma TakeExact(ring: seq<nat>, free: Blocks, live: Blocks, n: nat,
                  ptr: seq<int>, size: seq<int>, code: seq<int>, k: nat)
    requires Represents(ring, free, live, n, ptr, size, code)
    requires 1 <= k < |ring| && ring[k] in free && free[ring[k]] >= 1
    ensures ring[k - 1] < |ptr| && ring[k] < |ptr| && ring[k - 1] in Splice(ring, k - 1, 1, [])
    ensures Represents(Splice(ring, k - 1, 1, []), Taken(free, ring[k], free[ring[k]]), live[ring[k] := free[ring[k]]], n,
                       ptr[ring[k - 1] := ptr[ring[k]]], size, code)
  {
    hide WellTiled, Ascending, Linked, Nodes;
    UnlinkNode(ring, free, ptr, k);
    TakenWellTiled(free, live, n, ring[k], free[ring[k]]);
  }

  /** Lines 188-192: cutting a block off the end of a chunk. */
  lemma TakeSplit(ring: seq<nat>, free: Blocks, live: Blocks, n: nat,
                  ptr: seq<int>, size: seq<int>, code: seq<int>, c: nat, need: nat)
    requires Represents(ring, free, live, n, ptr, size, code)
    requires c in free && 1 <= need < free[c] && c != 0
    requires End(free, c) <= n + 1
    ensures c < |size| == |code| && size[c] == free[c] && End(free, c) - need < |size|
    ensures Represents(ring, Taken(free, c, need), live[End(free, c) - need := need], n,
                       ptr, size[c := size[c] - need][End(free, c) - need := need],
                       code[End(free, c) - need := SECRET_CODE])
  {
    hide WellTiled, Ascending, Linked;
    TakenWellTiled(free, live, n, c, need);
    TakenFresh(free, live, n, c, need);
    assert c !in live by {
      ChunkFacts(free, live, n, c);
    }
  }

  /** What the search needs to know about the headers of the free chunks. */
  lemma RepresentsChunks(ring: seq<nat>, free: Blocks, live: Blocks, n: nat,
                         ptr: seq<int>, size: seq<int>, code: seq<int>)
    requires Represents(ring, free, live, n, ptr, size, code)
    ensures size[0] == 0 && |ptr| == |size| == |code| == n + 1
    ensures forall f :: f in free ==> 1 <= f <= n && size[f] == free[f] && 1 <= free[f] && End(free, f) <= n + 1
    ensures forall i :: 1 <= i < |ring| ==> ring[i] in free
    ensures |ring| >= 1 && ring[0] == 0
  {
    forall f | f in free ensures 1 <= f <= n && 1 <= free[f] && End(free, f) <= n + 1 {
      ChunkFacts(free, live, n, f);
    }
  }

  /** No unit of a free chunk belongs to a live block. */
  lemma RepresentsApart(ring: seq<nat>, free: Blocks, live: Blocks, n: nat,
                        ptr: seq<int>, size: seq<int>, code: seq<int>, c: nat, x: nat)
    requires Represents(ring, free, live, n, ptr, size, code)
    requires c in free && c <= x < End(free, c)
    ensures !Covered(live, x)
  {
    FreeUncovered(free, live, n, c, x);
  }

  /** A cell that is neither the sentinel nor a header can hold anything. */
  lemma WriteKeeps(ring: seq<nat>, free: Blocks, live: Blocks, n: nat,
                   ptr: seq<int>, size: seq<int>, code: seq<int>, u: nat, link: int, length: int, cookie: int)
    requires Represents(ring, free, live, n, ptr, size, code)
    requires 1 <= u <= n && u !in free && u !in live
    ensures Represents(ring, free, live, n, ptr[u := link], size[u := length], code[u := cookie])
  {
    forall i | 0 <= i < |ring| ensures ring[i] != u {
      assert i > 0 ==> ring[i] in free;
    }
  }

  lemma Conserved(ring: seq<nat>, free: Blocks, live: Blocks, n: nat,
                  ptr: seq<int>, size: seq<int>, code: seq<int>)
    requires Represents(ring, free, live, n, ptr, size, code)
    ensures Total(free, n + 1) + Total(live, n + 1) == n
  {
    FreePlusLive(free, live, n);
  }

  /** The chunks that come before p in the search are too small. */
  ghost predicate Passed(free: Blocks, origin: nat, p: nat, need: nat) {
    forall f :: f in free && Before(origin, f, p) ==> free[f] < need
  }

  lemma PassedStart(ring: seq<nat>, free: Blocks, k0: nat, need: nat)
    requires Ascending(ring) && Nodes(ring, free) && k0 < |ring|
    ensures Passed(free, ring[k0], After(ring, k0), need)
  {
    forall f | f in free ensures !Before(ring[k0], f, After(ring, k0)) {
      NoneBefore(ring, free, k0, f);
    }
  }

  lemma PassedStep(ring: seq<nat>, free: Blocks, origin: nat, k: nat, need: nat)
    requires Ascending(ring) && Nodes(ring, free) && k < |ring| && ring[k] != origin && origin in ring
    requires Passed(free, origin, ring[k], need) && (ring[k] in free ==> free[ring[k]] < need)
    ensures Passed(free, origin, After(ring, k), need)
  {
    forall f | f in free && Before(origin, f, After(ring, k)) ensures free[f] < need {
      StepBefore(ring, free, origin, k, f);
    }
  }

  lemma FoundFirst(ring: seq<nat>, free: Blocks, n: nat, origin: nat, need: nat, k: nat)
    requires Ascending(ring) && Nodes(ring, free) && 1 <= k < |ring| && Passed(free, origin, ring[k], need)
    requires forall f :: f in free ==> f <= n
    requires ring[k] in free && free[ring[k]] >= need
    ensures Chosen(free, origin, need, n) == Some(ring[k])
    ensures ring[k] >= 1 && ring[k - 1] == Pred(free, ring[k])
  {
    NodesAre(ring, free);
    ChosenIs(free, n, origin, need, ring[k]);
    var j := PredIndex(ring, free, ring[k]);
    assert ring[k - 1] < ring[k];
    assert k - 1 <= j && !(k <= j);
  }

  lemma FoundNone(ring: seq<nat>, free: Blocks, n: nat, origin: nat, need: nat, k: nat)
    requires Ascending(ring) && Nodes(ring, free) && k < |ring| && ring[k] == origin && Passed(free, origin, origin, need)
    requires origin in free ==> free[origin] < need
    ensures Chosen(free, origin, need, n) == None
  {
    ChosenNone(free, n, origin, need);
  }

  lemma ReadLength(free: Blocks, x: nat)
    ensures x in free ==> Length(free, x) == free[x]
    ensures x !in free ==> Length(free, x) == 0
  {
  }

  /** What a walk reads at node k. */
  lemma ReadNode(ring: seq<nat>, free: Blocks, ptr: seq<int>, size: seq<int>, k: nat)
    requires Ascending(ring) && Linked(ring, ptr) && Nodes(ring, free) && k < |ring| && |size| == |ptr| >= 1
    requires size[0] == 0 && forall f :: f in free ==> f < |size| && size[f] == free[f]
    ensures ring[k] < |ptr| && ptr[ring[k]] == After(ring, k) && size[ring[k]] == Length(free, ring[k])
    ensures k == 0 <==> ring[k] == 0
    ensures k > 0 ==> ring[k] in free
  {
    var n := After(ring, k);
    assert k > 0 ==> ring[0] < ring[k];
    NodesAre(ring, free);
  }

  ghost function Times(h: int, units: int): int {
    h * units
  }

  lemma TimesIs(h: int, units: int)
    ensures Times(h, units) == h * units
  {
  }

  lemma TimesZero(h: int)
    ensures Times(h, 0) == 0
  {
  }

  lemma TimesAdd(h: int, a: int, b: int)
    ensures Times(h, a + b) == Times(h, a) + b * h
  {
  }

  lemma ChunkFacts(free: Blocks, live: Blocks, n: nat, c: nat)
    requires WellTiled(free, live, n) && c in free
    ensures c !in live && 1 <= c && 1 <= free[c] && End(free, c) <= n + 1
  {
    assert c in free + live && (free + live)[c] == free[c];
  }

  class Allocator {
    const h: HeaderSize
    const ptr: array<int>
    const size: array<int>
    const code: array<int>
    var freep: int
    ghost var ring: seq<nat>
    ghost var free: Blocks
    ghost var live: Blocks

    ghost function N(): nat {
      HeapUnits(h)
    }

    ghost predicate Valid()
      reads this, ptr, size, code
    {
      && ptr != size && ptr != code && size != code
      && ptr.Length == size.Length == code.Length == N() + 1
      && (freep != NULL ==> freep in ring && Represents(ring, free, live, N(), ptr[..], size[..], code[..]))
    }

    /** The state the specification speaks about. */
    ghost function Abs(): Heap
      reads this, ptr, size, code
      requires Valid() && freep != NULL
    {
      Heap(live, freep)
    }

    constructor (h: HeaderSize)
      ensures Valid() && freep == NULL && this.h == h
      ensures fresh(ptr) && fresh(size) && fresh(code)
    {
      this.h := h;
      ptr := new int[HeapUnits(h) + 1];
      size := new int[HeapUnits(h) + 1];
      code := new int[HeapUnits(h) + 1];
      freep := NULL;
    }

    /** The tests of lines 96-98 on the byte offset of the payload. */
    predicate InHeap(ap: Option<int>) {
      ap.Some? && 0 <= ap.value < SIZE_ALLOC
    }

    /** What callers owe: a pointer into the heap that passes the cookie test was obtained and is live. */
    ghost predicate MayFree(ap: Option<int>)
      reads this, ptr, size, code
      requires Valid()
    {
      freep != NULL && InHeap(ap) ==>
        && ap.value % h == 0 && ap.value / h >= 1
        && (code[ap.value / h] == SECRET_CODE ==> ap.value / h in live)
    }

    /** gFree does nothing: no memory yet, a pointer outside the heap, or no cookie. */
    ghost predicate Refused(ap: Option<int>)
      reads this, code
      requires code.Length == N() + 1
    {
      freep == NULL || !InHeap(ap) || code[ap.value / h] != SECRET_CODE
    }

    /** The memory stands for a state of the specification, and its chunks are the gaps of that state. */
    lemma AbsInv()
      requires Valid() && freep != NULL
      ensures HeapInv(Abs(), N()) && free == Gaps(live, N())
    {
      RepresentsGaps(ring, free, live, N(), ptr[..], size[..], code[..]);
      NodesAre(ring, free);
    }

    /**
     * Every live pointer passes the range test and the cookie test, even that of an empty request
     * whose header is the last unit of the heap.
     */
    lemma LivePointerAccepted(b: nat)
      requires Valid() && freep != NULL && b in live
      ensures InHeap(Some(b * h)) && b * h / h == b && b <= N() && !Refused(Some(b * h)) && MayFree(Some(b * h))
    {
      NoHeaderInside(ring, free, live, N(), ptr[..], size[..], code[..]);
      assert b <= b < b + live[b] by {
        LiveTile(free, live, N(), b);
      }
      PayloadInHeap(b, h);
    }

    /** Lines 115-124: the walk to the node that precedes b, from whatever node `freep` is. */
    method Search(b: nat) returns (p: nat, ghost j: nat)
      requires Ascending(ring) && Linked(ring, ptr[..]) && Nodes(ring, free)
      requires freep in ring && 1 <= b && b !in free
      ensures p == Pred(free, b)
      ensures j < |ring| && ring[j] == p
      ensures forall i :: 0 <= i < |ring| ==> (i <= j <==> ring[i] < b)
    {
      j := PredIndex(ring, free, b);
      ghost var k :| 0 <= k < |ring| && ring[k] == freep;
      p := freep;
      while !(b > p && b < ptr[p])
        invariant 0 <= k < |ring| && p == ring[k]
        decreases StepsTo(k, j, |ring|)
      {
        assert ptr[..][ring[k]] == After(ring, k);
        if p >= ptr[p] && (b > p || b < ptr[p]) {
          break;
        }
        p := ptr[p];
        k := if k + 1 < |ring| then k + 1 else 0;
      }
      assert ptr[..][ring[k]] == After(ring, k);
    }

    /** Lines 126-147: the merges. */
    method Insert(b: nat, p: nat, ghost j: nat)
      requires Valid() && freep != NULL && b in live && 1 <= b
      requires j < |ring| && ring[j] == p == Pred(free, b)
      requires forall i :: 0 <= i < |ring| ==> (i <= j <==> ring[i] < b)
      modifies this, ptr, size
      ensures Valid() && freep == p
      ensures live == old(live) - {b} && free == old(Merged(free, live, b))
      ensures forall u :: 0 <= u <= N() && u != b && u != p ==> ptr[u] == old(ptr[u]) && size[u] == old(size[u])
    {
      hide Represents, Merged, RingAfter;
      ghost var links, sizes := ptr[..], size[..];
      InsertTests(ring, free, live, N(), links, sizes, code[..], b, j);
      ghost var next := End(live, b) in free;
      ghost var prev := p in free && End(free, p) == b;
      Relink(b, p);
      freep := p;
      InsertRepresents(ring, free, live, N(), links, sizes, code[..], b, j, next, prev);
      ring, free, live := RingAfter(ring, j, b, next, prev), Merged(free, live, b), live - {b};
      assert Represents(ring, free, live, N(), ptr[..], size[..], code[..]);
      forall u | 0 <= u <= N() && u != b && u != p ensures ptr[u] == old(ptr[u]) && size[u] == old(size[u]) {
        assert ptr[..][u] == links[u] && size[..][u] == sizes[u];
      }
    }

    method Relink(b: nat, p: nat)
      requires ptr != size && p < b < ptr.Length == size.Length && 0 <= ptr[p] < ptr.Length
      modifies ptr, size
      ensures var next := old(b + size[b] == ptr[p]);
              var prev := old(p + size[p] == b);
              && ptr[..] == LinksAfter(old(ptr[..]), b, p, next, prev)
              && size[..] == SizesAfter(old(size[..]), b, p, b + old(size[b]), next, prev)
    {
      if b + size[b] == ptr[p] {
        size[b] := size[b] + size[ptr[p]];
        ptr[b] := ptr[ptr[p]];
      } else {
        ptr[b] := ptr[p];
      }
      if p + size[p] == b {
        size[p] := size[p] + size[b];
        ptr[p] := ptr[b];
      } else {
        ptr[p] := b;
      }
    }

    /** Lines 84-149. */
    method GFree(ap: Option<int>)
      requires Valid() && MayFree(ap)
      modifies this, ptr, size
      ensures Valid()
      ensures freep == NULL <==> old(freep) == NULL
      ensures old(Refused(ap)) ==> unchanged(this) && unchanged(ptr) && unchanged(size)
      ensures !old(Refused(ap)) ==>
                var b := ap.value / h;
                && b in old(live) && b >= 1 && Abs() == Release(old(Abs()), b, N())
                && LastBelow(old(free), freep, b)
                && forall l, u :: l in live && l <= u < l + live[l] ==> ptr[u] == old(ptr[u]) && size[u] == old(size[u])
    {
      hide Represents, Merged, Gaps;
      if freep == NULL {
        return;
      }
      if !InHeap(ap) {
        return;
      }
      HeaderOfOffset(ap.value, h);
      var b: nat := ap.value / h;
      if code[b] != SECRET_CODE {
        return;
      }
      RepresentsGaps(ring, free, live, N(), ptr[..], size[..], code[..]);
      NoHeaderInside(ring, free, live, N(), ptr[..], size[..], code[..]);
      var p, j := Search(b);
      Insert(b, p, j);
      RepresentsGaps(ring, free, live, N(), ptr[..], size[..], code[..]);
    }

    /** Lines 174-205: the search for a chunk, and the node before it. */
    method FindFit(need: nat) returns (found: bool, prevp: nat, p: nat, ghost k: nat)
      requires Ascending(ring) && Linked(ring, ptr[..]) && Nodes(ring, free)
      requires freep in ring && need >= 1 && size.Length == ptr.Length == N() + 1
      requires size[0] == 0 && forall f :: f in free ==> f <= N() && size[f] == free[f]
      ensures found <==> Chosen(free, freep, need, N()).Some?
      ensures found ==> Chosen(free, freep, need, N()) == Some(p)
      ensures found ==> prevp == Pred(free, p)
      ensures found ==> 1 <= k < |ring| && ring[k] == p && ring[k - 1] == prevp
    {
      hide Chosen, Pred, Linked, Passed, Length, Nodes;
      ghost var k0 :| 0 <= k0 < |ring| && ring[k0] == freep;
      prevp := freep;
      ReadNode(ring, free, ptr[..], size[..], k0);
      p := ptr[prevp];
      k := if k0 + 1 < |ring| then k0 + 1 else 0;
      PassedStart(ring, free, k0, need);
      while true
        invariant 0 <= k < |ring| && p == ring[k]
        invariant prevp == ring[if k > 0 then k - 1 else |ring| - 1]
        invariant Passed(free, freep, p, need)
        decreases StepsTo(k, k0, |ring|)
      {
        ReadNode(ring, free, ptr[..], size[..], k);
        ReadLength(free, ring[k]);
        if size[p] >= need {
          FoundFirst(ring, free, N(), freep, need, k);
          return true, prevp, p, k;
        }
        if p == freep {
          FoundNone(ring, free, N(), freep, need, k);
          return false, prevp, p, k;
        }
        PassedStep(ring, free, freep, k, need);
        prevp, p := p, ptr[p];
        k := if k + 1 < |ring| then k + 1 else 0;
      }
    }

    /** Lines 180-194: the chunk found is taken whole, or its tail is cut off. */
    method Take(need: nat, prevp: nat, p: nat, ghost k: nat) returns (b: nat)
      requires Valid() && freep != NULL && need >= 1
      requires 1 <= k < |ring| && ring[k] == p && ring[k - 1] == prevp && p in free && free[p] >= need
      modifies this, ptr, size, code
      ensures Valid() && freep == prevp
      ensures b == old(End(free, p)) - need
      ensures live == old(live)[b := need] && free == old(Taken(free, p, need))
      ensures forall l, u :: l in old(live) && l <= u < l + old(live)[l] ==>
                ptr[u] == old(ptr[u]) && size[u] == old(size[u]) && code[u] == old(code[u])
    {
      hide Represents, Taken, FreeRing.Splice;
      RepresentsChunks(ring, free, live, N(), ptr[..], size[..], code[..]);
      if size[p] == need {
        b := p;
        UnlinkChunk(prevp, p, k);
      } else {
        b := CutTail(need, p);
      }
      freep := prevp;
    }

    /** Line 182. */
    method UnlinkChunk(prevp: nat, p: nat, ghost k: nat)
      requires Valid() && freep != NULL
      requires 1 <= k < |ring| && ring[k] == p && ring[k - 1] == prevp && p in free && free[p] >= 1
      modifies this, ptr
      ensures Represents(ring, free, live, N(), ptr[..], size[..], code[..]) && prevp in ring && freep == old(freep)
      ensures live == old(live)[p := old(free)[p]] && free == old(Taken(free, p, free[p]))
      ensures forall l, u :: l in old(live) && l <= u < l + old(live)[l] ==> ptr[u] == old(ptr[u])
    {
      hide Represents, Taken, FreeRing.Splice;
      ghost var links := ptr[..];
      RepresentsChunks(ring, free, live, N(), links, size[..], code[..]);
      NoHeaderInside(ring, free, live, N(), links, size[..], code[..]);
      TakeExact(ring, free, live, N(), links, size[..], code[..], k);
      ptr[prevp] := ptr[p];
      assert ptr[..] == links[prevp := links[p]];
      ring, free, live := Splice(ring, k - 1, 1, []), Taken(free, p, free[p]), live[p := free[p]];
    }

    /** Lines 188-192. */
    method CutTail(need: nat, p: nat) returns (b: nat)
      requires Valid() && freep != NULL && p in free && 1 <= need < free[p]
      modifies this, size, code
      ensures Represents(ring, free, live, N(), ptr[..], size[..], code[..]) && ring == old(ring) && freep == old(freep)
      ensures b == old(End(free, p)) - need
      ensures live == old(live)[b := need] && free == old(Taken(free, p, need))
      ensures forall l, u :: l in old(live) && l <= u < l + old(live)[l] ==> size[u] == old(size[u]) && code[u] == old(code[u])
    {
      hide Represents, Taken;
      ghost var sizes, codes := size[..], code[..];
      RepresentsChunks(ring, free, live, N(), ptr[..], sizes, codes);
      NoHeaderInside(ring, free, live, N(), ptr[..], sizes, codes);
      TakeSplit(ring, free, live, N(), ptr[..], sizes, codes, p, need);
      RepresentsApart(ring, free, live, N(), ptr[..], sizes, codes, p, End(free, p) - need);
      assert forall l, u :: l in live && l <= u < l + live[l] ==> Covered(live, u);
      size[p] := size[p] - need;
      b := p + size[p];
      size[b] := need;
      code[b] := SECRET_CODE;
      assert size[..] == sizes[p := sizes[p] - need][b := need];
      assert code[..] == codes[b := SECRET_CODE];
      free, live := Taken(free, p, need), live[b := need];
    }

    /** Lines 154-206. */
    method GMalloc(nbytes: nat) returns (r: Option<nat>)
      requires Valid()
      modifies this, ptr, size, code
      ensures Valid()
      ensures freep == NULL <==> old(freep) == NULL
      ensures old(freep) == NULL ==> r == None
      ensures old(freep) != NULL ==>
                var (s, b) := Malloc(old(Abs()), nbytes, h);
                Abs() == s && r == if b.Some? then Some(b.value * h) else None
      ensures r == None ==> unchanged(this) && unchanged(ptr) && unchanged(size) && unchanged(code)
      ensures old(freep) != NULL ==>
                forall l, u :: l in old(live) && l <= u < l + old(live)[l] ==>
                  ptr[u] == old(ptr[u]) && size[u] == old(size[u]) && code[u] == old(code[u])
    {
      hide Represents, Taken, Gaps, Chosen, Linked, Ascending, Nodes, Pred, Malloc, UnitsFor;
      if freep == NULL || nbytes > SIZE_ALLOC {
        if freep != NULL {
          MallocNone(Abs(), nbytes, h);
        }
        return None;
      }
      ghost var s := Abs();
      RepresentsGaps(ring, free, live, N(), ptr[..], size[..], code[..]);
      RepresentsChunks(ring, free, live, N(), ptr[..], size[..], code[..]);
      var nunits := UnitsFor(nbytes, h);
      PayloadFits(nbytes, h);
      var found, prevp, p, k := FindFit(nunits);
      if !found {
        MallocNone(s, nbytes, h);
        return None;
      }
      MallocSome(s, nbytes, h, p);
      var b := Take(nunits, prevp, p, k);
      r := Some(b * h);
    }

    /** Lines 64-79: one block that fills the heap is given back. */
    method InitMemory()
      requires Valid()
      modifies this, ptr, size, code
      ensures Valid() && freep != NULL
      ensures old(freep) != NULL ==> unchanged(this) && unchanged(ptr) && unchanged(size) && unchanged(code)
      ensures old(freep) == NULL ==> Abs() == Heap(map[], 0)
    {
      if freep == NULL {
        PayloadInHeap(1, h);
        ptr[0], freep := 0, 0;
        size[0] := 0;
        size[1] := SIZE_ALLOC / h;
        code[1] := SECRET_CODE;
        ring, free, live := [0], map[], map[1 := N()];
        assert Linked(ring, ptr[..]);
        GFree(Some(h));
        assert live == map[];
      }
    }

    /** Lines 239-249: the sum over one turn of the ring, from whatever node `freep` is. */
    method SumRing() returns (sum: nat)
      requires Ascending(ring) && Linked(ring, ptr[..]) && Nodes(ring, free)
      requires freep in ring && size.Length == ptr.Length == N() + 1
      requires size[0] == 0 && forall f :: f in free ==> f <= N() && size[f] == free[f]
      ensures sum == h * Prefix(ring, free, |ring|)
    {
      hide Turn, Prefix, Length, Times, Linked, Nodes;
      ghost var k0 :| 0 <= k0 < |ring| && ring[k0] == freep;
      TurnStart(ring, free, k0);
      ReadNode(ring, free, ptr[..], size[..], k0);
      TimesZero(h);
      sum := 0;
      var p := ptr[freep];
      ghost var k := if k0 + 1 < |ring| then k0 + 1 else 0;
      while true
        invariant 0 <= k < |ring| && p == ring[k]
        invariant sum == Times(h, Turn(ring, free, k0, k))
        decreases StepsTo(k, k0, |ring|)
      {
        ReadNode(ring, free, ptr[..], size[..], k);
        TurnStep(ring, free, k0, k);
        TimesAdd(h, Turn(ring, free, k0, k), size[p]);
        sum := sum + size[p] * h;
        if p == freep {
          break;
        }
        p := ptr[p];
        k := if k + 1 < |ring| then k + 1 else 0;
      }
      assert k == k0;
      TimesIs(h, Prefix(ring, free, |ring|));
    }

    /** Lines 228-252. */
    method GetGMemFree() returns (sum: nat)
      requires Valid()
      ensures freep == NULL ==> sum == 0
      ensures freep != NULL ==> sum == h * Total(free, N() + 1)
      ensures freep != NULL ==> sum == h * (N() - Total(live, N() + 1))
    {
      hide Represents, Gaps, Separate;
      if freep == NULL {
        return 0;
      }
      RepresentsGaps(ring, free, live, N(), ptr[..], size[..], code[..]);
      RepresentsChunks(ring, free, live, N(), ptr[..], size[..], code[..]);
      sum := SumRing();
      RingTotal(ring, free, N());
      Conserved(ring, free, live, N(), ptr[..], size[..], code[..]);
    }

    /** A client writes to its block: any cell except the header. */
    method ClientWrite(b: nat, u: nat, link: int, length: int, cookie: int)
      requires Valid() && freep != NULL && b in live && b < u < b + live[b]
      modifies ptr, size, code
      ensures Valid() && Abs() == old(Abs())
    {
      hide Represents;
      ghost var links, sizes, codes := ptr[..], size[..], code[..];
      NoHeaderInside(ring, free, live, N(), links, sizes, codes);
      assert u !in free && u !in live && 1 <= u <= N();
      ptr[u], size[u], code[u] := link, length, cookie;
      WriteKeeps(ring, free, live, N(), links, sizes, codes, u, link, length, cookie);
      assert ptr[..] == links[u := link] && size[..] == sizes[u := length] && code[..] == codes[u := cookie];
    }
  }

  /** How far position k of a ring of m nodes is from position j. */
  function StepsTo(k: int, j: int, m: int): int {
    if k <= j then j - k else j - k + m
  }
}
