/** What taking and giving back blocks does to the tiling of the heap. */
module Merging {
  import opened Tiling
  import opened FreeRing

  /** The free chunks after b has been merged with a free chunk that starts at its end. */
  ghost function MergedNext(free: Blocks, live: Blocks, b: nat): Blocks
    requires b in live
  {
    var e := End(live, b);
    if e in free then (free - {e})[b := live[b] + free[e]] else free[b := live[b]]
  }

  /** The free chunks after the new chunk b has been merged with the chunk p that ends at it. */
  ghost function MergedPrev(free: Blocks, p: nat, b: nat): Blocks
    requires b in free
  {
    if p in free && p != b && End(free, p) == b then (free - {b})[p := free[p] + free[b]] else free
  }

  /** The tests of lines 127 and 138 are exact: they find the free neighbours of b. */
  lemma Neighbours(ring: seq<nat>, free: Blocks, live: Blocks, n: nat, b: nat, j: nat)
    requires Ascending(ring) && Nodes(ring, free) && WellTiled(free, live, n) && b in live
    requires j < |ring| && ring[j] == Pred(free, b)
    requires forall i :: 0 <= i < |ring| ==> (i <= j <==> ring[i] < b)
    ensures After(ring, j) == End(live, b) <==> End(live, b) in free
    ensures End(live, b) in free ==> j + 1 < |ring| && ring[j + 1] == End(live, b)
    ensures j + 1 < |ring| ==> b < ring[j + 1]
    ensures b !in free
  {
    var e := End(live, b);
    LiveTile(free, live, n, b);
    if j + 1 < |ring| {
      assert ring[j + 1] in free;
    }
    if e in free {
      var k :| 0 <= k < |ring| && ring[k] == e;
      var f := ring[j + 1];
      assert f in free + live && e in free + live;
      assert k > j + 1 ==> f < e;
    }
  }

  lemma MergeNextTiles(free: Blocks, live: Blocks, n: nat, b: nat)
    requires WellTiled(free, live, n) && b in live
    ensures var free1 := MergedNext(free, live, b);
            Disjoint(free1, live - {b}) && Tiles(free1 + (live - {b}), n)
  {
    hide Tiles, Coalesced, MergedNext;
    LiveTile(free, live, n, b);
    NextUnion(free, live, b);
    var m := free + live;
    assert End(m, b) == End(live, b);
    if End(live, b) in free {
      assert End(live, b) in m && m[End(live, b)] == free[End(live, b)];
      JoinTiles(m, n, b);
    }
    NextDisjoint(free, live, b);
  }

  lemma NextUnion(free: Blocks, live: Blocks, b: nat)
    requires Disjoint(free, live) && b in live
    ensures var e := End(live, b);
            MergedNext(free, live, b) + (live - {b}) ==
              if e in free then (free + live - {e})[b := live[b] + free[e]] else free + live
  {
  }

  lemma NextDisjoint(free: Blocks, live: Blocks, b: nat)
    requires Disjoint(free, live) && b in live
    ensures Disjoint(MergedNext(free, live, b), live - {b})
  {
  }

  lemma MergePrevTiles(free: Blocks, live: Blocks, n: nat, p: nat, b: nat)
    requires Disjoint(free, live) && Tiles(free + live, n) && b in free
    ensures Disjoint(MergedPrev(free, p, b), live) && Tiles(MergedPrev(free, p, b) + live, n)
  {
    hide Tiles;
    var m := free + live;
    if p in free && p != b && End(free, p) == b {
      assert m[p] == free[p] && m[b] == free[b] && End(m, p) == b;
      JoinTiles(m, n, p);
      JoinedUnion(free, live, p, b);
    }
  }

  lemma JoinedUnion(free: Blocks, live: Blocks, p: nat, b: nat)
    requires Disjoint(free, live) && p in free && b in free && p != b
    ensures (free - {b})[p := free[p] + free[b]] + live == (free + live - {b})[p := free[p] + free[b]]
  {
    assert p !in live && b !in live;
  }

  /** No free chunk other than the predecessor of b ends at b. */
  lemma OnlyPredEndsAt(free: Blocks, live: Blocks, n: nat, b: nat, f: nat)
    requires WellTiled(free, live, n) && b in live && b >= 1
    requires f in free && End(free, f) == b
    ensures f == Pred(free, b)
  {
    var m := free + live;
    var p := Pred(free, b);
    assert f in m && m[f] == free[f];
    assert 1 <= f && 1 <= free[f];
    assert f < b;
    assert f <= p;
    assert p != 0 ==> p in m;
  }

  /** How long the chunks are after the merges. */
  lemma MergedLength(free: Blocks, live: Blocks, n: nat, b: nat, f: nat)
    requires WellTiled(free, live, n) && b in live && b >= 1
    requires f in MergedPrev(MergedNext(free, live, b), Pred(free, b), b)
    ensures var p, e := Pred(free, b), End(live, b);
            var free2 := MergedPrev(MergedNext(free, live, b), p, b);
            var len := live[b] + if e in free then free[e] else 0;
            free2[f] == if f == b then len else if f == p && End(free, p) == b then free[p] + len else free[f]
    ensures f != b ==> f in free
  {
    hide Tiles, Coalesced;
    LiveTile(free, live, n, b);
    LongTile(free, live, n, b);
  }

  /** Where the chunks end after the merges. */
  lemma MergedEnd(free: Blocks, live: Blocks, n: nat, b: nat, f: nat)
    requires WellTiled(free, live, n) && b in live && b >= 1
    requires f in MergedPrev(MergedNext(free, live, b), Pred(free, b), b)
    ensures var p, e := Pred(free, b), End(live, b);
            var free2 := MergedPrev(MergedNext(free, live, b), p, b);
            End(free2, f) == if f == b || (b !in free2 && f == p) then (if e in free then End(free, e) else e) else End(free, f)
    ensures f != b ==> f in free
  {
    assert b in MergedNext(free, live, b);
    hide WellTiled, MergedPrev, MergedNext;
    MergedLength(free, live, n, b, f);
    MergedKeys(free, live, n, b, b);
    LongTile(free, live, n, b);
  }

  lemma LongTile(free: Blocks, live: Blocks, n: nat, b: nat)
    requires WellTiled(free, live, n) && b in live
    ensures End(live, b) > b && b !in free
  {
    LiveTile(free, live, n, b);
    assert b in free + live;
  }

  /** Which chunks are left after the merges. */
  lemma MergedKeys(free: Blocks, live: Blocks, n: nat, b: nat, x: nat)
    requires WellTiled(free, live, n) && b in live && b >= 1
    ensures var p, e := Pred(free, b), End(live, b);
            var joined := p in free && End(free, p) == b;
            x in MergedPrev(MergedNext(free, live, b), p, b) <==> (x == b && !joined) || (x in free && x != e)
  {
    hide Tiles, Coalesced;
    LongTile(free, live, n, b);
  }

  lemma MergedCoalesced(free: Blocks, live: Blocks, n: nat, b: nat)
    requires WellTiled(free, live, n) && b in live && b >= 1
    ensures Coalesced(MergedPrev(MergedNext(free, live, b), Pred(free, b), b))
  {
    hide MergedPrev, Tiles;
    assert b in MergedNext(free, live, b);
    hide MergedNext;
    var free2 := MergedPrev(MergedNext(free, live, b), Pred(free, b), b);
    LongTile(free, live, n, b);
    MergedKeys(free, live, n, b, b);
    forall f | f in free2 ensures End(free2, f) !in free2 {
      MergedEnd(free, live, n, b, f);
      MergedKeys(free, live, n, b, f);
      MergedKeys(free, live, n, b, End(free2, f));
      if f in free && End(free, f) == b {
        OnlyPredEndsAt(free, live, n, b, f);
      }
      if End(live, b) in free {
        FarEnd(free, live, n, b);
      }
    }
  }

  lemma FarEnd(free: Blocks, live: Blocks, n: nat, b: nat)
    requires WellTiled(free, live, n) && b in live && End(live, b) in free
    ensures End(free, End(live, b)) > End(live, b) > b
  {
    LongTile(free, live, n, b);
    assert End(live, b) in free + live;
    assert (free + live)[End(live, b)] == free[End(live, b)];
  }

  /** All four combinations of merges leave a coalesced tiling. */
  lemma MergedWellTiled(free: Blocks, live: Blocks, n: nat, b: nat)
    requires WellTiled(free, live, n) && b in live && b >= 1
    ensures WellTiled(MergedPrev(MergedNext(free, live, b), Pred(free, b), b), live - {b}, n)
  {
    MergeNextTiles(free, live, n, b);
    MergePrevTiles(MergedNext(free, live, b), live - {b}, n, Pred(free, b), b);
    MergedCoalesced(free, live, n, b);
  }

  /** The free chunks after the last `need` units of chunk c are taken. */
  ghost function Taken(free: Blocks, c: nat, need: nat): Blocks
    requires c in free && 1 <= need <= free[c]
  {
    if free[c] == need then free - {c} else free[c := free[c] - need]
  }

  /** The block taken starts where no live block does. */
  lemma TakenFresh(free: Blocks, live: Blocks, n: nat, c: nat, need: nat)
    requires WellTiled(free, live, n) && c in free && 1 <= need <= free[c]
    ensures End(free, c) - need !in live
    ensures End(free, c) - need != c ==> End(free, c) - need !in free
  {
    var m := free + live;
    var b := End(free, c) - need;
    assert c in m && m[c] == free[c];
    assert b in m ==> b == c;
  }

  lemma TakenUnion(free: Blocks, live: Blocks, c: nat, need: nat)
    requires Disjoint(free, live) && c in free && 1 <= need <= free[c]
    requires End(free, c) - need !in live
    requires End(free, c) - need != c ==> End(free, c) - need !in free
    ensures Disjoint(Taken(free, c, need), live[End(free, c) - need := need])
    ensures var m := free + live;
            Taken(free, c, need) + live[End(free, c) - need := need]
            == if need == free[c] then m else m[c := m[c] - need][End(free, c) - need := need]
  {
    assert c !in live;
  }

  lemma TakenTiles(free: Blocks, live: Blocks, n: nat, c: nat, need: nat)
    requires WellTiled(free, live, n) && c in free && 1 <= need <= free[c]
    ensures Disjoint(Taken(free, c, need), live[End(free, c) - need := need])
    ensures Tiles(Taken(free, c, need) + live[End(free, c) - need := need], n)
  {
    hide Tiles, Coalesced, Taken;
    TakenFresh(free, live, n, c, need);
    TakenUnion(free, live, c, need);
    var m := free + live;
    assert c !in live && m[c] == free[c] && End(m, c) == End(free, c);
    if free[c] != need {
      SplitTile(m, n, c, need);
    }
  }

  /** Taking the tail of a chunk, or all of it, leaves a coalesced tiling. */
  lemma TakenWellTiled(free: Blocks, live: Blocks, n: nat, c: nat, need: nat)
    requires WellTiled(free, live, n) && c in free && 1 <= need <= free[c]
    ensures WellTiled(Taken(free, c, need), live[End(free, c) - need := need], n)
  {
    TakenTiles(free, live, n, c, need);
    TakenFresh(free, live, n, c, need);
    var free' := Taken(free, c, need);
    forall f | f in free' ensures End(free', f) !in free' {
      if f != c {
        assert End(free', f) == End(free, f);
      }
    }
  }
}
