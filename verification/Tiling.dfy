/**
 * Blocks of header units.  A map from start to length describes a set of blocks; the heap is the
 * units 1..n, unit 0 is the sentinel `base`.
 */
module Tiling {

  type Blocks = map<nat, nat>

  /** The unit just after block b. */
  function End(m: Blocks, b: nat): nat
    requires b in m
  {
    b + m[b]
  }

  /** The blocks lie in 1..n, are not empty and do not overlap. */
  ghost predicate Separate(m: Blocks, n: nat) {
    && (forall b :: b in m ==> 1 <= b && 1 <= m[b] && b + m[b] <= n + 1)
    && (forall a, b :: a in m && b in m && a < b ==> a + m[a] <= b)
  }

  /** Unit u belongs to one of the blocks. */
  ghost predicate Covered(m: Blocks, u: int) {
    exists b: nat :: b in m && b <= u < b + m[b]
  }

  /** The first covered unit at or after u, or n + 1. */
  ghost function NextCovered(m: Blocks, u: nat, n: nat): (e: nat)
    requires u <= n + 1
    ensures u <= e <= n + 1
    ensures e <= n ==> Covered(m, e)
    ensures forall v :: u <= v < e ==> !Covered(m, v)
    decreases n + 1 - u
  {
    if u == n + 1 || Covered(m, u) then u else NextCovered(m, u + 1, n)
  }

  /** Unit f starts a maximal run of uncovered units. */
  ghost predicate GapStart(m: Blocks, f: nat, n: nat) {
    1 <= f <= n && !Covered(m, f) && (f == 1 || Covered(m, f - 1))
  }

  /** The maximal runs of uncovered units: the reference definition of the free chunks. */
  ghost function Gaps(m: Blocks, n: nat): Blocks {
    map f: nat | f <= n && GapStart(m, f, n) :: NextCovered(m, f, n) - f
  }

  /**
   * The blocks tile 1..n: there is a block at 1, every block is followed by another one or by the
   * end of the heap, and no block reaches into another.
   */
  ghost predicate Tiles(m: Blocks, n: nat) {
    && 1 in m
    && (forall b :: b in m ==> 1 <= b && 1 <= m[b] && b + m[b] <= n + 1)
    && (forall b {:trigger End(m, b)} :: b in m && End(m, b) != n + 1 ==> End(m, b) in m)
    && (forall a, b :: a in m && b in m && a < b ==> a + m[a] <= b)
  }

  /** No free chunk is followed directly by another one. */
  ghost predicate Coalesced(free: Blocks) {
    forall f {:trigger End(free, f)} :: f in free ==> End(free, f) !in free
  }

  ghost predicate Disjoint(free: Blocks, live: Blocks) {
    forall f {:trigger f in free} :: f in free ==> f !in live
  }

  /** Free chunks and live blocks tile the heap, and the free chunks are merged as far as possible. */
  ghost predicate WellTiled(free: Blocks, live: Blocks, n: nat) {
    Disjoint(free, live) && Tiles(free + live, n) && Coalesced(free)
  }

  /** Every unit of a tiled heap lies in a block. */
  lemma {:induction false} TileOf(m: Blocks, n: nat, u: nat) returns (b: nat)
    requires Tiles(m, n) && 1 <= u <= n
    ensures b in m && b <= u < End(m, b)
    decreases u
  {
    if u == 1 {
      b := 1;
    } else {
      b := TileOf(m, n, u - 1);
      if u == End(m, b) {
        b := u;
      }
    }
  }

  /** Unit u belongs to exactly one block. */
  ghost predicate InOneBlock(m: Blocks, u: nat) {
    exists b :: b in m && b <= u < End(m, b) && forall c :: c in m && c <= u < End(m, c) ==> c == b
  }

  /** In a tiled heap every unit belongs to exactly one block. */
  lemma TilesPartition(m: Blocks, n: nat, u: nat)
    requires Tiles(m, n) && 1 <= u <= n
    ensures InOneBlock(m, u)
  {
    var b := TileOf(m, n, u);
    assert forall c :: c in m && c <= u < End(m, c) ==> c == b;
  }

  /** What the joined tile and the others are. */
  lemma JoinAt(m: Blocks, n: nat, a: nat, b: nat)
    requires Tiles(m, n) && a in m && End(m, a) in m
    requires b in (m - {End(m, a)})[a := m[a] + m[End(m, a)]]
    ensures var e := End(m, a);
            var m' := (m - {e})[a := m[a] + m[e]];
            && a < e && b in m && b != e && 1 <= b && 1 <= m'[b] && End(m', b) <= n + 1
            && End(m', b) == (if b == a then End(m, e) else End(m, b))
            && End(m', b) != e
  {
  }

  /** A tile that is followed by another tile can be joined with it. */
  lemma JoinTiles(m: Blocks, n: nat, a: nat)
    requires Tiles(m, n) && a in m && End(m, a) in m
    ensures Tiles((m - {End(m, a)})[a := m[a] + m[End(m, a)]], n)
  {
    var e := End(m, a);
    var m' := (m - {e})[a := m[a] + m[e]];
    JoinFirst(m, n, a);
    forall b | b in m' ensures 1 <= b && 1 <= m'[b] && b + m'[b] <= n + 1 {
      hide Tiles;
      JoinAt(m, n, a, b);
    }
    forall b | b in m' && End(m', b) != n + 1 ensures End(m', b) in m' {
      JoinFollow(m, n, a, b);
    }
    forall x, y | x in m' && y in m' && x < y ensures x + m'[x] <= y {
      JoinOrder(m, n, a, x, y);
    }
  }

  lemma JoinFirst(m: Blocks, n: nat, a: nat)
    requires Tiles(m, n) && a in m && End(m, a) in m
    ensures 1 in m && End(m, a) != 1
  {
  }

  lemma JoinFollow(m: Blocks, n: nat, a: nat, b: nat)
    requires Tiles(m, n) && a in m && End(m, a) in m
    requires b in (m - {End(m, a)})[a := m[a] + m[End(m, a)]]
    requires End((m - {End(m, a)})[a := m[a] + m[End(m, a)]], b) != n + 1
    ensures End((m - {End(m, a)})[a := m[a] + m[End(m, a)]], b) in m - {End(m, a)}
  {
    JoinAt(m, n, a, b);
  }

  lemma JoinOrder(m: Blocks, n: nat, a: nat, x: nat, y: nat)
    requires Tiles(m, n) && a in m && End(m, a) in m && x < y
    requires x in (m - {End(m, a)})[a := m[a] + m[End(m, a)]] && y in (m - {End(m, a)})[a := m[a] + m[End(m, a)]]
    ensures End((m - {End(m, a)})[a := m[a] + m[End(m, a)]], x) <= y
  {
    JoinAt(m, n, a, x);
    JoinAt(m, n, a, y);
  }

  /** What the two parts of a tile and the others are. */
  lemma SplitAt(m: Blocks, n: nat, a: nat, k: nat, b: nat)
    requires Tiles(m, n) && a in m && 1 <= k < m[a]
    requires b in m[a := m[a] - k][End(m, a) - k := k]
    ensures var c := End(m, a) - k;
            var m' := m[a := m[a] - k][c := k];
            && a < c && c !in m && 1 <= b && 1 <= m'[b] && End(m', b) <= n + 1
            && (b == a ==> End(m', b) == c) && (b == c ==> End(m', b) == End(m, a))
            && (b != a && b != c ==> b in m && End(m', b) == End(m, b))
  {
  }

  lemma SplitFollow(m: Blocks, n: nat, a: nat, k: nat, b: nat)
    requires Tiles(m, n) && a in m && 1 <= k < m[a]
    requires var m' := m[a := m[a] - k][End(m, a) - k := k]; b in m' && End(m', b) != n + 1
    ensures var m' := m[a := m[a] - k][End(m, a) - k := k]; End(m', b) in m'
  {
    SplitAt(m, n, a, k, b);
  }

  lemma SplitApart(m: Blocks, n: nat, a: nat, k: nat, x: nat, y: nat)
    requires Tiles(m, n) && a in m && 1 <= k < m[a] && x < y
    requires var m' := m[a := m[a] - k][End(m, a) - k := k]; x in m' && y in m'
    ensures x + m[a := m[a] - k][End(m, a) - k := k][x] <= y
  {
    SplitAt(m, n, a, k, x);
    SplitAt(m, n, a, k, y);
  }

  /** The last k units of a tile can be cut off as a tile of their own. */
  lemma SplitTile(m: Blocks, n: nat, a: nat, k: nat)
    requires Tiles(m, n) && a in m && 1 <= k < m[a]
    ensures Tiles(m[a := m[a] - k][End(m, a) - k := k], n)
  {
    var c := End(m, a) - k;
    var m' := m[a := m[a] - k][c := k];
    forall b | b in m' ensures 1 <= b && 1 <= m'[b] && b + m'[b] <= n + 1 {
      SplitAt(m, n, a, k, b);
    }
    forall b | b in m' && End(m', b) != n + 1 ensures End(m', b) in m' {
      SplitFollow(m, n, a, k, b);
    }
    forall x, y | x in m' && y in m' && x < y ensures x + m'[x] <= y {
      SplitApart(m, n, a, k, x, y);
    }
  }

  lemma LiveTile(free: Blocks, live: Blocks, n: nat, b: nat)
    requires WellTiled(free, live, n) && b in live
    ensures b !in free && b in free + live && (free + live)[b] == live[b]
  {
  }

  /** The units of a free chunk are not covered by live blocks. */
  lemma FreeUncovered(free: Blocks, live: Blocks, n: nat, f: nat, u: nat)
    requires WellTiled(free, live, n) && f in free && f <= u < End(free, f)
    ensures !Covered(live, u)
  {
    var m := free + live;
    assert f in m && m[f] == free[f];
    forall b: nat | b in live ensures !(b <= u < b + live[b]) {
      LiveTile(free, live, n, b);
    }
  }

  /** A free chunk is bounded on both sides by live blocks or by the ends of the heap. */
  lemma FreeIsGap(free: Blocks, live: Blocks, n: nat, f: nat)
    requires WellTiled(free, live, n) && f in free
    ensures GapStart(live, f, n) && NextCovered(live, f, n) == End(free, f)
  {
    var m := free + live;
    var e := End(free, f);
    assert f in m && m[f] == free[f] && End(m, f) == e;
    forall u | f <= u < e ensures !Covered(live, u) {
      FreeUncovered(free, live, n, f, u);
    }
    if e <= n {
      assert e in live && m[e] == live[e];
      assert Covered(live, e);
    }
    if f > 1 {
      var b := TileOf(m, n, f - 1);
      assert End(m, b) == f;
      assert b in free ==> End(m, b) == End(free, b);
      assert b in live && live[b] == m[b];
      assert Covered(live, f - 1);
    }
  }

  /** A gap that reaches the start of another one is that one. */
  lemma GapCovers(live: Blocks, n: nat, b: nat, f: nat)
    requires 1 <= b <= n && GapStart(live, f, n) && b <= f < NextCovered(live, b, n)
    ensures b == f
  {
  }

  /** Every maximal run of uncovered units is a free chunk. */
  lemma GapIsFree(free: Blocks, live: Blocks, n: nat, f: nat)
    requires WellTiled(free, live, n) && GapStart(live, f, n)
    ensures f in free
  {
    var m := free + live;
    var b := TileOf(m, n, f);
    assert b !in live;
    assert b in free && m[b] == free[b];
    FreeIsGap(free, live, n, b);
    GapCovers(live, n, b, f);
  }

  /**
   * Canonical form: a coalesced free list is determined by the live blocks alone.  Its chunks are
   * exactly the maximal runs of units that no live block covers.
   */
  lemma FreeChunksAreGaps(free: Blocks, live: Blocks, n: nat)
    requires WellTiled(free, live, n)
    ensures free == Gaps(live, n)
    ensures Separate(live, n)
  {
    var g := Gaps(live, n);
    forall f | f in free ensures f in g && g[f] == free[f] {
      FreeIsGap(free, live, n, f);
    }
    forall f | f in g ensures f in free {
      GapIsFree(free, live, n, f);
    }
    assert free.Keys == g.Keys;
    var m := free + live;
    assert forall b :: b in live ==> b in m && m[b] == live[b];
  }

  /** What follows a gap starts a live block. */
  lemma GapEnd(live: Blocks, n: nat, f: nat)
    requires Separate(live, n) && GapStart(live, f, n) && NextCovered(live, f, n) <= n
    ensures NextCovered(live, f, n) in live
  {
    var e := NextCovered(live, f, n);
    var b: nat :| b in live && b <= e < b + live[b];
    assert b < e ==> Covered(live, e - 1);
  }

  /** What follows a live block starts a live block or a gap. */
  lemma LiveEnd(live: Blocks, n: nat, b: nat)
    requires Separate(live, n) && b in live && End(live, b) <= n
    ensures End(live, b) in live || GapStart(live, End(live, b), n)
  {
    var e := End(live, b);
    assert Covered(live, e - 1);
    if Covered(live, e) {
      var c: nat :| c in live && c <= e < c + live[c];
    }
  }

  /** A gap does not reach into another gap or into a live block. */
  lemma GapApart(live: Blocks, n: nat, f: nat, b: nat)
    requires Separate(live, n) && GapStart(live, f, n)
    requires b in live || GapStart(live, b, n)
    ensures f < b ==> NextCovered(live, f, n) <= b
    ensures b < f && b in live ==> b + live[b] <= f
  {
    assert b in live ==> Covered(live, b);
    assert b in live && b <= f < b + live[b] ==> Covered(live, f);
  }

  /** The heap starts with a gap or with a live block. */
  lemma GapsFirst(live: Blocks, n: nat)
    requires Separate(live, n) && n >= 1
    ensures 1 in Gaps(live, n) + live
  {
    if Covered(live, 1) {
      var b: nat :| b in live && b <= 1 < b + live[b];
      assert b == 1;
    } else {
      assert GapStart(live, 1, n);
    }
  }

  lemma GapIn(live: Blocks, n: nat, f: nat)
    ensures f in Gaps(live, n) <==> GapStart(live, f, n)
    ensures GapStart(live, f, n) ==> Gaps(live, n)[f] == NextCovered(live, f, n) - f
  {
  }

  /** What the blocks of the tiling are. */
  lemma UnionAt(live: Blocks, n: nat, b: nat)
    requires Separate(live, n) && b in Gaps(live, n) + live
    ensures b in live ==> b !in Gaps(live, n) && (Gaps(live, n) + live)[b] == live[b]
    ensures b !in live ==> GapStart(live, b, n) && End(Gaps(live, n) + live, b) == NextCovered(live, b, n)
    ensures 1 <= b && 1 <= (Gaps(live, n) + live)[b] && End(Gaps(live, n) + live, b) <= n + 1
  {
    GapIn(live, n, b);
    hide Gaps;
    assert b in live ==> b <= b < b + live[b];
    assert b in live ==> Covered(live, b);
  }

  lemma GapsFollow(live: Blocks, n: nat, b: nat)
    requires Separate(live, n) && b in Gaps(live, n) + live && End(Gaps(live, n) + live, b) != n + 1
    ensures End(Gaps(live, n) + live, b) in Gaps(live, n) + live
  {
    hide Gaps, GapStart, Covered, Separate;
    UnionAt(live, n, b);
    GapIn(live, n, End(Gaps(live, n) + live, b));
    if b in live {
      LiveEnd(live, n, b);
    } else {
      GapEnd(live, n, b);
    }
  }

  lemma GapsOrdered(live: Blocks, n: nat, a: nat, b: nat)
    requires Separate(live, n) && a in Gaps(live, n) + live && b in Gaps(live, n) + live && a < b
    ensures a + (Gaps(live, n) + live)[a] <= b
  {
    hide Gaps, GapStart, Covered;
    UnionAt(live, n, a);
    UnionAt(live, n, b);
    if a !in live {
      GapApart(live, n, a, b);
    } else if b !in live {
      GapApart(live, n, b, a);
    }
  }

  /** The gaps and the live blocks tile the heap. */
  lemma GapsTile(live: Blocks, n: nat)
    requires Separate(live, n) && n >= 1
    ensures Disjoint(Gaps(live, n), live)
    ensures Tiles(Gaps(live, n) + live, n)
  {
    hide Gaps, Separate;
    var m := Gaps(live, n) + live;
    forall f | f in Gaps(live, n) ensures f !in live {
      UnionAt(live, n, f);
    }
    GapsFirst(live, n);
    forall b | b in m ensures 1 <= b && 1 <= m[b] && b + m[b] <= n + 1 {
      UnionAt(live, n, b);
    }
    forall b | b in m && End(m, b) != n + 1 ensures End(m, b) in m {
      GapsFollow(live, n, b);
    }
    forall a, b | a in m && b in m && a < b ensures a + m[a] <= b {
      GapsOrdered(live, n, a, b);
    }
  }

  /** Conversely the gaps between separate live blocks complete them to a coalesced tiling. */
  lemma GapsComplete(live: Blocks, n: nat)
    requires Separate(live, n) && n >= 1
    ensures WellTiled(Gaps(live, n), live, n)
  {
    GapsTile(live, n);
    var g := Gaps(live, n);
    forall f | f in g ensures End(g, f) !in g {
      assert End(g, f) == NextCovered(live, f, n);
    }
  }
}
