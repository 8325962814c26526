/** Adding up block lengths. */
module Accounting {
  import opened Tiling
  import opened FreeRing

  /** The total length of the blocks that start below u. */
  ghost function Total(m: Blocks, u: nat): nat {
    if u == 0 then 0 else Total(m, u - 1) + (if u - 1 in m then m[u - 1] else 0)
  }

  /** The length of a node of the ring; the sentinel has none. */
  ghost function Length(free: Blocks, x: nat): nat {
    if x in free then free[x] else 0
  }

  /** The total length of the first i nodes of the ring. */
  ghost function Prefix(ring: seq<nat>, free: Blocks, i: nat): nat
    requires i <= |ring|
  {
    if i == 0 then 0 else Prefix(ring, free, i - 1) + Length(free, ring[i - 1])
  }

  lemma {:induction false} TotalSkips(m: Blocks, lo: nat, hi: nat)
    requires lo <= hi && forall x :: lo <= x < hi ==> x !in m
    ensures Total(m, hi) == Total(m, lo)
    decreases hi
  {
    if lo < hi {
      TotalSkips(m, lo, hi - 1);
    }
  }

  lemma {:induction false} TotalRemove(m: Blocks, b: nat, u: nat)
    ensures Total(m - {b}, u) == Total(m, u) - if b < u then Length(m, b) else 0
    decreases u
  {
    if u > 0 {
      TotalRemove(m, b, u - 1);
    }
  }

  /** Going through the ring adds up the free chunks. */
  lemma {:induction false} PrefixTotal(ring: seq<nat>, free: Blocks, i: nat)
    requires Ascending(ring) && Nodes(ring, free) && 1 <= i <= |ring|
    ensures Prefix(ring, free, i) == Total(free, ring[i - 1] + 1)
    decreases i
  {
    if i == 1 {
      TotalSkips(free, 0, 1);
      assert Prefix(ring, free, 0) == 0;
    } else {
      PrefixTotal(ring, free, i - 1);
      forall x | ring[i - 2] + 1 <= x < ring[i - 1] ensures x !in free {
        assert x in free ==> x in ring;
      }
      TotalSkips(free, ring[i - 2] + 1, ring[i - 1]);
    }
  }

  lemma RingTotal(ring: seq<nat>, free: Blocks, n: nat)
    requires Ascending(ring) && Nodes(ring, free) && forall f :: f in free ==> f <= n
    ensures Prefix(ring, free, |ring|) == Total(free, n + 1)
  {
    PrefixTotal(ring, free, |ring|);
    var top := ring[|ring| - 1];
    assert top != 0 ==> top in free;
    forall x | x in free ensures x <= top {
      var k :| 0 <= k < |ring| && ring[k] == x;
    }
    TotalSkips(free, top + 1, n + 1);
  }

  /** The tiles that start below a tile boundary e add up to e - 1 units. */
  lemma {:induction false} TilesTotal(m: Blocks, n: nat, e: nat)
    requires Tiles(m, n) && (e in m || e == n + 1)
    ensures Total(m, e) == e - 1
    decreases e
  {
    if e == 1 {
      assert 0 !in m;
      assert Total(m, 0) == 0;
    } else {
      assert e > 1;
      var b := TileOf(m, n, e - 1);
      assert End(m, b) == e by {
        assert End(m, b) >= e;
        assert e in m ==> End(m, b) <= e;
      }
      TilesTotal(m, n, b);
      forall x | b + 1 <= x < e ensures x !in m {
        assert End(m, b) > x;
      }
      TotalSkips(m, b + 1, e);
    }
  }

  lemma {:induction false} TotalUnion(a: Blocks, b: Blocks, u: nat)
    requires Disjoint(a, b)
    ensures Total(a + b, u) == Total(a, u) + Total(b, u)
    decreases u
  {
    if u > 0 {
      TotalUnion(a, b, u - 1);
    }
  }

  /** Conservation: the free chunks and the live blocks add up to the whole heap. */
  lemma FreePlusLive(free: Blocks, live: Blocks, n: nat)
    requires WellTiled(free, live, n)
    ensures Total(free, n + 1) + Total(live, n + 1) == n
  {
    TilesTotal(free + live, n, n + 1);
    TotalUnion(free, live, n + 1);
  }

  /** The nodes met on a turn of the ring that starts behind position k0 and has reached position k. */
  ghost function Turn(ring: seq<nat>, free: Blocks, k0: nat, k: nat): int
    requires k0 < |ring| && k < |ring|
  {
    if k > k0 then Prefix(ring, free, k) - Prefix(ring, free, k0 + 1)
    else Prefix(ring, free, |ring|) - Prefix(ring, free, k0 + 1) + Prefix(ring, free, k)
  }

  lemma TurnStart(ring: seq<nat>, free: Blocks, k0: nat)
    requires k0 < |ring|
    ensures Turn(ring, free, k0, if k0 + 1 < |ring| then k0 + 1 else 0) == 0
  {
    assert Prefix(ring, free, 0) == 0;
  }

  /** One step further round; back at k0 the whole ring has been added up. */
  lemma TurnStep(ring: seq<nat>, free: Blocks, k0: nat, k: nat)
    requires k0 < |ring| && k < |ring|
    ensures k != k0 ==> Turn(ring, free, k0, if k + 1 < |ring| then k + 1 else 0) == Turn(ring, free, k0, k) + Length(free, ring[k])
    ensures k == k0 ==> Turn(ring, free, k0, k) + Length(free, ring[k]) == Prefix(ring, free, |ring|)
  {
    assert Prefix(ring, free, 0) == 0;
    assert Prefix(ring, free, k + 1) == Prefix(ring, free, k) + Length(free, ring[k]);
  }
}
