/**
 * The circular free list as a sequence of units: node 0 is the sentinel `base`, the others follow
 * in address order, and the link of the last node leads back to the sentinel.
 */
module FreeRing {

  ghost predicate Ascending(ring: seq<nat>) {
    && |ring| >= 1 && ring[0] == 0
    && forall i, j :: 0 <= i < j < |ring| ==> ring[i] < ring[j]
  }

  /** The node that follows node i in the ring. */
  ghost function After(ring: seq<nat>, i: nat): nat
    requires i < |ring|
  {
    if i + 1 < |ring| then ring[i + 1] else 0
  }

  /** Every node holds the address of its successor. */
  ghost predicate Linked(ring: seq<nat>, ptr: seq<int>) {
    && (forall i :: 0 <= i < |ring| ==> ring[i] < |ptr|)
    && (forall i {:trigger After(ring, i)} :: 0 <= i < |ring| ==> ptr[ring[i]] == After(ring, i))
  }

  /** The nodes of the ring are the sentinel and the free chunks. */
  ghost predicate Nodes(ring: seq<nat>, free: map<nat, nat>) {
    && (forall i :: 1 <= i < |ring| ==> ring[i] in free)
    && (forall f :: f in free ==> 1 <= f && f in ring)
  }

  /** The greatest node below b, counting the sentinel. */
  ghost function Pred(free: map<nat, nat>, b: nat): (p: nat)
    requires b >= 1
    ensures p < b && (p == 0 || p in free)
    ensures forall f :: f in free && f < b ==> f <= p
    decreases b
  {
    if b == 1 || b - 1 in free then b - 1 else Pred(free, b - 1)
  }

  /** The node that precedes b in address order sits at one position of the ring. */
  lemma PredIndex(ring: seq<nat>, free: map<nat, nat>, b: nat) returns (j: nat)
    requires Ascending(ring) && Nodes(ring, free) && b >= 1
    ensures j < |ring| && ring[j] == Pred(free, b)
    ensures forall i :: 0 <= i < |ring| ==> (i <= j <==> ring[i] < b)
  {
    var p := Pred(free, b);
    if p == 0 {
      j := 0;
    } else {
      j :| 0 <= j < |ring| && ring[j] == p;
    }
    forall i | 0 <= i < |ring| ensures i <= j <==> ring[i] < b {
      if j < i {
        assert ring[i] in free;
      }
    }
  }

  /** The two exits of the search in `gFree`, for node p, its link and the chunk to insert. */
  predicate SearchStops(p: int, next: int, b: int) {
    (b > p && b < next) || (p >= next && (b > p || b < next))
  }

  lemma SearchStopsIff(ring: seq<nat>, b: nat, j: nat, i: nat)
    requires Ascending(ring) && j < |ring| && i < |ring|
    requires forall k :: 0 <= k < |ring| ==> (k <= j <==> ring[k] < b)
    ensures SearchStops(ring[i], After(ring, i), b) <==> i == j && !(j + 1 < |ring| && ring[j + 1] == b)
  {
    if i + 1 < |ring| {
      assert ring[i] < ring[i + 1];
    }
  }

  /**
   * The search for a place for b stops at the predecessor of b and nowhere else, unless b already
   * is a node: then it stops nowhere, and freeing a free chunk again never returns.
   */
  lemma SearchStopsAt(ring: seq<nat>, free: map<nat, nat>, b: nat, i: nat)
    requires Ascending(ring) && Nodes(ring, free) && b >= 1 && i < |ring|
    ensures SearchStops(ring[i], After(ring, i), b) <==> ring[i] == Pred(free, b) && b !in free
  {
    var j := PredIndex(ring, free, b);
    SearchStopsIff(ring, b, j, i);
    assert i != j ==> ring[i] != ring[j];
    if b in free {
      var k :| 0 <= k < |ring| && ring[k] == b;
      assert j + 1 <= k && ring[j + 1] >= b;
    }
  }

  /** A sorted ring is determined by the set of its nodes. */
  lemma {:induction false} RingUnique(r: seq<nat>, s: seq<nat>)
    requires forall i, j :: 0 <= i < j < |r| ==> r[i] < r[j]
    requires forall i, j :: 0 <= i < j < |s| ==> s[i] < s[j]
    requires forall x :: x in r <==> x in s
    ensures r == s
  {
    assert s != [] ==> s[0] in r;
    if r != [] {
      assert r[0] in s;
      assert r[0] == s[0];
      assert r == [r[0]] + r[1..] && s == [s[0]] + s[1..];
      forall x ensures x in r[1..] <==> x in s[1..] {
        assert x in r <==> x == r[0] || x in r[1..];
        assert x in s <==> x == s[0] || x in s[1..];
      }
      RingUnique(r[1..], s[1..]);
    }
  }

  /**
   * One splice covers every change the allocator makes to its list: after node j, drop `d` nodes
   * (none or one) and put `mid` (nothing or one chunk) in their place.
   */
  ghost function Splice(ring: seq<nat>, j: nat, d: nat, mid: seq<nat>): seq<nat>
    requires j + 1 + d <= |ring|
  {
    ring[..j + 1] + mid + ring[j + 1 + d..]
  }

  /** The link that leaves node j + d of the ring. */
  ghost function Exit(ring: seq<nat>, j: nat, d: nat): nat
    requires j + d < |ring|
  {
    After(ring, j + d)
  }

  lemma SpliceAscending(ring: seq<nat>, j: nat, d: nat, mid: seq<nat>)
    requires Ascending(ring) && j + 1 + d <= |ring| && |mid| <= 1
    requires mid != [] ==> ring[j] < mid[0] && (j + 1 < |ring| ==> mid[0] < ring[j + 1])
    ensures Ascending(Splice(ring, j, d, mid))
  {
    var r := Splice(ring, j, d, mid);
    forall i, k | 0 <= i < k < |r| ensures r[i] < r[k] {
      var i' := SpliceIndex(ring, j, d, mid, i);
      var k' := SpliceIndex(ring, j, d, mid, k);
    }
  }

  /** Where the nodes of a spliced ring come from. */
  lemma SpliceIndex(ring: seq<nat>, j: nat, d: nat, mid: seq<nat>, i: nat) returns (k: nat)
    requires j + 1 + d <= |ring| && |mid| <= 1 && i < |Splice(ring, j, d, mid)|
    ensures i <= j ==> k == i
    ensures i > j ==> k == i + d - |mid|
    ensures mid == [] || i != j + 1 ==> k < |ring| && Splice(ring, j, d, mid)[i] == ring[k]
    ensures mid != [] && i == j + 1 ==> Splice(ring, j, d, mid)[i] == mid[0]
  {
    k := if i <= j then i else i + d - |mid|;
  }

  /** Dropping nodes keeps the ring linked when node j takes over their exit. */
  lemma SpliceOut(ring: seq<nat>, ptr: seq<int>, ptr': seq<int>, j: nat, d: nat)
    requires Ascending(ring) && Linked(ring, ptr) && j + 1 + d <= |ring| && |ptr'| == |ptr|
    requires ptr'[ring[j]] == Exit(ring, j, d)
    requires forall i :: 0 <= i < |ring| && i != j && !(j < i <= j + d) ==> ptr'[ring[i]] == ptr[ring[i]]
    ensures Ascending(Splice(ring, j, d, [])) && Linked(Splice(ring, j, d, []), ptr')
  {
    SpliceAscending(ring, j, d, []);
    var r := Splice(ring, j, d, []);
    forall i | 0 <= i < |r| ensures r[i] < |ptr'| && ptr'[r[i]] == After(r, i) {
      var k := SpliceIndex(ring, j, d, [], i);
      assert ptr[ring[k]] == After(ring, k);
      if i + 1 < |r| {
        var k' := SpliceIndex(ring, j, d, [], i + 1);
      }
    }
  }

  /** Putting a chunk in keeps the ring linked when it takes over the exit and node j leads to it. */
  lemma SpliceIn(ring: seq<nat>, ptr: seq<int>, ptr': seq<int>, j: nat, d: nat, b: nat)
    requires Ascending(ring) && Linked(ring, ptr) && j + 1 + d <= |ring| && |ptr'| == |ptr|
    requires ring[j] < b < |ptr| && (j + 1 < |ring| ==> b < ring[j + 1])
    requires ptr'[ring[j]] == b && ptr'[b] == Exit(ring, j, d)
    requires forall i :: 0 <= i < |ring| && i != j && !(j < i <= j + d) ==> ptr'[ring[i]] == ptr[ring[i]]
    ensures Ascending(Splice(ring, j, d, [b])) && Linked(Splice(ring, j, d, [b]), ptr')
  {
    SpliceAscending(ring, j, d, [b]);
    var r := Splice(ring, j, d, [b]);
    forall i | 0 <= i < |r| ensures r[i] < |ptr'| && ptr'[r[i]] == After(r, i) {
      var k := SpliceIndex(ring, j, d, [b], i);
      if i != j + 1 {
        assert ptr[ring[k]] == After(ring, k);
      }
      if i + 1 < |r| {
        var k' := SpliceIndex(ring, j, d, [b], i + 1);
      }
    }
  }

  lemma SpliceAt(ring: seq<nat>, j: nat, d: nat, mid: seq<nat>, i: nat)
    requires j + 1 + d <= |ring| && i < |ring| && !(j < i <= j + d)
    ensures ring[i] in Splice(ring, j, d, mid)
  {
    var r := Splice(ring, j, d, mid);
    assert r[if i <= j then i else i - d + |mid|] == ring[i];
  }

  lemma SpliceMid(ring: seq<nat>, j: nat, d: nat, mid: seq<nat>, x: nat)
    requires j + 1 + d <= |ring| && |mid| <= 1 && x in mid
    ensures x in Splice(ring, j, d, mid)
  {
    assert Splice(ring, j, d, mid)[j + 1] == mid[0];
  }

  lemma SpliceFrom(ring: seq<nat>, j: nat, d: nat, mid: seq<nat>, x: nat)
    requires Ascending(ring) && j + 1 + d <= |ring| && d <= 1 && |mid| <= 1
    requires x in Splice(ring, j, d, mid) && x !in mid
    ensures x in ring && !(d == 1 && x == ring[j + 1])
  {
    var r := Splice(ring, j, d, mid);
    var i :| 0 <= i < |r| && r[i] == x;
    var k := SpliceIndex(ring, j, d, mid, i);
    assert mid != [] ==> mid[0] in mid;
  }

  /** The nodes of a spliced ring. */
  lemma SpliceMembers(ring: seq<nat>, j: nat, d: nat, mid: seq<nat>, x: nat)
    requires Ascending(ring) && j + 1 + d <= |ring| && d <= 1 && |mid| <= 1
    ensures x in Splice(ring, j, d, mid) <==> x in mid || (x in ring && !(d == 1 && x == ring[j + 1]))
  {
    hide Splice;
    if x in Splice(ring, j, d, mid) && x !in mid {
      SpliceFrom(ring, j, d, mid, x);
    }
    if x in mid {
      SpliceMid(ring, j, d, mid, x);
    }
    if x in ring && !(d == 1 && x == ring[j + 1]) {
      var i :| 0 <= i < |ring| && ring[i] == x;
      SpliceAt(ring, j, d, mid, i);
    }
  }
}
