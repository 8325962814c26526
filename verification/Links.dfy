/**
 * The doubly linked ready ring as two maps, and what each piece of pointer code does to it.  The
 * point is line 149 of kernel/ordo3.0/semaphore.c: as written it gives a woken thread the back link
 * of the current thread instead of a link to the current thread.
 */
module Links {

  datatype Links<T(==)> = Links(next: map<T, T>, last: map<T, T>)

  function After<T>(r: seq<T>, i: nat): T
    requires i < |r|
  {
    if i + 1 < |r| then r[i + 1] else r[0]
  }

  /** The back link of position i; on a skewed ring position 1 names the last thread. */
  function Behind<T>(r: seq<T>, i: nat, skew: bool): T
    requires i < |r|
  {
    if i == 0 || (i == 1 && skew) then r[|r| - 1] else r[i - 1]
  }

  /** The links run through r in a circle, forwards and backwards. */
  ghost predicate Ring<T>(r: seq<T>, l: Links<T>, skew: bool) {
    && |r| >= 1 && (skew ==> |r| >= 3)
    && (forall i, j :: 0 <= i < j < |r| ==> r[i] != r[j])
    && (forall i {:trigger After(r, i)} :: 0 <= i < |r| ==> r[i] in l.next && l.next[r[i]] == After(r, i))
    && (forall i {:trigger Behind(r, i, skew)} :: 0 <= i < |r| ==> r[i] in l.last && l.last[r[i]] == Behind(r, i, skew))
  }

  /** Lines 148-151 of semaphore.c, with the back link that line 149 gives the woken thread. */
  function Insert<T>(l: Links<T>, cur: T, w: T, back: T): Links<T>
    requires cur in l.next
  {
    var n := l.next[cur];
    Links(l.next[w := n][cur := w], l.last[w := back][n := w])
  }

  /** The hand-off as written. */
  function InsertAsWritten<T>(l: Links<T>, cur: T, w: T): Links<T>
    requires cur in l.next && cur in l.last
  {
    Insert(l, cur, w, l.last[cur])
  }

  /** Lines 110-112 of scheduler.c: the current thread is linked out. */
  function Remove<T>(l: Links<T>, cur: T): Links<T>
    requires cur in l.next && cur in l.last
  {
    var n := l.next[cur];
    Links(l.next[l.last[cur] := n], l.last[n := l.last[cur]])
  }

  lemma LinkAt<T>(r: seq<T>, l: Links<T>, skew: bool, i: nat)
    requires Ring(r, l, skew) && i < |r|
    ensures r[i] in l.next && l.next[r[i]] == After(r, i)
    ensures r[i] in l.last && l.last[r[i]] == Behind(r, i, skew)
  {
    var a, b := After(r, i), Behind(r, i, skew);
  }

  /** Where a position of the longer ring comes from. */
  lemma InsertPositions<T>(r: seq<T>, w: T, i: nat)
    requires |r| >= 1 && i <= |r|
    ensures var r' := [r[0], w] + r[1..];
            && |r'| == |r| + 1
            && r'[i] == if i == 0 then r[0] else if i == 1 then w else r[i - 1]
  {
  }

  lemma InsertNext<T>(r: seq<T>, l: Links<T>, skew: bool, w: T, back: T, i: nat)
    requires Ring(r, l, skew) && w !in r && i <= |r|
    ensures r[0] in l.next
    ensures var r' := [r[0], w] + r[1..];
            var l' := Insert(l, r[0], w, back);
            r'[i] in l'.next && l'.next[r'[i]] == After(r', i)
  {
    InsertPositions(r, w, i);
    if i < |r| {
      InsertPositions(r, w, i + 1);
    }
    LinkAt(r, l, skew, 0);
    if i >= 2 {
      LinkAt(r, l, skew, i - 1);
      assert r[i - 1] != r[0];
    }
  }

  /** Inserting behind the current thread mends a skewed ring, or skews it, by the link the thread gets. */
  lemma InsertRing<T>(r: seq<T>, l: Links<T>, skew: bool, w: T, back: T, skew': bool)
    requires Ring(r, l, skew) && w !in r
    requires back == if skew' then r[|r| - 1] else r[0]
    requires skew' ==> |r| >= 2
    ensures r[0] in l.next
    ensures Ring([r[0], w] + r[1..], Insert(l, r[0], w, back), skew')
  {
    LinkAt(r, l, skew, 0);
    var r' := [r[0], w] + r[1..];
    var l' := Insert(l, r[0], w, back);
    forall i | 0 <= i < |r'| ensures r'[i] in l'.next && l'.next[r'[i]] == After(r', i) {
      InsertNext(r, l, skew, w, back, i);
    }
    InsertPositions(r, w, |r|);
    forall i | 0 <= i < |r'| ensures r'[i] in l'.last && l'.last[r'[i]] == Behind(r', i, skew') {
      InsertPositions(r, w, i);
      if i != 1 {
        var k := if i == 0 then 0 else i - 1;
        LinkAt(r, l, skew, k);
        if i > 0 {
          InsertPositions(r, w, i - 1);
        }
      }
    }
    forall i, j | 0 <= i < j < |r'| ensures r'[i] != r'[j] {
      InsertPositions(r, w, i);
      InsertPositions(r, w, j);
    }
  }

  /**
   * Line 149 as written keeps a well-formed ring exactly when the caller was alone in it; otherwise
   * the ring comes out skewed: forward links right, one back link wrong.
   */
  lemma HandOffAsWritten<T>(r: seq<T>, l: Links<T>, skew: bool, w: T)
    requires Ring(r, l, skew) && w !in r
    ensures r[0] in l.next && r[0] in l.last
    ensures var r' := [r[0], w] + r[1..];
            var l' := InsertAsWritten(l, r[0], w);
            && Ring(r', l', |r| >= 2)
            && (Ring(r', l', false) <==> |r| == 1)
  {
    LinkAt(r, l, skew, 0);
    InsertRing(r, l, skew, w, l.last[r[0]], |r| >= 2);
    var r' := [r[0], w] + r[1..];
    var l' := InsertAsWritten(l, r[0], w);
    if |r| >= 2 {
      LinkAt(r', l', true, 1);
      assert Behind(r', 1, false) == r[0];
    }
  }

  lemma RemoveAt<T>(r: seq<T>, l: Links<T>, skew: bool, i: nat)
    requires Ring(r, l, skew) && |r| >= 2 && i < |r| - 1
    ensures r[0] in l.next && r[0] in l.last
    ensures var r' := r[1..];
            var l' := Remove(l, r[0]);
            && r'[i] in l'.next && l'.next[r'[i]] == After(r', i)
            && r'[i] in l'.last && l'.last[r'[i]] == Behind(r', i, false)
  {
    LinkAt(r, l, skew, 0);
    LinkAt(r, l, skew, i + 1);
    assert i > 0 ==> r[i + 1] != r[1];
    assert i + 1 != |r| - 1 ==> r[i + 1] != r[|r| - 1];
  }

  /** Leaving the ring restores it, skewed or not: the exit path is safe as written. */
  lemma RemoveMends<T>(r: seq<T>, l: Links<T>, skew: bool)
    requires Ring(r, l, skew) && |r| >= 2
    ensures r[0] in l.next && r[0] in l.last
    ensures Ring(r[1..], Remove(l, r[0]), false)
  {
    LinkAt(r, l, skew, 0);
    var r' := r[1..];
    var l' := Remove(l, r[0]);
    RemoveAt(r, l, skew, 0);
    forall i | 0 <= i < |r'|
      ensures r'[i] in l'.next && l'.next[r'[i]] == After(r', i)
      ensures r'[i] in l'.last && l'.last[r'[i]] == Behind(r', i, false)
    {
      RemoveAt(r, l, skew, i);
    }
  }

  /** A ring may be read from its second thread on. */
  lemma Rotate<T>(r: seq<T>, l: Links<T>)
    requires Ring(r, l, false)
    ensures Ring(r[1..] + [r[0]], l, false)
  {
    var r' := r[1..] + [r[0]];
    assert forall i :: 0 <= i < |r'| - 1 ==> r'[i] == r[i + 1];
    forall i | 0 <= i < |r'| ensures r'[i] in l.next && l.next[r'[i]] == After(r', i) {
      LinkAt(r, l, false, if i + 1 < |r| then i + 1 else 0);
    }
    forall i | 0 <= i < |r'| ensures r'[i] in l.last && l.last[r'[i]] == Behind(r', i, false) {
      LinkAt(r, l, false, if i + 1 < |r| then i + 1 else 0);
    }
  }

  /**
   * Making the next thread current, with nothing inserted before: the ring is well formed afterwards
   * exactly when it was not skewed, and exactly then `current->last` is the thread that ran before,
   * whose registers the scheduler has to save.
   */
  lemma AdvanceExact<T>(r: seq<T>, l: Links<T>, skew: bool)
    requires Ring(r, l, skew) && |r| >= 2
    ensures r[1] in l.last
    ensures Ring(r[1..] + [r[0]], l, false) <==> !skew
    ensures l.last[r[1]] == r[0] <==> !skew
  {
    LinkAt(r, l, skew, 1);
    if skew {
      var r' := r[1..] + [r[0]];
      assert Behind(r', 0, false) == r[0];
    } else {
      Rotate(r, l);
    }
  }

  /** The forward links run through r in a circle. */
  ghost predicate Forward<T>(r: seq<T>, next: map<T, T>) {
    |r| >= 1 && forall i {:trigger After(r, i)} :: 0 <= i < |r| ==> r[i] in next && next[r[i]] == After(r, i)
  }

  /**
   * What the wrong back link costs.  On a skewed ring, when the timer makes the next thread current
   * and that thread leaves the ring, the ring closes without the thread that was current before: it
   * is still ready, but the scheduler never meets it again.
   */
  lemma SkewLosesThread<T>(r: seq<T>, l: Links<T>)
    requires Ring(r, l, true)
    ensures r[1] in l.next && r[1] in l.last
    ensures Forward(r[2..], Remove(l, r[1]).next) && r[0] !in r[2..]
  {
    LinkAt(r, l, true, 1);
    var r', l' := r[2..], Remove(l, r[1]);
    forall i | 0 <= i < |r'| ensures r'[i] in l'.next && l'.next[r'[i]] == After(r', i) {
      LinkAt(r, l, true, i + 2);
      assert i + 2 != |r| - 1 ==> r[i + 2] != r[|r| - 1];
    }
  }

  /** The same with a well-formed ring: nobody is lost. */
  lemma WellFormedKeepsAll<T>(r: seq<T>, l: Links<T>)
    requires Ring(r, l, false) && |r| >= 2
    ensures r[1] in l.next && r[1] in l.last
    ensures Ring(r[2..] + [r[0]], Remove(l, r[1]), false)
  {
    Rotate(r, l);
    RemoveMends(r[1..] + [r[0]], l, false);
    assert (r[1..] + [r[0]])[1..] == r[2..] + [r[0]];
  }

  /** A run of it: 0 and 1 are ready, 0 wakes 2, the timer fires, 2 leaves, and 0 is lost. */
  lemma LostThreadExample()
    ensures var l := Links(map[0 := 1, 1 := 0], map[0 := 1, 1 := 0]);
            var l1 := InsertAsWritten(l, 0, 2);
            && Ring([0, 1], l, false) && Ring([0, 2, 1], l1, true)
            && l1.next[0] == 2 && l1.last[2] == 1
            && Remove(l1, 2).next[1] == 1
  {
    var l := Links(map[0 := 1, 1 := 0], map[0 := 1, 1 := 0]);
    var r := [0, 1];
    HandOffAsWritten(r, l, false, 2);
    assert [r[0], 2] + r[1..] == [0, 2, 1];
  }
}
