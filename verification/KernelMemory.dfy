/**
 * How the kernel's state lies in memory: the `next` and `last` fields of all threads as two maps, the
 * heads of the lists, and the message chains.
 */
module KernelMemory {
  import opened Contexts
  import opened KernelState
  import opened Links

  type CtxLinks = Links<Ctx?>

  /** The `next` fields lead from the head through q to null. */
  ghost predicate ChainIn(head: Ctx?, q: seq<Ctx>, next: map<Ctx?, Ctx?>) {
    && head == (if q == [] then null else q[0])
    && forall i {:trigger NextIn(q, i)} :: 0 <= i < |q| ==> q[i] in next && next[q[i]] == NextIn(q, i)
  }

  function NextIn(q: seq<Ctx>, i: nat): Ctx? {
    if i + 1 < |q| then q[i + 1] else null
  }

  /** The one `next` field threads the ring, the sleep list and the waiters of every semaphore. */
  ghost predicate LinkRep(th: Threads, sems: map<int, Semaphore>, current: Ctx, sleepers: Ctx?, heads: map<int, Ctx?>, l: CtxLinks) {
    && th.ready != [] && current == th.ready[0]
    && Ring(th.ready, l, th.skew)
    && ChainIn(sleepers, th.sleeping, l.next)
    && heads.Keys == sems.Keys
    && (forall id {:trigger sems[id]} :: id in sems ==> ChainIn(heads[id], sems[id].waiters, l.next))
  }

  lemma ChainAt(head: Ctx?, q: seq<Ctx>, next: map<Ctx?, Ctx?>, i: nat)
    requires ChainIn(head, q, next) && i < |q|
    ensures q[i] in next && next[q[i]] == NextIn(q, i)
  {
    var n := NextIn(q, i);
  }

  lemma ChainFrame(head: Ctx?, q: seq<Ctx>, next: map<Ctx?, Ctx?>, next': map<Ctx?, Ctx?>)
    requires ChainIn(head, q, next)
    requires forall t :: t in q && t in next ==> t in next' && next'[t] == next[t]
    ensures ChainIn(head, q, next')
  {
    forall i | 0 <= i < |q| ensures q[i] in next' && next'[q[i]] == NextIn(q, i) {
      ChainAt(head, q, next, i);
    }
  }

  lemma ChainPop(head: Ctx?, q: seq<Ctx>, next: map<Ctx?, Ctx?>)
    requires ChainIn(head, q, next) && q != []
    ensures q[0] in next && ChainIn(next[q[0]], q[1..], next)
  {
    ChainAt(head, q, next, 0);
    forall i | 0 <= i < |q[1..]| ensures q[1..][i] in next && next[q[1..][i]] == NextIn(q[1..], i) {
      ChainAt(head, q, next, i + 1);
    }
  }

  lemma ChainPush(head: Ctx?, q: seq<Ctx>, next: map<Ctx?, Ctx?>, t: Ctx)
    requires ChainIn(head, q, next) && t !in q
    ensures ChainIn(t, [t] + q, next[t := head])
  {
    var r, next' := [t] + q, next[t := head];
    forall i | 0 <= i < |r| ensures r[i] in next' && next'[r[i]] == NextIn(r, i) {
      if i > 0 {
        ChainAt(head, q, next, i - 1);
      }
    }
  }

  /** A thread goes in at position k. */
  lemma ChainInsert(head: Ctx?, q: seq<Ctx>, next: map<Ctx?, Ctx?>, t: Ctx, k: nat)
    requires ChainIn(head, q, next) && t !in q && k <= |q|
    requires forall i, j :: 0 <= i < j < |q| ==> q[i] != q[j]
    ensures ChainIn(if k == 0 then t else head, q[..k] + [t] + q[k..],
                    if k == 0 then next[t := if k < |q| then q[k] else null]
                    else next[t := if k < |q| then q[k] else null][q[k - 1] := t])
  {
    var r := q[..k] + [t] + q[k..];
    var n: Ctx? := if k < |q| then q[k] else null;
    var next' := if k == 0 then next[t := n] else next[t := n][q[k - 1] := t];
    forall i | 0 <= i < |r| ensures r[i] in next' && next'[r[i]] == NextIn(r, i) {
      if i < k {
        assert r[i] == q[i];
        ChainAt(head, q, next, i);
      } else if i > k {
        assert r[i] == q[i - 1];
        ChainAt(head, q, next, i - 1);
      }
    }
  }

  // ---- the pointer operations -----------------------------------------------------------------

  /** disable_current_thread: unlinked, and its two links cleared. */
  function Unlinked(l: CtxLinks, cur: Ctx): CtxLinks
    requires cur in l.next && cur in l.last
  {
    var l1 := Remove(l, cur);
    Links(l1.next[cur := null], l1.last[cur := null])
  }

  lemma UnlinkedRing(r: seq<Ctx>, l: CtxLinks, skew: bool)
    requires Ring(r, l, skew) && |r| >= 2
    ensures r[0] in l.next && r[0] in l.last
    ensures Ring(r[1..], Unlinked(l, r[0]), false)
  {
    RemoveMends<Ctx?>(r, l, skew);
    RingFrame(r[1..], Remove(l, r[0]), Unlinked(l, r[0]), false);
  }

  /** Only the links of the threads in the ring matter. */
  lemma RingFrame(r: seq<Ctx>, l: CtxLinks, l': CtxLinks, skew: bool)
    requires Ring(r, l, skew)
    requires forall t :: t in r && t in l.next ==> t in l'.next && l'.next[t] == l.next[t]
    requires forall t :: t in r && t in l.last ==> t in l'.last && l'.last[t] == l.last[t]
    ensures Ring(r, l', skew)
  {
    forall i | 0 <= i < |r|
      ensures r[i] in l'.next && l'.next[r[i]] == After<Ctx?>(r, i)
      ensures r[i] in l'.last && l'.last[r[i]] == Behind<Ctx?>(r, i, skew)
    {
      LinkAt<Ctx?>(r, l, skew, i);
    }
  }

  /** Thread t is in none of the lists. */
  ghost predicate Loose(th: Threads, sems: map<int, Semaphore>, t: Ctx) {
    && t !in th.ready && t !in th.sleeping
    && forall id {:trigger sems[id]} :: id in sems ==> t !in sems[id].waiters
  }

  /** The lists do not share threads with the ring. */
  ghost predicate Apart(th: Threads, sems: map<int, Semaphore>) {
    && (forall t :: t in th.sleeping ==> t !in th.ready)
    && (forall id {:trigger sems[id]} :: id in sems ==> forall t :: t in sems[id].waiters ==> t !in th.ready && t !in th.sleeping)
  }

  lemma PlacedApart(th: Threads, sems: map<int, Semaphore>)
    requires Placed(th, sems)
    ensures Apart(th, sems)
    ensures forall t :: t !in th.status || th.status[t] == Moving || th.status[t] == Dead ==> Loose(th, sems, t)
  {
  }

  lemma UnlinkRep(th: Threads, sems: map<int, Semaphore>, current: Ctx, sleepers: Ctx?, heads: map<int, Ctx?>, l: CtxLinks, to: Status)
    requires LinkRep(th, sems, current, sleepers, heads, l) && Apart(th, sems) && |th.ready| >= 2
    ensures current in l.next && current in l.last && l.next[current] == th.ready[1] && l.last[current] == th.ready[|th.ready| - 1]
    ensures LinkRep(Unready(th, to), sems, th.ready[1], sleepers, heads, Unlinked(l, current))
  {
    LinkAt<Ctx?>(th.ready, l, th.skew, 0);
    UnlinkedRing(th.ready, l, th.skew);
    var l' := Unlinked(l, current);
    forall t | t !in th.ready && t in l.next ensures t in l'.next && l'.next[t] == l.next[t] {
      assert th.ready[|th.ready| - 1] in th.ready;
    }
    hide Ring, Unlinked, ChainIn;
    ChainFrame(sleepers, th.sleeping, l.next, l'.next);
    forall id | id in sems ensures ChainIn(heads[id], sems[id].waiters, l'.next) {
      ChainFrame(heads[id], sems[id].waiters, l.next, l'.next);
    }
  }

  /** A loose thread is linked in behind the current one. */
  lemma InsertRep(th: Threads, sems: map<int, Semaphore>, current: Ctx, sleepers: Ctx?, heads: map<int, Ctx?>, l: CtxLinks,
                  w: Ctx, back: Ctx, skew: bool)
    requires LinkRep(th, sems, current, sleepers, heads, l) && Apart(th, sems) && Loose(th, sems, w)
    requires back == if skew then th.ready[|th.ready| - 1] else current
    requires skew ==> |th.ready| >= 2
    ensures current in l.next && current in l.last && l.last[current] == th.ready[|th.ready| - 1]
    ensures LinkRep(Awaken(th, w, skew), sems, current, sleepers, heads, Insert<Ctx?>(l, current, w, back))
  {
    LinkAt<Ctx?>(th.ready, l, th.skew, 0);
    InsertRing<Ctx?>(th.ready, l, th.skew, w, back, skew);
    var l' := Insert<Ctx?>(l, current, w, back);
    assert forall t :: t !in th.ready && t != w && t in l.next ==> t in l'.next && l'.next[t] == l.next[t];
    hide Ring, Insert, ChainIn;
    ChainFrame(sleepers, th.sleeping, l.next, l'.next);
    forall id | id in sems ensures ChainIn(heads[id], sems[id].waiters, l'.next) {
      ChainFrame(heads[id], sems[id].waiters, l.next, l'.next);
    }
  }

  lemma AdvanceRep(th: Threads, sems: map<int, Semaphore>, current: Ctx, sleepers: Ctx?, heads: map<int, Ctx?>, l: CtxLinks)
    requires LinkRep(th, sems, current, sleepers, heads, l) && !th.skew
    ensures current in l.next && LinkRep(Advance(th), sems, Advance(th).ready[0], sleepers, heads, l)
    ensures l.next[current] == Advance(th).ready[0]
    ensures Advance(th).ready[0] in l.last && l.last[Advance(th).ready[0]] == current
  {
    LinkAt<Ctx?>(th.ready, l, false, 0);
    LinkAt<Ctx?>(th.ready, l, false, if |th.ready| > 1 then 1 else 0);
    Rotate<Ctx?>(th.ready, l);
    hide Ring, ChainIn;
  }

  /** The first sleeper is taken off the sleep list. */
  lemma PopSleeperRep(th: Threads, sems: map<int, Semaphore>, current: Ctx, sleepers: Ctx?, heads: map<int, Ctx?>, l: CtxLinks)
    requires LinkRep(th, sems, current, sleepers, heads, l) && th.sleeping != []
    ensures sleepers == th.sleeping[0] && sleepers in l.next
    ensures LinkRep(th.(sleeping := th.sleeping[1..]), sems, current, l.next[sleepers], heads, l)
  {
    ChainPop(sleepers, th.sleeping, l.next);
    hide Ring;
  }

  /** The first waiter is taken off the list of a semaphore. */
  lemma PopWaiterRep(th: Threads, sems: map<int, Semaphore>, current: Ctx, sleepers: Ctx?, heads: map<int, Ctx?>, l: CtxLinks, id: int, m: Semaphore)
    requires LinkRep(th, sems, current, sleepers, heads, l) && id in sems && sems[id].waiters != [] && m.waiters == sems[id].waiters[1..]
    ensures heads[id] == sems[id].waiters[0] && heads[id] in l.next
    ensures LinkRep(th, sems[id := m], current, sleepers, heads[id := l.next[heads[id]]], l)
  {
    ChainPop(heads[id], sems[id].waiters, l.next);
    hide Ring;
  }

  /** A loose thread becomes the first waiter of a semaphore. */
  lemma PushWaiterRep(th: Threads, sems: map<int, Semaphore>, current: Ctx, sleepers: Ctx?, heads: map<int, Ctx?>, l: CtxLinks,
                      id: int, m: Semaphore, t: Ctx)
    requires LinkRep(th, sems, current, sleepers, heads, l) && Loose(th, sems, t) && t in l.next
    requires id in sems && m.waiters == [t] + sems[id].waiters
    ensures LinkRep(th, sems[id := m], current, sleepers, heads[id := t], Links(l.next[t := heads[id]], l.last))
  {
    var l' := Links(l.next[t := heads[id]], l.last);
    RingFrame(th.ready, l, l', th.skew);
    ChainPush(heads[id], sems[id].waiters, l.next, t);
    hide Ring, ChainIn;
    ChainFrame(sleepers, th.sleeping, l.next, l'.next);
    forall i | i in sems && i != id ensures ChainIn(heads[i], sems[i].waiters, l'.next) {
      ChainFrame(heads[i], sems[i].waiters, l.next, l'.next);
    }
  }

  /** A loose thread is linked into the sleep list at position k. */
  lemma SleeperRep(th: Threads, sems: map<int, Semaphore>, current: Ctx, sleepers: Ctx?, heads: map<int, Ctx?>, l: CtxLinks,
                   t: Ctx, k: nat, th': Threads)
    requires LinkRep(th, sems, current, sleepers, heads, l) && Loose(th, sems, t) && Apart(th, sems) && t in l.next
    requires k <= |th.sleeping| && forall i, j :: 0 <= i < j < |th.sleeping| ==> th.sleeping[i] != th.sleeping[j]
    requires th'.ready == th.ready && th'.skew == th.skew && th'.sleeping == th.sleeping[..k] + [t] + th.sleeping[k..]
    ensures var next := l.next[t := if k < |th.sleeping| then th.sleeping[k] else null];
            LinkRep(th', sems, current, if k == 0 then t else sleepers, heads,
                    Links(if k == 0 then next else next[th.sleeping[k - 1] := t], l.last))
  {
    var next := l.next[t := if k < |th.sleeping| then th.sleeping[k] else null];
    var l' := Links(if k == 0 then next else next[th.sleeping[k - 1] := t], l.last);
    assert k > 0 ==> th.sleeping[k - 1] in th.sleeping;
    RingFrame(th.ready, l, l', th.skew);
    ChainInsert(sleepers, th.sleeping, l.next, t, k);
    hide Ring, ChainIn;
    forall i | i in sems ensures ChainIn(heads[i], sems[i].waiters, l'.next) {
      ChainFrame(heads[i], sems[i].waiters, l.next, l'.next);
    }
  }
}
