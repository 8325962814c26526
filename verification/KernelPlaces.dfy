/** Every move keeps each thread in exactly one container. */
module KernelPlaces {
  import opened Contexts
  import opened KernelState

  lemma HoldsTail(q: seq<Ctx>, status: map<Ctx, Status>, c: Status, d: Status)
    requires Holds(q, status, c) && q != [] && c != d
    ensures Holds(q[1..], status[q[0] := d], c)
  {
    assert q == [q[0]] + q[1..];
  }

  lemma HoldsPush(q: seq<Ctx>, status: map<Ctx, Status>, c: Status, t: Ctx)
    requires Holds(q, status, c) && (t in status ==> status[t] != c)
    ensures Holds([t] + q, status[t := c], c)
  {
  }

  lemma HoldsSecond(q: seq<Ctx>, status: map<Ctx, Status>, c: Status, t: Ctx)
    requires Holds(q, status, c) && q != [] && (t in status ==> status[t] != c)
    ensures Holds([q[0], t] + q[1..], status[t := c], c)
  {
    var r := [q[0], t] + q[1..];
    assert q == [q[0]] + q[1..];
    assert forall i :: 2 <= i < |r| ==> r[i] == q[i - 1];
    forall x | x in q ensures x in r {
      assert x == q[0] || x in q[1..];
    }
  }

  lemma HoldsRotate(q: seq<Ctx>, status: map<Ctx, Status>, c: Status)
    requires Holds(q, status, c) && q != []
    ensures Holds(q[1..] + [q[0]], status, c)
  {
    var r := q[1..] + [q[0]];
    assert q == [q[0]] + q[1..];
    assert forall i :: 0 <= i < |r| - 1 ==> r[i] == q[i + 1];
    forall t | t in q ensures t in r {
      assert t == q[0] || t in q[1..];
    }
  }

  /** A container that a move does not concern. */
  lemma HoldsOther(q: seq<Ctx>, status: map<Ctx, Status>, c: Status, t: Ctx, d: Status)
    requires Holds(q, status, c) && (t in status ==> status[t] != c) && c != d
    ensures Holds(q, status[t := d], c)
  {
  }

  /** A sleeper goes in at one position of the list. */
  lemma {:induction false} InsertPosition(q: seq<Ctx>, wake: map<Ctx, int>, t: Ctx) returns (k: nat)
    requires t in wake && forall x :: x in q ==> x in wake
    ensures k <= |q| && InsertByWake(q, wake, t) == q[..k] + [t] + q[k..]
    ensures forall i :: 0 <= i < k ==> wake[q[i]] < wake[t]
    ensures k < |q| ==> wake[q[k]] >= wake[t]
  {
    if q == [] || wake[q[0]] >= wake[t] {
      k := 0;
      assert [t] + q == q[..0] + [t] + q[0..];
    } else {
      var k' := InsertPosition(q[1..], wake, t);
      k := k' + 1;
      assert [q[0]] + (q[1..][..k'] + [t] + q[1..][k'..]) == q[..k] + [t] + q[k..];
    }
  }

  lemma HoldsInsert(q: seq<Ctx>, status: map<Ctx, Status>, c: Status, t: Ctx, k: nat)
    requires Holds(q, status, c) && k <= |q| && (t in status ==> status[t] != c)
    ensures Holds(q[..k] + [t] + q[k..], status[t := c], c)
  {
    var r := q[..k] + [t] + q[k..];
    assert q == q[..k] + q[k..];
    assert forall i :: 0 <= i < |r| && i != k ==> r[i] == q[if i < k then i else i - 1];
    assert r[k] == t;
    forall x | x in q ensures x in r {
      assert x in q[..k] || x in q[k..];
    }
  }

  /** The waiters of the semaphores a move does not concern. */
  lemma WaitersOther(sems: map<int, Semaphore>, status: map<Ctx, Status>, t: Ctx, d: Status, id: int)
    requires id in sems && Holds(sems[id].waiters, status, Waiting(id))
    requires (t in status ==> status[t] != Waiting(id)) && d != Waiting(id)
    ensures Holds(sems[id].waiters, status[t := d], Waiting(id))
  {
  }

  lemma AdvancePlaced(th: Threads, sems: map<int, Semaphore>)
    requires Placed(th, sems) && th.ready != []
    ensures Placed(Advance(th), sems)
  {
    HoldsRotate(th.ready, th.status, Ready);
  }

  /** The current thread leaves the ring without going to a list. */
  lemma UnreadyPlaced(th: Threads, sems: map<int, Semaphore>, to: Status)
    requires Placed(th, sems) && th.ready != [] && (to == Dead || to == Moving)
    ensures Placed(Unready(th, to), sems)
  {
    var t := th.ready[0];
    HoldsTail(th.ready, th.status, Ready, to);
    HoldsOther(th.sleeping, th.status, Sleeping, t, to);
    forall id | id in sems ensures Holds(sems[id].waiters, th.status[t := to], Waiting(id)) {
      WaitersOther(sems, th.status, t, to, id);
    }
  }

  lemma WakeOnePlaced(th: Threads, sems: map<int, Semaphore>)
    requires Placed(th, sems) && th.ready != [] && th.sleeping != []
    ensures Placed(WakeOne(th), sems)
  {
    var t := th.sleeping[0];
    HoldsSecond(th.ready, th.status, Ready, t);
    HoldsTail(th.sleeping, th.status, Sleeping, Ready);
    forall id | id in sems ensures Holds(sems[id].waiters, th.status[t := Ready], Waiting(id)) {
      WaitersOther(sems, th.status, t, Ready, id);
    }
  }

  lemma DozePlaced(th: Threads, sems: map<int, Semaphore>, when: int)
    requires Placed(th, sems) && th.ready != [] && forall x :: x in th.sleeping ==> x in th.wake
    ensures Placed(Doze(th, when), sems)
  {
    var t := th.ready[0];
    var k := InsertPosition(th.sleeping, th.wake[t := when], t);
    HoldsTail(th.ready, th.status, Ready, Sleeping);
    HoldsInsert(th.sleeping, th.status, Sleeping, t, k);
    forall id | id in sems ensures Holds(sems[id].waiters, th.status[t := Sleeping], Waiting(id)) {
      WaitersOther(sems, th.status, t, Sleeping, id);
    }
  }

  lemma HandOffPlaced(s: State, id: int)
    requires Placed(s.th, s.sems) && s.th.ready != [] && id in s.sems && s.sems[id].waiters != []
    ensures Placed(HandOff(s, id).th, HandOff(s, id).sems)
  {
    var t := s.sems[id].waiters[0];
    assert t in s.sems[id].waiters;
    HoldsSecond(s.th.ready, s.th.status, Ready, t);
    HoldsTail(s.sems[id].waiters, s.th.status, Waiting(id), Ready);
    HoldsOther(s.th.sleeping, s.th.status, Sleeping, t, Ready);
    forall i | i in s.sems && i != id ensures Holds(s.sems[i].waiters, s.th.status[t := Ready], Waiting(i)) {
      WaitersOther(s.sems, s.th.status, t, Ready, i);
    }
  }

  lemma GiveSemPlaced(s: State, id: int)
    requires Placed(s.th, s.sems) && s.th.ready != [] && id in s.sems
    ensures Placed(GiveSem(s, id).th, GiveSem(s, id).sems)
  {
    if s.sems[id].waiters != [] {
      HandOffPlaced(s, id);
    }
  }

  lemma ParkPlaced(s: State, id: int)
    requires Placed(s.th, s.sems) && s.th.ready != [] && id in s.sems
    ensures Placed(Park(s, id).th, Park(s, id).sems)
  {
    var t := s.th.ready[0];
    HoldsTail(s.th.ready, s.th.status, Ready, Waiting(id));
    HoldsPush(s.sems[id].waiters, s.th.status, Waiting(id), t);
    HoldsOther(s.th.sleeping, s.th.status, Sleeping, t, Waiting(id));
    forall i | i in s.sems && i != id ensures Holds(s.sems[i].waiters, s.th.status[t := Waiting(id)], Waiting(i)) {
      WaitersOther(s.sems, s.th.status, t, Waiting(id), i);
    }
  }

  /** A new thread enters the ring. */
  lemma CreatePlaced(th: Threads, sems: map<int, Semaphore>, c: Ctx)
    requires Placed(th, sems) && th.ready != [] && c !in th.status
    ensures Placed(Awaken(th, c, false), sems)
  {
    HoldsSecond(th.ready, th.status, Ready, c);
    HoldsOther(th.sleeping, th.status, Sleeping, c, Ready);
    forall id | id in sems ensures Holds(sems[id].waiters, th.status[c := Ready], Waiting(id)) {
      WaitersOther(sems, th.status, c, Ready, id);
    }
  }

  /** On the exit path the thread leaves the ring right after the hand-off, whatever its back links. */
  lemma RetirePlaced(s: State)
    requires Runs(s) && Placed(s.th, s.sems)
    ensures Placed(Retire(s).th, Retire(s).sems) && !Retire(s).th.skew
  {
    var m := s.mail.queues[s.env.waitMq];
    var msg := EncodeInt(IdOf(s.reg, s.th.ready[0]));
    var s0 := s.(mail := s.mail.(queues := s.mail.queues[s.env.waitMq := Enqueue(m, msg)]));
    GiveSemPlaced(s0, m.sem);
    PostRuns(s, s.env.waitMq, msg);
    hide GiveSem, Placed;
    var s1 := Post(s, s.env.waitMq, msg);
    UnreadyPlaced(s1.th, s1.sems, Dead);
  }

  /** A fresh semaphore slot: nobody waits there. */
  lemma NewSemPlaced(th: Threads, sems: map<int, Semaphore>, id: int, init: int)
    requires Placed(th, sems) && id !in sems
    ensures Placed(th, sems[id := NewSem(init)])
  {
  }

  lemma DropSemPlaced(th: Threads, sems: map<int, Semaphore>, id: int)
    requires Placed(th, sems) && id in sems && sems[id].waiters == []
    ensures Placed(th, sems - {id})
  {
    assert Holds(sems[id].waiters, th.status, Waiting(id));
  }

  lemma ReapPlaced(th: Threads, sems: map<int, Semaphore>, d: Ctx)
    requires Placed(th, sems) && d in th.status && th.status[d] == Dead
    ensures Placed(th.(status := th.status[d := Reaped]), sems)
  {
    HoldsOther(th.ready, th.status, Ready, d, Reaped);
    HoldsOther(th.sleeping, th.status, Sleeping, d, Reaped);
    forall id | id in sems ensures Holds(sems[id].waiters, th.status[d := Reaped], Waiting(id)) {
      WaitersOther(sems, th.status, d, Reaped, id);
    }
  }

  lemma {:induction false} WakeDuePlaced(th: Threads, sems: map<int, Semaphore>, now: int)
    requires Placed(th, sems) && th.ready != []
    ensures Placed(WakeDue(th, now), sems)
    ensures WakeDue(th, now).skew <==> th.skew && !Due(th, now)
    decreases |th.sleeping|
  {
    if Due(th, now) {
      WakeOnePlaced(th, sems);
      WakeDuePlaced(WakeOne(th), sems, now);
    }
  }
}
