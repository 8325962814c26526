/** How each part of the kernel's invariant survives a change of one thread, one semaphore or one queue. */
module KernelParts {
  import opened Contexts
  import opened KernelState
  import opened KernelPlaces

  // ---- the thread table ---------------------------------------------------------------------

  /** One thread changes its status without being reaped; idle stays ready and main alive. */
  lemma TabledMove(status: map<Ctx, Status>, reg: Registry, env: Env, t: Ctx, d: Status)
    requires Tabled(status, reg, env) && t in status && status[t] != Reaped && d != Reaped
    requires t == env.idle ==> d == Ready
    requires t == env.main ==> d != Dead
    ensures Tabled(status[t := d], reg, env)
  {
  }

  lemma {:induction false} WakeDueTabled(th: Threads, sems: map<int, Semaphore>, reg: Registry, env: Env, now: int)
    requires Placed(th, sems) && th.ready != [] && Tabled(th.status, reg, env)
    ensures Tabled(WakeDue(th, now).status, reg, env)
    decreases |th.sleeping|
  {
    if Due(th, now) {
      WakeOnePlaced(th, sems);
      TabledMove(th.status, reg, env, th.sleeping[0], Ready);
      WakeDueTabled(WakeOne(th), sems, reg, env, now);
    }
  }

  lemma CreateTabled(status: map<Ctx, Status>, reg: Registry, env: Env, c: Ctx)
    requires Tabled(status, reg, env) && c !in status && HasRoom(reg.table)
    ensures var id := FirstFree(reg.table, 0);
            Tabled(status[c := Ready], reg.(ids := reg.ids[c := id], table := reg.table[id := c]), env)
  {
  }

  lemma KillTabled(status: map<Ctx, Status>, reg: Registry, env: Env, pid: int)
    requires Tabled(status, reg, env) && pid != 0
    ensures Tabled(status, KillThread(reg, pid), env)
  {
  }

  lemma ReapTabled(status: map<Ctx, Status>, reg: Registry, env: Env, i: int)
    requires Tabled(status, reg, env) && DeadId(status, reg.table, i)
    ensures Tabled(status[reg.table[i] := Reaped], reg.(table := reg.table - {i}), env)
  {
  }

  // ---- the sleep list -----------------------------------------------------------------------

  lemma DozeSorted(q: seq<Ctx>, wake: map<Ctx, int>, t: Ctx, when: int)
    requires Sorted(q, wake) && t !in q
    ensures Sorted(InsertByWake(q, wake[t := when], t), wake[t := when])
  {
    var wake' := wake[t := when];
    forall i | 0 <= i < |q| ensures q[i] in wake && wake'[q[i]] == wake[q[i]] {
      assert q[i] in q;
    }
    var k := InsertPosition(q, wake', t);
    InsertedSorted(q, wake', t, k);
  }

  lemma InsertedSorted(q: seq<Ctx>, wake: map<Ctx, int>, t: Ctx, k: nat)
    requires Sorted(q, wake) && t in wake && k <= |q|
    requires forall i :: 0 <= i < k ==> q[i] in wake && wake[q[i]] < wake[t]
    requires k < |q| ==> q[k] in wake && wake[q[k]] >= wake[t]
    ensures Sorted(q[..k] + [t] + q[k..], wake)
  {
    var r := q[..k] + [t] + q[k..];
    assert forall i :: 0 <= i < |r| && i != k ==> r[i] == q[if i < k then i else i - 1];
    assert r[k] == t;
    forall i, j | 0 <= i < j < |r| ensures r[i] in wake && r[j] in wake && wake[r[i]] <= wake[r[j]] {
      assert i != k ==> r[i] in q;
      assert j != k ==> r[j] in q;
    }
  }

  lemma {:induction false} WakeDueSorted(th: Threads, now: int)
    requires Sorted(th.sleeping, th.wake) && th.ready != []
    ensures Sorted(WakeDue(th, now).sleeping, WakeDue(th, now).wake)
    decreases |th.sleeping|
  {
    if Due(th, now) {
      var rest := th.sleeping[1..];
      assert forall i :: 0 <= i < |rest| ==> rest[i] == th.sleeping[i + 1];
      WakeDueSorted(WakeOne(th), now);
    }
  }

  // ---- receivers ----------------------------------------------------------------------------

  /** A thread enters or leaves the ring without waiting at the semaphore of a queue. */
  lemma ReceiversMove(status: map<Ctx, Status>, mail: Mail, idle: Ctx, t: Ctx, d: Status)
    requires Receivers(status, mail, idle)
    requires d.Waiting? ==> t !in mail.pending && t !in mail.reaping && !Private(mail, d.sem)
    requires d == Sleeping ==> t !in mail.pending && t !in mail.reaping
    ensures Receivers(status[t := d], mail, idle)
  {
  }

  lemma {:induction false} WakeDueReceivers(th: Threads, mail: Mail, idle: Ctx, now: int)
    requires Receivers(th.status, mail, idle) && th.ready != []
    ensures Receivers(WakeDue(th, now).status, mail, idle)
    decreases |th.sleeping|
  {
    if Due(th, now) {
      ReceiversMove(th.status, mail, idle, th.sleeping[0], Ready);
      WakeDueReceivers(WakeOne(th), mail, idle, now);
    }
  }

  /** A thread blocks at the semaphore of queue q to receive from it. */
  lemma ReceiversPark(status: map<Ctx, Status>, mail: Mail, idle: Ctx, t: Ctx, q: int)
    requires Receivers(status, mail, idle) && q in mail.queues && t in status && t != idle
    requires t !in mail.pending && t !in mail.reaping && !status[t].Waiting?
    requires forall r :: r in mail.queues && mail.queues[r].sem == mail.queues[q].sem ==> r == q
    ensures Receivers(status[t := Waiting(mail.queues[q].sem)], mail.(pending := mail.pending[t := q]), idle)
  {
  }

  /** The queues change, but not which ones there are nor their semaphores. */
  lemma ReceiversQueue(status: map<Ctx, Status>, mail: Mail, idle: Ctx, q: int, m: Queue)
    requires Receivers(status, mail, idle) && q in mail.queues && m.sem == mail.queues[q].sem
    ensures Receivers(status, mail.(queues := mail.queues[q := m]), idle)
  {
  }

  lemma ReceiversFetch(status: map<Ctx, Status>, mail: Mail, idle: Ctx, q: int, t: Ctx, waitMq: int)
    requires Receivers(status, mail, idle) && t in status && status[t] == Ready && t != idle
    requires q in mail.queues && mail.queues[q].messages != [] && (q == waitMq ==> |mail.queues[q].messages[0]| == 4)
    ensures Receivers(status, Fetch(mail, q, t, waitMq), idle)
  {
    hide DecodeInt;
    var m := Dequeue(mail.queues[q]);
    ReceiversQueue(status, mail, idle, q, m);
    var mail' := mail.(queues := mail.queues[q := m]);
    ReceiversDone(status, mail', idle, t);
    if q == waitMq {
      ReceiversReap(status, mail'.(pending := mail'.pending - {t}), idle, t, DecodeInt(mail.queues[q].messages[0]));
    }
    hide Receivers;
  }

  lemma ReceiversDone(status: map<Ctx, Status>, mail: Mail, idle: Ctx, t: Ctx)
    requires Receivers(status, mail, idle) && t in status && status[t] == Ready
    ensures Receivers(status, mail.(pending := mail.pending - {t}), idle)
  {
  }

  lemma ReceiversReap(status: map<Ctx, Status>, mail: Mail, idle: Ctx, t: Ctx, i: int)
    requires Receivers(status, mail, idle) && t in status && status[t] == Ready && t != idle && t !in mail.pending
    ensures Receivers(status, mail.(reaping := mail.reaping[t := i]), idle)
  {
  }

  // ---- messages and coins -------------------------------------------------------------------

  lemma GrantedOther(pending: map<Ctx, int>, status: map<Ctx, Status>, t: Ctx, d: Status, q: int, sem: int)
    requires t in pending && pending[t] == q ==> t in status && status[t] != Waiting(sem) && d != Waiting(sem)
    ensures Granted(pending, status[t := d], q, sem) == Granted(pending, status, q, sem)
  {
  }

  lemma GrantedHandOff(pending: map<Ctx, int>, status: map<Ctx, Status>, t: Ctx, q: int, sem: int)
    requires t in pending && pending[t] == q && t in status && status[t] == Waiting(sem)
    ensures |Granted(pending, status[t := Ready], q, sem)| == |Granted(pending, status, q, sem)| + 1
  {
    assert Granted(pending, status[t := Ready], q, sem) == Granted(pending, status, q, sem) + {t};
  }

  lemma GrantedFetched(pending: map<Ctx, int>, status: map<Ctx, Status>, t: Ctx, q: int, sem: int)
    requires t in pending && pending[t] == q && t in status && status[t] != Waiting(sem)
    ensures |Granted(pending - {t}, status, q, sem)| == |Granted(pending, status, q, sem)| - 1
  {
    assert Granted(pending - {t}, status, q, sem) == Granted(pending, status, q, sem) - {t};
  }

  lemma GrantedWithout(pending: map<Ctx, int>, status: map<Ctx, Status>, t: Ctx, q: int, sem: int)
    requires t !in pending || pending[t] != q
    ensures Granted(pending - {t}, status, q, sem) == Granted(pending, status, q, sem)
  {
  }

  lemma GrantedParked(pending: map<Ctx, int>, status: map<Ctx, Status>, t: Ctx, q: int, sem: int)
    requires t !in pending
    ensures Granted(pending[t := q], status[t := Waiting(sem)], q, sem) == Granted(pending, status, q, sem)
    ensures forall r, other {:trigger Granted(pending, status, r, other)} :: r != q ==>
              Granted(pending[t := q], status[t := Waiting(sem)], r, other) == Granted(pending, status, r, other)
  {
  }

  // ---- the zombie protocol ------------------------------------------------------------------

  /** A move that neither kills nor reaps. */
  lemma MournedMove(letters: seq<Bytes>, reaping: map<Ctx, int>, status: map<Ctx, Status>, reg: Registry, t: Ctx, d: Status)
    requires Mourned(letters, reaping, status, reg)
    requires d != Dead && (t in status ==> status[t] != Dead)
    ensures Mourned(letters, reaping, status[t := d], reg)
  {
  }

  lemma {:induction false} WakeDueMourned(th: Threads, sems: map<int, Semaphore>, letters: seq<Bytes>, reaping: map<Ctx, int>,
                                          reg: Registry, now: int)
    requires Placed(th, sems) && th.ready != [] && Mourned(letters, reaping, th.status, reg)
    ensures Mourned(letters, reaping, WakeDue(th, now).status, reg)
    decreases |th.sleeping|
  {
    if Due(th, now) {
      WakeOnePlaced(th, sems);
      MournedMove(letters, reaping, th.status, reg, th.sleeping[0], Ready);
      WakeDueMourned(WakeOne(th), sems, letters, reaping, reg, now);
    }
  }

  lemma TabledId(status: map<Ctx, Status>, reg: Registry, env: Env, t: Ctx)
    requires Tabled(status, reg, env) && t in status && status[t] != Reaped && t != env.main
    ensures t in reg.ids && reg.ids[t] in reg.table && reg.table[reg.ids[t]] == t
    ensures forall i :: i in reg.table ==> 0 <= i < TABLE_SIZE
  {
  }

  lemma DeathLetters(letters: seq<Bytes>, reaping: map<Ctx, int>, status: map<Ctx, Status>, reg: Registry, t: Ctx, i: int)
    requires Mourned(letters, reaping, status, reg) && t in status && status[t] != Dead && i in reg.table && reg.table[i] == t
    requires DecodeInt(EncodeInt(i)) == i
    ensures forall k :: 0 <= k < |letters| ==> |letters[k]| == 4 && DeadId(status[t := Dead], reg.table, DecodeInt(letters[k]))
    ensures DeadId(status[t := Dead], reg.table, i)
    ensures EncodeInt(i) !in letters
    ensures forall u :: u in reaping ==> reaping[u] != i && DeadId(status[t := Dead], reg.table, reaping[u])
  {
    hide EncodeInt, DecodeInt;
    assert !DeadId(status, reg.table, i);
  }

  /** A thread dies and its id is posted. */
  lemma MournedDeath(letters: seq<Bytes>, reaping: map<Ctx, int>, status: map<Ctx, Status>, reg: Registry, env: Env, t: Ctx)
    requires Mourned(letters, reaping, status, reg) && Tabled(status, reg, env)
    requires t in status && status[t] != Dead && status[t] != Reaped && t != env.main
    ensures t in reg.ids && Mourned(letters + [EncodeInt(reg.ids[t])], reaping, status[t := Dead], reg)
  {
    hide EncodeInt, DecodeInt, Tabled, DeadId;
    TabledId(status, reg, env, t);
    var i := reg.ids[t];
    DecodeEncode(i);
    DeathLetters(letters, reaping, status, reg, t, i);
    var all := letters + [EncodeInt(i)];
    var status' := status[t := Dead];
    forall u | u in reaping ensures EncodeInt(reaping[u]) !in all {
      DeathApart(status', reg.table, reaping[u], i);
    }
    forall u | u in status' && status'[u] == Dead
      ensures EncodeInt(IdOf(reg, u)) in all || exists v :: v in reaping && reaping[v] == IdOf(reg, u)
    {
      if u == t {
        assert all[|letters|] == EncodeInt(i);
      } else if EncodeInt(IdOf(reg, u)) in letters {
        assert EncodeInt(IdOf(reg, u)) in all;
      }
    }
  }

  lemma DeathApart(status: map<Ctx, Status>, table: map<int, Ctx>, j: int, i: int)
    requires DeadId(status, table, j) && j != i && forall x :: x in table ==> 0 <= x < TABLE_SIZE
    requires DecodeInt(EncodeInt(i)) == i
    ensures EncodeInt(j) != EncodeInt(i)
  {
    hide EncodeInt, DecodeInt;
    DecodeEncode(j);
  }

  lemma ReceiptLetters(letters: seq<Bytes>, reaping: map<Ctx, int>, status: map<Ctx, Status>, reg: Registry, t: Ctx)
    requires Mourned(letters, reaping, status, reg) && letters != [] && t !in reaping
    ensures |letters[0]| == 4 && EncodeInt(DecodeInt(letters[0])) == letters[0]
    ensures DeadId(status, reg.table, DecodeInt(letters[0])) && letters[0] !in letters[1..]
    ensures forall u :: u in reaping ==> reaping[u] != DecodeInt(letters[0])
    ensures forall u :: u in reaping ==> DeadId(status, reg.table, reaping[u]) && EncodeInt(reaping[u]) !in letters[1..]
    ensures forall k :: 0 <= k < |letters| - 1 ==> letters[1..][k] == letters[k + 1]
  {
    hide EncodeInt, DecodeInt, DeadId;
    EncodeDecode(letters[0]);
    assert letters[0] in letters;
    assert forall x :: x in letters[1..] ==> x in letters;
  }

  /** A receiver takes the first letter: it now owns that id. */
  lemma MournedReceipt(letters: seq<Bytes>, reaping: map<Ctx, int>, status: map<Ctx, Status>, reg: Registry, env: Env, t: Ctx)
    requires Mourned(letters, reaping, status, reg) && Tabled(status, reg, env) && letters != [] && t !in reaping
    ensures |letters[0]| == 4
    ensures Mourned(letters[1..], reaping[t := DecodeInt(letters[0])], status, reg)
  {
    hide EncodeInt, DecodeInt, Tabled, DeadId;
    ReceiptLetters(letters, reaping, status, reg, t);
    var i := DecodeInt(letters[0]);
    var rest, reaping' := letters[1..], reaping[t := i];
    assert letters == [letters[0]] + rest;
    forall u | u in status && status[u] == Dead
      ensures EncodeInt(IdOf(reg, u)) in rest || exists v :: v in reaping' && reaping'[v] == IdOf(reg, u)
    {
      DeadMourned(letters, reaping, status, reg, env, t, u);
    }
  }

  /** A dead thread is still on record once the first letter has a reader. */
  lemma DeadMourned(letters: seq<Bytes>, reaping: map<Ctx, int>, status: map<Ctx, Status>, reg: Registry, env: Env, t: Ctx, u: Ctx)
    requires Mourned(letters, reaping, status, reg) && Tabled(status, reg, env) && letters != [] && t !in reaping
    requires |letters[0]| == 4 && u in status && status[u] == Dead
    ensures var reaping' := reaping[t := DecodeInt(letters[0])];
            EncodeInt(IdOf(reg, u)) in letters[1..] || exists v :: v in reaping' && reaping'[v] == IdOf(reg, u)
  {
    hide EncodeInt, DecodeInt, Tabled, Mourned;
    OnRecord(letters, reaping, status, reg, env, u);
    var reaping' := reaping[t := DecodeInt(letters[0])];
    assert letters == [letters[0]] + letters[1..];
    if EncodeInt(IdOf(reg, u)) == letters[0] {
      DecodeEncode(IdOf(reg, u));
      assert t in reaping' && reaping'[t] == IdOf(reg, u);
    } else if EncodeInt(IdOf(reg, u)) !in letters[1..] {
      var v: Ctx :| v in reaping && reaping[v] == IdOf(reg, u);
      assert v in reaping' && reaping'[v] == IdOf(reg, u);
    }
  }

  lemma OnRecord(letters: seq<Bytes>, reaping: map<Ctx, int>, status: map<Ctx, Status>, reg: Registry, env: Env, u: Ctx)
    requires Mourned(letters, reaping, status, reg) && Tabled(status, reg, env) && u in status && status[u] == Dead
    ensures 0 <= IdOf(reg, u) < TABLE_SIZE
    ensures EncodeInt(IdOf(reg, u)) in letters || exists v :: v in reaping && reaping[v] == IdOf(reg, u)
  {
    hide EncodeInt, DecodeInt, DeadId;
  }
}
