/** Receiving, reaping, and the tables of semaphores and queues. */
module KernelMail {
  import opened Contexts
  import opened KernelState
  import opened KernelPlaces
  import opened KernelParts
  import opened KernelSafety
  import opened KernelCoins

  // ---- receiving ----------------------------------------------------------------------------

  /** Fetching the first message of queue q, paid for by a coin or by the reader's grant. */
  lemma FetchStocked(s: State, s': State, q: int, t: Ctx)
    requires Stocked(s) && Readable(s, q) && s.th.ready != [] && t in s.th.status && !s.th.status[t].Waiting?
    requires s'.th == s.th && s'.env == s.env && s'.mail == Fetch(s.mail, q, t, s.env.waitMq)
    requires forall i :: i in s.sems ==> i in s'.sems && (s'.sems[i] == s.sems[i] || i == s.mail.queues[q].sem)
    requires var sem := s.mail.queues[q].sem;
             if t in s.mail.pending then s.mail.pending[t] == q && s'.sems[sem] == s.sems[sem]
             else s'.sems[sem].counter == s.sems[sem].counter - 1 && s.sems[sem].counter > 0
    ensures Stocked(s')
  {
    hide Fetch;
    FetchQueues(s.mail, q, t, s.env.waitMq);
    forall r | r in s'.mail.queues
      ensures var m := s'.mail.queues[r];
              m.sem in s'.sems && Supplied(m, s'.sems[m.sem], Granted(s'.mail.pending, s'.th.status, r, m.sem))
    {
      var sem := s.mail.queues[r].sem;
      assert Supplied(s.mail.queues[r], s.sems[sem], Granted(s.mail.pending, s.th.status, r, sem));
      if t in s.mail.pending && r == q {
        GrantedFetched(s.mail.pending, s.th.status, t, q, sem);
      } else {
        GrantedWithout(s.mail.pending, s.th.status, t, r, sem);
      }
    }
  }

  lemma FetchQueues(mail: Mail, q: int, t: Ctx, waitMq: int)
    requires q in mail.queues && mail.queues[q].messages != []
    requires q == waitMq ==> |mail.queues[q].messages[0]| == 4
    ensures var mail' := Fetch(mail, q, t, waitMq);
            && mail'.queues.Keys == mail.queues.Keys && mail'.pending == mail.pending - {t}
            && (forall r :: r in mail.queues && r != q ==> mail'.queues[r] == mail.queues[r])
            && mail'.queues[q].sem == mail.queues[q].sem
            && mail'.queues[q].messages == mail.queues[q].messages[1..]
            && mail'.queues[q].sent == mail.queues[q].sent
            && mail'.queues[q].received + mail'.queues[q].messages == mail.queues[q].received + mail.queues[q].messages
  {
    var m := mail.queues[q];
    assert m.received + m.messages == (m.received + [m.messages[0]]) + m.messages[1..];
  }

  /** The letters and the ids in hand after a fetch. */
  lemma FetchMourned(s: State, q: int, t: Ctx)
    requires s.env.waitMq in s.mail.queues && Readable(s, q) && Tabled(s.th.status, s.reg, s.env)
    requires Mourned(s.mail.queues[s.env.waitMq].messages, s.mail.reaping, s.th.status, s.reg)
    requires t !in s.mail.reaping
    ensures var mail := Fetch(s.mail, q, t, s.env.waitMq);
            s.env.waitMq in mail.queues && Mourned(mail.queues[s.env.waitMq].messages, mail.reaping, s.th.status, s.reg)
  {
    hide Tabled;
    var letters := s.mail.queues[s.env.waitMq].messages;
    if q == s.env.waitMq {
      MournedReceipt(letters, s.mail.reaping, s.th.status, s.reg, s.env, t);
    }
  }

  /** receive_message when a coin is there. */
  lemma ReceiveNowInv(s: State, q: int)
    requires Inv(s) && s.th.ready != [] && s.th.ready[0] != s.env.idle && Readable(s, q)
    requires s.th.ready[0] !in s.mail.pending && s.th.ready[0] !in s.mail.reaping
    requires s.mail.queues[q].sem in s.sems && s.sems[s.mail.queues[q].sem].counter > 0
    ensures Inv(TakeCoin(s, s.mail.queues[q].sem).(mail := Fetch(s.mail, q, s.th.ready[0], s.env.waitMq)))
  {
    hide Placed, Tabled, Sorted, Receivers, Mourned, Stocked, Private, Conserved, Fetch;
    CurrentFacts(s);
    var t := s.th.ready[0];
    var sem := s.mail.queues[q].sem;
    var s' := TakeCoin(s, sem).(mail := Fetch(s.mail, q, t, s.env.waitMq));
    ConservedTake(s, sem);
    PlacedCounter(s.th, s.sems, sem, TakeCoin(s, sem).sems[sem]);
    FetchStocked(s, s', q, t);
    FetchMourned(s, q, t);
    ReceiversFetch(s.th.status, s.mail, s.env.idle, q, t, s.env.waitMq);
  }

  /** The rest of receive_message after a hand-off. */
  lemma FinishInv(s: State)
    requires Inv(s) && s.th.ready != [] && s.th.ready[0] in s.mail.pending
    ensures Readable(s, s.mail.pending[s.th.ready[0]])
    ensures Inv(FinishReceive(s))
  {
    CurrentFacts(s);
    InvRuns(s);
    var t := s.th.ready[0];
    assert t != s.env.idle && t !in s.mail.reaping;
    hide Placed, Tabled, Sorted, Receivers, Mourned, Stocked, Private, Conserved, Fetch, Runs;
    var q := s.mail.pending[t];
    FetchStocked(s, FinishReceive(s), q, t);
    FetchMourned(s, q, t);
    ReceiversFetch(s.th.status, s.mail, s.env.idle, q, t, s.env.waitMq);
  }

  /** A receiver blocks: no coin, hence no unclaimed message. */
  lemma ReceiveParkInv(s: State, q: int)
    requires Inv(s) && s.th.ready != [] && s.th.ready[0] != s.env.idle && q in s.mail.queues
    requires s.th.ready[0] !in s.mail.pending && s.th.ready[0] !in s.mail.reaping
    requires s.mail.queues[q].sem in s.sems && s.sems[s.mail.queues[q].sem].counter <= 0
    ensures Inv(Park(s.(mail := s.mail.(pending := s.mail.pending[s.th.ready[0] := q])), s.mail.queues[q].sem))
  {
    hide Placed, Tabled, Sorted, Receivers, Mourned, Stocked, Private, Conserved;
    CurrentFacts(s);
    QueueSems(s, q);
    var t := s.th.ready[0];
    var sem := s.mail.queues[q].sem;
    ConservedPark(s, sem);
    ParkPlaced(s, sem);
    TabledMove(s.th.status, s.reg, s.env, t, Waiting(sem));
    ReceiversPark(s.th.status, s.mail, s.env.idle, t, q);
    MournedMove(s.mail.queues[s.env.waitMq].messages, s.mail.reaping, s.th.status, s.reg, t, Waiting(sem));
    ReceiveParkStocked(s, q);
  }

  lemma QueueSems(s: State, q: int)
    requires Inv(s) && q in s.mail.queues
    ensures forall r :: r in s.mail.queues && s.mail.queues[r].sem == s.mail.queues[q].sem ==> r == q
  {
  }

  lemma ReceiveParkStocked(s: State, q: int)
    requires Stocked(s) && q in s.mail.queues && s.mail.queues[q].sem in s.sems && s.th.ready != []
    requires s.th.ready[0] !in s.mail.pending
    ensures Stocked(Park(s.(mail := s.mail.(pending := s.mail.pending[s.th.ready[0] := q])), s.mail.queues[q].sem))
  {
    var t := s.th.ready[0];
    var sem := s.mail.queues[q].sem;
    var s' := Park(s.(mail := s.mail.(pending := s.mail.pending[t := q])), sem);
    GrantedParked(s.mail.pending, s.th.status, t, q, sem);
    hide Granted;
    assert s'.mail.pending == s.mail.pending[t := q] && s'.th.status == s.th.status[t := Waiting(sem)];
    assert forall i :: i in s.sems ==> i in s'.sems && s'.sems[i].counter == s.sems[i].counter;
    forall r | r in s'.mail.queues
      ensures var m := s'.mail.queues[r];
              m.sem in s'.sems && Supplied(m, s'.sems[m.sem], Granted(s'.mail.pending, s'.th.status, r, m.sem))
    {
      assert s.mail.queues[r].sem in s.sems;
    }
  }

  // ---- reaping ------------------------------------------------------------------------------

  lemma InTable(status: map<Ctx, Status>, reg: Registry, env: Env, i: int)
    requires Tabled(status, reg, env) && DeadId(status, reg.table, i)
    ensures i in reg.table && IdOf(reg, reg.table[i]) == i
  {
  }

  lemma DeadInTable(status: map<Ctx, Status>, reg: Registry, env: Env, u: Ctx)
    requires Tabled(status, reg, env) && u in status && status[u] == Dead
    ensures IdOf(reg, u) in reg.table && reg.table[IdOf(reg, u)] == u
  {
  }

  /** Another dead thread, when that of id i is reaped. */
  lemma StillDead(status: map<Ctx, Status>, reg: Registry, env: Env, i: int, j: int)
    requires Tabled(status, reg, env) && DeadId(status, reg.table, i) && DeadId(status, reg.table, j) && i != j
    ensures DeadId(status[reg.table[i] := Reaped], reg.table - {i}, j)
  {
    InTable(status, reg, env, i);
    InTable(status, reg, env, j);
    hide Tabled;
  }

  /** The id in hand names a dead thread, and nobody else has it; its slot is cleared. */
  lemma ReapMourned(letters: seq<Bytes>, reaping: map<Ctx, int>, status: map<Ctx, Status>, reg: Registry, env: Env, t: Ctx)
    requires Mourned(letters, reaping, status, reg) && Tabled(status, reg, env) && t in reaping
    ensures DeadId(status, reg.table, reaping[t])
    ensures var i := reaping[t];
            Mourned(letters, reaping - {t}, status[reg.table[i] := Reaped], reg.(table := reg.table - {i}))
  {
    hide EncodeInt, DecodeInt, Tabled, DeadId;
    var i := reaping[t];
    InTable(status, reg, env, i);
    var d := reg.table[i];
    var reg' := reg.(table := reg.table - {i});
    var status' := status[d := Reaped];
    forall k | 0 <= k < |letters| ensures DeadId(status', reg'.table, DecodeInt(letters[k])) {
      EncodeDecode(letters[k]);
      assert letters[k] in letters;
      StillDead(status, reg, env, i, DecodeInt(letters[k]));
    }
    forall u | u in reaping - {t} ensures DeadId(status', reg'.table, reaping[u]) {
      assert reaping[u] != i;
      StillDead(status, reg, env, i, reaping[u]);
    }
    forall u | u in status' && status'[u] == Dead
      ensures EncodeInt(IdOf(reg', u)) in letters || exists v :: v in reaping - {t} && (reaping - {t})[v] == IdOf(reg', u)
    {
      if EncodeInt(IdOf(reg, u)) !in letters {
        var v: Ctx :| v in reaping && reaping[v] == IdOf(reg, u);
        DeadInTable(status, reg, env, u);
        assert v != t;
        assert v in reaping - {t} && (reaping - {t})[v] == IdOf(reg', u);
      }
    }
  }

  /** The messages and the receivers do not notice the burial. */
  lemma ReapMail(s: State, d: Ctx, t: Ctx)
    requires Stocked(s) && Receivers(s.th.status, s.mail, s.env.idle)
    requires d in s.th.status && s.th.status[d] == Dead
    ensures var mail := s.mail.(reaping := s.mail.reaping - {t});
            && Receivers(s.th.status[d := Reaped], mail, s.env.idle)
            && Stocked(s.(th := s.th.(status := s.th.status[d := Reaped]), mail := mail))
  {
    hide Stocked, Receivers;
    var s1 := s.(th := s.th.(status := s.th.status[d := Reaped]));
    ReceiversMove(s.th.status, s.mail, s.env.idle, d, Reaped);
    ReceiversReaped(s1.th.status, s.mail, s.env.idle, t);
    StockedMove(s, d, Reaped);
    StockedReaped(s1, s1.(mail := s.mail.(reaping := s.mail.reaping - {t})));
  }

  lemma ReapInv(s: State)
    requires Inv(s) && s.th.ready != [] && s.th.ready[0] in s.mail.reaping
    ensures s.mail.reaping[s.th.ready[0]] in s.reg.table
    ensures Inv(ReapThread(s))
  {
    hide Placed, Tabled, Sorted, Receivers, Mourned, Stocked, Private, Conserved;
    CurrentFacts(s);
    var t := s.th.ready[0];
    var i := s.mail.reaping[t];
    ReapMourned(s.mail.queues[s.env.waitMq].messages, s.mail.reaping, s.th.status, s.reg, s.env, t);
    var d := s.reg.table[i];
    ReapPlaced(s.th, s.sems, d);
    ReapTabled(s.th.status, s.reg, s.env, i);
    ReapMail(s, d, t);
    StockedSame(s.(th := s.th.(status := s.th.status[d := Reaped]), mail := s.mail.(reaping := s.mail.reaping - {t})), ReapThread(s));
  }

  lemma ReceiversReaped(status: map<Ctx, Status>, mail: Mail, idle: Ctx, t: Ctx)
    requires Receivers(status, mail, idle)
    ensures Receivers(status, mail.(reaping := mail.reaping - {t}), idle)
  {
  }

  lemma StockedReaped(s: State, s': State)
    requires Stocked(s) && s'.th.status == s.th.status && s'.sems == s.sems && s'.env == s.env
    requires s'.mail.queues == s.mail.queues && s'.mail.pending == s.mail.pending
    ensures Stocked(s')
  {
  }

  // ---- the tables of semaphores and queues --------------------------------------------------

  lemma NewSemConserved(sems: map<int, Semaphore>, id: int, init: int)
    requires Conserved(sems)
    ensures Conserved(sems[id := NewSem(init)])
  {
  }

  lemma NewSemStocked(s: State, id: int, init: int)
    requires Stocked(s) && id !in s.sems
    ensures Stocked(s.(sems := s.sems[id := NewSem(init)]))
    ensures !Private(s.mail, id)
  {
  }

  lemma NewSemInv(s: State, init: int)
    requires Inv(s) && HasRoom(s.sems)
    ensures Inv(CreateSemaphore(s, init))
  {
    hide Placed, Tabled, Sorted, Receivers, Mourned, Stocked, Private, Conserved;
    var id := FirstFree(s.sems, 0);
    NewSemPlaced(s.th, s.sems, id, init);
    NewSemConserved(s.sems, id, init);
    NewSemStocked(s, id, init);
  }

  lemma DropSemConserved(sems: map<int, Semaphore>, id: int)
    requires Conserved(sems)
    ensures Conserved(sems - {id})
  {
  }

  lemma DropSemStocked(s: State, id: int)
    requires Stocked(s) && !Private(s.mail, id)
    ensures Stocked(s.(sems := s.sems - {id}))
  {
  }

  lemma DelSemInv(s: State, id: int)
    requires Inv(s) && id in s.sems && !Private(s.mail, id)
    ensures Inv(DeleteSemaphore(s, id))
  {
    if s.sems[id].waiters == [] {
      hide Placed, Tabled, Sorted, Receivers, Mourned, Stocked, Private, Conserved;
      DropSemPlaced(s.th, s.sems, id);
      DropSemConserved(s.sems, id);
      DropSemStocked(s, id);
    }
  }

  /** A new queue starts empty with a semaphore of its own. */
  lemma NewQueueMail(s: State, q: int, sem: int)
    requires Stocked(s) && Receivers(s.th.status, s.mail, s.env.idle) && Placed(s.th, s.sems)
    requires q !in s.mail.queues && sem !in s.sems
    ensures var mail := s.mail.(queues := s.mail.queues[q := Queue(sem, [], [], [])]);
            && Stocked(s.(sems := s.sems[sem := NewSem(0)], mail := mail))
            && Receivers(s.th.status, mail, s.env.idle)
  {
    NobodyWaits(s.th, s.sems, sem);
    hide Placed;
    NewQueueStocked(s, q, sem);
    NewQueueReceivers(s.th.status, s.mail, s.env.idle, q, sem);
  }

  lemma NobodyWaits(th: Threads, sems: map<int, Semaphore>, sem: int)
    requires Placed(th, sems) && sem !in sems
    ensures forall t :: t in th.status ==> th.status[t] != Waiting(sem)
  {
  }

  lemma NewQueueStocked(s: State, q: int, sem: int)
    requires Stocked(s) && q !in s.mail.queues && sem !in s.sems
    requires forall t :: t in s.mail.pending ==> s.mail.pending[t] in s.mail.queues
    ensures Stocked(s.(sems := s.sems[sem := NewSem(0)], mail := s.mail.(queues := s.mail.queues[q := Queue(sem, [], [], [])])))
  {
    assert Granted(s.mail.pending, s.th.status, q, sem) == {};
  }

  lemma NewQueueReceivers(status: map<Ctx, Status>, mail: Mail, idle: Ctx, q: int, sem: int)
    requires Receivers(status, mail, idle) && q !in mail.queues
    requires forall t :: t in status ==> status[t] != Waiting(sem)
    ensures Receivers(status, mail.(queues := mail.queues[q := Queue(sem, [], [], [])]), idle)
  {
  }

  lemma NewQueueInv(s: State)
    requires Inv(s) && HasRoom(s.sems) && HasRoom(s.mail.queues)
    ensures Inv(CreateQueue(s))
  {
    hide Placed, Tabled, Sorted, Receivers, Mourned, Stocked, Private, Conserved;
    var sem, q := FirstFree(s.sems, 0), FirstFree(s.mail.queues, 0);
    NewSemPlaced(s.th, s.sems, sem, 0);
    NewSemConserved(s.sems, sem, 0);
    NewQueueMail(s, q, sem);
    StockedWaitMq(s);
  }

  lemma StockedWaitMq(s: State)
    requires Stocked(s)
    ensures s.env.waitMq in s.mail.queues
  {
  }

  lemma DropQueueGranted(mail: Mail, status: map<Ctx, Status>, q: int, r: int, sem: int)
    requires r != q
    ensures Granted(WithoutQueue(mail, q).pending, status, r, sem) == Granted(mail.pending, status, r, sem)
  {
  }

  lemma DropQueueStocked(s: State, q: int)
    requires Stocked(s) && q in s.mail.queues && q != s.env.waitMq
    ensures Stocked(s.(sems := s.sems - {s.mail.queues[q].sem}, mail := WithoutQueue(s.mail, q)))
  {
    var sem := s.mail.queues[q].sem;
    var s' := s.(sems := s.sems - {sem}, mail := WithoutQueue(s.mail, q));
    hide Granted, Supplied;
    forall r | r in s'.mail.queues
      ensures var m := s'.mail.queues[r];
              m.sem in s'.sems && Supplied(m, s'.sems[m.sem], Granted(s'.mail.pending, s'.th.status, r, m.sem))
    {
      assert s.mail.queues[r].sem in s.sems && s.mail.queues[r].sem != sem;
      DropQueueGranted(s.mail, s.th.status, q, r, s.mail.queues[r].sem);
    }
  }

  lemma DropQueueReceivers(status: map<Ctx, Status>, mail: Mail, idle: Ctx, q: int)
    requires Receivers(status, mail, idle) && q in mail.queues
    ensures Receivers(status, WithoutQueue(mail, q), idle)
  {
  }

  lemma DelQueueInv(s: State, q: int)
    requires Inv(s) && q != s.env.waitMq
    ensures Runs(s) && Inv(DeleteQueue(s, q))
  {
    InvRuns(s);
    hide Placed, Tabled, Sorted, Receivers, Mourned, Stocked, Private, Conserved;
    if q in s.mail.queues && s.sems[s.mail.queues[q].sem].waiters == [] {
      var sem := s.mail.queues[q].sem;
      DropSemPlaced(s.th, s.sems, sem);
      DropSemConserved(s.sems, sem);
      DropQueueStocked(s, q);
      DropQueueReceivers(s.th.status, s.mail, s.env.idle, q);
    }
  }
}
