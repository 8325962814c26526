/** Every step of the kernel keeps its invariant. */
module KernelSafety {
  import opened Contexts
  import opened KernelState
  import opened KernelPlaces
  import opened KernelParts

  /** The part of the invariant that speaks about the back link of semaphore.c:149. */
  ghost predicate SkewOk(th: Threads, env: Env) {
    th.skew ==> !env.repaired && |th.ready| >= 3
  }

  ghost predicate NobodyMoves(status: map<Ctx, Status>) {
    forall t :: t in status ==> status[t] != Moving
  }

  /** The invariant in parts. */
  ghost predicate Parts(s: State) {
    && Placed(s.th, s.sems) && SkewOk(s.th, s.env)
    && Tabled(s.th.status, s.reg, s.env)
    && Sorted(s.th.sleeping, s.th.wake)
    && Conserved(s.sems)
    && Stocked(s)
    && Receivers(s.th.status, s.mail, s.env.idle)
    && s.env.waitMq in s.mail.queues
    && Mourned(s.mail.queues[s.env.waitMq].messages, s.mail.reaping, s.th.status, s.reg)
    && NobodyMoves(s.th.status)
  }

  lemma InvParts(s: State)
    ensures Inv(s) <==> Parts(s)
  {
  }

  /** The current thread is ready, and idle is in the ring behind it unless it is idle itself. */
  lemma Current(s: State)
    requires Inv(s)
    ensures s.th.ready != [] && s.th.ready[0] in s.th.status && s.th.status[s.th.ready[0]] == Ready
    ensures s.env.idle in s.th.ready
    ensures s.th.ready[0] != s.env.idle ==> |s.th.ready| >= 2
    ensures Runs(s)
  {
    hide Tabled, Sorted, Conserved, Stocked, Receivers, Mourned;
    InvRuns(s);
    assert s.th.ready[0] in s.th.ready;
    if |s.th.ready| < 2 {
      assert s.th.ready == [s.th.ready[0]];
    }
  }

  // ---- scheduling ---------------------------------------------------------------------------

  lemma YieldInv(s: State, now: int)
    requires Inv(s) && (s.th.skew ==> Due(s.th, now))
    ensures s.th.ready != []
    ensures Inv(s.(th := Advance(WakeDue(s.th, now))))
  {
    Current(s);
    hide Placed, Tabled, Sorted, Conserved, Receivers, Mourned, Stocked, Runs, WakeDue;
    var th := WakeDue(s.th, now);
    WakeDuePlaced(s.th, s.sems, now);
    WakeDueTabled(s.th, s.sems, s.reg, s.env, now);
    WakeDueSorted(s.th, now);
    WakeDueReceivers(s.th, s.mail, s.env.idle, now);
    WakeDueMourned(s.th, s.sems, s.mail.queues[s.env.waitMq].messages, s.mail.reaping, s.reg, now);
    WakeDueStocked(s, now);
    AdvancePlaced(th, s.sems);
    WakeDueMoving(s.th, now);
    StockedSame(s.(th := th), s.(th := Advance(th)));
  }

  lemma {:induction false} WakeDueMoving(th: Threads, now: int)
    requires NobodyMoves(th.status) && th.ready != []
    ensures NobodyMoves(WakeDue(th, now).status)
    decreases |th.sleeping|
  {
    if Due(th, now) {
      WakeDueMoving(WakeOne(th), now);
    }
  }

  lemma {:induction false} WakeDueStocked(s: State, now: int)
    requires Placed(s.th, s.sems) && s.th.ready != [] && Stocked(s)
    ensures Stocked(s.(th := WakeDue(s.th, now)))
    decreases |s.th.sleeping|
  {
    if Due(s.th, now) {
      StockedMove(s, s.th.sleeping[0], Ready);
      WakeOnePlaced(s.th, s.sems);
      var s1 := s.(th := WakeOne(s.th));
      assert Stocked(s1) by {
        assert s1.th.status == s.th.status[s.th.sleeping[0] := Ready];
        StockedSame(s.(th := s.th.(status := s.th.status[s.th.sleeping[0] := Ready])), s1);
      }
      WakeDueStocked(s1, now);
    }
  }

  /** Only the statuses, the semaphores and the mail matter for the messages. */
  lemma StockedSame(s: State, s': State)
    requires Stocked(s) && s'.th.status == s.th.status && s'.sems == s.sems && s'.mail == s.mail && s'.env == s.env
    ensures Stocked(s')
  {
  }

  /** A thread that neither waits for nor has been granted a message moves. */
  lemma StockedMove(s: State, t: Ctx, d: Status)
    requires Stocked(s) && t in s.th.status && !s.th.status[t].Waiting?
    requires d.Waiting? ==> t !in s.mail.pending
    ensures Stocked(s.(th := s.th.(status := s.th.status[t := d])))
  {
    forall q | q in s.mail.queues
      ensures Granted(s.mail.pending, s.th.status[t := d], q, s.mail.queues[q].sem)
           == Granted(s.mail.pending, s.th.status, q, s.mail.queues[q].sem)
    {
      GrantedOther(s.mail.pending, s.th.status, t, d, q, s.mail.queues[q].sem);
    }
  }

  /** What the invariant says about a current thread other than idle. */
  lemma CurrentFacts(s: State)
    requires Inv(s)
    ensures s.th.ready != []
    ensures var t := s.th.ready[0];
            && t in s.th.status && s.th.status[t] == Ready && t !in s.th.sleeping
            && (t in s.reg.zombi ==> t != s.env.main && t != s.env.idle)
    ensures forall x :: x in s.th.sleeping ==> x in s.th.wake
    ensures s.env.waitMq in s.mail.queues && s.reg.ids.Keys == s.th.status.Keys
  {
    Current(s);
  }

  lemma DozeInv(s: State, when: int)
    requires Inv(s) && s.th.ready != [] && s.th.ready[0] != s.env.idle
    requires s.th.ready[0] !in s.mail.pending && s.th.ready[0] !in s.mail.reaping
    ensures Inv(s.(th := Doze(s.th, when)))
  {
    hide Placed, Tabled, Sorted, Conserved, Receivers, Mourned, Stocked, Runs, InsertByWake;
    CurrentFacts(s);
    var t := s.th.ready[0];
    DozePlaced(s.th, s.sems, when);
    DozeSorted(s.th.sleeping, s.th.wake, t, when);
    TabledMove(s.th.status, s.reg, s.env, t, Sleeping);
    ReceiversMove(s.th.status, s.mail, s.env.idle, t, Sleeping);
    MournedMove(s.mail.queues[s.env.waitMq].messages, s.mail.reaping, s.th.status, s.reg, t, Sleeping);
    StockedMove(s, t, Sleeping);
    StockedSame(s.(th := s.th.(status := s.th.status[t := Sleeping])), s.(th := Doze(s.th, when)));
  }

  lemma Unknown(s: State, c: Ctx)
    requires Inv(s) && c !in s.reg.ids
    ensures c !in s.th.status && c !in s.mail.pending && c !in s.mail.reaping && s.reg.ids.Keys == s.th.status.Keys
    ensures s.env.waitMq in s.mail.queues
  {
    hide Placed, Sorted, Conserved, Mourned;
  }

  lemma CreateInv(s: State, c: Ctx)
    requires Inv(s) && c !in s.reg.ids && HasRoom(s.reg.table)
    ensures s.th.ready != []
    ensures Inv(CreateThread(s, c))
  {
    hide Placed, Tabled, Sorted, Conserved, Receivers, Mourned, Stocked, Runs;
    Current(s);
    Unknown(s, c);
    CreatePlaced(s.th, s.sems, c);
    CreateTabled(s.th.status, s.reg, s.env, c);
    ReceiversMove(s.th.status, s.mail, s.env.idle, c, Ready);
    CreateMourned(s.mail.queues[s.env.waitMq].messages, s.mail.reaping, s.th.status, s.reg, s.env, c);
    CreateStocked(s, c);
  }

  lemma DeadStill(status: map<Ctx, Status>, table: map<int, Ctx>, i: int, c: Ctx, id: int)
    requires DeadId(status, table, i) && id !in table && c !in status
    ensures DeadId(status[c := Ready], table[id := c], i)
  {
  }

  lemma KnownStatus(status: map<Ctx, Status>, reg: Registry, env: Env, c: Ctx)
    requires Tabled(status, reg, env) && c !in reg.ids
    ensures c !in status && status.Keys == reg.ids.Keys
    ensures forall i :: i in reg.table ==> reg.table[i] != c
  {
  }

  lemma CreateMourned(letters: seq<Bytes>, reaping: map<Ctx, int>, status: map<Ctx, Status>, reg: Registry, env: Env, c: Ctx)
    requires Mourned(letters, reaping, status, reg) && Tabled(status, reg, env)
    requires c !in reg.ids && HasRoom(reg.table)
    ensures var id := FirstFree(reg.table, 0);
            Mourned(letters, reaping, status[c := Ready], reg.(ids := reg.ids[c := id], table := reg.table[id := c]))
  {
    hide EncodeInt, DecodeInt, Tabled, DeadId;
    var id := FirstFree(reg.table, 0);
    var reg' := reg.(ids := reg.ids[c := id], table := reg.table[id := c]);
    KnownStatus(status, reg, env, c);
    forall i | DeadId(status, reg.table, i) ensures DeadId(status[c := Ready], reg'.table, i) {
      DeadStill(status, reg.table, i, c, id);
    }
    forall t | t in status && status[t] == Dead ensures IdOf(reg', t) == IdOf(reg, t) {
    }
  }

  lemma CreateStocked(s: State, c: Ctx)
    requires Stocked(s) && c !in s.mail.pending && s.th.ready != []
    ensures Stocked(CreateThread(s, c))
  {
    var s' := CreateThread(s, c);
    forall q | q in s.mail.queues
      ensures Granted(s.mail.pending, s'.th.status, q, s.mail.queues[q].sem)
           == Granted(s.mail.pending, s.th.status, q, s.mail.queues[q].sem)
    {
      GrantedOther(s.mail.pending, s.th.status, c, Ready, q, s.mail.queues[q].sem);
    }
  }

  lemma KillInv(s: State, pid: int)
    requires Inv(s) && pid != 0
    ensures Inv(s.(reg := KillThread(s.reg, pid)))
  {
    assert s.env.waitMq in s.mail.queues;
    hide Placed, Tabled, Sorted, Conserved, Receivers, Mourned, Stocked;
    KillTabled(s.th.status, s.reg, s.env, pid);
    KillMourned(s.mail.queues[s.env.waitMq].messages, s.mail.reaping, s.th.status, s.reg, pid);
    StockedSame(s, s.(reg := KillThread(s.reg, pid)));
  }

  lemma KillMourned(letters: seq<Bytes>, reaping: map<Ctx, int>, status: map<Ctx, Status>, reg: Registry, pid: int)
    requires Mourned(letters, reaping, status, reg)
    ensures Mourned(letters, reaping, status, KillThread(reg, pid))
  {
    hide EncodeInt, DecodeInt, DeadId;
    forall t | t in status && status[t] == Dead
      ensures EncodeInt(IdOf(KillThread(reg, pid), t)) in letters || exists u :: u in reaping && reaping[u] == IdOf(KillThread(reg, pid), t)
    {
      assert IdOf(KillThread(reg, pid), t) == IdOf(reg, t);
    }
  }
}
