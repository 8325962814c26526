/** The waiters of a semaphore are a stack: the last thread that blocked is woken first. */
module KernelLifo {
  import opened Contexts
  import opened KernelState
  import opened KernelCases
  import opened KernelPlaces
  import opened KernelSafety
  import opened KernelCoins
  import opened KernelRuns

  /** The waiters below t: those that blocked before it and are still there. */
  function Below(q: seq<Ctx>, t: Ctx): seq<Ctx> {
    if q == [] then [] else if q[0] == t then q[1..] else Below(q[1..], t)
  }

  ghost predicate Blocked(s: State, t: Ctx, id: int) {
    t in s.th.status && s.th.status[t] == Waiting(id) && id in s.sems
  }

  /** If t is blocked afterwards it was before, on top of the same threads. */
  ghost predicate Under(s: State, s': State, t: Ctx, id: int) {
    t in s'.th.status && s'.th.status[t] == Waiting(id) ==>
      Blocked(s, t, id) && Blocked(s', t, id) && Below(s'.sems[id].waiters, t) == Below(s.sems[id].waiters, t)
  }

  lemma GiveSemUnder(s: State, k: int, t: Ctx, id: int)
    requires Placed(s.th, s.sems) && s.th.ready != [] && k in s.sems
    ensures Under(s, GiveSem(s, k), t, id)
  {
    GiveSemThreads(s, k);
    assert t in s.th.status && s.th.status[t] == Waiting(id) ==> id in s.sems;
    hide Placed;
  }

  lemma ParkUnder(s: State, k: int, t: Ctx, id: int)
    requires Placed(s.th, s.sems) && s.th.ready != [] && k in s.sems && t != s.th.ready[0]
    ensures Under(s, Park(s, k), t, id)
  {
    assert t in s.th.status && s.th.status[t] == Waiting(id) ==> id in s.sems;
    hide Placed;
    var m := s.sems[k];
    assert ([s.th.ready[0]] + m.waiters)[1..] == m.waiters;
  }

  lemma RetireUnder(s: State, t: Ctx, id: int)
    requires Runs(s) && Placed(s.th, s.sems)
    ensures Under(s, Retire(s), t, id)
  {
    var msg := EncodeInt(IdOf(s.reg, s.th.ready[0]));
    PostRuns(s, s.env.waitMq, msg);
    var s0 := Appended(s, s.env.waitMq, msg);
    GiveSemUnder(s0, s.mail.queues[s.env.waitMq].sem, t, id);
    hide Placed, GiveSem, EncodeInt, Below;
    assert Post(s, s.env.waitMq, msg) == GiveSem(s0, s.mail.queues[s.env.waitMq].sem);
  }

  lemma DispatchUnder(s: State, t: Ctx, id: int)
    requires Runs(s) && Placed(s.th, s.sems)
    ensures Under(s, Dispatch(s), t, id)
  {
    if s.th.ready[0] in s.reg.zombi {
      RetireUnder(s, t, id);
    } else {
      assert t in s.th.status && s.th.status[t] == Waiting(id) ==> id in s.sems;
    }
  }

  lemma {:induction false} WakeDueUnder(s: State, now: int, t: Ctx, id: int)
    requires Placed(s.th, s.sems) && s.th.ready != []
    ensures Under(s, s.(th := WakeDue(s.th, now)), t, id)
    decreases |s.th.sleeping|
  {
    if Due(s.th, now) {
      WakeOnePlaced(s.th, s.sems);
      WakeDueUnder(s.(th := WakeOne(s.th)), now, t, id);
    } else {
      assert t in s.th.status && s.th.status[t] == Waiting(id) ==> id in s.sems;
    }
  }

  lemma UnderTrans(s: State, s1: State, s2: State, t: Ctx, id: int)
    requires Under(s, s1, t, id) && Under(s1, s2, t, id)
    ensures Under(s, s2, t, id)
  {
  }

  /** Steps that leave the waiters and the statuses of waiters alone. */
  lemma SameUnder(s: State, s': State, t: Ctx, id: int)
    requires Placed(s'.th, s'.sems)
    requires t in s.th.status && (t in s'.th.status && s'.th.status[t] == Waiting(id) ==> s.th.status[t] == Waiting(id))
    requires id in s'.sems ==> id in s.sems && s'.sems[id].waiters == s.sems[id].waiters
    ensures Under(s, s', t, id)
  {
  }

  lemma YieldUnder(s: State, now: int, t: Ctx, id: int)
    requires Runs(s) && Placed(s.th, s.sems)
    ensures Runs(s.(th := Advance(WakeDue(s.th, now))))
    ensures Under(s, Dispatch(s.(th := Advance(WakeDue(s.th, now)))), t, id)
  {
    YieldRuns(s, now);
    hide Runs, Placed, Dispatch, WakeDue, Below;
    assert s.th.ready != [];
    var s1, s2 := s.(th := WakeDue(s.th, now)), s.(th := Advance(WakeDue(s.th, now)));
    WakeDueUnder(s, now, t, id);
    WakeDuePlaced(s.th, s.sems, now);
    AdvancePlaced(s1.th, s.sems);
    DispatchUnder(s2, t, id);
    UnderTrans(s, s2, Dispatch(s2), t, id);
  }

  lemma SleepUnder(s: State, when: int, t: Ctx, id: int)
    requires Runs(s) && Placed(s.th, s.sems) && s.th.ready[0] != s.env.idle
    requires forall x :: x in s.th.sleeping ==> x in s.th.wake
    requires t in s.th.status
    ensures Runs(s.(th := Doze(s.th, when)))
    ensures Under(s, Dispatch(s.(th := Doze(s.th, when))), t, id)
  {
    DozeRuns(s, when);
    DozePlaced(s.th, s.sems, when);
    var s1 := s.(th := Doze(s.th, when));
    SameUnder(s, s1, t, id);
    hide Runs, Placed, Dispatch, Doze, Under;
    DispatchUnder(s1, t, id);
    UnderTrans(s, s1, Dispatch(s1), t, id);
  }

  lemma ExitUnder(s: State, t: Ctx, id: int)
    requires Runs(s) && Placed(s.th, s.sems) && s.th.ready[0] != s.env.idle
    ensures Runs(Retire(s)) && Under(s, Dispatch(Retire(s)), t, id)
  {
    RetireRuns(s);
    RetirePlaced(s);
    RetireUnder(s, t, id);
    hide Runs, Placed, Dispatch, Retire, Under;
    DispatchUnder(Retire(s), t, id);
    UnderTrans(s, Retire(s), Dispatch(Retire(s)), t, id);
  }

  lemma ParkDispatchUnder(s: State, k: int, t: Ctx, id: int)
    requires Runs(s) && Placed(s.th, s.sems) && s.th.ready[0] != s.env.idle && k in s.sems && t != s.th.ready[0]
    ensures Runs(Park(s, k)) && Under(s, Dispatch(Park(s, k)), t, id)
  {
    ParkRuns(s, k);
    ParkPlaced(s, k);
    ParkUnder(s, k, t, id);
    hide Runs, Placed, Dispatch, Park, Under;
    DispatchUnder(Park(s, k), t, id);
    UnderTrans(s, Park(s, k), Dispatch(Park(s, k)), t, id);
  }

  lemma TakeUnder(s: State, k: int, t: Ctx, id: int)
    requires Runs(s) && Placed(s.th, s.sems) && s.th.ready[0] != s.env.idle && t in s.th.status && t != s.th.ready[0]
    ensures Under(s, TakeSem(s, k), t, id)
  {
    if k in s.sems && s.sems[k].counter <= 0 {
      ParkDispatchUnder(s, k, t, id);
    } else {
      assert t in s.th.status && s.th.status[t] == Waiting(id) ==> id in s.sems;
    }
  }

  lemma PostUnder(s: State, q: int, msg: Bytes, t: Ctx, id: int)
    requires Runs(s) && Placed(s.th, s.sems) && q in s.mail.queues
    ensures Under(s, Post(s, q, msg), t, id)
  {
    GiveSemUnder(Appended(s, q, msg), s.mail.queues[q].sem, t, id);
    hide GiveSem, Below;
  }

  lemma ReceiveUnder(s: State, q: int, t: Ctx, id: int)
    requires Runs(s) && Placed(s.th, s.sems) && s.th.ready[0] != s.env.idle && q in s.mail.queues
    requires s.sems[s.mail.queues[q].sem].counter > 0 ==> Readable(s, q)
    requires t in s.th.status && t != s.th.ready[0]
    ensures Under(s, ReceiveFrom(s, q), t, id)
  {
    var sem := s.mail.queues[q].sem;
    if s.sems[sem].counter <= 0 {
      ParkDispatchUnder(s.(mail := s.mail.(pending := s.mail.pending[s.th.ready[0] := q])), sem, t, id);
    } else {
      hide Fetch;
      assert t in s.th.status && s.th.status[t] == Waiting(id) ==> id in s.sems;
    }
  }

  lemma SwitchUnder(s: State, op: Op, t: Ctx, id: int)
    requires Inv(s) && Enabled(s, op) && Blocked(s, t, id) && (op.Yield? || op.Sleep? || op.Exit?)
    ensures Under(s, Step(s, op), t, id)
  {
    hide *;
    BlockedFacts(s, t, id);
    match op
    case Yield(now) => YieldIs(s, now); YieldUnder(s, now, t, id);
    case Sleep(seconds, now) => SleepIs(s, seconds, now); SleepUnder(s, now + seconds, t, id);
    case Exit => ExitIs(s); ExitUnder(s, t, id);
  }

  lemma GiveStepUnder(s: State, op: Op, t: Ctx, id: int)
    requires Inv(s) && Enabled(s, op) && Blocked(s, t, id) && (op.Give? || op.Send?)
    ensures Under(s, Step(s, op), t, id)
  {
    hide *;
    BlockedFacts(s, t, id);
    EqualUnder(s, s, t, id);
    match op
    case Give(k) => GiveIs(s, k); if k in s.sems { GiveSemUnder(s, k, t, id); }
    case Send(q, msg) => SendIs(s, q, msg); if q in s.mail.queues { PostUnder(s, q, msg, t, id); }
  }

  lemma ReadStepUnder(s: State, op: Op, q: int, t: Ctx, id: int)
    requires Inv(s) && Enabled(s, op) && Blocked(s, t, id) && (op == Receive(q) || (op == Wait && q == s.env.waitMq))
    ensures Under(s, Step(s, op), t, id)
  {
    hide *;
    BlockedFacts(s, t, id);
    EqualUnder(s, s, t, id);
    ReceiveIs(s, op, q);
    if q in s.mail.queues {
      ReceiveUnder(s, q, t, id);
    }
  }

  lemma CoinUnder(s: State, op: Op, t: Ctx, id: int)
    requires Inv(s) && Enabled(s, op) && Blocked(s, t, id)
    requires op.Take? || op.Give? || op.Send? || op.Receive? || op.Wait?
    ensures Under(s, Step(s, op), t, id)
  {
    hide *;
    match op
    case Take(k) => BlockedFacts(s, t, id); TakeIs(s, k); TakeUnder(s, k, t, id);
    case Receive(q) => ReadStepUnder(s, op, q, t, id);
    case Wait => ReadStepUnder(s, op, s.env.waitMq, t, id);
    case _ => GiveStepUnder(s, op, t, id);
  }

  lemma BlockedFacts(s: State, t: Ctx, id: int)
    requires Inv(s) && Blocked(s, t, id)
    ensures Placed(s.th, s.sems) && s.th.ready != [] && t != s.th.ready[0] && t in s.sems[id].waiters
    ensures forall x :: x in s.th.sleeping ==> x in s.th.wake
    ensures t in s.reg.ids && t in s.th.status && id in s.sems && s.th.status[t] == Waiting(id)
  {
    Current(s);
  }

  /** The steps that touch tables only; a semaphore with a waiter is not deleted. */
  lemma TableUnder(s: State, op: Op, t: Ctx, id: int)
    requires Inv(s) && Enabled(s, op) && Blocked(s, t, id)
    requires op.Kill? || op.NewSemaphore? || op.DelSemaphore? || op.NewQueue? || op.DelQueue?
    ensures Under(s, Step(s, op), t, id)
  {
    hide Inv, Enabled, Step, Placed, Runs, Below, KillThread;
    BlockedFacts(s, t, id);
    match op
    case Kill(pid) => KillIs(s, pid);
    case NewSemaphore(init) => NewSemaphoreIs(s, init);
    case DelSemaphore(k) => DelSemaphoreIs(s, k);
    case NewQueue => NewQueueIs(s);
    case DelQueue(q) => DelQueueIs(s, q);
  }

  /** The steps that do not touch semaphores. */
  lemma PersonUnder(s: State, op: Op, t: Ctx, id: int)
    requires Inv(s) && Enabled(s, op) && Blocked(s, t, id)
    requires op.Create? || op.Finish? || op.Reap?
    ensures Under(s, Step(s, op), t, id)
  {
    PersonSems(s, op);
    EqualUnder(s, Step(s, op), t, id);
  }

  lemma PersonSems(s: State, op: Op)
    requires Inv(s) && Enabled(s, op)
    requires op.Create? || op.Finish? || op.Reap?
    ensures Step(s, op).sems == s.sems
  {
    hide Inv, Enabled, Step, Runs, Readable, Fetch;
    match op
    case Create(c) => CreateIs(s, c);
    case Finish => FinishIs(s);
    case Reap => ReapIs(s);
  }

  lemma EqualUnder(s: State, s': State, t: Ctx, id: int)
    requires Blocked(s, t, id) && s'.sems == s.sems
    ensures Under(s, s', t, id)
  {
  }

  /** One step leaves the threads below a blocked thread as they are, as long as it stays blocked. */
  lemma StepLifo(s: State, op: Op, t: Ctx, id: int)
    requires Inv(s) && Enabled(s, op) && Blocked(s, t, id) && Blocked(Step(s, op), t, id)
    ensures Below(Step(s, op).sems[id].waiters, t) == Below(s.sems[id].waiters, t)
  {
    hide Inv, Enabled, Step, Below;
    if op.Yield? || op.Sleep? || op.Exit? {
      SwitchUnder(s, op, t, id);
    } else if op.Take? || op.Give? || op.Send? || op.Receive? || op.Wait? {
      CoinUnder(s, op, t, id);
    } else if op.Create? || op.Finish? || op.Reap? {
      PersonUnder(s, op, t, id);
    } else {
      TableUnder(s, op, t, id);
    }
  }

  ghost predicate StaysBlocked(s: State, ops: seq<Op>, t: Ctx, id: int)
    requires Inv(s) && Legal(s, ops)
    decreases |ops|
  {
    Blocked(s, t, id) && (ops == [] || (StepInv(s, ops[0]); StaysBlocked(Step(s, ops[0]), ops[1..], t, id)))
  }

  lemma StaysLater(s: State, ops: seq<Op>, t: Ctx, id: int)
    requires Inv(s) && Legal(s, ops) && StaysBlocked(s, ops, t, id) && ops != []
    ensures Enabled(s, ops[0]) && Inv(Step(s, ops[0])) && Legal(Step(s, ops[0]), ops[1..])
    ensures StaysBlocked(Step(s, ops[0]), ops[1..], t, id) && Run(s, ops) == Run(Step(s, ops[0]), ops[1..])
    ensures Blocked(s, t, id) && Blocked(Step(s, ops[0]), t, id)
  {
    StepInv(s, ops[0]);
    hide Inv, Step, Enabled;
  }

  /**
   * Last blocked, first woken, over every run: while thread t stays blocked at a semaphore, none of
   * the threads that blocked there before it is woken, and their order stays the same.
   */
  lemma {:induction false} RunLifo(s: State, ops: seq<Op>, t: Ctx, id: int)
    requires Inv(s) && Legal(s, ops) && StaysBlocked(s, ops, t, id)
    ensures id in s.sems && id in Run(s, ops).sems
    ensures Below(Run(s, ops).sems[id].waiters, t) == Below(s.sems[id].waiters, t)
    decreases |ops|
  {
    hide Inv, Legal, Below, Step, Enabled;
    if ops != [] {
      StaysLater(s, ops, t, id);
      StepLifo(s, ops[0], t, id);
      RunLifo(Step(s, ops[0]), ops[1..], t, id);
    }
  }
}
