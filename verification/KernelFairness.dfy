/** How long a ready thread waits for its turn. */
module KernelFairness {
  import opened Contexts
  import opened KernelState
  import opened KernelCases
  import opened KernelRuns

  // ---- forward distance in the ring -----------------------------------------------------------

  /** Thread t is at forward distance i from the current thread. */
  predicate At(th: Threads, t: Ctx, i: int) {
    0 <= i < |th.ready| && th.ready[i] == t
  }

  /** Threads a give inserts into the ring. */
  function GiveIns(s: State, id: int): nat {
    if id in s.sems && s.sems[id].waiters != [] then 1 else 0
  }

  ghost function PostIns(s: State): nat
    requires Runs(s)
  {
    GiveIns(s, s.mail.queues[s.env.waitMq].sem)
  }

  /** Threads the scheduler drops, and threads it inserts, when it meets a zombie. */
  ghost function DispatchAdv(s: State): nat
    requires Runs(s)
  {
    if s.th.ready[0] in s.reg.zombi then 1 else 0
  }

  ghost function DispatchIns(s: State): nat
    requires Runs(s)
  {
    if s.th.ready[0] in s.reg.zombi then PostIns(s) else 0
  }

  lemma AwakenAt(th: Threads, w: Ctx, skew: bool, t: Ctx, i: int)
    requires At(th, t, i)
    ensures At(Awaken(th, w, skew), t, if i == 0 then 0 else i + 1)
  {
  }

  lemma {:induction false} WakeDueAt(th: Threads, now: int, t: Ctx, i: int)
    requires At(th, t, i)
    ensures |WakeDue(th, now).sleeping| <= |th.sleeping|
    ensures At(WakeDue(th, now), t, if i == 0 then 0 else i + |th.sleeping| - |WakeDue(th, now).sleeping|)
    decreases |th.sleeping|
  {
    if Due(th, now) {
      AwakenAt(th.(sleeping := th.sleeping[1..]), th.sleeping[0], false, t, i);
      WakeDueAt(WakeOne(th), now, t, if i == 0 then 0 else i + 1);
    }
  }

  lemma GiveSemAt(s: State, id: int, t: Ctx, i: int)
    requires s.th.ready != [] && id in s.sems && At(s.th, t, i)
    ensures At(GiveSem(s, id).th, t, if i == 0 then 0 else i + GiveIns(s, id))
  {
    if s.sems[id].waiters != [] {
      AwakenAt(s.th, s.sems[id].waiters[0], !s.env.repaired && |s.th.ready| >= 2, t, i);
    }
  }

  lemma RetireAt(s: State, t: Ctx, i: int)
    requires Runs(s) && At(s.th, t, i)
    ensures i >= 1 ==> At(Retire(s).th, t, i + PostIns(s) - 1)
    ensures i == 0 ==> t in Retire(s).th.status && Retire(s).th.status[t] == Dead
  {
    var msg := EncodeInt(IdOf(s.reg, s.th.ready[0]));
    PostRuns(s, s.env.waitMq, msg);
    GiveSemAt(Appended(s, s.env.waitMq, msg), s.mail.queues[s.env.waitMq].sem, t, i);
    hide GiveSem, EncodeInt;
  }

  lemma DispatchAt(s: State, t: Ctx, i: int)
    requires Runs(s) && At(s.th, t, i)
    ensures At(Dispatch(s).th, t, i + DispatchIns(s) - DispatchAdv(s))
         || (i == 0 && t in Dispatch(s).th.status && Dispatch(s).th.status[t] == Dead)
  {
    RetireAt(s, t, i);
  }

  /** Advances of the ring in a step: how often the current thread gives way to the next one. */
  ghost function Advances(s: State, op: Op): nat
    requires Inv(s) && Enabled(s, op)
  {
    StepDefined(s, op);
    hide Inv, Enabled, Runs, Readable;
    match op
    case Yield(now) => YieldRuns(s, now); 1 + DispatchAdv(s.(th := Advance(WakeDue(s.th, now))))
    case Sleep(seconds, now) => DozeRuns(s, now + seconds); 1 + DispatchAdv(s.(th := Doze(s.th, now + seconds)))
    case Exit => 1 + DispatchAdv(Retire(s))
    case Take(id) => if id in s.sems && s.sems[id].counter <= 0 then ParkRuns(s, id); 1 + DispatchAdv(Park(s, id)) else 0
    case Receive(q) => ReceiveAdv(s, q)
    case Wait => ReceiveAdv(s, s.env.waitMq)
    case _ => 0
  }

  ghost function ReceiveAdv(s: State, q: int): nat
    requires Runs(s) && s.th.ready[0] != s.env.idle
  {
    if q in s.mail.queues && s.sems[s.mail.queues[q].sem].counter <= 0 then
      var s1 := s.(mail := s.mail.(pending := s.mail.pending[s.th.ready[0] := q]));
      ParkRuns(s1, s.mail.queues[q].sem);
      1 + DispatchAdv(Park(s1, s.mail.queues[q].sem))
    else 0
  }

  /** Insertions in a step: threads woken, handed a coin, or created. */
  ghost function Insertions(s: State, op: Op): int
    requires Inv(s) && Enabled(s, op)
  {
    StepDefined(s, op);
    hide Inv, Enabled, Runs, Readable;
    match op
    case Yield(now) =>
      YieldRuns(s, now);
      |s.th.sleeping| - |WakeDue(s.th, now).sleeping| + DispatchIns(s.(th := Advance(WakeDue(s.th, now))))
    case Sleep(seconds, now) => DozeRuns(s, now + seconds); DispatchIns(s.(th := Doze(s.th, now + seconds)))
    case Exit => PostIns(s) + DispatchIns(Retire(s))
    case Take(id) => if id in s.sems && s.sems[id].counter <= 0 then ParkRuns(s, id); DispatchIns(Park(s, id)) else 0
    case Receive(q) => ReceiveIns(s, q)
    case Wait => ReceiveIns(s, s.env.waitMq)
    case Create(_) => 1
    case Give(id) => GiveIns(s, id)
    case Send(q, _) => if q in s.mail.queues then GiveIns(s, s.mail.queues[q].sem) else 0
    case _ => 0
  }

  ghost function ReceiveIns(s: State, q: int): nat
    requires Runs(s) && s.th.ready[0] != s.env.idle
  {
    if q in s.mail.queues && s.sems[s.mail.queues[q].sem].counter <= 0 then
      var s1 := s.(mail := s.mail.(pending := s.mail.pending[s.th.ready[0] := q]));
      ParkRuns(s1, s.mail.queues[q].sem);
      DispatchIns(Park(s1, s.mail.queues[q].sem))
    else 0
  }

  /** Thread t is `adv` places nearer and `ins` places further, or it came first and its kill took effect. */
  ghost predicate Moved(th: Threads, t: Ctx, i: int, adv: nat, ins: int) {
    At(th, t, i + ins - adv) || (t in th.status && th.status[t] == Dead)
  }

  lemma YieldMoved(s: State, now: int, t: Ctx, i: int)
    requires Runs(s) && At(s.th, t, i) && i >= 1
    ensures Runs(s.(th := Advance(WakeDue(s.th, now))))
    ensures var s1 := s.(th := Advance(WakeDue(s.th, now)));
            Moved(Dispatch(s1).th, t, i, 1 + DispatchAdv(s1), |s.th.sleeping| - |WakeDue(s.th, now).sleeping| + DispatchIns(s1))
  {
    YieldRuns(s, now);
    var s1 := s.(th := Advance(WakeDue(s.th, now)));
    WakeDueAt(s.th, now, t, i);
    var j := i + |s.th.sleeping| - |WakeDue(s.th, now).sleeping|;
    assert At(s1.th, t, j - 1);
    DispatchAt(s1, t, j - 1);
  }

  lemma SleepMoved(s: State, when: int, t: Ctx, i: int)
    requires Runs(s) && At(s.th, t, i) && i >= 1 && s.th.ready[0] != s.env.idle
    ensures Runs(s.(th := Doze(s.th, when)))
    ensures var s1 := s.(th := Doze(s.th, when)); Moved(Dispatch(s1).th, t, i, 1 + DispatchAdv(s1), DispatchIns(s1))
  {
    DozeRuns(s, when);
    assert At(Doze(s.th, when), t, i - 1);
    DispatchAt(s.(th := Doze(s.th, when)), t, i - 1);
  }

  lemma ExitMoved(s: State, t: Ctx, i: int)
    requires Runs(s) && At(s.th, t, i) && i >= 1 && s.th.ready[0] != s.env.idle
    ensures Runs(Retire(s))
    ensures Moved(Dispatch(Retire(s)).th, t, i, 1 + DispatchAdv(Retire(s)), PostIns(s) + DispatchIns(Retire(s)))
  {
    hide Retire, Dispatch, Runs;
    RetireRuns(s);
    RetireAt(s, t, i);
    DispatchAt(Retire(s), t, i + PostIns(s) - 1);
  }

  lemma ParkMoved(s: State, id: int, t: Ctx, i: int)
    requires Runs(s) && At(s.th, t, i) && i >= 1 && s.th.ready[0] != s.env.idle && id in s.sems
    ensures Runs(Park(s, id))
    ensures Moved(Dispatch(Park(s, id)).th, t, i, 1 + DispatchAdv(Park(s, id)), DispatchIns(Park(s, id)))
  {
    ParkRuns(s, id);
    assert At(Park(s, id).th, t, i - 1);
    DispatchAt(Park(s, id), t, i - 1);
  }

  lemma ReceiveMoved(s: State, q: int, t: Ctx, i: int)
    requires Runs(s) && At(s.th, t, i) && i >= 1 && s.th.ready[0] != s.env.idle && q in s.mail.queues
    requires s.sems[s.mail.queues[q].sem].counter > 0 ==> Readable(s, q)
    ensures Moved(ReceiveFrom(s, q).th, t, i, ReceiveAdv(s, q), ReceiveIns(s, q))
  {
    if s.sems[s.mail.queues[q].sem].counter <= 0 {
      ParkMoved(s.(mail := s.mail.(pending := s.mail.pending[s.th.ready[0] := q])), s.mail.queues[q].sem, t, i);
    }
  }

  lemma SendMoved(s: State, q: int, msg: Bytes, t: Ctx, i: int)
    requires Runs(s) && At(s.th, t, i) && i >= 1 && q in s.mail.queues
    ensures Moved(Post(s, q, msg).th, t, i, 0, GiveIns(s, s.mail.queues[q].sem))
  {
    GiveSemAt(Appended(s, q, msg), s.mail.queues[q].sem, t, i);
  }

  lemma YieldCounts(s: State, now: int)
    requires Inv(s) && Enabled(s, Yield(now))
    requires Runs(s.(th := Advance(WakeDue(s.th, now))))
    ensures var s1 := s.(th := Advance(WakeDue(s.th, now)));
            && Advances(s, Yield(now)) == 1 + DispatchAdv(s1)
            && Insertions(s, Yield(now)) == |s.th.sleeping| - |WakeDue(s.th, now).sleeping| + DispatchIns(s1)
  {
    hide Inv, Enabled, Runs, DispatchAdv, DispatchIns, Advance, WakeDue;
  }

  lemma SleepCounts(s: State, seconds: int, now: int)
    requires Inv(s) && Enabled(s, Sleep(seconds, now))
    requires Runs(s.(th := Doze(s.th, now + seconds)))
    ensures Advances(s, Sleep(seconds, now)) == 1 + DispatchAdv(s.(th := Doze(s.th, now + seconds)))
    ensures Insertions(s, Sleep(seconds, now)) == DispatchIns(s.(th := Doze(s.th, now + seconds)))
  {
    hide Inv, Enabled, Runs, DispatchAdv, DispatchIns, Doze;
  }

  lemma ExitCounts(s: State)
    requires Inv(s) && Enabled(s, Exit) && Runs(s) && Runs(Retire(s))
    ensures Advances(s, Exit) == 1 + DispatchAdv(Retire(s))
    ensures Insertions(s, Exit) == PostIns(s) + DispatchIns(Retire(s))
  {
    hide Inv, Enabled, Runs, DispatchAdv, DispatchIns, PostIns, Retire;
  }

  lemma SwitchMoved(s: State, op: Op, t: Ctx, i: int)
    requires Inv(s) && Enabled(s, op) && At(s.th, t, i) && i >= 1 && (op.Yield? || op.Sleep? || op.Exit?)
    ensures Moved(Step(s, op).th, t, i, Advances(s, op), Insertions(s, op))
  {
    hide *;
    match op
    case Yield(now) => YieldIs(s, now); YieldCounts(s, now); YieldMoved(s, now, t, i);
    case Sleep(seconds, now) => SleepIs(s, seconds, now); SleepCounts(s, seconds, now); SleepMoved(s, now + seconds, t, i);
    case Exit => ExitIs(s); ExitCounts(s); ExitMoved(s, t, i);
  }

  lemma TakeStepMoved(s: State, id: int, t: Ctx, i: int)
    requires Inv(s) && Enabled(s, Take(id)) && At(s.th, t, i) && i >= 1
    ensures Moved(Step(s, Take(id)).th, t, i, Advances(s, Take(id)), Insertions(s, Take(id)))
  {
    hide Inv, Enabled, Runs, Moved, At, DispatchAdv, DispatchIns, Step, TakeSem, Park;
    TakeIs(s, id);
    TakeMoved(s, id, t, i);
  }

  lemma ReceiveCounts(s: State, op: Op, q: int)
    requires Inv(s) && Enabled(s, op) && (op == Receive(q) || (op == Wait && q == s.env.waitMq))
    requires Runs(s) && s.th.ready != [] && s.th.ready[0] != s.env.idle
    ensures Advances(s, op) == ReceiveAdv(s, q) && Insertions(s, op) == ReceiveIns(s, q)
  {
    hide Inv, Enabled, Runs, ReceiveAdv, ReceiveIns;
  }

  lemma ReceiveStepMoved(s: State, op: Op, q: int, t: Ctx, i: int)
    requires Inv(s) && Enabled(s, op) && At(s.th, t, i) && i >= 1 && (op == Receive(q) || (op == Wait && q == s.env.waitMq))
    ensures Moved(Step(s, op).th, t, i, Advances(s, op), Insertions(s, op))
  {
    hide *;
    ReceiveIs(s, op, q);
    ReceiveCounts(s, op, q);
    if q in s.mail.queues {
      ReceiveMoved(s, q, t, i);
    } else {
      ReceiveNone(s, q);
      Unmoved(s.th, t, i);
    }
  }

  lemma GiveStepMoved(s: State, op: Op, t: Ctx, i: int)
    requires Inv(s) && Enabled(s, op) && At(s.th, t, i) && i >= 1 && (op.Give? || op.Send? || op.Finish?)
    ensures Moved(Step(s, op).th, t, i, Advances(s, op), Insertions(s, op))
  {
    hide Inv, Enabled, Runs, Moved, At, Step, Post, GiveSem, GiveIns, Fetch, Readable;
    match op
    case Give(id) => GiveIs(s, id); GiveMoved(s, id, t, i);
    case Send(q, msg) => SendIs(s, q, msg); if q in s.mail.queues { SendMoved(s, q, msg, t, i); } else { Unmoved(s.th, t, i); }
    case Finish => FinishIs(s); Unmoved(s.th, t, i);
  }

  lemma CoinMoved(s: State, op: Op, t: Ctx, i: int)
    requires Inv(s) && Enabled(s, op) && At(s.th, t, i) && i >= 1
    requires op.Take? || op.Give? || op.Send? || op.Receive? || op.Wait? || op.Finish?
    ensures Moved(Step(s, op).th, t, i, Advances(s, op), Insertions(s, op))
  {
    hide *;
    match op
    case Take(id) => TakeStepMoved(s, id, t, i);
    case Receive(q) => ReceiveStepMoved(s, op, q, t, i);
    case Wait => ReceiveStepMoved(s, op, s.env.waitMq, t, i);
    case _ => GiveStepMoved(s, op, t, i);
  }

  lemma ReceiveNone(s: State, q: int)
    requires Runs(s) && s.th.ready[0] != s.env.idle && q !in s.mail.queues
    ensures ReceiveAdv(s, q) == 0 && ReceiveIns(s, q) == 0
  {
  }

  lemma TableMoved(s: State, op: Op, t: Ctx, i: int)
    requires Inv(s) && Enabled(s, op) && At(s.th, t, i) && i >= 1
    requires op.Kill? || op.Create? || op.NewSemaphore? || op.DelSemaphore? || op.NewQueue? || op.DelQueue? || op.Reap?
    ensures Moved(Step(s, op).th, t, i, Advances(s, op), Insertions(s, op))
  {
    hide Inv, Enabled, Step, Runs, Moved, At, ReapThread;
    TableCounts(s, op);
    match op
    case Create(c) => CreateIs(s, c); BirthMoved(s, c, t, i);
    case Reap => ReapIs(s); ReapReady(s); StillAt(s.th, ReapThread(s).th, t, i); Unmoved(ReapThread(s).th, t, i);
    case _ => TableSame(s, op); Unmoved(s.th, t, i);
  }

  lemma TableCounts(s: State, op: Op)
    requires Inv(s) && Enabled(s, op)
    requires op.Kill? || op.Create? || op.NewSemaphore? || op.DelSemaphore? || op.NewQueue? || op.DelQueue? || op.Reap?
    ensures Advances(s, op) == 0 && Insertions(s, op) == if op.Create? then 1 else 0
  {
    hide Inv, Enabled, Runs;
  }

  lemma TableSame(s: State, op: Op)
    requires Inv(s) && Enabled(s, op)
    requires op.Kill? || op.NewSemaphore? || op.DelSemaphore? || op.NewQueue? || op.DelQueue?
    ensures Step(s, op).th == s.th
  {
    hide Inv, Enabled, Step, Runs, KillThread;
    match op
    case Kill(pid) => KillIs(s, pid);
    case NewSemaphore(init) => NewSemaphoreIs(s, init);
    case DelSemaphore(id) => DelSemaphoreIs(s, id);
    case NewQueue => NewQueueIs(s);
    case DelQueue(q) => DelQueueIs(s, q);
  }

  lemma BirthMoved(s: State, c: Ctx, t: Ctx, i: int)
    requires s.th.ready != [] && At(s.th, t, i) && i >= 1
    ensures Moved(CreateThread(s, c).th, t, i, 0, 1)
  {
    AwakenMoved(s.th, c, t, i);
  }

  lemma ReapReady(s: State)
    requires s.th.ready != [] && s.th.ready[0] in s.mail.reaping && s.mail.reaping[s.th.ready[0]] in s.reg.table
    ensures ReapThread(s).th.ready == s.th.ready
  {
  }

  lemma StillAt(th: Threads, th': Threads, t: Ctx, i: int)
    requires At(th, t, i) && th'.ready == th.ready
    ensures At(th', t, i)
  {
  }

  /** One step brings a ready thread as much nearer as the ring advances, and further by what is inserted. */
  lemma StepMoved(s: State, op: Op, t: Ctx, i: int)
    requires Inv(s) && Enabled(s, op) && At(s.th, t, i) && i >= 1
    ensures Moved(Step(s, op).th, t, i, Advances(s, op), Insertions(s, op))
  {
    hide *;
    if op.Yield? || op.Sleep? || op.Exit? {
      SwitchMoved(s, op, t, i);
    } else if op.Take? || op.Give? || op.Send? || op.Receive? || op.Wait? || op.Finish? {
      CoinMoved(s, op, t, i);
    } else {
      TableMoved(s, op, t, i);
    }
  }

  lemma Unmoved(th: Threads, t: Ctx, i: int)
    requires At(th, t, i)
    ensures Moved(th, t, i, 0, 0)
  {
  }

  lemma AwakenMoved(th: Threads, c: Ctx, t: Ctx, i: int)
    requires At(th, t, i) && i >= 1
    ensures Moved(Awaken(th, c, false), t, i, 0, 1)
  {
    AwakenAt(th, c, false, t, i);
  }

  lemma GiveMoved(s: State, id: int, t: Ctx, i: int)
    requires s.th.ready != [] && At(s.th, t, i) && i >= 1
    ensures Moved(if id in s.sems then GiveSem(s, id).th else s.th, t, i, 0, GiveIns(s, id))
  {
    if id in s.sems {
      GiveSemAt(s, id, t, i);
    }
  }

  lemma TakeMoved(s: State, id: int, t: Ctx, i: int)
    requires Runs(s) && At(s.th, t, i) && i >= 1 && s.th.ready[0] != s.env.idle
    ensures id in s.sems && s.sems[id].counter <= 0 ==>
              Runs(Park(s, id)) && Moved(TakeSem(s, id).th, t, i, 1 + DispatchAdv(Park(s, id)), DispatchIns(Park(s, id)))
    ensures !(id in s.sems && s.sems[id].counter <= 0) ==> Moved(TakeSem(s, id).th, t, i, 0, 0)
  {
    if id in s.sems && s.sems[id].counter <= 0 {
      ParkMoved(s, id, t, i);
    }
  }

  // ---- the scheduling bound over runs ---------------------------------------------------------

  ghost function TotalAdvances(s: State, ops: seq<Op>): nat
    requires Inv(s) && Legal(s, ops)
    decreases |ops|
  {
    if ops == [] then 0 else StepInv(s, ops[0]); Advances(s, ops[0]) + TotalAdvances(Step(s, ops[0]), ops[1..])
  }

  ghost function TotalInsertions(s: State, ops: seq<Op>): int
    requires Inv(s) && Legal(s, ops)
    decreases |ops|
  {
    if ops == [] then 0 else StepInv(s, ops[0]); Insertions(s, ops[0]) + TotalInsertions(Step(s, ops[0]), ops[1..])
  }

  /** At some point of the run thread t is the current one, or a pending kill took effect when it came first. */
  ghost predicate GetsItsTurn(s: State, ops: seq<Op>, t: Ctx)
    requires Inv(s) && Legal(s, ops)
    decreases |ops|
  {
    || At(s.th, t, 0)
    || (t in s.th.status && s.th.status[t] == Dead)
    || (ops != [] && (StepInv(s, ops[0]); GetsItsTurn(Step(s, ops[0]), ops[1..], t)))
  }

  lemma TurnLater(s: State, ops: seq<Op>, t: Ctx)
    requires Inv(s) && Legal(s, ops) && ops != []
    ensures Enabled(s, ops[0]) && Inv(Step(s, ops[0])) && Legal(Step(s, ops[0]), ops[1..])
    ensures GetsItsTurn(Step(s, ops[0]), ops[1..], t) ==> GetsItsTurn(s, ops, t)
    ensures TotalAdvances(s, ops) == Advances(s, ops[0]) + TotalAdvances(Step(s, ops[0]), ops[1..])
    ensures TotalInsertions(s, ops) == Insertions(s, ops[0]) + TotalInsertions(Step(s, ops[0]), ops[1..])
  {
    StepInv(s, ops[0]);
    hide Inv, Step, Advances, Insertions, Enabled, At;
  }

  lemma TurnNow(s: State, ops: seq<Op>, t: Ctx)
    requires Inv(s) && Legal(s, ops) && (At(s.th, t, 0) || (t in s.th.status && s.th.status[t] == Dead))
    ensures GetsItsTurn(s, ops, t)
  {
    hide Inv, Legal, At;
  }

  lemma NoTotals(s: State)
    requires Inv(s) && Legal(s, [])
    ensures TotalAdvances(s, []) == 0 && TotalInsertions(s, []) == 0
  {
    hide Inv, Legal;
  }

  /**
   * Fairness over every run: a ready thread at forward distance d gets its turn within d advances of
   * the ring plus one for every thread inserted meanwhile.
   */
  lemma {:induction false} SchedulingBound(s: State, ops: seq<Op>, t: Ctx, d: int)
    requires Inv(s) && Legal(s, ops) && At(s.th, t, d)
    requires TotalAdvances(s, ops) >= d + TotalInsertions(s, ops)
    ensures GetsItsTurn(s, ops, t)
    decreases |ops|
  {
    hide Inv, Legal, GetsItsTurn, TotalAdvances, TotalInsertions, Step, Advances, Insertions, Enabled;
    if d == 0 {
      TurnNow(s, ops, t);
    } else if ops == [] {
      NoTotals(s);
    } else {
      TurnLater(s, ops, t);
      StepMoved(s, ops[0], t, d);
      var s' := Step(s, ops[0]);
      if t in s'.th.status && s'.th.status[t] == Dead {
        TurnNow(s', ops[1..], t);
      } else {
        SchedulingBound(s', ops[1..], t, d + Insertions(s, ops[0]) - Advances(s, ops[0]));
      }
    }
  }
}
