/** A dead thread stays dead, and its record is freed at most once. */
module KernelOrder {
  import opened Contexts
  import opened KernelState
  import opened KernelCases
  import opened KernelPlaces
  import opened KernelCoins
  import opened KernelRuns

  // ---- death is final -------------------------------------------------------------------------

  predicate Gone(th: Threads, t: Ctx) {
    t in th.status && (th.status[t] == Dead || th.status[t] == Reaped)
  }

  lemma {:induction false} WakeDueGone(th: Threads, sems: map<int, Semaphore>, now: int, t: Ctx)
    requires Placed(th, sems) && th.ready != [] && Gone(th, t)
    ensures Gone(WakeDue(th, now), t) && WakeDue(th, now).status[t] == th.status[t]
    decreases |th.sleeping|
  {
    if Due(th, now) {
      WakeOnePlaced(th, sems);
      assert th.sleeping[0] in th.sleeping;
      WakeDueGone(WakeOne(th), sems, now, t);
    }
  }

  lemma GiveSemGone(s: State, id: int, t: Ctx)
    requires Placed(s.th, s.sems) && s.th.ready != [] && id in s.sems && Gone(s.th, t)
    ensures Gone(GiveSem(s, id).th, t) && GiveSem(s, id).th.status[t] == s.th.status[t]
  {
    GiveSemThreads(s, id);
    hide Placed, GiveSem;
  }

  lemma DispatchGone(s: State, t: Ctx)
    requires Runs(s) && Placed(s.th, s.sems) && Gone(s.th, t)
    ensures Gone(Dispatch(s).th, t) && Dispatch(s).th.status[t] == s.th.status[t]
  {
    if s.th.ready[0] in s.reg.zombi {
      RetireGone(s, t);
    }
  }

  lemma RetireGone(s: State, t: Ctx)
    requires Runs(s) && Placed(s.th, s.sems) && Gone(s.th, t)
    ensures Gone(Retire(s).th, t) && Retire(s).th.status[t] == s.th.status[t]
  {
    var msg := EncodeInt(IdOf(s.reg, s.th.ready[0]));
    var s0 := Appended(s, s.env.waitMq, msg);
    var sem := s.mail.queues[s.env.waitMq].sem;
    ReadyStatus(s);
    PostRuns(s, s.env.waitMq, msg);
    GiveSemGone(s0, sem, t);
    hide GiveSem, Placed, EncodeInt;
    assert Post(s, s.env.waitMq, msg) == GiveSem(s0, sem);
  }

  lemma YieldGone(s: State, now: int, t: Ctx)
    requires Runs(s) && Placed(s.th, s.sems) && Gone(s.th, t)
    ensures Runs(s.(th := Advance(WakeDue(s.th, now))))
    ensures var th := Dispatch(s.(th := Advance(WakeDue(s.th, now)))).th; Gone(th, t) && th.status[t] == s.th.status[t]
  {
    YieldRuns(s, now);
    hide Runs, Placed, Dispatch, WakeDue, Advance;
    assert s.th.ready != [];
    WakeDueGone(s.th, s.sems, now, t);
    WakeDuePlaced(s.th, s.sems, now);
    AdvanceGone(WakeDue(s.th, now), s.sems, t);
    DispatchGone(s.(th := Advance(WakeDue(s.th, now))), t);
  }

  lemma SleepGone(s: State, when: int, t: Ctx)
    requires Runs(s) && Placed(s.th, s.sems) && Gone(s.th, t) && s.th.ready[0] != s.env.idle
    requires forall x :: x in s.th.sleeping ==> x in s.th.wake
    ensures Runs(s.(th := Doze(s.th, when)))
    ensures var th := Dispatch(s.(th := Doze(s.th, when))).th; Gone(th, t) && th.status[t] == s.th.status[t]
  {
    DozeRuns(s, when);
    DozeGone(s.th, s.sems, when, t);
    hide Runs, Placed, Dispatch, Doze;
    DispatchGone(s.(th := Doze(s.th, when)), t);
  }

  lemma ExitGone(s: State, t: Ctx)
    requires Runs(s) && Placed(s.th, s.sems) && Gone(s.th, t) && s.th.ready[0] != s.env.idle
    ensures Runs(Retire(s))
    ensures var th := Dispatch(Retire(s)).th; Gone(th, t) && th.status[t] == s.th.status[t]
  {
    RetireRuns(s);
    RetireGone(s, t);
    RetirePlaced(s);
    hide Runs, Placed, Dispatch, Retire;
    DispatchGone(Retire(s), t);
  }

  /** The steps on semaphores and queues. */
  lemma CoinGone(s: State, op: Op, t: Ctx)
    requires Inv(s) && Enabled(s, op) && Gone(s.th, t) && (op.Take? || op.Give? || op.Send? || op.Receive? || op.Wait? || op.Finish?)
    ensures Gone(Step(s, op).th, t) && Step(s, op).th.status[t] == s.th.status[t]
  {
    hide *;
    GonePlaced(s, t);
    match op
    case Take(id) => TakeIs(s, id); TakeGone(s, id, t);
    case Give(id) => GiveIs(s, id); if id in s.sems { GiveSemGone(s, id, t); }
    case Send(q, msg) => SendIs(s, q, msg); if q in s.mail.queues { PostGone(s, q, msg, t); }
    case Receive(q) => ReceiveIs(s, op, q); if q in s.mail.queues { ReceiveGone(s, q, t); }
    case Wait => ReceiveIs(s, op, s.env.waitMq); if s.env.waitMq in s.mail.queues { ReceiveGone(s, s.env.waitMq, t); }
    case Finish => FinishIs(s); FinishGone(s);
  }

  lemma FinishGone(s: State)
    requires s.th.ready != [] && s.th.ready[0] in s.mail.pending && Readable(s, s.mail.pending[s.th.ready[0]])
    ensures FinishReceive(s).th == s.th
  {
  }

  lemma ReapGone(s: State, t: Ctx)
    requires Inv(s) && s.th.ready != [] && s.th.ready[0] in s.mail.reaping && Gone(s.th, t)
    ensures s.mail.reaping[s.th.ready[0]] in s.reg.table
    ensures var th := ReapThread(s).th;
            && Gone(th, t)
            && (th.status[t] == s.th.status[t] ||
                (s.th.status[t] == Dead && t in s.reg.ids && s.mail.reaping[s.th.ready[0]] == s.reg.ids[t]))
  {
    hide Inv;
    ReapFreesDead(s);
    ReapNames(s);
  }

  /** The steps that only touch tables, and the birth of a thread. */
  lemma TableGone(s: State, op: Op, t: Ctx)
    requires Inv(s) && Enabled(s, op) && Gone(s.th, t) && t in s.reg.ids
    requires op.Kill? || op.Create? || op.NewSemaphore? || op.DelSemaphore? || op.NewQueue? || op.DelQueue?
    ensures Gone(Step(s, op).th, t) && Step(s, op).th.status[t] == s.th.status[t]
  {
    hide Inv, Enabled, Step, Runs, KillThread;
    match op
    case Kill(pid) => KillIs(s, pid);
    case Create(c) => CreateIs(s, c);
    case NewSemaphore(init) => NewSemaphoreIs(s, init);
    case DelSemaphore(id) => DelSemaphoreIs(s, id);
    case NewQueue => NewQueueIs(s);
    case DelQueue(q) => DelQueueIs(s, q);
  }

  /** A dead thread stays dead until its id is reaped, and a reaped one is never touched again. */
  lemma DeathIsFinal(s: State, op: Op, t: Ctx)
    requires Inv(s) && Enabled(s, op) && Gone(s.th, t)
    ensures Gone(Step(s, op).th, t)
    ensures Step(s, op).th.status[t] == s.th.status[t]
         || (op.Reap? && s.th.status[t] == Dead && t in s.reg.ids && s.mail.reaping[s.th.ready[0]] == s.reg.ids[t])
  {
    hide *;
    GonePlaced(s, t);
    match op
    case Yield(now) => YieldIs(s, now); YieldGone(s, now, t);
    case Sleep(seconds, now) => SleepIs(s, seconds, now); SleepGone(s, now + seconds, t);
    case Exit => ExitIs(s); ExitGone(s, t);
    case Reap => ReapIs(s); ReapGone(s, t);
    case _ =>
      if op.Take? || op.Give? || op.Send? || op.Receive? || op.Wait? || op.Finish? {
        CoinGone(s, op, t);
      } else {
        TableGone(s, op, t);
      }
  }

  /** The thread whose record this step frees. */
  ghost predicate Frees(s: State, op: Op, t: Ctx) {
    && op.Reap? && s.th.ready != [] && s.th.ready[0] in s.mail.reaping
    && s.mail.reaping[s.th.ready[0]] in s.reg.table && s.reg.table[s.mail.reaping[s.th.ready[0]]] == t
  }

  /** How many steps of a run free the record of thread t. */
  ghost function FreedTimes(s: State, ops: seq<Op>, t: Ctx): nat
    requires Inv(s) && Legal(s, ops)
    decreases |ops|
  {
    if ops == [] then 0
    else StepInv(s, ops[0]); (if Frees(s, ops[0], t) then 1 else 0) + FreedTimes(Step(s, ops[0]), ops[1..], t)
  }

  predicate IsReaped(th: Threads, t: Ctx) {
    t in th.status && th.status[t] == Reaped
  }

  /** A step that frees a record finds a dead thread and leaves it reaped; what is reaped stays so. */
  lemma FreeOnce(s: State, op: Op, t: Ctx)
    requires Inv(s) && Enabled(s, op)
    ensures Frees(s, op, t) ==> t in s.th.status && s.th.status[t] == Dead && IsReaped(Step(s, op).th, t)
    ensures IsReaped(s.th, t) ==> !Frees(s, op, t) && IsReaped(Step(s, op).th, t)
  {
    hide Inv, Enabled, Step;
    if Frees(s, op, t) {
      ReapFreesDead(s);
      ReapIs(s);
    }
    if IsReaped(s.th, t) {
      DeathIsFinal(s, op, t);
    }
  }

  /** Over every run, wait() frees the record of each thread at most once, and never after it has been freed. */
  lemma {:induction false} FreedAtMostOnce(s: State, ops: seq<Op>, t: Ctx)
    requires Inv(s) && Legal(s, ops)
    ensures FreedTimes(s, ops, t) <= if IsReaped(s.th, t) then 0 else 1
    decreases |ops|
  {
    hide Inv, Enabled, Step, Frees, IsReaped;
    if ops != [] {
      StepInv(s, ops[0]);
      FreeOnce(s, ops[0], t);
      FreedAtMostOnce(Step(s, ops[0]), ops[1..], t);
    }
  }

  lemma DozeGone(th: Threads, sems: map<int, Semaphore>, when: int, t: Ctx)
    requires Placed(th, sems) && th.ready != [] && Gone(th, t) && forall x :: x in th.sleeping ==> x in th.wake
    ensures Placed(Doze(th, when), sems) && Gone(Doze(th, when), t) && Doze(th, when).status[t] == th.status[t]
  {
    DozePlaced(th, sems, when);
  }

  lemma AdvanceGone(th: Threads, sems: map<int, Semaphore>, t: Ctx)
    requires Placed(th, sems) && th.ready != [] && Gone(th, t)
    ensures Placed(Advance(th), sems) && Gone(Advance(th), t) && Advance(th).status[t] == th.status[t]
  {
    AdvancePlaced(th, sems);
  }

  lemma TakeGone(s: State, id: int, t: Ctx)
    requires Runs(s) && Placed(s.th, s.sems) && s.th.ready[0] != s.env.idle && Gone(s.th, t)
    ensures Gone(TakeSem(s, id).th, t) && TakeSem(s, id).th.status[t] == s.th.status[t]
  {
    if id in s.sems && s.sems[id].counter <= 0 {
      ParkGone(s, id, t);
    }
  }

  lemma GonePlaced(s: State, t: Ctx)
    requires Inv(s) && Gone(s.th, t)
    ensures Placed(s.th, s.sems) && t !in s.th.ready
    ensures t in s.reg.ids
    ensures forall x :: x in s.th.sleeping ==> x in s.th.wake
  {
  }

  lemma ReapNames(s: State)
    requires Inv(s) && s.th.ready != [] && s.th.ready[0] in s.mail.reaping
    ensures var i := s.mail.reaping[s.th.ready[0]];
            i in s.reg.table && s.reg.table[i] in s.reg.ids && s.reg.ids[s.reg.table[i]] == i
  {
    HeldIsDead(s, s.th.ready[0]);
    hide Placed, Sorted, Receivers, Mourned, Stocked, Conserved;
  }

  lemma ParkGone(s: State, id: int, t: Ctx)
    requires Runs(s) && Placed(s.th, s.sems) && s.th.ready[0] != s.env.idle && id in s.sems && Gone(s.th, t)
    ensures Runs(Park(s, id)) && Gone(Dispatch(Park(s, id)).th, t)
    ensures Dispatch(Park(s, id)).th.status[t] == s.th.status[t]
  {
    ParkRuns(s, id);
    ReadyStatus(s);
    ParkPlaced(s, id);
    DispatchGone(Park(s, id), t);
  }

  lemma PostGone(s: State, q: int, msg: Bytes, t: Ctx)
    requires Runs(s) && Placed(s.th, s.sems) && q in s.mail.queues && Gone(s.th, t)
    ensures Gone(Post(s, q, msg).th, t) && Post(s, q, msg).th.status[t] == s.th.status[t]
  {
    GiveSemGone(Appended(s, q, msg), s.mail.queues[q].sem, t);
  }

  lemma ReceiveGone(s: State, q: int, t: Ctx)
    requires Runs(s) && Placed(s.th, s.sems) && s.th.ready[0] != s.env.idle && q in s.mail.queues && Gone(s.th, t)
    requires s.sems[s.mail.queues[q].sem].counter > 0 ==> Readable(s, q)
    ensures Gone(ReceiveFrom(s, q).th, t) && ReceiveFrom(s, q).th.status[t] == s.th.status[t]
  {
    var sem := s.mail.queues[q].sem;
    if s.sems[sem].counter <= 0 {
      ParkGone(s.(mail := s.mail.(pending := s.mail.pending[s.th.ready[0] := q])), sem, t);
    }
  }
}
