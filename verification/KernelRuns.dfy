/** Whole runs of the thread kernel. */
module KernelRuns {
  import opened Contexts
  import opened KernelState
  import opened KernelCases
  import opened KernelSafety
  import opened KernelCoins
  import opened KernelMail

  // ---- the invariant over every run -----------------------------------------------------------

  lemma TakeInv(s: State, id: int)
    requires Inv(s) && !Private(s.mail, id) && s.th.ready != [] && s.th.ready[0] != s.env.idle
    requires s.th.ready[0] !in s.mail.pending && s.th.ready[0] !in s.mail.reaping
    ensures Runs(s) && Inv(TakeSem(s, id))
  {
    InvRuns(s);
    hide Inv, Runs, Private;
    if id in s.sems {
      if s.sems[id].counter > 0 {
        TakeCoinInv(s, id);
      } else {
        ParkInv(s, id);
        DispatchInv(Park(s, id));
      }
    }
  }

  lemma ReceiveInv(s: State, q: int)
    requires Inv(s) && s.th.ready != [] && s.th.ready[0] != s.env.idle && q in s.mail.queues
    requires s.th.ready[0] !in s.mail.pending && s.th.ready[0] !in s.mail.reaping
    ensures Runs(s) && (s.sems[s.mail.queues[q].sem].counter > 0 ==> Readable(s, q))
    ensures Inv(ReceiveFrom(s, q))
  {
    InvRuns(s);
    hide Inv, Readable, Runs;
    var sem := s.mail.queues[q].sem;
    if s.sems[sem].counter > 0 {
      ReceiveNowInv(s, q);
    } else {
      ReceiveParkInv(s, q);
      DispatchInv(Park(s.(mail := s.mail.(pending := s.mail.pending[s.th.ready[0] := q])), sem));
    }
  }

  lemma SwitchInv(s: State, op: Op)
    requires Inv(s) && Enabled(s, op) && (op.Yield? || op.Sleep? || op.Exit?)
    ensures Inv(Step(s, op))
  {
    hide *;
    match op
    case Yield(now) =>
      YieldIs(s, now);
      YieldInv(s, now);
      DispatchInv(s.(th := Advance(WakeDue(s.th, now))));
    case Sleep(seconds, now) =>
      SleepIs(s, seconds, now);
      DozeInv(s, now + seconds);
      DispatchInv(s.(th := Doze(s.th, now + seconds)));
    case Exit =>
      ExitIs(s);
      RetireInv(s);
      DispatchInv(Retire(s));
  }

  lemma CoinInv(s: State, op: Op)
    requires Inv(s) && Enabled(s, op)
    requires op.Take? || op.Give? || op.Send? || op.Receive? || op.Wait? || op.Finish?
    ensures Inv(Step(s, op))
  {
    hide *;
    match op
    case Take(id) => TakeIs(s, id); TakeInv(s, id);
    case Give(id) => GiveIs(s, id); if id in s.sems { GiveInv(s, id); }
    case Send(q, msg) => SendIs(s, q, msg); if q in s.mail.queues { SendInv(s, q, msg); }
    case Receive(q) => ReadInv(s, op, q);
    case Wait => ReadInv(s, op, s.env.waitMq);
    case Finish => FinishIs(s); FinishInv(s);
  }

  lemma ReadInv(s: State, op: Op, q: int)
    requires Inv(s) && Enabled(s, op) && (op == Receive(q) || (op == Wait && q == s.env.waitMq))
    ensures Inv(Step(s, op))
  {
    hide *;
    ReceiveIs(s, op, q);
    if q in s.mail.queues {
      ReceiveInv(s, q);
    }
  }

  lemma TableInv(s: State, op: Op)
    requires Inv(s) && Enabled(s, op)
    requires op.Kill? || op.Create? || op.NewSemaphore? || op.DelSemaphore? || op.NewQueue? || op.DelQueue? || op.Reap?
    ensures Inv(Step(s, op))
  {
    hide *;
    match op
    case Kill(pid) => KillIs(s, pid); KillInv(s, pid);
    case Create(c) => CreateIs(s, c); CreateInv(s, c);
    case NewSemaphore(init) => NewSemaphoreIs(s, init); NewSemInv(s, init);
    case DelSemaphore(id) => DelSemaphoreIs(s, id); DelSemInv(s, id);
    case NewQueue => NewQueueIs(s); NewQueueInv(s);
    case DelQueue(q) => DelQueueIs(s, q); DelQueueInv(s, q);
    case Reap => ReapIs(s); ReapInv(s);
  }

  /** Every enabled step keeps the invariant. */
  lemma StepInv(s: State, op: Op)
    requires Inv(s) && Enabled(s, op)
    ensures Inv(Step(s, op))
  {
    hide *;
    if op.Yield? || op.Sleep? || op.Exit? {
      SwitchInv(s, op);
    } else if op.Take? || op.Give? || op.Send? || op.Receive? || op.Wait? || op.Finish? {
      CoinInv(s, op);
    } else {
      TableInv(s, op);
    }
  }

  ghost predicate Legal(s: State, ops: seq<Op>)
    requires Inv(s)
    decreases |ops|
  {
    ops == [] || (Enabled(s, ops[0]) && (StepInv(s, ops[0]); Legal(Step(s, ops[0]), ops[1..])))
  }

  ghost function Run(s: State, ops: seq<Op>): (r: State)
    requires Inv(s) && Legal(s, ops)
    ensures Inv(r)
    decreases |ops|
  {
    if ops == [] then s else StepInv(s, ops[0]); Run(Step(s, ops[0]), ops[1..])
  }

  /** A run by its first step. */
  lemma RunStep(s: State, ops: seq<Op>)
    requires Inv(s) && Legal(s, ops) && ops != []
    ensures Enabled(s, ops[0]) && Inv(Step(s, ops[0])) && Legal(Step(s, ops[0]), ops[1..])
    ensures Run(s, ops) == Run(Step(s, ops[0]), ops[1..])
  {
    StepInv(s, ops[0]);
    hide Inv, Step, Enabled;
  }

  lemma RunEnds(s: State)
    requires Inv(s)
    ensures Legal(s, []) && Run(s, []) == s
  {
    hide Inv;
  }

  /** A run with one more step in front. */
  lemma Unfolded(s: State, op: Op, ops: seq<Op>)
    requires Inv(s) && Enabled(s, op) && Inv(Step(s, op)) && Legal(Step(s, op), ops)
    ensures Legal(s, [op] + ops) && Run(s, [op] + ops) == Run(Step(s, op), ops)
  {
    hide Inv, Enabled, Step;
    assert ([op] + ops)[1..] == ops;
  }

  /** What start_scheduler leaves: main runs, idle is ready, and the zombies have a queue. */
  function Booted(main: Ctx, idle: Ctx, repaired: bool): State {
    State(Threads([main, idle], false, [], map[], map[main := Ready, idle := Ready]),
          map[0 := NewSem(0)],
          Mail(map[0 := Queue(0, [], [], [])], map[], map[]),
          Registry(map[main := -1, idle := 0], map[0 := idle], {}),
          Env(0, idle, main, repaired))
  }

  lemma BootedPlaced(main: Ctx, idle: Ctx, repaired: bool)
    requires main != idle
    ensures var s := Booted(main, idle, repaired);
            Placed(s.th, s.sems) && Receivers(s.th.status, s.mail, idle) && Conserved(s.sems) && Sorted(s.th.sleeping, s.th.wake)
  {
  }

  lemma BootedStocked(main: Ctx, idle: Ctx, repaired: bool)
    requires main != idle
    ensures Stocked(Booted(main, idle, repaired))
  {
    var s := Booted(main, idle, repaired);
    assert Granted(s.mail.pending, s.th.status, 0, 0) == {};
  }

  lemma BootedTabled(main: Ctx, idle: Ctx, repaired: bool)
    requires main != idle
    ensures var s := Booted(main, idle, repaired);
            Tabled(s.th.status, s.reg, s.env) && Mourned([], s.mail.reaping, s.th.status, s.reg)
  {
  }

  lemma BootedInv(main: Ctx, idle: Ctx, repaired: bool)
    requires main != idle
    ensures Inv(Booted(main, idle, repaired))
  {
    hide Placed, Stocked, Receivers, Conserved, Sorted, Tabled, Mourned;
    BootedPlaced(main, idle, repaired);
    BootedStocked(main, idle, repaired);
    BootedTabled(main, idle, repaired);
  }

  // ---- where the threads are ------------------------------------------------------------------

  /** Thread t is in exactly one of the ring, the sleep list, the waiters of one semaphore, and the dead. */
  ghost predicate InOnePlace(s: State, t: Ctx) {
    && t in s.th.status
    && (t in s.th.ready <==> s.th.status[t] == Ready)
    && (t in s.th.sleeping <==> s.th.status[t] == Sleeping)
    && (forall id {:trigger s.sems[id]} :: id in s.sems ==> (t in s.sems[id].waiters <==> s.th.status[t] == Waiting(id)))
    && match s.th.status[t] {
         case Waiting(id) => id in s.sems
         case Moving => false
         case Reaped => false
         case _ => true
       }
  }

  ghost predicate Distinct(q: seq<Ctx>) {
    forall i, j :: 0 <= i < j < |q| ==> q[i] != q[j]
  }

  /**
   * Safety over every run: each thread that has not been reaped is in exactly one place, no list
   * holds a thread twice, and idle is in the ring.
   */
  lemma RunPlaces(main: Ctx, idle: Ctx, repaired: bool, ops: seq<Op>)
    requires main != idle
    requires Inv(Booted(main, idle, repaired)) && Legal(Booted(main, idle, repaired), ops)
    ensures var s := Run(Booted(main, idle, repaired), ops);
            && (forall t :: t in s.th.status && s.th.status[t] != Reaped ==> InOnePlace(s, t))
            && Distinct(s.th.ready) && Distinct(s.th.sleeping)
            && (forall id {:trigger s.sems[id]} :: id in s.sems ==> Distinct(s.sems[id].waiters))
            && s.env.idle in s.th.ready
  {
    var s := Run(Booted(main, idle, repaired), ops);
    Current(s);
    PlacesOf(s);
  }

  lemma PlacesOf(s: State)
    requires Inv(s)
    ensures forall t :: t in s.th.status && s.th.status[t] != Reaped ==> InOnePlace(s, t)
    ensures Distinct(s.th.ready) && Distinct(s.th.sleeping)
    ensures forall id {:trigger s.sems[id]} :: id in s.sems ==> Distinct(s.sems[id].waiters)
  {
    hide Tabled, Sorted, Receivers, Mourned, Stocked, Conserved;
  }

  // ---- messages and coins ---------------------------------------------------------------------

  /**
   * Over every run, what was received from a queue is a prefix of what was sent to it, in order, and
   * the messages that are left are the coins plus the grants not yet fetched.  A receiver that was
   * granted a message therefore always finds one.
   */
  lemma RunMessages(main: Ctx, idle: Ctx, repaired: bool, ops: seq<Op>, q: int)
    requires Inv(Booted(main, idle, repaired)) && Legal(Booted(main, idle, repaired), ops)
    requires q in Run(Booted(main, idle, repaired), ops).mail.queues
    ensures var s := Run(Booted(main, idle, repaired), ops);
            var m := s.mail.queues[q];
            && m.received <= m.sent && m.sent[|m.received|..] == m.messages
            && m.sem in s.sems
            && |m.messages| == s.sems[m.sem].counter + |Granted(s.mail.pending, s.th.status, q, m.sem)|
            && (s.th.ready != [] && s.th.ready[0] in s.mail.pending && s.mail.pending[s.th.ready[0]] == q ==> m.messages != [])
  {
    var s := Run(Booted(main, idle, repaired), ops);
    InvRuns(s);
    hide Placed, Tabled, Sorted, Receivers, Mourned, Conserved;
    var m := s.mail.queues[q];
    assert Supplied(m, s.sems[m.sem], Granted(s.mail.pending, s.th.status, q, m.sem));
  }

  /** Over every run the coins of each semaphore are conserved, and waiters mean that there is none. */
  lemma RunCoins(main: Ctx, idle: Ctx, repaired: bool, ops: seq<Op>, id: int)
    requires Inv(Booted(main, idle, repaired)) && Legal(Booted(main, idle, repaired), ops)
    requires id in Run(Booted(main, idle, repaired), ops).sems
    ensures var m := Run(Booted(main, idle, repaired), ops).sems[id];
            m.initial + m.gives == m.counter + m.taken && (m.waiters != [] ==> m.counter <= 0)
  {
    hide Placed, Tabled, Sorted, Receivers, Mourned, Stocked, Run, Legal;
    assert CoinsOk(Run(Booted(main, idle, repaired), ops).sems[id]);
  }

  // ---- sleepers -------------------------------------------------------------------------------

  lemma WakeOneSorted(th: Threads)
    requires Sorted(th.sleeping, th.wake) && th.ready != [] && th.sleeping != [] && Distinct(th.sleeping)
    ensures Sorted(WakeOne(th).sleeping, th.wake) && Distinct(WakeOne(th).sleeping)
    ensures th.sleeping[0] !in WakeOne(th).sleeping && th.sleeping[0] in WakeOne(th).ready
    ensures forall t :: t in th.sleeping && t != th.sleeping[0] ==> t in WakeOne(th).sleeping
  {
    var rest := th.sleeping[1..];
    assert th.sleeping == [th.sleeping[0]] + rest;
    assert forall i :: 0 <= i < |rest| ==> rest[i] == th.sleeping[i + 1];
    assert WakeOne(th).ready[1] == th.sleeping[0];
  }

  /** The wake-up loop moves exactly the sleepers whose time has come, and the others keep their order. */
  lemma {:induction false} WakeDueExactly(th: Threads, now: int, t: Ctx)
    requires Sorted(th.sleeping, th.wake) && th.ready != [] && t in th.sleeping && Distinct(th.sleeping)
    ensures t in WakeDue(th, now).sleeping <==> th.wake[t] > now
    ensures th.wake[t] <= now ==> t in WakeDue(th, now).ready
    decreases |th.sleeping|
  {
    if Due(th, now) {
      WakeOneSorted(th);
      if t == th.sleeping[0] {
        WakeDueStays(WakeOne(th), now, t);
      } else {
        hide Sorted;
        WakeDueExactly(WakeOne(th), now, t);
      }
    } else {
      var i :| 0 <= i < |th.sleeping| && th.sleeping[i] == t;
      assert i > 0 ==> th.wake[th.sleeping[0]] <= th.wake[th.sleeping[i]];
    }
  }

  lemma {:induction false} WakeDueStays(th: Threads, now: int, t: Ctx)
    requires th.ready != [] && t in th.ready && t !in th.sleeping
    ensures t in WakeDue(th, now).ready && t !in WakeDue(th, now).sleeping
    decreases |th.sleeping|
  {
    if Due(th, now) {
      AwakenRuns(th.(sleeping := th.sleeping[1..]), th.sleeping[0], false, t);
      WakeDueStays(WakeOne(th), now, t);
    }
  }

  /** None too early, none left behind: after any run, a yield wakes exactly the sleepers that are due. */
  lemma YieldWakes(s: State, now: int, t: Ctx)
    requires Inv(s) && t in s.th.sleeping
    ensures s.th.ready != []
    ensures var th := WakeDue(s.th, now);
            && (t in th.sleeping <==> s.th.wake[t] > now)
            && (s.th.wake[t] <= now ==> t in th.ready)
  {
    Current(s);
    PlacesOf(s);
    hide Placed, Tabled, Receivers, Mourned, Stocked, Conserved;
    WakeDueExactly(s.th, now, t);
  }

  // ---- the zombie protocol --------------------------------------------------------------------

  /** `wait` frees a dead thread, never one that is ready, asleep or blocked. */
  lemma ReapFreesDead(s: State)
    requires Inv(s) && s.th.ready != [] && s.th.ready[0] in s.mail.reaping
    ensures var i := s.mail.reaping[s.th.ready[0]];
            && i in s.reg.table && s.reg.table[i] in s.th.status && s.th.status[s.reg.table[i]] == Dead
            && s.reg.table[i] !in s.th.ready && s.reg.table[i] !in s.th.sleeping
            && (forall id {:trigger s.sems[id]} :: id in s.sems ==> s.reg.table[i] !in s.sems[id].waiters)
            && ReapThread(s).th.status == s.th.status[s.reg.table[i] := Reaped]
  {
    hide Inv, Distinct;
    PlacesOf(s);
    HeldIsDead(s, s.th.ready[0]);
    assert InOnePlace(s, s.reg.table[s.mail.reaping[s.th.ready[0]]]);
  }

  lemma HeldIsDead(s: State, t: Ctx)
    requires Inv(s) && t in s.mail.reaping
    ensures DeadId(s.th.status, s.reg.table, s.mail.reaping[t])
  {
    hide Placed, Tabled, Receivers, Stocked, Conserved, Sorted;
  }

  /** The ids in the zombie queue and in the hands of waiters name different dead threads. */
  lemma OutstandingIds(s: State)
    requires Inv(s)
    ensures s.env.waitMq in s.mail.queues
    ensures var letters := s.mail.queues[s.env.waitMq].messages;
            && (forall k :: 0 <= k < |letters| ==> |letters[k]| == 4 && DeadId(s.th.status, s.reg.table, DecodeInt(letters[k])))
            && (forall k, l :: 0 <= k < l < |letters| ==> DecodeInt(letters[k]) != DecodeInt(letters[l]))
            && (forall k, t :: 0 <= k < |letters| && t in s.mail.reaping ==> DecodeInt(letters[k]) != s.mail.reaping[t])
            && (forall t, u :: t in s.mail.reaping && u in s.mail.reaping && t != u ==> s.mail.reaping[t] != s.mail.reaping[u])
  {
    InvRuns(s);
    hide Placed, Tabled, Receivers, Stocked, Conserved, EncodeInt, DecodeInt;
    var letters := s.mail.queues[s.env.waitMq].messages;
    assert Mourned(letters, s.mail.reaping, s.th.status, s.reg);
    hide Inv, Sorted;
    forall k | 0 <= k < |letters| ensures EncodeInt(DecodeInt(letters[k])) == letters[k] && letters[k] in letters {
      EncodeDecode(letters[k]);
    }
  }
}
