/** Over a run: what is sent to a queue, and the coins given to and taken from a semaphore. */
module KernelCounts {
  import opened Contexts
  import opened KernelState
  import opened KernelCases
  import opened KernelRuns
  import opened KernelSwitches
  import opened KernelEffects

  // ---- one step -----------------------------------------------------------------------------------

  /** The coins that a step gives to semaphore id; every death gives one to that of the zombies. */
  ghost function Given(s: State, op: Op, id: int): nat
    requires Runs(s)
  {
    match op
    case Give(i) => if i == id then 1 else 0
    case Send(q, _) => if q in s.mail.queues && s.mail.queues[q].sem == id then 1 else 0
    case _ => if id == ZombieSem(s) then |Dying(s, op)| else 0
  }

  ghost function Taken(s: State, op: Op, id: int): nat {
    if Takes(s, op, id) then 1 else 0
  }

  /** The messages that a step sends to queue q. */
  ghost function Posted(s: State, op: Op, q: int): seq<Bytes>
    requires Runs(s)
  {
    if q == s.env.waitMq then Letters(s.reg, Dying(s, op))
    else if op.Send? && op.queue == q then [op.msg] else []
  }

  /** `given` coins came and `taken` threads asked for one. */
  ghost predicate Counted(m: Semaphore, m': Semaphore, given: nat, taken: nat) {
    m'.initial == m.initial && m'.gives == m.gives + given && m'.taken + |m'.waiters| == m.taken + |m.waiters| + taken
  }

  lemma SwitchCoins(s: State, op: Op, s': State, id: int)
    requires Runs(s) && Switches(s, op) && SemaphoresAre(s, op, s'.sems, |Dying(s, op)|) && id in s.sems
    ensures id in s'.sems && Counted(s.sems[id], s'.sems[id], Given(s, op, id), Taken(s, op, id))
  {
    hide Takes, Dying;
  }

  lemma NoDeaths(s: State, op: Op)
    requires Runs(s) && !Switches(s, op)
    ensures Dying(s, op) == []
  {
    hide Line;
  }

  lemma ArrivedCoins(s: State, s': State, id: int, i: int)
    requires id in s.sems && CoinArrives(s, s', id) && i in s.sems
    ensures i in s'.sems && Counted(s.sems[i], s'.sems[i], if i == id then 1 else 0, 0)
  {
  }

  lemma UsedCoins(s: State, s': State, id: int, i: int)
    requires id in s.sems && i in s.sems && OnlySemaphores(s, s', {id}) && id in s'.sems
    requires s'.sems[id] == s.sems[id].(counter := s.sems[id].counter - 1, taken := s.sems[id].taken + 1)
    ensures i in s'.sems && Counted(s.sems[i], s'.sems[i], 0, if i == id then 1 else 0)
  {
  }

  lemma SameCoins(m: Semaphore)
    ensures Counted(m, m, 0, 0)
  {
  }

  lemma GiveCoins(s: State, k: int, id: int)
    requires Inv(s) && Enabled(s, Give(k)) && id in s.sems
    ensures Runs(s) && id in Step(s, Give(k)).sems
    ensures Counted(s.sems[id], Step(s, Give(k)).sems[id], Given(s, Give(k), id), Taken(s, Give(k), id))
  {
    hide *;
    GiveIs(s, k);
    GiveEffect(s, k);
    SameCoins(s.sems[id]);
    GiveNumbers(s, k, id);
    if k in s.sems {
      ArrivedCoins(s, Step(s, Give(k)), k, id);
    }
  }

  lemma GiveNumbers(s: State, k: int, id: int)
    requires Runs(s)
    ensures Given(s, Give(k), id) == (if k == id then 1 else 0) && Taken(s, Give(k), id) == 0
  {
  }

  lemma SentCoins(s: State, q: int, msg: Bytes, id: int)
    requires Inv(s) && Enabled(s, Send(q, msg)) && id in s.sems
    ensures Runs(s) && id in Step(s, Send(q, msg)).sems
    ensures Counted(s.sems[id], Step(s, Send(q, msg)).sems[id], Given(s, Send(q, msg), id), Taken(s, Send(q, msg), id))
  {
    hide *;
    SendIs(s, q, msg);
    SendEffect(s, q, msg);
    SameCoins(s.sems[id]);
    SendNumbers(s, q, msg, id);
    if q in s.mail.queues {
      SendArrives(s, Step(s, Send(q, msg)), q, msg);
      ArrivedCoins(s, Step(s, Send(q, msg)), s.mail.queues[q].sem, id);
    }
  }

  lemma SendNumbers(s: State, q: int, msg: Bytes, id: int)
    requires Runs(s)
    ensures Given(s, Send(q, msg), id) == if q in s.mail.queues && s.mail.queues[q].sem == id then 1 else 0
    ensures Taken(s, Send(q, msg), id) == 0
  {
  }

  lemma SendArrives(s: State, s': State, q: int, msg: Bytes)
    requires q in s.mail.queues && s.mail.queues[q].sem in s.sems && MessageSent(s, s', q, msg)
    ensures CoinArrives(s, s', s.mail.queues[q].sem)
  {
    hide CoinArrives;
  }

  lemma NothingGiven(s: State, op: Op, id: int)
    requires Runs(s) && !Switches(s, op) && !op.Give? && !op.Send?
    ensures Given(s, op, id) == 0
  {
    NoDeaths(s, op);
  }

  lemma TakenCoins(s: State, k: int, id: int)
    requires Inv(s) && Enabled(s, Take(k)) && !Switches(s, Take(k)) && id in s.sems
    ensures Runs(s) && id in Step(s, Take(k)).sems
    ensures Counted(s.sems[id], Step(s, Take(k)).sems[id], Given(s, Take(k), id), Taken(s, Take(k), id))
  {
    hide *;
    TakeIs(s, k);
    NothingGiven(s, Take(k), id);
    TakeEffect(s, k);
    SameCoins(s.sems[id]);
    TakeNumbers(s, k, id);
    if k in s.sems {
      UsedCoins(s, Step(s, Take(k)), k, id);
    }
  }

  lemma TakeNumbers(s: State, k: int, id: int)
    ensures Taken(s, Take(k), id) == if k == id then 1 else 0
  {
  }

  lemma ReadCoins(s: State, op: Op, q: int, id: int)
    requires Inv(s) && Enabled(s, op) && !Switches(s, op) && (op == Receive(q) || (op == Wait && q == s.env.waitMq)) && id in s.sems
    ensures Runs(s) && id in Step(s, op).sems
    ensures Counted(s.sems[id], Step(s, op).sems[id], Given(s, op, id), Taken(s, op, id))
  {
    hide *;
    ReceiveIs(s, op, q);
    NothingGiven(s, op, id);
    ReceiveEffect(s, op, q);
    SameCoins(s.sems[id]);
    ReadNumbers(s, op, q, id);
    if q in s.mail.queues {
      UsedCoins(s, Step(s, op).(mail := s.mail), s.mail.queues[q].sem, id);
    }
  }

  lemma ReadNumbers(s: State, op: Op, q: int, id: int)
    requires op == Receive(q) || (op == Wait && q == s.env.waitMq)
    ensures Taken(s, op, id) == if q in s.mail.queues && s.mail.queues[q].sem == id then 1 else 0
  {
  }

  /** The other steps leave every semaphore alone that exists before and after. */
  lemma TableCoins(s: State, op: Op, id: int)
    requires Inv(s) && Enabled(s, op) && id in s.sems && id in Step(s, op).sems
    requires op.Kill? || op.Create? || op.NewSemaphore? || op.DelSemaphore? || op.NewQueue? || op.DelQueue? || op.Finish? || op.Reap?
    ensures Step(s, op).sems[id] == s.sems[id]
  {
    hide Inv, Enabled, Step, Read;
    match op
    case Kill(pid) => KillEffect(s, pid);
    case Create(c) => var i := CreateEffect(s, c);
    case NewSemaphore(init) => var i := NewSemaphoreEffect(s, init);
    case DelSemaphore(i) => DelSemaphoreEffect(s, i);
    case NewQueue => var q, i := NewQueueEffect(s);
    case DelQueue(q) => DelQueueEffect(s, q);
    case Finish => FinishEffect(s);
    case Reap => ReapEffect(s);
  }

  /** One step changes the coins given and taken of a semaphore by what it gives and takes. */
  lemma StepCoins(s: State, op: Op, id: int)
    requires Inv(s) && Enabled(s, op) && id in s.sems && id in Step(s, op).sems
    ensures Runs(s) && Counted(s.sems[id], Step(s, op).sems[id], Given(s, op, id), Taken(s, op, id))
  {
    hide *;
    if Switches(s, op) {
      SwitchEffect(s, op);
      EffectParts(s, op, Step(s, op));
      SwitchCoins(s, op, Step(s, op), id);
    } else {
      InvRuns(s);
      KeptCoins(s, op, id);
    }
  }

  lemma KeptCoins(s: State, op: Op, id: int)
    requires Inv(s) && Runs(s) && Enabled(s, op) && !Switches(s, op) && id in s.sems && id in Step(s, op).sems
    ensures Counted(s.sems[id], Step(s, op).sems[id], Given(s, op, id), Taken(s, op, id))
  {
    hide *;
    if op.Give? {
      GiveCoins(s, op.sem, id);
    } else if op.Send? {
      SentCoins(s, op.queue, op.msg, id);
    } else if op.Take? {
      TakenCoins(s, op.sem, id);
    } else if op.Receive? {
      ReadCoins(s, op, op.queue, id);
    } else if op.Wait? {
      ReadCoins(s, op, s.env.waitMq, id);
    } else {
      Others(s, op, id);
      TableCoins(s, op, id);
      NothingGiven(s, op, id);
      SameCoins(s.sems[id]);
    }
  }

  lemma Others(s: State, op: Op, id: int)
    requires !Switches(s, op) && !op.Give? && !op.Send? && !op.Take? && !op.Receive? && !op.Wait?
    ensures Taken(s, op, id) == 0 && !op.Yield? && !op.Sleep? && !op.Exit?
  {
  }

  // ---- what a step sends --------------------------------------------------------------------------

  lemma SwitchSent(s: State, op: Op, mail: Mail, q: int)
    requires Runs(s) && Switches(s, op) && QueuesAre(s, op, mail, Dying(s, op)) && q in s.mail.queues
    ensures q in mail.queues && mail.queues[q].sem == s.mail.queues[q].sem
    ensures mail.queues[q].sent == s.mail.queues[q].sent + Posted(s, op, q)
  {
    hide Dying, Letters;
  }

  lemma PostedNot(s: State, op: Op, q: int)
    requires Runs(s) && !Switches(s, op) && (op.Send? ==> op.queue != s.env.waitMq)
    ensures Posted(s, op, q) == if op.Send? && op.queue == q then [op.msg] else []
  {
    NoDeaths(s, op);
    hide Dying;
  }

  lemma SendSent(s: State, q: int, msg: Bytes, r: int)
    requires Inv(s) && Enabled(s, Send(q, msg)) && r in s.mail.queues
    ensures r in Step(s, Send(q, msg)).mail.queues
    ensures var m, m' := s.mail.queues[r], Step(s, Send(q, msg)).mail.queues[r];
            m'.sem == m.sem && m'.sent == m.sent + if q == r then [msg] else []
  {
    hide Inv, Enabled, Step, CoinArrives;
    SendEffect(s, q, msg);
  }

  /** The steps that send nothing. */
  lemma QuietSent(s: State, op: Op, q: int)
    requires Inv(s) && Enabled(s, op) && !Switches(s, op) && !op.Send? && q in s.mail.queues && q in Step(s, op).mail.queues
    ensures Step(s, op).mail.queues[q].sem == s.mail.queues[q].sem && Step(s, op).mail.queues[q].sent == s.mail.queues[q].sent
  {
    hide *;
    if op.Receive? {
      ReadSent(s, op, op.queue, q);
    } else if op.Wait? {
      ReadSent(s, op, s.env.waitMq, q);
    } else if op.Finish? {
      FinishEffect(s);
      ReadQueues(s, Step(s, op).mail, s.mail.pending[s.th.ready[0]], s.th.ready[0], q);
    } else {
      TableSent(s, op, q);
    }
  }

  lemma ReadQueues(s: State, mail: Mail, q: int, t: Ctx, r: int)
    requires Read(s, mail, q, t) && r in s.mail.queues
    ensures r in mail.queues && mail.queues[r].sem == s.mail.queues[r].sem && mail.queues[r].sent == s.mail.queues[r].sent
  {
    hide DecodeInt;
  }

  lemma ReadSent(s: State, op: Op, q: int, r: int)
    requires Inv(s) && Enabled(s, op) && !Switches(s, op) && (op == Receive(q) || (op == Wait && q == s.env.waitMq))
    requires r in s.mail.queues
    ensures r in Step(s, op).mail.queues
    ensures Step(s, op).mail.queues[r].sem == s.mail.queues[r].sem && Step(s, op).mail.queues[r].sent == s.mail.queues[r].sent
  {
    hide *;
    ReceiveEffect(s, op, q);
    if q in s.mail.queues {
      ReadQueues(s, Step(s, op).mail, q, s.th.ready[0], r);
    }
  }

  lemma TableSent(s: State, op: Op, q: int)
    requires Inv(s) && Enabled(s, op) && !Switches(s, op) && q in s.mail.queues && q in Step(s, op).mail.queues
    requires !op.Send? && !op.Receive? && !op.Wait? && !op.Finish?
    ensures Step(s, op).mail.queues[q].sem == s.mail.queues[q].sem && Step(s, op).mail.queues[q].sent == s.mail.queues[q].sent
  {
    hide Inv, Enabled, Step, CoinArrives;
    match op
    case Kill(pid) => KillEffect(s, pid);
    case Create(c) => var i := CreateEffect(s, c);
    case NewSemaphore(init) => var i := NewSemaphoreEffect(s, init);
    case DelSemaphore(i) => DelSemaphoreEffect(s, i);
    case Take(id) => TakeEffect(s, id);
    case Give(id) => GiveEffect(s, id);
    case NewQueue => var r, i := NewQueueEffect(s);
    case DelQueue(r) => DelQueueEffect(s, r);
    case Reap => ReapEffect(s);
    case _ =>
  }

  /** One step appends to what was sent to a queue exactly the messages that it sends there. */
  lemma StepSent(s: State, op: Op, q: int)
    requires Inv(s) && Enabled(s, op) && q in s.mail.queues && q in Step(s, op).mail.queues
    ensures Runs(s) && Step(s, op).mail.queues[q].sem == s.mail.queues[q].sem
    ensures Step(s, op).mail.queues[q].sent == s.mail.queues[q].sent + Posted(s, op, q)
  {
    hide *;
    InvRuns(s);
    if Switches(s, op) {
      SwitchEffect(s, op);
      EffectParts(s, op, Step(s, op));
      SwitchSent(s, op, Step(s, op).mail, q);
    } else if op.Send? {
      SendIs(s, op.queue, op.msg);
      PostedNot(s, op, q);
      SendSent(s, op.queue, op.msg, q);
    } else {
      PostedNot(s, op, q);
      QuietSent(s, op, q);
      assert s.mail.queues[q].sent + [] == s.mail.queues[q].sent;
    }
  }

  // ---- whole runs ---------------------------------------------------------------------------------

  /** Semaphore id exists all the time. */
  ghost predicate SemaphoreLasts(s: State, ops: seq<Op>, id: int)
    requires Inv(s) && Legal(s, ops)
    decreases |ops|
  {
    id in s.sems && (ops == [] || (StepInv(s, ops[0]); SemaphoreLasts(Step(s, ops[0]), ops[1..], id)))
  }

  ghost predicate QueueLasts(s: State, ops: seq<Op>, q: int)
    requires Inv(s) && Legal(s, ops)
    decreases |ops|
  {
    q in s.mail.queues && (ops == [] || (StepInv(s, ops[0]); QueueLasts(Step(s, ops[0]), ops[1..], q)))
  }

  /** The coins that a run gives to semaphore id, and the threads that ask for one. */
  ghost function GivenIn(s: State, ops: seq<Op>, id: int): nat
    requires Inv(s) && Legal(s, ops)
    decreases |ops|
  {
    if ops == [] then 0 else StepRuns(s, ops[0]); InvRuns(s); Given(s, ops[0], id) + GivenIn(Step(s, ops[0]), ops[1..], id)
  }

  ghost function TakenIn(s: State, ops: seq<Op>, id: int): nat
    requires Inv(s) && Legal(s, ops)
    decreases |ops|
  {
    if ops == [] then 0 else StepInv(s, ops[0]); Taken(s, ops[0], id) + TakenIn(Step(s, ops[0]), ops[1..], id)
  }

  /** The messages that a run sends to queue q, in order. */
  ghost function PostedIn(s: State, ops: seq<Op>, q: int): seq<Bytes>
    requires Inv(s) && Legal(s, ops)
    decreases |ops|
  {
    if ops == [] then [] else StepRuns(s, ops[0]); InvRuns(s); Posted(s, ops[0], q) + PostedIn(Step(s, ops[0]), ops[1..], q)
  }

  lemma CoinsLater(s: State, ops: seq<Op>, id: int)
    requires Inv(s) && Legal(s, ops) && SemaphoreLasts(s, ops, id) && ops != []
    ensures Runs(s) && Enabled(s, ops[0]) && Inv(Step(s, ops[0])) && Legal(Step(s, ops[0]), ops[1..])
    ensures SemaphoreLasts(Step(s, ops[0]), ops[1..], id) && id in s.sems && id in Step(s, ops[0]).sems
    ensures GivenIn(s, ops, id) == Given(s, ops[0], id) + GivenIn(Step(s, ops[0]), ops[1..], id)
    ensures TakenIn(s, ops, id) == Taken(s, ops[0], id) + TakenIn(Step(s, ops[0]), ops[1..], id)
  {
    StepInv(s, ops[0]);
    InvRuns(s);
    hide Inv, Step, Enabled, Given, Taken, Runs;
  }

  lemma PostsLater(s: State, ops: seq<Op>, q: int)
    requires Inv(s) && Legal(s, ops) && QueueLasts(s, ops, q) && ops != []
    ensures Runs(s) && Enabled(s, ops[0]) && Inv(Step(s, ops[0])) && Legal(Step(s, ops[0]), ops[1..])
    ensures QueueLasts(Step(s, ops[0]), ops[1..], q) && q in s.mail.queues && q in Step(s, ops[0]).mail.queues
    ensures PostedIn(s, ops, q) == Posted(s, ops[0], q) + PostedIn(Step(s, ops[0]), ops[1..], q)
  {
    StepInv(s, ops[0]);
    InvRuns(s);
    hide Inv, Step, Enabled, Posted, Runs;
  }

  lemma NothingCounted(s: State, id: int)
    requires Inv(s) && Legal(s, [])
    ensures GivenIn(s, [], id) == 0 && TakenIn(s, [], id) == 0 && PostedIn(s, [], id) == []
  {
    hide Inv;
  }

  lemma CountedThen(m: Semaphore, m1: Semaphore, m2: Semaphore, g1: nat, g2: nat, t1: nat, t2: nat)
    requires Counted(m, m1, g1, t1) && Counted(m1, m2, g2, t2)
    ensures Counted(m, m2, g1 + g2, t1 + t2)
  {
  }

  lemma {:induction false} RunCounted(s: State, ops: seq<Op>, id: int)
    requires Inv(s) && Legal(s, ops) && SemaphoreLasts(s, ops, id)
    ensures id in s.sems && id in Run(s, ops).sems
    ensures Counted(s.sems[id], Run(s, ops).sems[id], GivenIn(s, ops, id), TakenIn(s, ops, id))
    decreases |ops|
  {
    hide *;
    if ops == [] {
      RunEnds(s);
      NothingCounted(s, id);
      LastsNow(s, ops, id);
      SameCoins(s.sems[id]);
    } else {
      CoinsLater(s, ops, id);
      var s1, rest := Step(s, ops[0]), ops[1..];
      RunStep(s, ops);
      StepCoins(s, ops[0], id);
      RunCounted(s1, rest, id);
      CountedThen(s.sems[id], s1.sems[id], Run(s1, rest).sems[id], Given(s, ops[0], id), GivenIn(s1, rest, id),
                  Taken(s, ops[0], id), TakenIn(s1, rest, id));
    }
  }

  lemma LastsNow(s: State, ops: seq<Op>, id: int)
    requires Inv(s) && Legal(s, ops)
    ensures SemaphoreLasts(s, ops, id) ==> id in s.sems
    ensures QueueLasts(s, ops, id) ==> id in s.mail.queues
  {
    hide Inv;
  }

  lemma BalanceOf(s: State, id: int)
    requires Inv(s) && id in s.sems
    ensures s.sems[id].initial + s.sems[id].gives == s.sems[id].counter + s.sems[id].taken
    ensures s.sems[id].waiters != [] ==> s.sems[id].counter <= 0
  {
    hide Placed, Tabled, Sorted, Stocked, Receivers, Mourned;
    assert CoinsOk(s.sems[id]);
  }

  /**
   * The coins of a semaphore over every run: the counter less the number of waiters grows by the coins
   * given and shrinks by the requests, while there are waiters only where there is no coin.
   */
  lemma RunBalance(s: State, ops: seq<Op>, id: int)
    requires Inv(s) && Legal(s, ops) && SemaphoreLasts(s, ops, id)
    ensures id in s.sems && id in Run(s, ops).sems
    ensures var m, m' := s.sems[id], Run(s, ops).sems[id];
            && m'.counter - |m'.waiters| == m.counter - |m.waiters| + GivenIn(s, ops, id) - TakenIn(s, ops, id)
            && (m'.waiters != [] ==> m'.counter <= 0)
            && m'.initial == m.initial && m'.gives == m.gives + GivenIn(s, ops, id)
  {
    hide *;
    RunCounted(s, ops, id);
    BalanceOf(s, id);
    BalanceOf(Run(s, ops), id);
    CountedIs(s.sems[id], Run(s, ops).sems[id], GivenIn(s, ops, id), TakenIn(s, ops, id));
  }

  lemma CountedIs(m: Semaphore, m': Semaphore, given: nat, taken: nat)
    requires Counted(m, m', given, taken)
    ensures m'.initial == m.initial && m'.gives == m.gives + given && m'.taken + |m'.waiters| == m.taken + |m.waiters| + taken
  {
  }

  /** The history of a queue is what the run sent to it: for the zombies, the ids of those who died. */
  lemma {:induction false} RunSent(s: State, ops: seq<Op>, q: int)
    requires Inv(s) && Legal(s, ops) && QueueLasts(s, ops, q)
    ensures q in s.mail.queues && q in Run(s, ops).mail.queues
    ensures Run(s, ops).mail.queues[q].sem == s.mail.queues[q].sem
    ensures Run(s, ops).mail.queues[q].sent == s.mail.queues[q].sent + PostedIn(s, ops, q)
    decreases |ops|
  {
    hide *;
    LastsNow(s, ops, q);
    if ops == [] {
      RunEnds(s);
      NothingCounted(s, q);
    } else {
      PostsLater(s, ops, q);
      RunStep(s, ops);
      StepSent(s, ops[0], q);
      RunSent(Step(s, ops[0]), ops[1..], q);
    }
  }

  // ---- the counts, read off the operations --------------------------------------------------------

  /** The messages of the send steps on queue q. */
  function Sends(ops: seq<Op>, q: int): seq<Bytes> {
    if ops == [] then [] else (if ops[0].Send? && ops[0].queue == q then [ops[0].msg] else []) + Sends(ops[1..], q)
  }

  lemma PostedHere(s: State, op: Op, q: int)
    requires Runs(s) && q != s.env.waitMq
    ensures Posted(s, op, q) == if op.Send? && op.queue == q then [op.msg] else []
  {
  }

  /** Idle, main and the queue of the zombies stay what they are. */
  lemma StepEnv(s: State, op: Op)
    requires Inv(s) && Enabled(s, op)
    ensures Step(s, op).env == s.env
  {
    hide *;
    if Switches(s, op) {
      SwitchEffect(s, op);
      EffectParts(s, op, Step(s, op));
    } else {
      KeptEnv(s, op);
    }
  }

  lemma KeptEnv(s: State, op: Op)
    requires Inv(s) && Enabled(s, op) && !Switches(s, op)
    ensures Step(s, op).env == s.env
  {
    hide Inv, Enabled, Step, Read, Lowest;
    match op
    case Kill(pid) => KillEffect(s, pid);
    case Create(c) => var i := CreateEffect(s, c);
    case NewSemaphore(init) => var i := NewSemaphoreEffect(s, init);
    case DelSemaphore(i) => DelSemaphoreEffect(s, i);
    case Take(id) => TakeEffect(s, id);
    case Give(id) => GiveEffect(s, id);
    case NewQueue => var r, i := NewQueueEffect(s);
    case DelQueue(r) => DelQueueEffect(s, r);
    case Send(q, msg) => SendEffect(s, q, msg);
    case Receive(q) => ReceiveEffect(s, op, q);
    case Wait => ReceiveEffect(s, op, s.env.waitMq);
    case Finish => FinishEffect(s);
    case Reap => ReapEffect(s);
    case _ =>
  }

  lemma {:induction false} PostedSends(s: State, ops: seq<Op>, q: int)
    requires Inv(s) && Legal(s, ops) && QueueLasts(s, ops, q) && q != s.env.waitMq
    ensures PostedIn(s, ops, q) == Sends(ops, q)
    decreases |ops|
  {
    hide Inv, Enabled, Step, Legal, QueueLasts, PostedIn, Posted, Runs;
    if ops == [] {
      NothingCounted(s, q);
    } else {
      PostsLater(s, ops, q);
      StepEnv(s, ops[0]);
      PostedSends(Step(s, ops[0]), ops[1..], q);
      PostedHere(s, ops[0], q);
    }
  }

  /** A semaphore that no queue owns gets and loses coins by sem_give and sem_take only. */
  lemma PlainHere(s: State, op: Op, id: int)
    requires Runs(s) && !Private(s.mail, id)
    ensures Given(s, op, id) == (if op == Give(id) then 1 else 0) && Taken(s, op, id) == if op == Take(id) then 1 else 0
  {
    hide Dying;
  }

  /** The queues after a step are those before, or a new one with a new semaphore. */
  lemma QueuesAfter(s: State, op: Op, q: int)
    requires Inv(s) && Enabled(s, op) && q in Step(s, op).mail.queues && q !in s.mail.queues
    ensures Step(s, op).mail.queues[q].sem !in s.sems
  {
    hide *;
    if Switches(s, op) {
      SwitchEffect(s, op);
      EffectParts(s, op, Step(s, op));
      SameQueues(s, op, Step(s, op).mail, Dying(s, op));
      assert false;
    } else {
      KeptQueues(s, op, q);
    }
  }

  lemma SameQueues(s: State, op: Op, mail: Mail, dead: seq<Ctx>)
    requires Runs(s) && QueuesAre(s, op, mail, dead)
    ensures mail.queues.Keys == s.mail.queues.Keys
  {
    hide Letters;
  }

  lemma KeptQueues(s: State, op: Op, q: int)
    requires Inv(s) && Enabled(s, op) && !Switches(s, op) && q in Step(s, op).mail.queues && q !in s.mail.queues
    ensures Step(s, op).mail.queues[q].sem !in s.sems
  {
    hide Inv, Enabled, Step, CoinArrives, DecodeInt;
    match op
    case Kill(pid) => KillEffect(s, pid);
    case Create(c) => var i := CreateEffect(s, c);
    case NewSemaphore(init) => var i := NewSemaphoreEffect(s, init);
    case DelSemaphore(i) => DelSemaphoreEffect(s, i);
    case Take(id) => TakeEffect(s, id);
    case Give(id) => GiveEffect(s, id);
    case NewQueue => var r, i := NewQueueEffect(s);
    case DelQueue(r) => DelQueueEffect(s, r);
    case Send(r, msg) => SendEffect(s, r, msg);
    case Receive(r) => ReceiveEffect(s, op, r);
    case Wait => ReceiveEffect(s, op, s.env.waitMq);
    case Finish => FinishEffect(s);
    case Reap => ReapEffect(s);
    case _ =>
  }

  lemma PlainStays(s: State, op: Op, id: int)
    requires Inv(s) && Enabled(s, op) && id in s.sems && !Private(s.mail, id)
    ensures !Private(Step(s, op).mail, id)
  {
    hide Inv, Enabled, Step;
    forall q | q in Step(s, op).mail.queues ensures Step(s, op).mail.queues[q].sem != id {
      if q in s.mail.queues {
        StepSent(s, op, q);
      } else {
        QueuesAfter(s, op, q);
      }
    }
  }

  lemma CountOne(ops: seq<Op>, op: Op)
    requires ops != []
    ensures multiset(ops)[op] == (if ops[0] == op then 1 else 0) + multiset(ops[1..])[op]
  {
    assert ops == [ops[0]] + ops[1..];
  }

  /** For such a semaphore the coins and requests of a run are its give and take steps. */
  lemma {:induction false} PlainCounts(s: State, ops: seq<Op>, id: int)
    requires Inv(s) && Legal(s, ops) && SemaphoreLasts(s, ops, id) && !Private(s.mail, id)
    ensures GivenIn(s, ops, id) == multiset(ops)[Give(id)] && TakenIn(s, ops, id) == multiset(ops)[Take(id)]
    decreases |ops|
  {
    hide *;
    if ops == [] {
      NothingCounted(s, id);
    } else {
      CoinsLater(s, ops, id);
      PlainHere(s, ops[0], id);
      PlainStays(s, ops[0], id);
      PlainCounts(Step(s, ops[0]), ops[1..], id);
      CountOne(ops, Give(id));
      CountOne(ops, Take(id));
    }
  }
}
