/** The pointer code does what the state machine says, one atomic step at a time. */
module KernelSteps {
  import opened Contexts
  import opened KernelState
  import opened KernelCases
  import opened KernelRuns
  import opened KernelSwitches
  import opened KernelHeap
  import opened Links
  import opened Kernels

  // ---- what threads hold across steps ------------------------------------------------------------

  /** Local variables of threads: the queue a blocked receiver reads, and the id that wait() received. */
  datatype Stacks = Stacks(waiting: map<Ctx, int>, received: map<Ctx, int>)

  /** The local variables agree with the state machine. */
  ghost predicate Held(mail: Mail, stacks: Stacks) {
    && (forall t :: t in mail.pending ==> t in stacks.waiting && stacks.waiting[t] == mail.pending[t])
    && (forall t :: t in mail.reaping ==> t in stacks.received && stacks.received[t] == mail.reaping[t])
  }

  /** Nothing new is pending or received. */
  ghost predicate NoneAdded(mail: Mail, mail': Mail) {
    && (forall t :: t in mail'.pending ==> t in mail.pending && mail'.pending[t] == mail.pending[t])
    && (forall t :: t in mail'.reaping ==> t in mail.reaping && mail'.reaping[t] == mail.reaping[t])
  }

  lemma HeldStill(mail: Mail, mail': Mail, stacks: Stacks)
    requires Held(mail, stacks) && NoneAdded(mail, mail')
    ensures Held(mail', stacks)
  {
  }

  lemma RetireMail(s: State)
    requires Runs(s) && s.th.ready != []
    ensures Retire(s).mail.pending == s.mail.pending && Retire(s).mail.reaping == s.mail.reaping
  {
    PostMail(s, s.env.waitMq, EncodeInt(IdOf(s.reg, s.th.ready[0])));
    hide Post;
  }

  lemma PostMail(s: State, q: int, msg: Bytes)
    requires Runs(s) && q in s.mail.queues
    ensures Post(s, q, msg).mail.pending == s.mail.pending && Post(s, q, msg).mail.reaping == s.mail.reaping
  {
  }

  lemma DispatchMail(s: State)
    requires Runs(s)
    ensures Dispatch(s).mail.pending == s.mail.pending && Dispatch(s).mail.reaping == s.mail.reaping
  {
    hide Retire;
    RetireMail(s);
  }

  lemma TakeMail(s: State, id: int)
    requires Runs(s) && s.th.ready[0] != s.env.idle
    ensures TakeSem(s, id).mail.pending == s.mail.pending && TakeSem(s, id).mail.reaping == s.mail.reaping
  {
    hide Dispatch;
    if id in s.sems && s.sems[id].counter <= 0 {
      ParkRuns(s, id);
      DispatchMail(Park(s, id));
    }
  }

  lemma ReceiveMail(s: State, q: int)
    requires Runs(s) && s.th.ready[0] != s.env.idle && q in s.mail.queues
    requires s.sems[s.mail.queues[q].sem].counter > 0 ==> Readable(s, q)
    ensures var t := s.th.ready[0];
            var mail := ReceiveFrom(s, q).mail;
            if HasCoin(s, q) then
              && mail.pending == s.mail.pending - {t}
              && mail.reaping == if q == s.env.waitMq then s.mail.reaping[t := DecodeInt(s.mail.queues[q].messages[0])] else s.mail.reaping
            else mail.pending == s.mail.pending[t := q] && mail.reaping == s.mail.reaping
  {
    hide Dispatch, DecodeInt;
    if s.sems[s.mail.queues[q].sem].counter <= 0 {
      var s1 := s.(mail := s.mail.(pending := s.mail.pending[s.th.ready[0] := q]));
      ParkRuns(s1, s.mail.queues[q].sem);
      DispatchMail(Park(s1, s.mail.queues[q].sem));
    }
  }

  /** Only receivers and waiters come to hold something. */
  lemma StepMail(s: State, op: Op)
    requires Inv(s) && Enabled(s, op) && !op.Receive? && !op.Wait? && !op.Finish?
    ensures NoneAdded(s.mail, Step(s, op).mail)
  {
    hide Inv, Enabled, Step;
    if op.Yield? || op.Sleep? || op.Exit? || op.Take? {
      SwitchMail(s, op);
    } else {
      TableMail(s, op);
    }
  }

  lemma SwitchMail(s: State, op: Op)
    requires Inv(s) && Enabled(s, op) && (op.Yield? || op.Sleep? || op.Exit? || op.Take?)
    ensures Step(s, op).mail.pending == s.mail.pending && Step(s, op).mail.reaping == s.mail.reaping
  {
    hide *;
    match op
    case Yield(now) => YieldIs(s, now); DispatchMail(s.(th := Advance(WakeDue(s.th, now))));
    case Sleep(seconds, now) => SleepIs(s, seconds, now); DispatchMail(s.(th := Doze(s.th, now + seconds)));
    case Exit => ExitIs(s); RetireMail(s); DispatchMail(Retire(s));
    case Take(id) => TakeIs(s, id); TakeMail(s, id);
  }

  lemma TableMail(s: State, op: Op)
    requires Inv(s) && Enabled(s, op)
    requires op.Kill? || op.Create? || op.NewSemaphore? || op.DelSemaphore? || op.NewQueue? || op.DelQueue? || op.Reap? || op.Give? || op.Send?
    ensures NoneAdded(s.mail, Step(s, op).mail)
  {
    hide Inv, Enabled, Step, Runs, Post, KillThread;
    match op
    case Kill(pid) => KillIs(s, pid);
    case Create(c) => CreateIs(s, c);
    case NewSemaphore(init) => NewSemaphoreIs(s, init);
    case DelSemaphore(id) => DelSemaphoreIs(s, id);
    case Give(id) => GiveIs(s, id);
    case NewQueue => NewQueueIs(s);
    case DelQueue(q) => DelQueueIs(s, q);
    case Send(q, msg) => SendIs(s, q, msg); if q in s.mail.queues { PostMail(s, q, msg); }
    case Reap => ReapIs(s);
  }

  // ---- the pointer code takes the step -----------------------------------------------------------

  predicate OfScheduler(op: Op) {
    op.Yield? || op.Sleep? || op.Exit? || op.Kill? || op.Create? || op.Reap?
  }

  predicate OfSemaphores(op: Op) {
    op.NewSemaphore? || op.DelSemaphore? || op.Take? || op.Give?
  }

  /** The thread whose memory a step takes into use. */
  function Born(op: Op): set<Ctx> {
    if op.Create? then {op.thread} else {}
  }

  /**
   * The record that the registers went to last: a step that ends in the scheduler saves them for the
   * thread that ran, or throws them away if it exits.
   */
  ghost function Saved(s: State, op: Op, current: Ctx?, was: Ctx?): Ctx? {
    if !Switches(s, op) then was else if op.Exit? then null else current
  }

  lemma SavedPlain(s: State, op: Op, current: Ctx?, was: Ctx?)
    requires !op.Take? && !op.Receive? && !op.Wait?
    ensures Saved(s, op, current, was) == if op.Exit? then null else if op.Yield? || op.Sleep? then current else was
  {
  }

  lemma SavedReceiver(s: State, op: Op, q: int, current: Ctx?, was: Ctx?)
    requires op == Receive(q) || (op == Wait && q == s.env.waitMq)
    requires q in s.mail.queues ==> s.mail.queues[q].sem in s.sems
    ensures Saved(s, op, current, was) == if q in s.mail.queues && !HasCoin(s, q) then current else was
  {
  }

  method PerformScheduler(k: Kernel, ghost s: State, op: Op, stacks: Stacks)
    requires k.Represents(s) && Inv(s) && Enabled(s, op) && OfScheduler(op) && Held(s.mail, stacks)
    modifies k, k.threads, k.y.ctxs, k.y.semOf.Values, k.y.queueOf.Values, k.y.owner.Keys, Born(op)
    ensures k.Represents(Step(s, op))
    ensures k.savedTo == Saved(s, op, old(k.currentThread), old(k.savedTo))
    ensures k.y.ctxs == old(k.y.ctxs) + Born(op) && k.y.semOf == old(k.y.semOf) && k.y.queueOf == old(k.y.queueOf)
    ensures fresh(k.y.owner.Keys - old(k.y.owner.Keys))
  {
    hide Inv, Runs, Enabled, Step, Kernel.Represents, Dispatch, Advance, WakeDue, Doze, Retire, ReapThread, DeadId, KillThread,
         CreateThread, HasRoom, Placed;
    k.Seen(s);
    SavedPlain(s, op, k.currentThread, k.savedTo);
    match op
    case Yield(now) =>
      YieldIs(s, now);
      k.Yield(s, now);
    case Sleep(seconds, now) =>
      SleepIs(s, seconds, now);
      k.Sleep(s, seconds, now);
    case Exit =>
      ExitIs(s);
      k.DeleteCurrentThread(s);
    case Kill(pid) =>
      KillIs(s, pid);
      TableKnown(s);
      k.KillThread(s, pid);
    case Create(c) =>
      CreateIs(s, c);
      TableKnown(s);
      var id := k.CreateThread(s, c);
    case Reap =>
      ReapIs(s);
      HeldIsDead(s, s.th.ready[0]);
      k.Reap(s, stacks.received[k.currentThread]);
  }

  lemma TableKnown(s: State)
    requires Inv(s)
    ensures s.reg.ids.Keys == s.th.status.Keys
    ensures forall i :: i in s.reg.table ==> s.reg.table[i] in s.reg.ids
  {
    hide Placed, Sorted, Conserved, Stocked, Receivers, Mourned;
  }

  method PerformSemaphores(k: Kernel, ghost s: State, op: Op)
    requires k.Represents(s) && Inv(s) && Enabled(s, op) && OfSemaphores(op)
    modifies k, k.semaphores, k.y.ctxs, k.y.semOf.Values, k.y.queueOf.Values, k.y.owner.Keys
    ensures k.Represents(Step(s, op))
    ensures k.savedTo == Saved(s, op, old(k.currentThread), old(k.savedTo))
    ensures k.y.ctxs == old(k.y.ctxs) && k.y.queueOf == old(k.y.queueOf)
    ensures fresh(k.y.semOf.Values - old(k.y.semOf.Values)) && fresh(k.y.owner.Keys - old(k.y.owner.Keys))
  {
    hide Inv, Runs, Enabled, Step, Kernel.Represents, CreateSemaphore, DeleteSemaphore, TakeSem, GiveSem, HasRoom;
    match op
    case NewSemaphore(init) =>
      NewSemaphoreIs(s, init);
      var id := k.NewSemaphore(s, init);
    case DelSemaphore(id) =>
      DelSemaphoreIs(s, id);
      var r := k.DelSemaphore(s, id);
    case Take(id) =>
      TakeIs(s, id);
      k.SemTake(s, id);
    case Give(id) =>
      GiveIs(s, id);
      k.SemGive(s, id);
  }

  method PerformQueues(k: Kernel, ghost s: State, op: Op)
    requires k.Represents(s) && Inv(s) && Enabled(s, op) && (op.NewQueue? || op.DelQueue?)
    modifies k, k.semaphores, k.messageQueues, k.y.queueOf.Values
    ensures k.Represents(Step(s, op))
    ensures k.savedTo == Saved(s, op, old(k.currentThread), old(k.savedTo))
    ensures k.y.ctxs == old(k.y.ctxs) && fresh(k.y.semOf.Values - old(k.y.semOf.Values))
    ensures fresh(k.y.queueOf.Values - old(k.y.queueOf.Values)) && k.y.owner == old(k.y.owner)
  {
    hide *;
    SavedPlain(s, op, k.currentThread, k.savedTo);
    match op
    case NewQueue =>
      NewQueueIs(s);
      var id := k.NewMessageQueue(s);
    case DelQueue(q) =>
      DelQueueIs(s, q);
      var r := k.DelMessageQueue(s, q);
  }

  method PerformSend(k: Kernel, ghost s: State, q: int, msg: Bytes)
    requires k.Represents(s) && Inv(s) && Enabled(s, Op.Send(q, msg))
    modifies k, k.y.ctxs, k.y.semOf.Values, k.y.queueOf.Values, k.y.owner.Keys
    ensures k.Represents(Step(s, Op.Send(q, msg)))
    ensures k.savedTo == Saved(s, Op.Send(q, msg), old(k.currentThread), old(k.savedTo))
    ensures k.y.ctxs == old(k.y.ctxs) && k.y.semOf == old(k.y.semOf) && k.y.queueOf == old(k.y.queueOf)
    ensures fresh(k.y.owner.Keys - old(k.y.owner.Keys))
  {
    hide *;
    SavedPlain(s, Op.Send(q, msg), k.currentThread, k.savedTo);
    SendIs(s, q, msg);
    var buffer := new Byte[|msg|](i requires 0 <= i < |msg| => msg[i]);
    assert buffer[..|msg|] == msg;
    k.SendMessage(s, q, buffer, |msg|);
  }

  /** receive_message on a queue of the clients; a thread that blocks remembers the queue. */
  method PerformReceive(k: Kernel, ghost s: State, q: int, stacks: Stacks, buffer: array<Byte>) returns (stacks': Stacks)
    requires k.Represents(s) && Inv(s) && Enabled(s, Op.Receive(q)) && Held(s.mail, stacks)
    modifies k, k.y.ctxs, k.y.semOf.Values, k.y.queueOf.Values, k.y.owner.Keys, buffer
    ensures k.Represents(Step(s, Op.Receive(q))) && Held(Step(s, Op.Receive(q)).mail, stacks')
    ensures k.savedTo == Saved(s, Op.Receive(q), old(k.currentThread), old(k.savedTo))
    ensures k.y.ctxs == old(k.y.ctxs) && k.y.semOf == old(k.y.semOf) && k.y.queueOf == old(k.y.queueOf)
    ensures fresh(k.y.owner.Keys - old(k.y.owner.Keys))
  {
    hide *;
    k.Seen(s);
    ReceiveIs(s, Op.Receive(q), q);
    SavedReceiver(s, Op.Receive(q), q, k.currentThread, k.savedTo);
    CoinIs(s, q);
    NotZombies(s, q);
    ReceivedIs(s, q);
    var current := k.currentThread;
    var i, blocked := k.ReceiveMessage(s, q, buffer, buffer.Length);
    stacks' := if blocked then stacks.(waiting := stacks.waiting[current := q]) else stacks;
    if q in s.mail.queues {
      ReceiveMail(s, q);
      HeldReceive(s.mail, ReceiveFrom(s, q).mail, stacks, current, q, blocked);
    }
  }

  lemma CoinIs(s: State, q: int)
    requires q in s.mail.queues ==> s.mail.queues[q].sem in s.sems && (s.sems[s.mail.queues[q].sem].counter > 0 ==> Readable(s, q))
    ensures HasCoin(s, q) ==> q in s.mail.queues && Readable(s, q)
  {
    hide Readable;
  }

  lemma NotZombies(s: State, q: int)
    requires Enabled(s, Op.Receive(q))
    ensures q != s.env.waitMq
  {
    hide Private, Forsaken;
  }

  lemma HeldReceive(mail: Mail, mail': Mail, stacks: Stacks, t: Ctx, q: int, blocked: bool)
    requires Held(mail, stacks) && mail'.reaping == mail.reaping
    requires mail'.pending == if blocked then mail.pending[t := q] else mail.pending - {t}
    ensures Held(mail', if blocked then stacks.(waiting := stacks.waiting[t := q]) else stacks)
  {
  }

  /** The receiving half of wait(): a thread that blocks remembers the queue, another one the id. */
  method PerformWait(k: Kernel, ghost s: State, stacks: Stacks) returns (stacks': Stacks)
    requires k.Represents(s) && Inv(s) && Enabled(s, Op.Wait) && Held(s.mail, stacks)
    modifies k, k.y.ctxs, k.y.semOf.Values, k.y.queueOf.Values, k.y.owner.Keys
    ensures k.Represents(Step(s, Op.Wait)) && Held(Step(s, Op.Wait).mail, stacks')
    ensures k.savedTo == Saved(s, Op.Wait, old(k.currentThread), old(k.savedTo))
    ensures k.y.ctxs == old(k.y.ctxs) && k.y.semOf == old(k.y.semOf) && k.y.queueOf == old(k.y.queueOf)
    ensures fresh(k.y.owner.Keys - old(k.y.owner.Keys))
  {
    hide *;
    k.Seen(s);
    ReceiveIs(s, Op.Wait, s.env.waitMq);
    SavedReceiver(s, Op.Wait, s.env.waitMq, k.currentThread, k.savedTo);
    CoinIs(s, s.env.waitMq);
    var current, waitMq := k.currentThread, k.waitMq;
    var i, blocked := k.Wait(s);
    stacks' := if blocked then stacks.(waiting := stacks.waiting[current := waitMq])
               else stacks.(received := stacks.received[current := i]);
    ReceiveMail(s, waitMq);
    HeldWait(s.mail, ReceiveFrom(s, waitMq).mail, stacks, current, waitMq, blocked, i);
  }

  lemma HeldWait(mail: Mail, mail': Mail, stacks: Stacks, t: Ctx, q: int, blocked: bool, i: int)
    requires Held(mail, stacks)
    requires mail'.pending == if blocked then mail.pending[t := q] else mail.pending - {t}
    requires if blocked then mail'.reaping == mail.reaping else t in mail'.reaping && mail'.reaping == mail.reaping[t := i]
    ensures Held(mail', if blocked then stacks.(waiting := stacks.waiting[t := q]) else stacks.(received := stacks.received[t := i]))
  {
  }

  /** The rest of receive_message, for a receiver of the clients or for wait(). */
  method PerformFinish(k: Kernel, ghost s: State, stacks: Stacks, buffer: array<Byte>) returns (stacks': Stacks)
    requires k.Represents(s) && Inv(s) && Enabled(s, Op.Finish) && Held(s.mail, stacks)
    modifies k, k.y.queueOf.Values, buffer
    ensures k.Represents(Step(s, Op.Finish)) && Held(Step(s, Op.Finish).mail, stacks')
    ensures k.savedTo == Saved(s, Op.Finish, old(k.currentThread), old(k.savedTo))
    ensures k.y.ctxs == old(k.y.ctxs) && k.y.semOf == old(k.y.semOf) && k.y.queueOf == old(k.y.queueOf) && k.y.owner == old(k.y.owner)
  {
    hide *;
    SavedPlain(s, Op.Finish, k.currentThread, k.savedTo);
    k.Seen(s);
    FinishIs(s);
    HeldQueue(s, stacks);
    FinishMail(s);
    var current, waitMq := k.currentThread, k.waitMq;
    var q := stacks.waiting[current];
    if q == waitMq {
      var i := k.FinishWait(s);
      stacks' := stacks.(received := stacks.received[current := i]);
      HeldWait(s.mail, FinishReceive(s).mail, stacks, current, q, false, i);
    } else {
      var i := k.FinishReceive(s, q, buffer, buffer.Length);
      stacks' := stacks;
      HeldReceive(s.mail, FinishReceive(s).mail, stacks, current, q, false);
    }
  }

  lemma HeldQueue(s: State, stacks: Stacks)
    requires Held(s.mail, stacks) && s.th.ready != [] && s.th.ready[0] in s.mail.pending
    ensures s.th.ready[0] in stacks.waiting && stacks.waiting[s.th.ready[0]] == s.mail.pending[s.th.ready[0]]
  {
  }

  lemma FinishMail(s: State)
    requires s.th.ready != [] && s.th.ready[0] in s.mail.pending && Readable(s, s.mail.pending[s.th.ready[0]])
    ensures var t, q := s.th.ready[0], s.mail.pending[s.th.ready[0]];
            && q in s.mail.queues && s.mail.queues[q].messages != [] && (q == s.env.waitMq ==> |s.mail.queues[q].messages[0]| == 4)
            && FinishReceive(s).mail.pending == s.mail.pending - {t}
            && FinishReceive(s).mail.reaping ==
                 if q == s.env.waitMq then s.mail.reaping[t := DecodeInt(s.mail.queues[q].messages[0])] else s.mail.reaping
  {
    hide DecodeInt;
  }

  /** One atomic step of the kernel code is one step of the state machine, and keeps its invariant. */
  method Perform(k: Kernel, ghost s: State, op: Op, stacks: Stacks, buffer: array<Byte>) returns (stacks': Stacks)
    requires k.Represents(s) && Inv(s) && Enabled(s, op) && Held(s.mail, stacks)
    modifies k, k.threads, k.semaphores, k.messageQueues, k.y.ctxs, k.y.semOf.Values, k.y.queueOf.Values, k.y.owner.Keys, Born(op), buffer
    ensures Inv(Step(s, op)) && k.Represents(Step(s, op)) && Held(Step(s, op).mail, stacks')
    ensures k.savedTo == Saved(s, op, old(k.currentThread), old(k.savedTo))
    ensures k.y.ctxs == old(k.y.ctxs) + Born(op) && fresh(k.y.semOf.Values - old(k.y.semOf.Values))
    ensures fresh(k.y.queueOf.Values - old(k.y.queueOf.Values)) && fresh(k.y.owner.Keys - old(k.y.owner.Keys))
  {
    hide Inv, Enabled, Step, Kernel.Represents, Held, NoneAdded;
    StepInv(s, op);
    stacks' := stacks;
    if op.Receive? {
      stacks' := PerformReceive(k, s, op.queue, stacks, buffer);
    } else if op.Wait? {
      stacks' := PerformWait(k, s, stacks);
    } else if op.Finish? {
      stacks' := PerformFinish(k, s, stacks, buffer);
    } else {
      StepMail(s, op);
      HeldStill(s.mail, Step(s, op).mail, stacks);
      if OfScheduler(op) {
        PerformScheduler(k, s, op, stacks);
      } else if OfSemaphores(op) {
        PerformSemaphores(k, s, op);
      } else if op.Send? {
        PerformSend(k, s, op.queue, op.msg);
      } else {
        PerformQueues(k, s, op);
      }
    }
  }

  // ---- whole runs of the pointer code ------------------------------------------------------------

  /** The memory of the threads that a run creates. */
  function Newborns(ops: seq<Op>): set<Ctx> {
    set i | 0 <= i < |ops| && ops[i].Create? :: ops[i].thread
  }

  lemma NewbornsSplit(ops: seq<Op>)
    requires ops != []
    ensures Born(ops[0]) <= Newborns(ops) && Newborns(ops[1..]) <= Newborns(ops)
  {
    forall t | t in Newborns(ops[1..]) ensures t in Newborns(ops) {
      var i :| 0 <= i < |ops[1..]| && ops[1..][i].Create? && ops[1..][i].thread == t;
      assert ops[i + 1].thread == t;
    }
  }

  /**
   * Every run of the pointer code is the run of the state machine with the same steps: what is proved
   * of all runs of the machine holds of the code.
   */
  method Execute(k: Kernel, ghost s: State, ops: seq<Op>, stacks: Stacks, buffer: array<Byte>) returns (stacks': Stacks)
    requires k.Represents(s) && Inv(s) && Legal(s, ops) && Held(s.mail, stacks)
    modifies k, k.threads, k.semaphores, k.messageQueues, k.y.ctxs, k.y.semOf.Values, k.y.queueOf.Values, k.y.owner.Keys,
             Newborns(ops), buffer
    ensures k.Represents(Run(s, ops)) && Held(Run(s, ops).mail, stacks')
    ensures k.y.ctxs <= old(k.y.ctxs) + Newborns(ops) && fresh(k.y.semOf.Values - old(k.y.semOf.Values))
    ensures fresh(k.y.queueOf.Values - old(k.y.queueOf.Values)) && fresh(k.y.owner.Keys - old(k.y.owner.Keys))
    decreases |ops|
  {
    hide *;
    if ops == [] {
      RunEnds(s);
      stacks' := stacks;
    } else {
      RunStep(s, ops);
      NewbornsSplit(ops);
      var stacks1 := Perform(k, s, ops[0], stacks, buffer);
      stacks' := Execute(k, Step(s, ops[0]), ops[1..], stacks1, buffer);
    }
  }

  /** start_scheduler leaves the state that every run starts from. */
  method StartScheduler(main: Ctx, idle: Ctx, repaired: bool) returns (k: Kernel)
    requires main != idle
    modifies main, idle
    ensures fresh(k) && k.Represents(Booted(main, idle, repaired)) && Inv(Booted(main, idle, repaired))
    ensures fresh(k.threads) && fresh(k.semaphores) && fresh(k.messageQueues) && k.y.ctxs == {main, idle}
    ensures fresh(k.y.semOf.Values) && fresh(k.y.queueOf.Values) && fresh(k.y.owner.Keys)
  {
    hide *;
    k := new Kernel(repaired, main);
    k.Start(main, idle);
    BootedInv(main, idle, repaired);
  }

  /** From start_scheduler on, whatever the threads do. */
  method RunKernel(main: Ctx, idle: Ctx, repaired: bool, ops: seq<Op>, buffer: array<Byte>) returns (k: Kernel)
    requires main != idle && Inv(Booted(main, idle, repaired)) && Legal(Booted(main, idle, repaired), ops)
    modifies main, idle, Newborns(ops), buffer
    ensures fresh(k) && k.Represents(Run(Booted(main, idle, repaired), ops))
  {
    hide *;
    k := StartScheduler(main, idle, repaired);
    NothingHeld(main, idle, repaired);
    var stacks := Execute(k, Booted(main, idle, repaired), ops, Stacks(map[], map[]), buffer);
  }

  lemma NothingHeld(main: Ctx, idle: Ctx, repaired: bool)
    ensures Held(Booted(main, idle, repaired).mail, Stacks(map[], map[]))
  {
  }

  /**
   * The doubly linked ring in memory: the forward links of the ready threads form one cycle in ring
   * order, and the back links invert them exactly where the ring is not skewed.
   */
  lemma RingInMemory(k: Kernel, s: State)
    requires k.Represents(s) && Inv(s)
    ensures s.th.ready != [] && k.currentThread == s.th.ready[0]
    ensures forall i {:trigger After(s.th.ready, i)} :: 0 <= i < |s.th.ready| ==>
              s.th.ready[i] in k.y.ctxs && s.th.ready[i].next == After(s.th.ready, i)
    ensures (forall t :: t in s.th.ready ==> t.next != null && t.next in k.y.ctxs && t.next.last == t) <==> !s.th.skew
    ensures s.env.repaired ==> !s.th.skew
  {
    hide Inv, Kernel.Represents, ThreadsOf, Ring;
    var r := s.th.ready;
    var l := ThreadsOf(k.y.ctxs).links;
    ThreadsHave(k.y.ctxs);
    k.Seen(s);
    k.RingSeen(s);
    SkewOnlyAsWritten(s);
    forall i | 0 <= i < |r| ensures r[i] in k.y.ctxs && r[i].next == After(r, i) && r[i].last == Behind<Ctx?>(r, i, s.th.skew) {
      LinkAt<Ctx?>(r, l, s.th.skew, i);
    }
    RingSizes(r, l, s.th.skew);
    if s.th.skew {
      assert r[0].next == After(r, 0) && r[1].last == Behind<Ctx?>(r, 1, true);
      assert r[0] in r && r[0].next.last != r[0];
    } else {
      forall t | t in r ensures t.next != null && t.next in k.y.ctxs && t.next.last == t {
        var i :| 0 <= i < |r| && r[i] == t;
        var n := After(r, i);
        var j := if i + 1 < |r| then i + 1 else 0;
        assert r[j] == n && r[j].last == Behind<Ctx?>(r, j, false);
      }
    }
  }

  /** With the repaired back link the ring is never skewed, and the timer may fire in every state. */
  lemma SkewOnlyAsWritten(s: State)
    requires Inv(s)
    ensures s.th.skew ==> !s.env.repaired
    ensures s.env.repaired && s.th.ready != [] ==> forall now :: Enabled(s, Op.Yield(now))
  {
  }
}
