/** Each step of the state machine, by the function that describes it. */
module KernelCases {
  import opened Contexts
  import opened KernelState

  lemma YieldIs(s: State, now: int)
    requires Inv(s) && Enabled(s, Yield(now))
    ensures s.th.ready != [] && (s.th.skew ==> Due(s.th, now))
    ensures Runs(s) && Runs(s.(th := Advance(WakeDue(s.th, now))))
    ensures Step(s, Yield(now)) == Dispatch(s.(th := Advance(WakeDue(s.th, now))))
  {
    hide Inv, Runs, Advance, WakeDue, Dispatch, Due, Private, Forsaken;
    StepDefined(s, Yield(now));
    YieldRuns(s, now);
  }

  lemma SleepIs(s: State, seconds: int, now: int)
    requires Inv(s) && Enabled(s, Sleep(seconds, now))
    ensures s.th.ready != [] && s.th.ready[0] != s.env.idle
    ensures s.th.ready[0] !in s.mail.pending && s.th.ready[0] !in s.mail.reaping
    ensures Runs(s) && Runs(s.(th := Doze(s.th, now + seconds)))
    ensures Step(s, Sleep(seconds, now)) == Dispatch(s.(th := Doze(s.th, now + seconds)))
  {
    hide Inv, Runs, Doze, Dispatch, Private, Forsaken;
    StepDefined(s, Sleep(seconds, now));
    DozeRuns(s, now + seconds);
  }

  lemma ExitIs(s: State)
    requires Inv(s) && Enabled(s, Exit)
    ensures s.th.ready != [] && s.th.ready[0] != s.env.idle && s.th.ready[0] != s.env.main
    ensures Runs(s) && Runs(Retire(s))
    ensures Step(s, Exit) == Dispatch(Retire(s))
  {
    hide Inv, Runs, Retire, Dispatch, Private, Forsaken;
    StepDefined(s, Exit);
  }

  lemma KillIs(s: State, pid: int)
    requires Inv(s) && Enabled(s, Kill(pid))
    ensures Step(s, Kill(pid)) == s.(reg := KillThread(s.reg, pid)) && pid != 0
  {
    hide Inv, Runs, KillThread, Private, Forsaken;
    StepDefined(s, Kill(pid));
  }

  lemma CreateIs(s: State, c: Ctx)
    requires Inv(s) && Enabled(s, Create(c))
    ensures s.th.ready != [] && c !in s.reg.ids && HasRoom(s.reg.table) && Step(s, Create(c)) == CreateThread(s, c)
  {
    hide Inv, Runs, CreateThread, Private, Forsaken, HasRoom;
    StepDefined(s, Create(c));
  }

  lemma NewSemaphoreIs(s: State, init: int)
    requires Inv(s) && Enabled(s, NewSemaphore(init))
    ensures HasRoom(s.sems) && Step(s, NewSemaphore(init)) == CreateSemaphore(s, init)
  {
    hide Inv, Runs, CreateSemaphore, Private, Forsaken, HasRoom;
    StepDefined(s, NewSemaphore(init));
  }

  lemma DelSemaphoreIs(s: State, id: int)
    requires Inv(s) && Enabled(s, DelSemaphore(id))
    ensures id in s.sems && !Private(s.mail, id) && Step(s, DelSemaphore(id)) == DeleteSemaphore(s, id)
  {
    hide Inv, Runs, DeleteSemaphore, Private, Forsaken;
    StepDefined(s, DelSemaphore(id));
  }

  lemma TakeIs(s: State, id: int)
    requires Inv(s) && Enabled(s, Take(id))
    ensures Runs(s) && s.th.ready != [] && s.th.ready[0] != s.env.idle && !Private(s.mail, id)
    ensures s.th.ready[0] !in s.mail.pending && s.th.ready[0] !in s.mail.reaping
    ensures Step(s, Take(id)) == TakeSem(s, id)
  {
    hide Inv, Runs, TakeSem, Private, Forsaken;
    StepDefined(s, Take(id));
  }

  lemma GiveIs(s: State, id: int)
    requires Inv(s) && Enabled(s, Give(id))
    ensures Runs(s) && s.th.ready != [] && s.th.ready[0] != s.env.idle && !Private(s.mail, id)
    ensures Step(s, Give(id)) == if id in s.sems then GiveSem(s, id) else s
  {
    hide Inv, Runs, GiveSem, Private, Forsaken;
    StepDefined(s, Give(id));
  }

  lemma NewQueueIs(s: State)
    requires Inv(s) && Enabled(s, NewQueue)
    ensures HasRoom(s.sems) && HasRoom(s.mail.queues) && Step(s, NewQueue) == CreateQueue(s)
  {
    hide Inv, Runs, CreateQueue, Private, Forsaken, HasRoom;
    StepDefined(s, NewQueue);
  }

  lemma DelQueueIs(s: State, q: int)
    requires Inv(s) && Enabled(s, DelQueue(q))
    ensures Runs(s) && q != s.env.waitMq && Forsaken(s, q) && Step(s, DelQueue(q)) == DeleteQueue(s, q)
  {
    hide Inv, Runs, DeleteQueue, Private, Forsaken;
    StepDefined(s, DelQueue(q));
  }

  lemma SendIs(s: State, q: int, msg: Bytes)
    requires Inv(s) && Enabled(s, Send(q, msg))
    ensures Runs(s) && s.th.ready != [] && s.th.ready[0] != s.env.idle && q != s.env.waitMq
    ensures Step(s, Send(q, msg)) == if q in s.mail.queues then Post(s, q, msg) else s
  {
    hide Inv, Runs, Post, Private, Forsaken;
    StepDefined(s, Send(q, msg));
  }

  lemma ReceiveIs(s: State, op: Op, q: int)
    requires Inv(s) && Enabled(s, op) && (op == Receive(q) || (op == Wait && q == s.env.waitMq))
    ensures Runs(s) && s.th.ready != [] && s.th.ready[0] != s.env.idle
    ensures s.th.ready[0] !in s.mail.pending && s.th.ready[0] !in s.mail.reaping
    ensures q in s.mail.queues ==>
              s.mail.queues[q].sem in s.sems && (s.sems[s.mail.queues[q].sem].counter > 0 ==> Readable(s, q))
    ensures Step(s, op) == if q in s.mail.queues then ReceiveFrom(s, q) else s
  {
    hide Inv, Runs, ReceiveFrom, Private, Forsaken, Readable;
    StepDefined(s, op);
  }

  lemma FinishIs(s: State)
    requires Inv(s) && Enabled(s, Finish)
    ensures s.th.ready != [] && s.th.ready[0] in s.mail.pending && Readable(s, s.mail.pending[s.th.ready[0]])
    ensures Step(s, Finish) == FinishReceive(s)
  {
    hide Inv, Runs, FinishReceive, Private, Forsaken, Readable;
    StepDefined(s, Finish);
  }

  lemma ReapIs(s: State)
    requires Inv(s) && Enabled(s, Reap)
    ensures s.th.ready != [] && s.th.ready[0] in s.mail.reaping && s.mail.reaping[s.th.ready[0]] in s.reg.table
    ensures Step(s, Reap) == ReapThread(s)
  {
    hide Inv, Runs, ReapThread, Private, Forsaken;
    StepDefined(s, Reap);
  }
}
