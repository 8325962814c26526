/** What the steps do that leave the current thread running, told by the tables before and after. */
module KernelEffects {
  import opened Contexts
  import opened KernelState
  import opened KernelCases
  import opened KernelRuns
  import opened KernelSwitches

  /** Nothing but the semaphores differs, and of them only those in `ids`. */
  ghost predicate OnlySemaphores(s: State, s': State, ids: set<int>) {
    && s'.th == s.th && s'.mail == s.mail && s'.reg == s.reg && s'.env == s.env
    && (forall i :: i !in ids ==> (i in s'.sems <==> i in s.sems))
    && (forall i :: i in s.sems && i !in ids ==> s'.sems[i] == s.sems[i])
  }

  /** The queues but for those in `ids` are the same. */
  ghost predicate OtherQueues(mail: Mail, mail': Mail, ids: set<int>) {
    && (forall q :: q !in ids ==> (q in mail'.queues <==> q in mail.queues))
    && (forall q :: q in mail.queues && q !in ids ==> mail'.queues[q] == mail.queues[q])
  }

  /** Slot i is free, and no lower one is. */
  ghost predicate Lowest<T>(m: map<int, T>, i: int) {
    0 <= i < TABLE_SIZE && i !in m && forall k :: 0 <= k < i ==> k in m
  }

  // ---- threads ------------------------------------------------------------------------------------

  /** kill marks the thread under that id and does nothing else; an unknown id does nothing. */
  lemma KillEffect(s: State, pid: int)
    requires Inv(s) && Enabled(s, Kill(pid))
    ensures var s' := Step(s, Kill(pid));
            && s'.th == s.th && s'.sems == s.sems && s'.mail == s.mail && s'.env == s.env
            && s'.reg.ids == s.reg.ids && s'.reg.table == s.reg.table
            && (forall t :: t in s.reg.zombi ==> t in s'.reg.zombi)
            && (forall t :: t in s'.reg.zombi && t !in s.reg.zombi ==> pid in s.reg.table && t == s.reg.table[pid])
            && (pid in s.reg.table ==> s.reg.table[pid] in s'.reg.zombi)
  {
    hide Inv, Enabled, Step;
    KillIs(s, pid);
  }

  /** Thread c is new, not killed, under the lowest free id, and right behind the current thread. */
  ghost predicate Created(s: State, s': State, c: Ctx, id: int) {
    && s.th.ready != [] && Lowest(s.reg.table, id)
    && s'.th.ready == [s.th.ready[0], c] + s.th.ready[1..] && !s'.th.skew
    && s'.th.sleeping == s.th.sleeping && s'.th.wake == s.th.wake
    && s'.th.status == s.th.status[c := Ready]
    && s'.reg.table == s.reg.table[id := c] && s'.reg.ids == s.reg.ids[c := id]
    && s'.reg.zombi == s.reg.zombi && c !in s'.reg.zombi
    && s'.sems == s.sems && s'.mail == s.mail && s'.env == s.env
  }

  lemma CreatesThread(s: State, c: Ctx)
    requires s.th.ready != [] && HasRoom(s.reg.table) && c !in s.reg.zombi
    ensures Created(s, CreateThread(s, c), c, FirstFree(s.reg.table, 0))
  {
  }

  lemma CreateEffect(s: State, c: Ctx) returns (id: int)
    requires Inv(s) && Enabled(s, Create(c))
    ensures c !in s.th.status && Created(s, Step(s, Create(c)), c, id)
  {
    hide *;
    id := FirstFree(s.reg.table, 0);
    CreateIs(s, c);
    NotKnown(s, c);
    CreatesThread(s, c);
  }

  lemma NotKnown(s: State, c: Ctx)
    requires Inv(s) && c !in s.reg.ids
    ensures c !in s.th.status && c !in s.reg.zombi
  {
    hide Placed, Sorted, Conserved, Stocked, Receivers, Mourned;
  }

  /** The slot of the dead thread under id i is cleared, and the thread counts as freed; t holds the id no more. */
  ghost predicate Cleared(s: State, s': State, t: Ctx, i: int) {
    && i in s.reg.table && s.reg.table[i] in s.th.status && s.th.status[s.reg.table[i]] == Dead
    && s'.reg.table == s.reg.table - {i} && s'.th.status == s.th.status[s.reg.table[i] := Reaped]
    && s'.reg.ids == s.reg.ids && s'.reg.zombi == s.reg.zombi
    && s'.th.ready == s.th.ready && s'.th.skew == s.th.skew && s'.th.sleeping == s.th.sleeping && s'.th.wake == s.th.wake
    && s'.mail.reaping == s.mail.reaping - {t}
    && s'.mail.queues == s.mail.queues && s'.mail.pending == s.mail.pending
    && s'.sems == s.sems && s'.env == s.env
  }

  lemma ReapClears(s: State)
    requires s.th.ready != [] && s.th.ready[0] in s.mail.reaping
    requires DeadId(s.th.status, s.reg.table, s.mail.reaping[s.th.ready[0]])
    ensures s.mail.reaping[s.th.ready[0]] in s.reg.table
    ensures Cleared(s, ReapThread(s), s.th.ready[0], s.mail.reaping[s.th.ready[0]])
  {
  }

  /** The rest of wait. */
  lemma ReapEffect(s: State)
    requires Inv(s) && Enabled(s, Reap)
    ensures s.th.ready != [] && s.th.ready[0] in s.mail.reaping
    ensures Cleared(s, Step(s, Reap), s.th.ready[0], s.mail.reaping[s.th.ready[0]])
  {
    hide *;
    ReapIs(s);
    HeldIsDead(s, s.th.ready[0]);
    ReapClears(s);
  }

  // ---- semaphores ---------------------------------------------------------------------------------

  /** new_semaphore: the lowest free slot gets a semaphore with `init` coins that nobody waits at. */
  lemma NewSemaphoreEffect(s: State, init: int) returns (id: int)
    requires Inv(s) && Enabled(s, NewSemaphore(init))
    ensures Lowest(s.sems, id)
    ensures var s' := Step(s, NewSemaphore(init));
            OnlySemaphores(s, s', {id}) && id in s'.sems && s'.sems[id] == Semaphore(init, [], init, 0, 0)
  {
    hide Inv, Enabled, Step;
    NewSemaphoreIs(s, init);
    id := FirstFree(s.sems, 0);
  }

  /** del_semaphore: gone if nobody waits at it; otherwise nothing changes. */
  lemma DelSemaphoreEffect(s: State, id: int)
    requires Inv(s) && Enabled(s, DelSemaphore(id))
    ensures id in s.sems
    ensures var s' := Step(s, DelSemaphore(id));
            if s.sems[id].waiters == [] then id !in s'.sems && OnlySemaphores(s, s', {id}) else s' == s
  {
    hide Inv, Enabled, Step;
    DelSemaphoreIs(s, id);
  }

  /** sem_take that does not block: one coin less, or nothing when the semaphore does not exist. */
  lemma TakeEffect(s: State, id: int)
    requires Inv(s) && Enabled(s, Take(id)) && !Switches(s, Take(id))
    ensures var s' := Step(s, Take(id));
            if id in s.sems then
              && OnlySemaphores(s, s', {id}) && id in s'.sems && s.sems[id].counter > 0
              && s'.sems[id] == s.sems[id].(counter := s.sems[id].counter - 1, taken := s.sems[id].taken + 1)
            else s' == s
  {
    hide Inv, Enabled, Step;
    TakeIs(s, id);
  }

  /** What a coin does: it wakes the thread that blocked last, behind the current one, or it is kept. */
  ghost predicate CoinArrives(s: State, s': State, id: int)
    requires id in s.sems
  {
    && s.th.ready != [] && s'.sems.Keys == s.sems.Keys
    && (forall i :: i in s.sems && i != id ==> s'.sems[i] == s.sems[i])
    && s'.th.sleeping == s.th.sleeping && s'.th.wake == s.th.wake && s'.reg == s.reg && s'.env == s.env
    && var m, m' := s.sems[id], s'.sems[id];
       if m.waiters == [] then
         s'.th == s.th && m' == m.(counter := m.counter + 1, gives := m.gives + 1)
       else
         && s'.th.ready == [s.th.ready[0], m.waiters[0]] + s.th.ready[1..]
         && s'.th.status == s.th.status[m.waiters[0] := Ready]
         && m' == m.(waiters := m.waiters[1..], gives := m.gives + 1, taken := m.taken + 1)
  }

  lemma GiveSemArrives(s: State, id: int)
    requires id in s.sems && s.th.ready != []
    ensures CoinArrives(s, GiveSem(s, id), id) && GiveSem(s, id).mail == s.mail
  {
  }

  lemma GiveEffect(s: State, id: int)
    requires Inv(s) && Enabled(s, Give(id))
    ensures var s' := Step(s, Give(id));
            if id in s.sems then CoinArrives(s, s', id) && s'.mail == s.mail else s' == s
  {
    hide Inv, Enabled, Step, GiveSem;
    GiveIs(s, id);
    if id in s.sems {
      GiveSemArrives(s, id);
    }
  }

  // ---- queues -------------------------------------------------------------------------------------

  /** new_message_queue: the lowest free slots get an empty queue and a semaphore without coins. */
  lemma NewQueueEffect(s: State) returns (q: int, id: int)
    requires Inv(s) && Enabled(s, NewQueue)
    ensures Lowest(s.mail.queues, q) && Lowest(s.sems, id)
    ensures var s' := Step(s, NewQueue);
            && OnlySemaphores(s, s'.(mail := s.mail), {id}) && id in s'.sems && s'.sems[id] == Semaphore(0, [], 0, 0, 0)
            && OtherQueues(s.mail, s'.mail, {q}) && q in s'.mail.queues && s'.mail.queues[q] == Queue(id, [], [], [])
            && s'.mail.pending == s.mail.pending && s'.mail.reaping == s.mail.reaping
  {
    hide Inv, Enabled, Step;
    NewQueueIs(s);
    q, id := FirstFree(s.mail.queues, 0), FirstFree(s.sems, 0);
  }

  /** Queue q is gone with its messages, its semaphore and the grants on record. */
  ghost predicate Deleted(s: State, s': State, q: int)
    requires q in s.mail.queues
  {
    var id := s.mail.queues[q].sem;
    && q !in s'.mail.queues && id !in s'.sems
    && OtherQueues(s.mail, s'.mail, {q}) && OnlySemaphores(s, s'.(mail := s.mail), {id})
    && (forall r :: r in s'.mail.queues ==> s'.mail.queues[r].sem != id)
    && (forall t :: t in s'.mail.pending ==> t in s.mail.pending && s'.mail.pending[t] == s.mail.pending[t] != q)
    && (forall t :: t in s.mail.pending && s.mail.pending[t] != q ==> t in s'.mail.pending)
    && s'.mail.reaping == s.mail.reaping
  }

  lemma DeletesQueue(s: State, q: int)
    requires Runs(s) && q in s.mail.queues && s.sems[s.mail.queues[q].sem].waiters == []
    requires forall r :: r in s.mail.queues && s.mail.queues[r].sem == s.mail.queues[q].sem ==> r == q
    ensures Deleted(s, DeleteQueue(s, q), q)
  {
  }

  /** del_message_queue: the queue is gone if nobody waits at it; otherwise nothing changes. */
  lemma DelQueueEffect(s: State, q: int)
    requires Inv(s) && Enabled(s, DelQueue(q))
    ensures q in s.mail.queues ==> s.mail.queues[q].sem in s.sems
    ensures if q in s.mail.queues && s.sems[s.mail.queues[q].sem].waiters == [] then Deleted(s, Step(s, DelQueue(q)), q)
            else Step(s, DelQueue(q)) == s
  {
    SemsApart(s);
    hide Inv, Enabled, Step, Deleted, Runs, WithoutQueue;
    DelQueueIs(s, q);
    if q in s.mail.queues && s.sems[s.mail.queues[q].sem].waiters == [] {
      DeletesQueue(s, q);
    }
  }

  lemma SemsApart(s: State)
    requires Inv(s)
    ensures forall q, r :: q in s.mail.queues && r in s.mail.queues && s.mail.queues[q].sem == s.mail.queues[r].sem ==> q == r
    ensures forall q {:trigger s.mail.queues[q]} :: q in s.mail.queues ==> s.mail.queues[q].sem in s.sems
  {
    hide Placed, Tabled, Sorted, Conserved, Receivers, Mourned, Supplied;
  }

  /** The message comes last, and a coin arrives at the semaphore of the queue. */
  ghost predicate MessageSent(s: State, s': State, q: int, msg: Bytes)
    requires q in s.mail.queues && s.mail.queues[q].sem in s.sems
  {
    var m := s.mail.queues[q];
    && CoinArrives(s, s', m.sem)
    && OtherQueues(s.mail, s'.mail, {q}) && q in s'.mail.queues
    && s'.mail.queues[q] == m.(messages := m.messages + [msg], sent := m.sent + [msg])
    && s'.mail.pending == s.mail.pending && s'.mail.reaping == s.mail.reaping
  }

  lemma PostSends(s: State, q: int, msg: Bytes)
    requires Runs(s) && q in s.mail.queues
    ensures s.mail.queues[q].sem in s.sems && MessageSent(s, Post(s, q, msg), q, msg)
  {
    hide GiveSem, CoinArrives;
    var s1, id := Appended(s, q, msg), s.mail.queues[q].sem;
    GiveSemArrives(s1, id);
    ArrivesBehind(s, s1, GiveSem(s1, id), id);
  }

  /** send_message. */
  lemma SendEffect(s: State, q: int, msg: Bytes)
    requires Inv(s) && Enabled(s, Send(q, msg))
    ensures q in s.mail.queues ==> s.mail.queues[q].sem in s.sems
    ensures if q in s.mail.queues then MessageSent(s, Step(s, Send(q, msg)), q, msg) else Step(s, Send(q, msg)) == s
  {
    hide *;
    SendIs(s, q, msg);
    if q in s.mail.queues {
      PostSends(s, q, msg);
    }
  }

  lemma ArrivesBehind(s: State, s1: State, s': State, id: int)
    requires s1.th == s.th && s1.sems == s.sems && s1.reg == s.reg && s1.env == s.env
    requires id in s.sems && CoinArrives(s1, s', id)
    ensures CoinArrives(s, s', id)
  {
  }

  /** Thread t has read the first message of queue q; in wait() that is the id it now holds. */
  ghost predicate Read(s: State, mail: Mail, q: int, t: Ctx) {
    && q in s.mail.queues && s.mail.queues[q].messages != []
    && OtherQueues(s.mail, mail, {q}) && q in mail.queues
    && (var m := s.mail.queues[q];
        && mail.queues[q] == m.(messages := m.messages[1..], received := m.received + [m.messages[0]])
        && (q == s.env.waitMq ==> |m.messages[0]| == 4)
        && mail.reaping == if q == s.env.waitMq then s.mail.reaping[t := DecodeInt(m.messages[0])] else s.mail.reaping)
    && mail.pending.Keys == s.mail.pending.Keys - {t}
    && (forall u :: u in mail.pending ==> mail.pending[u] == s.mail.pending[u])
  }

  lemma FetchReads(s: State, q: int, t: Ctx)
    requires Readable(s, q)
    ensures Read(s, Fetch(s.mail, q, t, s.env.waitMq), q, t)
  {
    hide DecodeInt;
  }

  /** receive_message that does not block: a coin is taken and the first message read; or there is no such queue. */
  lemma ReceiveEffect(s: State, op: Op, q: int)
    requires Inv(s) && Enabled(s, op) && !Switches(s, op) && (op == Receive(q) || (op == Wait && q == s.env.waitMq))
    ensures q in s.mail.queues ==> s.mail.queues[q].sem in s.sems
    ensures s.th.ready != []
    ensures var s' := Step(s, op);
            if q in s.mail.queues then
              var id := s.mail.queues[q].sem;
              && OnlySemaphores(s, s'.(mail := s.mail), {id}) && id in s'.sems && s.sems[id].counter > 0
              && s'.sems[id] == s.sems[id].(counter := s.sems[id].counter - 1, taken := s.sems[id].taken + 1)
              && Read(s, s'.mail, q, s.th.ready[0])
            else s' == s
  {
    hide Inv, Enabled, Step, Fetch, Read;
    ReceiveIs(s, op, q);
    if q in s.mail.queues {
      FetchReads(s, q, s.th.ready[0]);
    }
  }

  /** The rest of receive_message after a wake-up: the first message is read, and nothing else happens. */
  lemma FinishEffect(s: State)
    requires Inv(s) && Enabled(s, Finish)
    ensures s.th.ready != [] && s.th.ready[0] in s.mail.pending
    ensures var s' := Step(s, Finish);
            && s'.th == s.th && s'.sems == s.sems && s'.reg == s.reg && s'.env == s.env
            && Read(s, s'.mail, s.mail.pending[s.th.ready[0]], s.th.ready[0])
  {
    hide Inv, Enabled, Step, Fetch, Read, Readable;
    FinishIs(s);
    FetchReads(s, s.mail.pending[s.th.ready[0]], s.th.ready[0]);
  }
}
