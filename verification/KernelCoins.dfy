/** Semaphores and message queues: the steps that move coins and messages keep the invariant. */
module KernelCoins {
  import opened Contexts
  import opened KernelState
  import opened KernelPlaces
  import opened KernelParts
  import opened KernelSafety

  lemma ConservedUpdate(sems: map<int, Semaphore>, id: int, m: Semaphore)
    requires Conserved(sems) && CoinsOk(m)
    ensures Conserved(sems[id := m])
  {
  }

  lemma ConservedTake(s: State, id: int)
    requires Conserved(s.sems) && id in s.sems && s.sems[id].counter > 0
    ensures Conserved(TakeCoin(s, id).sems)
  {
    ConservedUpdate(s.sems, id, TakeCoin(s, id).sems[id]);
  }

  lemma ConservedPark(s: State, id: int)
    requires Conserved(s.sems) && id in s.sems && s.sems[id].counter <= 0 && s.th.ready != []
    ensures Conserved(Park(s, id).sems)
  {
    ConservedUpdate(s.sems, id, Park(s, id).sems[id]);
  }

  lemma ConservedGive(s: State, id: int)
    requires Conserved(s.sems) && s.th.ready != [] && id in s.sems
    ensures Conserved(GiveSem(s, id).sems)
  {
    ConservedUpdate(s.sems, id, GiveSem(s, id).sems[id]);
  }

  /** What a give does to the threads: with a waiter, its status and the ring. */
  lemma GiveSemThreads(s: State, id: int)
    requires Placed(s.th, s.sems) && s.th.ready != [] && id in s.sems
    ensures var s' := GiveSem(s, id);
            var w := s.sems[id].waiters;
            && (w == [] ==> s'.th == s.th)
            && (w != [] ==> w[0] in s.th.status && s.th.status[w[0]] == Waiting(id) && s'.th.status == s.th.status[w[0] := Ready])
            && s'.th.sleeping == s.th.sleeping && s'.th.wake == s.th.wake
            && s'.mail == s.mail && s'.reg == s.reg && s'.env == s.env
            && (SkewOk(s.th, s.env) ==> SkewOk(s'.th, s'.env))
    ensures GiveSem(s, id).sems.Keys == s.sems.Keys
    ensures forall i :: i in s.sems && i != id ==> GiveSem(s, id).sems[i] == s.sems[i]
    ensures var m, m' := s.sems[id], GiveSem(s, id).sems[id];
            m'.counter == m.counter + if m.waiters == [] then 1 else 0
  {
    var w := s.sems[id].waiters;
    assert Holds(w, s.th.status, Waiting(id));
    assert w != [] ==> w[0] in w;
  }

  /** The statuses after a give: table, receivers and zombies. */
  lemma GiveSemParts(s: State, id: int)
    requires Placed(s.th, s.sems) && s.th.ready != [] && id in s.sems
    requires Tabled(s.th.status, s.reg, s.env) && Receivers(s.th.status, s.mail, s.env.idle)
    requires NobodyMoves(s.th.status)
    ensures var s' := GiveSem(s, id);
            Tabled(s'.th.status, s.reg, s.env) && Receivers(s'.th.status, s.mail, s.env.idle) && NobodyMoves(s'.th.status)
    ensures forall letters :: Mourned(letters, s.mail.reaping, s.th.status, s.reg)
              ==> Mourned(letters, s.mail.reaping, GiveSem(s, id).th.status, s.reg)
  {
    GiveSemThreads(s, id);
    hide Placed, GiveSem, Mourned, Receivers;
    var w := s.sems[id].waiters;
    if w != [] {
      TabledMove(s.th.status, s.reg, s.env, w[0], Ready);
      ReceiversMove(s.th.status, s.mail, s.env.idle, w[0], Ready);
      forall letters | Mourned(letters, s.mail.reaping, s.th.status, s.reg)
        ensures Mourned(letters, s.mail.reaping, s.th.status[w[0] := Ready], s.reg)
      {
        MournedMove(letters, s.mail.reaping, s.th.status, s.reg, w[0], Ready);
      }
    }
  }

  /** A coin for a semaphore that no queue owns. */
  lemma GiveSemStocked(s: State, id: int)
    requires Placed(s.th, s.sems) && s.th.ready != [] && id in s.sems && Stocked(s) && !Private(s.mail, id)
    ensures Stocked(GiveSem(s, id))
  {
    GiveSemThreads(s, id);
    hide Placed, GiveSem;
    var s' := GiveSem(s, id);
    var w := s.sems[id].waiters;
    forall q | q in s.mail.queues
      ensures Granted(s.mail.pending, s'.th.status, q, s.mail.queues[q].sem)
           == Granted(s.mail.pending, s.th.status, q, s.mail.queues[q].sem)
      ensures s'.sems[s.mail.queues[q].sem] == s.sems[s.mail.queues[q].sem]
    {
      if w != [] {
        GrantedOther(s.mail.pending, s.th.status, w[0], Ready, q, s.mail.queues[q].sem);
      }
    }
  }

  lemma GiveInv(s: State, id: int)
    requires Inv(s) && id in s.sems && !Private(s.mail, id)
    ensures s.th.ready != [] && Inv(GiveSem(s, id))
  {
    hide Placed, Tabled, Sorted, Conserved, Receivers, Mourned, Stocked, Private, GiveSem;
    CurrentFacts(s);
    GiveSemPlaced(s, id);
    GiveSemThreads(s, id);
    GiveSemParts(s, id);
    GiveSemStocked(s, id);
    ConservedGive(s, id);
  }

  /** The appended message and its coin, or its grant, balance on queue q. */
  lemma PostSupplied(s: State, q: int, msg: Bytes)
    requires Placed(s.th, s.sems) && s.th.ready != [] && q in s.mail.queues && s.mail.queues[q].sem in s.sems
    requires var m := s.mail.queues[q]; Supplied(m, s.sems[m.sem], Granted(s.mail.pending, s.th.status, q, m.sem))
    requires forall t :: t in s.th.status && s.th.status[t] == Waiting(s.mail.queues[q].sem) ==> t in s.mail.pending && s.mail.pending[t] == q
    ensures var m := s.mail.queues[q];
            var s' := GiveSem(Appended(s, q, msg), m.sem);
            Supplied(Enqueue(m, msg), s'.sems[m.sem], Granted(s.mail.pending, s'.th.status, q, m.sem))
  {
    var m := s.mail.queues[q];
    GiveSemThreads(Appended(s, q, msg), m.sem);
    var w := s.sems[m.sem].waiters;
    hide Placed, GiveSem;
    if w != [] {
      GrantedHandOff(s.mail.pending, s.th.status, w[0], q, m.sem);
    }
  }

  /** The other queues do not notice. */
  lemma PostOther(s: State, q: int, msg: Bytes, r: int)
    requires Placed(s.th, s.sems) && s.th.ready != [] && q in s.mail.queues && s.mail.queues[q].sem in s.sems
    requires r in s.mail.queues && r != q && s.mail.queues[r].sem in s.sems && s.mail.queues[r].sem != s.mail.queues[q].sem
    requires forall t :: t in s.th.status && s.th.status[t] == Waiting(s.mail.queues[q].sem) ==> t in s.mail.pending && s.mail.pending[t] == q
    ensures var m := s.mail.queues[r];
            var s' := GiveSem(Appended(s, q, msg), s.mail.queues[q].sem);
            && s'.sems[m.sem] == s.sems[m.sem]
            && Granted(s.mail.pending, s'.th.status, r, m.sem) == Granted(s.mail.pending, s.th.status, r, m.sem)
  {
    GiveSemThreads(Appended(s, q, msg), s.mail.queues[q].sem);
    var w := s.sems[s.mail.queues[q].sem].waiters;
    hide Placed, GiveSem;
    if w != [] {
      GrantedOther(s.mail.pending, s.th.status, w[0], Ready, r, s.mail.queues[r].sem);
    }
  }

  lemma OnlyReceivers(status: map<Ctx, Status>, mail: Mail, idle: Ctx, q: int)
    requires Receivers(status, mail, idle) && q in mail.queues
    ensures forall t :: t in status && status[t] == Waiting(mail.queues[q].sem) ==> t in mail.pending && mail.pending[t] == q
  {
  }

  lemma PostStocked(s: State, q: int, msg: Bytes)
    requires Runs(s) && Placed(s.th, s.sems) && Stocked(s) && Receivers(s.th.status, s.mail, s.env.idle)
    requires q in s.mail.queues
    ensures Stocked(Post(s, q, msg))
  {
    hide Placed, GiveSem, Supplied, Granted, Receivers;
    var sem := s.mail.queues[q].sem;
    var s' := Post(s, q, msg);
    assert s' == GiveSem(Appended(s, q, msg), sem);
    hide Post, Runs;
    GiveSemThreads(Appended(s, q, msg), sem);
    OnlyReceivers(s.th.status, s.mail, s.env.idle, q);
    PostSupplied(s, q, msg);
    forall r | r in s'.mail.queues
      ensures var m := s'.mail.queues[r];
              m.sem in s'.sems && Supplied(m, s'.sems[m.sem], Granted(s'.mail.pending, s'.th.status, r, m.sem))
    {
      assert s.mail.queues[r].sem in s.sems;
      if r != q {
        PostOther(s, q, msg, r);
      }
    }
  }

  /** All parts but the zombie protocol survive any message. */
  lemma PostParts(s: State, q: int, msg: Bytes)
    requires Inv(s) && q in s.mail.queues
    ensures Runs(s)
    ensures var s' := Post(s, q, msg);
            && Placed(s'.th, s'.sems) && SkewOk(s'.th, s'.env)
            && Tabled(s'.th.status, s'.reg, s'.env)
            && Sorted(s'.th.sleeping, s'.th.wake)
            && Conserved(s'.sems) && Stocked(s')
            && Receivers(s'.th.status, s'.mail, s'.env.idle)
            && NobodyMoves(s'.th.status)
            && s'.mail == Appended(s, q, msg).mail && s'.reg == s.reg && s'.env == s.env
            && s'.th.ready != [] && s'.th.ready[0] == s.th.ready[0]
    ensures forall letters :: Mourned(letters, s.mail.reaping, s.th.status, s.reg)
              ==> Mourned(letters, s.mail.reaping, Post(s, q, msg).th.status, s.reg)
  {
    Current(s);
    var s0 := Appended(s, q, msg);
    var sem := s.mail.queues[q].sem;
    assert Post(s, q, msg) == GiveSem(s0, sem);
    hide Placed, Tabled, Sorted, Conserved, Receivers, Mourned, Stocked, GiveSem, Post;
    PostRuns(s, q, msg);
    PostStocked(s, q, msg);
    ReceiversQueue(s.th.status, s.mail, s.env.idle, q, Enqueue(s.mail.queues[q], msg));
    GiveSemPlaced(s0, sem);
    GiveSemThreads(s0, sem);
    GiveSemParts(s0, sem);
    ConservedGive(s0, sem);
  }

  lemma SendInv(s: State, q: int, msg: Bytes)
    requires Inv(s) && q in s.mail.queues && q != s.env.waitMq
    ensures Runs(s) && Inv(Post(s, q, msg))
  {
    PostParts(s, q, msg);
    hide Placed, Tabled, Sorted, Conserved, Receivers, Mourned, Stocked, Post, Runs;
    InvParts(s);
    InvParts(Post(s, q, msg));
  }

  // ---- death --------------------------------------------------------------------------------

  /** A thread whose id has just been posted leaves the ring. */
  lemma BuryInv(s: State, letters: seq<Bytes>)
    requires Placed(s.th, s.sems) && SkewOk(s.th, s.env) && Tabled(s.th.status, s.reg, s.env)
    requires Sorted(s.th.sleeping, s.th.wake) && Conserved(s.sems) && Stocked(s)
    requires Receivers(s.th.status, s.mail, s.env.idle) && NobodyMoves(s.th.status)
    requires Mourned(letters, s.mail.reaping, s.th.status, s.reg)
    requires s.th.ready != [] && s.th.ready[0] in s.reg.ids && s.env.waitMq in s.mail.queues
    requires s.mail.queues[s.env.waitMq].messages == letters + [EncodeInt(s.reg.ids[s.th.ready[0]])]
    requires s.th.ready[0] != s.env.idle && s.th.ready[0] != s.env.main
    ensures Inv(s.(th := Unready(s.th, Dead)))
  {
    hide Placed, Tabled, Sorted, Conserved, Receivers, Mourned, Stocked, EncodeInt;
    ReadyStatus(s);
    var t := s.th.ready[0];
    UnreadyPlaced(s.th, s.sems, Dead);
    TabledMove(s.th.status, s.reg, s.env, t, Dead);
    ReceiversMove(s.th.status, s.mail, s.env.idle, t, Dead);
    MournedDeath(letters, s.mail.reaping, s.th.status, s.reg, s.env, t);
    StockedMove(s, t, Dead);
    StockedSame(s.(th := s.th.(status := s.th.status[t := Dead])), s.(th := Unready(s.th, Dead)));
  }

  lemma RetireInv(s: State)
    requires Inv(s)
    ensures Runs(s)
    ensures s.th.ready[0] != s.env.idle && s.th.ready[0] != s.env.main ==> Inv(Retire(s))
  {
    CurrentFacts(s);
    Current(s);
    var t := s.th.ready[0];
    if t != s.env.idle && t != s.env.main {
      var msg := EncodeInt(IdOf(s.reg, t));
      PostParts(s, s.env.waitMq, msg);
      hide Placed, Tabled, Sorted, Conserved, Receivers, Mourned, Stocked, Post, Runs, EncodeInt;
      InvParts(s);
      BuryInv(Post(s, s.env.waitMq, msg), s.mail.queues[s.env.waitMq].messages);
    }
  }

  lemma ReadyStatus(s: State)
    requires Placed(s.th, s.sems) && s.th.ready != []
    ensures s.th.ready[0] in s.th.status && s.th.status[s.th.ready[0]] == Ready
  {
  }

  lemma DispatchInv(s: State)
    requires Inv(s)
    ensures Runs(s) && Inv(Dispatch(s))
  {
    CurrentFacts(s);
    RetireInv(s);
    hide Placed, Tabled, Sorted, Conserved, Receivers, Mourned, Stocked, Retire;
  }

  // ---- taking coins -------------------------------------------------------------------------

  lemma TakeCoinInv(s: State, id: int)
    requires Inv(s) && id in s.sems && !Private(s.mail, id) && s.sems[id].counter > 0
    ensures Inv(TakeCoin(s, id))
  {
    hide Placed, Tabled, Sorted, Receivers, Mourned, Stocked, Private, Conserved;
    ConservedTake(s, id);
    PlacedCounter(s.th, s.sems, id, TakeCoin(s, id).sems[id]);
    StockedCounter(s, id, TakeCoin(s, id).sems[id]);
  }

  /** The waiters stay as they are. */
  lemma PlacedCounter(th: Threads, sems: map<int, Semaphore>, id: int, m: Semaphore)
    requires Placed(th, sems) && id in sems && m.waiters == sems[id].waiters
    ensures Placed(th, sems[id := m])
  {
  }

  lemma StockedCounter(s: State, id: int, m: Semaphore)
    requires Stocked(s) && !Private(s.mail, id)
    ensures Stocked(s.(sems := s.sems[id := m]))
  {
  }

  /** Blocking at a semaphore no queue owns. */
  lemma ParkInv(s: State, id: int)
    requires Inv(s) && id in s.sems && !Private(s.mail, id) && s.sems[id].counter <= 0
    requires s.th.ready != [] && s.th.ready[0] != s.env.idle
    requires s.th.ready[0] !in s.mail.pending && s.th.ready[0] !in s.mail.reaping
    ensures Inv(Park(s, id))
  {
    hide Placed, Tabled, Sorted, Receivers, Mourned, Stocked, Private, Conserved;
    CurrentFacts(s);
    var t := s.th.ready[0];
    ConservedPark(s, id);
    ParkPlaced(s, id);
    TabledMove(s.th.status, s.reg, s.env, t, Waiting(id));
    ReceiversMove(s.th.status, s.mail, s.env.idle, t, Waiting(id));
    MournedMove(s.mail.queues[s.env.waitMq].messages, s.mail.reaping, s.th.status, s.reg, t, Waiting(id));
    ParkStocked(s, id);
  }

  lemma ParkStocked(s: State, id: int)
    requires Stocked(s) && id in s.sems && !Private(s.mail, id) && s.th.ready != []
    requires var t := s.th.ready[0]; t in s.th.status && !s.th.status[t].Waiting? && t !in s.mail.pending
    ensures Stocked(Park(s, id))
  {
    hide Stocked, Private;
    var t := s.th.ready[0];
    StockedMove(s, t, Waiting(id));
    var s1 := s.(th := s.th.(status := s.th.status[t := Waiting(id)]));
    StockedCounter(s1, id, Park(s, id).sems[id]);
    StockedSame(s1.(sems := Park(s, id).sems), Park(s, id));
  }
}
