/**
 * What the steps that end in the scheduler do, told by the lists before and after: who runs next, and
 * what becomes of a thread that was killed.
 */
module KernelSwitches {
  import opened Contexts
  import opened KernelState
  import opened KernelCases
  import opened KernelPlaces
  import opened KernelCoins
  import opened KernelRuns

  // ---- who runs next ------------------------------------------------------------------------------

  /** The sleepers whose time has come, latest first. */
  function Woken(q: seq<Ctx>, wake: map<Ctx, int>, now: int): seq<Ctx> {
    if q == [] then [] else Woken(q[1..], wake, now) + if q[0] in wake && wake[q[0]] <= now then [q[0]] else []
  }

  /** The sleepers whose time has not come. */
  function Asleep(q: seq<Ctx>, wake: map<Ctx, int>, now: int): seq<Ctx> {
    if q == [] then [] else (if q[0] in wake && wake[q[0]] <= now then [] else [q[0]]) + Asleep(q[1..], wake, now)
  }

  function First(q: seq<Ctx>): seq<Ctx> {
    if q == [] then [] else [q[0]]
  }

  function Rest(q: seq<Ctx>): seq<Ctx> {
    if q == [] then [] else q[1..]
  }

  /** The semaphore of the queue of the zombies, and the threads blocked there in wait(). */
  ghost function ZombieSem(s: State): int
    requires Runs(s)
  {
    s.mail.queues[s.env.waitMq].sem
  }

  ghost function Mourners(s: State): seq<Ctx>
    requires Runs(s)
  {
    s.sems[ZombieSem(s)].waiters
  }

  /** The step takes a coin of the semaphore, at once or when it is given one. */
  ghost predicate Takes(s: State, op: Op, id: int) {
    || op == Take(id)
    || (op.Receive? && op.queue in s.mail.queues && s.mail.queues[op.queue].sem == id)
    || (op.Wait? && s.env.waitMq in s.mail.queues && s.mail.queues[s.env.waitMq].sem == id)
  }

  ghost predicate Blocks(s: State, op: Op, id: int) {
    Takes(s, op, id) && id in s.sems && s.sems[id].counter <= 0
  }

  /** The step ends in the scheduler, because of the timer or because the current thread leaves the ring. */
  ghost predicate Switches(s: State, op: Op) {
    match op
    case Yield(_) => true
    case Sleep(_, _) => true
    case Exit => true
    case Take(id) => Blocks(s, op, id)
    case Receive(q) => q in s.mail.queues && Blocks(s, op, s.mail.queues[q].sem)
    case Wait => s.env.waitMq in s.mail.queues && Blocks(s, op, s.mail.queues[s.env.waitMq].sem)
    case _ => false
  }

  /** The threads that are ready when the scheduler is entered, in the order in which they come. */
  ghost function Line(s: State, op: Op): seq<Ctx>
    requires Runs(s)
  {
    match op
    case Yield(now) => Woken(s.th.sleeping, s.th.wake, now) + s.th.ready[1..] + [s.th.ready[0]]
    case Exit => First(Mourners(s)) + s.th.ready[1..]
    case _ => s.th.ready[1..]
  }

  /** The threads in wait() when the scheduler is entered. */
  ghost function Waiters(s: State, op: Op): seq<Ctx>
    requires Runs(s)
  {
    match op
    case Exit => Rest(Mourners(s))
    case Wait => [s.th.ready[0]] + Mourners(s)
    case _ => Mourners(s)
  }

  /** The threads that die in a step: the one that exits, and the next one if it has been killed. */
  ghost function Dying(s: State, op: Op): seq<Ctx>
    requires Runs(s)
  {
    (if op.Exit? then [s.th.ready[0]] else []) +
    (if Switches(s, op) && Line(s, op) != [] && Line(s, op)[0] in s.reg.zombi then [Line(s, op)[0]] else [])
  }

  /** The messages that announce the death of some threads. */
  function Letters(reg: Registry, dead: seq<Ctx>): seq<Bytes> {
    if dead == [] then [] else [EncodeInt(IdOf(reg, dead[0]))] + Letters(reg, dead[1..])
  }

  // ---- one death ----------------------------------------------------------------------------------

  /** The queues but for that of the zombies, of which only `sent` and `messages` may differ. */
  ghost predicate QueuesSame(mail: Mail, mail': Mail, waitMq: int)
    requires waitMq in mail.queues
  {
    && mail'.queues.Keys == mail.queues.Keys
    && (forall q :: q in mail.queues && q != waitMq ==> mail'.queues[q] == mail.queues[q])
    && mail'.queues[waitMq].sem == mail.queues[waitMq].sem
    && mail'.queues[waitMq].received == mail.queues[waitMq].received
  }

  /** Nothing happens to the other semaphores and queues, to receivers and to sleepers. */
  ghost predicate OthersSame(s: State, s': State)
    requires Runs(s)
  {
    && s'.sems.Keys == s.sems.Keys
    && (forall id :: id in s.sems && id != ZombieSem(s) ==> s'.sems[id] == s.sems[id])
    && QueuesSame(s.mail, s'.mail, s.env.waitMq)
    && s'.mail.pending == s.mail.pending && s'.mail.reaping == s.mail.reaping
    && s'.reg == s.reg && s'.env == s.env
    && s'.th.sleeping == s.th.sleeping && s'.th.wake == s.th.wake
  }

  /** The coins of the zombies, after n more of them were given. */
  ghost predicate CoinsGiven(m: Semaphore, m': Semaphore, n: nat) {
    m'.initial == m.initial && m'.gives == m.gives + n && m'.taken + |m'.waiters| == m.taken + |m.waiters|
  }

  ghost predicate DeadAre(th: Threads, th': Threads, dead: seq<Ctx>) {
    && th'.status.Keys == th.status.Keys
    && (forall t :: t in dead ==> t in th.status && th.status[t] != Dead)
    && (forall t :: t in th.status ==> (th'.status[t] == Dead <==> th.status[t] == Dead || t in dead))
  }

  /** The threads in `dead` leave: the first thread of the ring or nobody. */
  ghost predicate Left(s: State, s': State, dead: seq<Ctx>)
    requires Runs(s)
  {
    && OthersSame(s, s')
    && DeadAre(s.th, s'.th, dead)
    && s'.mail.queues[s.env.waitMq].sent == s.mail.queues[s.env.waitMq].sent + Letters(s.reg, dead)
    && CoinsGiven(s.sems[ZombieSem(s)], s'.sems[ZombieSem(s)], |dead|)
  }

  /** A give, on the ring and on the semaphore. */
  lemma GiveSemRing(s: State, id: int)
    requires s.th.ready != [] && id in s.sems
    ensures var m, m', th := s.sems[id], GiveSem(s, id).sems[id], GiveSem(s, id).th;
            && m'.waiters == Rest(m.waiters) && CoinsGiven(m, m', 1)
            && th.ready == [s.th.ready[0]] + First(m.waiters) + s.th.ready[1..]
            && th.status == if m.waiters == [] then s.th.status else s.th.status[m.waiters[0] := Ready]
  {
  }

  /** The current thread announces its death. */
  lemma PostLeft(s: State, msg: Bytes)
    requires Runs(s) && Placed(s.th, s.sems)
    ensures var s' := Post(s, s.env.waitMq, msg);
            && OthersSame(s, s') && CoinsGiven(s.sems[ZombieSem(s)], s'.sems[ZombieSem(s)], 1)
            && s'.mail.queues[s.env.waitMq].sent == s.mail.queues[s.env.waitMq].sent + [msg]
            && s'.sems[ZombieSem(s)].waiters == Rest(Mourners(s))
            && s'.th.ready == [s.th.ready[0]] + First(Mourners(s)) + s.th.ready[1..]
            && (Mourners(s) == [] ==> s'.th.status == s.th.status)
            && (Mourners(s) != [] ==> var w := Mourners(s)[0];
                  w in s.th.status && s.th.status[w] == Waiting(ZombieSem(s)) && s'.th.status == s.th.status[w := Ready])
  {
    hide GiveSem, Placed, CoinsGiven, Runs, QueuesSame;
    ReadyThere(s);
    var s0 := Appended(s, s.env.waitMq, msg);
    GiveSemThreads(s0, ZombieSem(s));
    GiveSemRing(s0, ZombieSem(s));
    AppendedSame(s.mail, s.env.waitMq, msg);
  }

  lemma AppendedSame(mail: Mail, q: int, msg: Bytes)
    requires q in mail.queues
    ensures QueuesSame(mail, mail.(queues := mail.queues[q := Enqueue(mail.queues[q], msg)]), q)
    ensures Enqueue(mail.queues[q], msg).sent == mail.queues[q].sent + [msg]
  {
  }

  lemma BuriedDead(th: Threads, t: Ctx, w: seq<Ctx>, sem: int, th': Threads)
    requires t in th.status && th.status[t] == Ready && th.ready != []
    requires w == [] ==> th'.status == th.status
    requires w != [] ==> w[0] in th.status && th.status[w[0]] == Waiting(sem) && th'.status == th.status[w[0] := Ready]
    requires th'.ready == [t] + First(w) + th.ready[1..]
    ensures var r := Unready(th', Dead);
            DeadAre(th, r, [t]) && r.ready == First(w) + th.ready[1..] && !r.skew && r.sleeping == th'.sleeping && r.wake == th'.wake
  {
    assert ([t] + First(w) + th.ready[1..])[1..] == First(w) + th.ready[1..];
  }

  lemma RetireLeft(s: State)
    requires Runs(s) && Placed(s.th, s.sems)
    ensures var s' := Retire(s);
            && Left(s, s', [s.th.ready[0]]) && !s'.th.skew
            && s'.th.ready == First(Mourners(s)) + s.th.ready[1..]
            && s'.sems[ZombieSem(s)].waiters == Rest(Mourners(s))
  {
    hide EncodeInt, Placed, CoinsGiven, Post, First, Rest, Unready, DeadAre;
    var t := s.th.ready[0];
    var msg := EncodeInt(IdOf(s.reg, t));
    ReadyStatus(s);
    PostLeft(s, msg);
    BuriedDead(s.th, t, Mourners(s), ZombieSem(s), Post(s, s.env.waitMq, msg).th);
    assert Letters(s.reg, [t]) == [msg];
  }

  /** The scheduler lets the first thread run, unless it has been killed. */
  lemma DispatchLeft(s: State)
    requires Runs(s) && Placed(s.th, s.sems) && !s.th.skew
    ensures var s', x := Dispatch(s), s.th.ready[0];
            && Left(s, s', if x in s.reg.zombi then [x] else []) && !s'.th.skew
            && s'.th.ready == (if x in s.reg.zombi then First(Mourners(s)) + s.th.ready[1..] else s.th.ready)
            && s'.sems[ZombieSem(s)].waiters == if x in s.reg.zombi then Rest(Mourners(s)) else Mourners(s)
  {
    hide Retire, Placed, EncodeInt;
    if s.th.ready[0] in s.reg.zombi {
      RetireLeft(s);
    }
  }

  // ---- the ring when the scheduler is entered -----------------------------------------------------

  /** When the first sleeper is not due, nobody is. */
  lemma {:induction false} NobodyDue(q: seq<Ctx>, wake: map<Ctx, int>, now: int)
    requires Sorted(q, wake) && (q != [] ==> wake[q[0]] > now)
    ensures Woken(q, wake, now) == [] && Asleep(q, wake, now) == q
  {
    if q != [] {
      assert q[0] in q;
      SortedTail(q, wake);
      if q[1..] != [] {
        assert q[1..][0] == q[1];
      }
      NobodyDue(q[1..], wake, now);
    }
  }

  lemma SortedTail(q: seq<Ctx>, wake: map<Ctx, int>)
    requires Sorted(q, wake) && q != []
    ensures Sorted(q[1..], wake)
  {
    assert forall i :: 0 <= i < |q[1..]| ==> q[1..][i] == q[i + 1];
  }

  /** The wake-up loop puts all the sleepers that are due behind the current thread, latest first. */
  lemma {:induction false} WakeDueLine(th: Threads, now: int)
    requires Sorted(th.sleeping, th.wake) && th.ready != []
    ensures var r := WakeDue(th, now);
            && r.ready == [th.ready[0]] + Woken(th.sleeping, th.wake, now) + th.ready[1..]
            && r.sleeping == Asleep(th.sleeping, th.wake, now) && r.wake == th.wake
    decreases |th.sleeping|
  {
    if Due(th, now) {
      var t, th1 := th.sleeping[0], WakeOne(th);
      SortedTail(th.sleeping, th.wake);
      WakeDueLine(th1, now);
      WokenLast(th, now);
    } else {
      assert th.sleeping != [] ==> th.sleeping[0] in th.sleeping;
      NobodyDue(th.sleeping, th.wake, now);
      assert th.ready == [th.ready[0]] + [] + th.ready[1..];
    }
  }

  lemma WokenLast(th: Threads, now: int)
    requires th.ready != [] && Due(th, now)
    ensures Woken(th.sleeping, th.wake, now) == Woken(th.sleeping[1..], th.wake, now) + [th.sleeping[0]]
    ensures Asleep(th.sleeping, th.wake, now) == Asleep(th.sleeping[1..], th.wake, now)
    ensures var th1 := WakeOne(th);
            && th1.sleeping == th.sleeping[1..] && th1.wake == th.wake && th1.ready != [] && th1.ready[0] == th.ready[0]
            && [th1.ready[0]] + Woken(th1.sleeping, th1.wake, now) + th1.ready[1..]
            == [th.ready[0]] + Woken(th.sleeping, th.wake, now) + th.ready[1..]
  {
    var w := Woken(th.sleeping[1..], th.wake, now);
    assert WakeOne(th).ready[1..] == [th.sleeping[0]] + th.ready[1..];
    assert [th.ready[0]] + (w + [th.sleeping[0]]) + th.ready[1..] == [th.ready[0]] + w + ([th.sleeping[0]] + th.ready[1..]);
    assert Asleep(th.sleeping, th.wake, now) == [] + Asleep(th.sleeping[1..], th.wake, now);
  }

  /** No status becomes or ceases to be Dead. */
  lemma {:induction false} WakeDueDead(th: Threads, sems: map<int, Semaphore>, now: int)
    requires Placed(th, sems) && th.ready != []
    ensures DeadAre(th, WakeDue(th, now), [])
    decreases |th.sleeping|
  {
    if Due(th, now) {
      assert th.sleeping[0] in th.sleeping;
      WakeOnePlaced(th, sems);
      WakeDueDead(WakeOne(th), sems, now);
    }
  }

  // ---- the step as a whole ------------------------------------------------------------------------

  /** Thread t goes into the sorted list behind those that wake up strictly before `when`. */
  ghost predicate SleepsAt(q: seq<Ctx>, q': seq<Ctx>, wake: map<Ctx, int>, t: Ctx, when: int, k: nat) {
    && k <= |q| && q' == q[..k] + [t] + q[k..]
    && (forall i :: 0 <= i < k ==> q[i] in wake && wake[q[i]] < when)
    && (forall i :: k <= i < |q| ==> q[i] in wake && wake[q[i]] >= when)
  }

  ghost predicate SleepsIn(q: seq<Ctx>, q': seq<Ctx>, wake: map<Ctx, int>, t: Ctx, when: int) {
    exists k :: SleepsAt(q, q', wake, t, when, k)
  }

  /** The sleepers after the step. */
  ghost predicate SleepersAre(s: State, op: Op, th: Threads)
    requires s.th.ready != []
  {
    match op
    case Yield(now) => th.sleeping == Asleep(s.th.sleeping, s.th.wake, now) && th.wake == s.th.wake
    case Sleep(seconds, now) =>
      && th.wake == s.th.wake[s.th.ready[0] := now + seconds]
      && SleepsIn(s.th.sleeping, th.sleeping, s.th.wake, s.th.ready[0], now + seconds)
    case _ => th.sleeping == s.th.sleeping && th.wake == s.th.wake
  }

  /** The semaphores after the step, when n threads died in it. */
  ghost predicate SemaphoresAre(s: State, op: Op, sems: map<int, Semaphore>, n: nat)
    requires Runs(s)
  {
    && sems.Keys == s.sems.Keys
    && (forall id :: id in s.sems && id != ZombieSem(s) ==>
          sems[id] == if Takes(s, op, id) then s.sems[id].(waiters := [s.th.ready[0]] + s.sems[id].waiters) else s.sems[id])
    && var m, m' := s.sems[ZombieSem(s)], sems[ZombieSem(s)];
       && m'.initial == m.initial && m'.gives == m.gives + n
       && m'.taken + |m'.waiters| == m.taken + |m.waiters| + if Takes(s, op, ZombieSem(s)) then 1 else 0
  }

  /** The queues after the step, when the threads in `dead` died in it, and what is received. */
  ghost predicate QueuesAre(s: State, op: Op, mail: Mail, dead: seq<Ctx>)
    requires Runs(s)
  {
    && QueuesSame(s.mail, mail, s.env.waitMq)
    && mail.queues[s.env.waitMq].sent == s.mail.queues[s.env.waitMq].sent + Letters(s.reg, dead)
    && mail.pending == (if op.Receive? then s.mail.pending[s.th.ready[0] := op.queue]
                        else if op.Wait? then s.mail.pending[s.th.ready[0] := s.env.waitMq] else s.mail.pending)
    && mail.reaping == s.mail.reaping
  }

  /** Everything but the ring and the threads in wait(). */
  ghost predicate Switched(s: State, op: Op, s': State, dead: seq<Ctx>)
    requires Runs(s)
  {
    && DeadAre(s.th, s'.th, dead)
    && SleepersAre(s, op, s'.th)
    && SemaphoresAre(s, op, s'.sems, |dead|)
    && QueuesAre(s, op, s'.mail, dead)
    && s'.reg == s.reg && s'.env == s.env
  }

  /** State m is the one in which the scheduler is entered. */
  ghost predicate Entered(s: State, op: Op, m: State)
    requires Runs(s)
  {
    && Runs(m) && Placed(m.th, m.sems)
    && m.th.ready == Line(s, op) && m.sems[ZombieSem(m)].waiters == Waiters(s, op)
    && !m.th.skew && Switched(s, op, m, if op.Exit? then [s.th.ready[0]] else [])
  }

  lemma LettersJoin(reg: Registry, a: seq<Ctx>, b: seq<Ctx>)
    requires |a| <= 1
    ensures Letters(reg, a + b) == Letters(reg, a) + Letters(reg, b)
  {
    if a != [] {
      assert (a + b)[1..] == b;
      assert a[1..] == [];
    } else {
      assert a + b == b;
    }
  }

  lemma SemaphoresThen(s: State, op: Op, m: State, s': State, j: nat, k: nat)
    requires Runs(s) && Runs(m) && m.env == s.env && ZombieSem(m) == ZombieSem(s)
    requires SemaphoresAre(s, op, m.sems, j) && OthersSame(m, s') && CoinsGiven(m.sems[ZombieSem(m)], s'.sems[ZombieSem(m)], k)
    ensures SemaphoresAre(s, op, s'.sems, j + k)
  {
    hide Takes, Runs;
  }

  lemma QueuesSameThen(mail: Mail, mail1: Mail, mail2: Mail, waitMq: int)
    requires waitMq in mail.queues && QueuesSame(mail, mail1, waitMq) && QueuesSame(mail1, mail2, waitMq)
    ensures QueuesSame(mail, mail2, waitMq)
  {
  }

  lemma SentThen(sent: seq<Bytes>, sent1: seq<Bytes>, sent2: seq<Bytes>, reg: Registry, a: seq<Ctx>, b: seq<Ctx>)
    requires sent1 == sent + Letters(reg, a) && sent2 == sent1 + Letters(reg, b) && |a| <= 1
    ensures sent2 == sent + Letters(reg, a + b)
  {
    LettersJoin(reg, a, b);
    hide Letters;
  }

  lemma QueuesThen(s: State, op: Op, m: State, s': State, a: seq<Ctx>, b: seq<Ctx>)
    requires Runs(s) && Runs(m) && m.env == s.env && |a| <= 1
    requires QueuesAre(s, op, m.mail, a) && OthersSame(m, s')
    requires s'.mail.queues[s.env.waitMq].sent == m.mail.queues[s.env.waitMq].sent + Letters(s.reg, b)
    ensures QueuesAre(s, op, s'.mail, a + b)
  {
    hide Letters, QueuesSame;
    var q := s.env.waitMq;
    QueuesSameThen(s.mail, m.mail, s'.mail, q);
    QueuesKept(s.mail, m.mail, q);
    QueuesKept(s.mail, s'.mail, q);
    SentThen(s.mail.queues[q].sent, m.mail.queues[q].sent, s'.mail.queues[q].sent, s.reg, a, b);
  }

  lemma QueuesKept(mail: Mail, mail': Mail, waitMq: int)
    requires waitMq in mail.queues && QueuesSame(mail, mail', waitMq)
    ensures waitMq in mail'.queues
  {
  }

  lemma SleepersThen(s: State, op: Op, m: Threads, th: Threads)
    requires s.th.ready != [] && SleepersAre(s, op, m) && th.sleeping == m.sleeping && th.wake == m.wake
    ensures SleepersAre(s, op, th)
  {
    hide SleepsIn, Asleep;
  }

  lemma DeadThen(th: Threads, m: Threads, th': Threads, a: seq<Ctx>, b: seq<Ctx>)
    requires DeadAre(th, m, a) && DeadAre(m, th', b)
    ensures DeadAre(th, th', a + b)
  {
  }

  lemma SameZombieSem(s: State, op: Op, m: State, dead: seq<Ctx>)
    requires Runs(s) && Runs(m) && m.env == s.env && QueuesAre(s, op, m.mail, dead)
    ensures ZombieSem(m) == ZombieSem(s) && s.th.ready != []
  {
    hide Letters;
  }

  lemma OthersKept(s: State, s': State)
    requires Runs(s) && OthersSame(s, s')
    ensures s'.th.sleeping == s.th.sleeping && s'.th.wake == s.th.wake && s'.reg == s.reg && s'.env == s.env
  {
    hide QueuesSame, Runs;
  }

  lemma SwitchedThen(s: State, op: Op, m: State, s': State, a: seq<Ctx>, b: seq<Ctx>)
    requires Runs(s) && Runs(m) && Switched(s, op, m, a) && Left(m, s', b) && |a| <= 1
    ensures Switched(s, op, s', a + b)
  {
    hide Letters, Takes, QueuesAre, OthersSame, SemaphoresAre, SleepersAre, DeadAre, CoinsGiven, Runs;
    SameZombieSem(s, op, m, a);
    OthersKept(m, s');
    SemaphoresThen(s, op, m, s', |a|, |b|);
    QueuesThen(s, op, m, s', a, b);
    SleepersThen(s, op, m.th, s'.th);
    DeadThen(s.th, m.th, s'.th, a, b);
  }

  // ---- how each step enters the scheduler ---------------------------------------------------------

  lemma QueuesStill(s: State, op: Op)
    requires Runs(s) && !op.Receive? && !op.Wait?
    ensures QueuesAre(s, op, s.mail, [])
  {
  }

  lemma SemaphoresStill(s: State, op: Op)
    requires Runs(s) && (op.Yield? || op.Sleep? || op.Exit?)
    ensures SemaphoresAre(s, op, s.sems, 0)
  {
  }

  lemma Assembled(s: State, op: Op, m: State, dead: seq<Ctx>)
    requires Runs(s) && Runs(m) && Placed(m.th, m.sems) && !m.th.skew && m.th.ready == Line(s, op)
    requires m.env == s.env && m.reg == s.reg && ZombieSem(m) == ZombieSem(s)
    requires m.sems[ZombieSem(s)].waiters == Waiters(s, op)
    requires DeadAre(s.th, m.th, dead) && SleepersAre(s, op, m.th)
    requires SemaphoresAre(s, op, m.sems, |dead|) && QueuesAre(s, op, m.mail, dead)
    requires dead == if op.Exit? then [s.th.ready[0]] else []
    ensures Entered(s, op, m)
  {
    hide Runs, Placed, Line, Waiters, DeadAre, SleepersAre, SemaphoresAre, QueuesAre, ZombieSem;
  }

  /** The threads after a yield. */
  lemma YieldThreads(s: State, now: int)
    requires Runs(s) && Placed(s.th, s.sems) && Sorted(s.th.sleeping, s.th.wake) && (s.th.skew ==> Due(s.th, now))
    ensures var th := Advance(WakeDue(s.th, now));
            && Placed(th, s.sems) && !th.skew && th.ready == Line(s, Yield(now))
            && DeadAre(s.th, th, []) && SleepersAre(s, Yield(now), th)
  {
    hide Sorted, Placed, WakeDue, Due, Woken, Asleep;
    var r := WakeDue(s.th, now);
    WakeDueLine(s.th, now);
    WakeDuePlaced(s.th, s.sems, now);
    WakeDueDead(s.th, s.sems, now);
    AdvancePlaced(r, s.sems);
    assert r.ready[1..] == Woken(s.th.sleeping, s.th.wake, now) + s.th.ready[1..];
  }

  /** The queue of the zombies is the same in two states with the same queues. */
  lemma SameZombies(s: State, m: State)
    requires Runs(s) && Runs(m) && m.env == s.env && m.mail.queues == s.mail.queues
    ensures ZombieSem(m) == ZombieSem(s)
    ensures m.sems == s.sems ==> m.sems[ZombieSem(s)].waiters == Mourners(s)
  {
    hide Runs;
  }

  lemma YieldEntered(s: State, now: int)
    requires Runs(s) && Placed(s.th, s.sems) && Sorted(s.th.sleeping, s.th.wake) && (s.th.skew ==> Due(s.th, now))
    ensures Entered(s, Yield(now), s.(th := Advance(WakeDue(s.th, now))))
  {
    hide *;
    ReadyThere(s);
    var m := s.(th := Advance(WakeDue(s.th, now)));
    YieldRuns(s, now);
    YieldThreads(s, now);
    SameZombies(s, m);
    WaitersStill(s, Yield(now));
    QueuesStill(s, Yield(now));
    SemaphoresStill(s, Yield(now));
    Assembled(s, Yield(now), m, []);
  }

  lemma WaitersStill(s: State, op: Op)
    requires Runs(s) && !op.Exit? && !op.Wait?
    ensures Waiters(s, op) == Mourners(s)
  {
  }

  lemma DozeSleepers(th: Threads, when: int)
    requires th.ready != [] && Sorted(th.sleeping, th.wake) && th.ready[0] !in th.sleeping
    ensures SleepsIn(th.sleeping, Doze(th, when).sleeping, th.wake, th.ready[0], when)
  {
    var q, t := th.sleeping, th.ready[0];
    var k := InsertPosition(q, th.wake[t := when], t);
    forall i | k <= i < |q| ensures q[i] in th.wake && th.wake[q[i]] >= when {
      assert q[i] in q && q[k] in q;
    }
    assert SleepsAt(q, Doze(th, when).sleeping, th.wake, t, when, k);
  }

  lemma DozeDead(th: Threads, when: int)
    requires th.ready != [] && th.ready[0] in th.status && th.status[th.ready[0]] == Ready
    ensures var r := Doze(th, when);
            DeadAre(th, r, []) && !r.skew && r.ready == th.ready[1..] && r.wake == th.wake[th.ready[0] := when]
  {
    hide InsertByWake;
  }

  lemma NotAsleep(th: Threads, sems: map<int, Semaphore>)
    requires Placed(th, sems) && th.ready != []
    ensures th.ready[0] in th.status && th.status[th.ready[0]] == Ready && th.ready[0] !in th.sleeping
  {
    assert th.ready[0] in th.ready;
  }

  lemma SleepLine(s: State, seconds: int, now: int, th: Threads)
    requires Runs(s) && th.wake == s.th.wake[s.th.ready[0] := now + seconds]
    requires SleepsIn(s.th.sleeping, th.sleeping, s.th.wake, s.th.ready[0], now + seconds)
    ensures SleepersAre(s, Sleep(seconds, now), th) && Line(s, Sleep(seconds, now)) == s.th.ready[1..]
  {
    hide SleepsIn;
  }

  lemma SleepThreads(s: State, seconds: int, now: int)
    requires Runs(s) && Placed(s.th, s.sems) && Sorted(s.th.sleeping, s.th.wake)
    ensures var th := Doze(s.th, now + seconds);
            && Placed(th, s.sems) && !th.skew && th.ready == Line(s, Sleep(seconds, now))
            && DeadAre(s.th, th, []) && SleepersAre(s, Sleep(seconds, now), th)
  {
    hide *;
    ReadyThere(s);
    NotAsleep(s.th, s.sems);
    SleepersTimed(s.th.sleeping, s.th.wake);
    DozePlaced(s.th, s.sems, now + seconds);
    DozeDead(s.th, now + seconds);
    DozeSleepers(s.th, now + seconds);
    SleepLine(s, seconds, now, Doze(s.th, now + seconds));
  }

  lemma SleepersTimed(q: seq<Ctx>, wake: map<Ctx, int>)
    requires Sorted(q, wake)
    ensures forall t :: t in q ==> t in wake
  {
  }

  lemma SleepEntered(s: State, seconds: int, now: int)
    requires Runs(s) && Placed(s.th, s.sems) && Sorted(s.th.sleeping, s.th.wake) && s.th.ready[0] != s.env.idle
    ensures Entered(s, Sleep(seconds, now), s.(th := Doze(s.th, now + seconds)))
  {
    hide *;
    ReadyThere(s);
    var op, m := Sleep(seconds, now), s.(th := Doze(s.th, now + seconds));
    DozeRuns(s, now + seconds);
    SleepThreads(s, seconds, now);
    SameZombies(s, m);
    WaitersStill(s, op);
    QueuesStill(s, op);
    SemaphoresStill(s, op);
    Assembled(s, op, m, []);
  }

  lemma SleepersStill(s: State, op: Op)
    requires s.th.ready != [] && !op.Yield? && !op.Sleep?
    ensures SleepersAre(s, op, s.th)
  {
  }

  lemma DeadStill(th: Threads)
    ensures DeadAre(th, th, [])
  {
  }

  lemma ExitSwitched(s: State)
    requires Runs(s) && Runs(Retire(s)) && Left(s, Retire(s), [s.th.ready[0]])
    ensures Switched(s, Exit, Retire(s), [s.th.ready[0]])
    ensures ZombieSem(Retire(s)) == ZombieSem(s)
  {
    hide *;
    ReadyThere(s);
    SleepersStill(s, Exit);
    DeadStill(s.th);
    QueuesStill(s, Exit);
    SemaphoresStill(s, Exit);
    StillSwitched(s, Exit);
    SwitchedThen(s, Exit, s, Retire(s), [], [s.th.ready[0]]);
    assert [] + [s.th.ready[0]] == [s.th.ready[0]];
    SwitchedParts(s, Exit, Retire(s), [s.th.ready[0]]);
    SameZombieSem(s, Exit, Retire(s), [s.th.ready[0]]);
  }

  lemma StillSwitched(s: State, op: Op)
    requires Runs(s) && DeadAre(s.th, s.th, []) && SleepersAre(s, op, s.th)
    requires SemaphoresAre(s, op, s.sems, 0) && QueuesAre(s, op, s.mail, [])
    ensures Switched(s, op, s, [])
  {
    hide Runs, DeadAre, SleepersAre, SemaphoresAre, QueuesAre;
  }

  lemma SwitchedParts(s: State, op: Op, s': State, dead: seq<Ctx>)
    requires Runs(s) && Switched(s, op, s', dead)
    ensures DeadAre(s.th, s'.th, dead) && SleepersAre(s, op, s'.th)
    ensures SemaphoresAre(s, op, s'.sems, |dead|) && QueuesAre(s, op, s'.mail, dead)
    ensures s'.reg == s.reg && s'.env == s.env
  {
    hide Runs, DeadAre, SleepersAre, SemaphoresAre, QueuesAre;
  }

  lemma ExitLine(s: State)
    requires Runs(s)
    ensures Line(s, Exit) == First(Mourners(s)) + s.th.ready[1..] && Waiters(s, Exit) == Rest(Mourners(s))
  {
  }

  lemma ExitEntered(s: State)
    requires Runs(s) && Placed(s.th, s.sems) && s.th.ready[0] != s.env.idle
    ensures Entered(s, Exit, Retire(s))
  {
    hide *;
    ReadyThere(s);
    RetireRuns(s);
    RetirePlaced(s);
    RetireLeft(s);
    ExitSwitched(s);
    SwitchedParts(s, Exit, Retire(s), [s.th.ready[0]]);
    ExitLine(s);
    Assembled(s, Exit, Retire(s), [s.th.ready[0]]);
  }

  lemma ParkSemaphores(s: State, op: Op, id: int)
    requires Runs(s) && id in s.sems
    requires forall i :: i in s.sems ==> (Takes(s, op, i) <==> i == id)
    ensures SemaphoresAre(s, op, Park(s, id).sems, 0)
    ensures Park(s, id).sems[ZombieSem(s)].waiters == if id == ZombieSem(s) then [s.th.ready[0]] + Mourners(s) else Mourners(s)
  {
    hide Takes;
  }

  lemma ParkThreads(s: State, op: Op, id: int)
    requires Runs(s) && Placed(s.th, s.sems) && id in s.sems && (op.Take? || op.Receive? || op.Wait?)
    ensures var m := Park(s, id);
            && Placed(m.th, m.sems) && !m.th.skew && m.th.ready == Line(s, op)
            && DeadAre(s.th, m.th, []) && SleepersAre(s, op, m.th)
            && m.mail == s.mail && m.reg == s.reg && m.env == s.env
  {
    hide *;
    ReadyThere(s);
    NotAsleep(s.th, s.sems);
    ParkPlaced(s, id);
    ParkedLine(s, op, id);
    SleepersStill(s, op);
    SleepersThen(s, op, s.th, Park(s, id).th);
  }

  lemma ParkedLine(s: State, op: Op, id: int)
    requires Runs(s) && s.th.ready[0] in s.th.status && s.th.status[s.th.ready[0]] == Ready
    requires id in s.sems && (op.Take? || op.Receive? || op.Wait?)
    ensures var m := Park(s, id);
            && !m.th.skew && m.th.ready == Line(s, op) && DeadAre(s.th, m.th, [])
            && m.th.sleeping == s.th.sleeping && m.th.wake == s.th.wake
            && m.mail == s.mail && m.reg == s.reg && m.env == s.env
  {
    hide Runs;
    ReadyThere(s);
  }

  lemma TakesOnly(s: State, id: int)
    ensures forall i :: Takes(s, Take(id), i) <==> i == id
  {
  }

  lemma TakeEntered(s: State, id: int)
    requires Runs(s) && Placed(s.th, s.sems) && s.th.ready[0] != s.env.idle && id in s.sems && id != ZombieSem(s)
    ensures Entered(s, Take(id), Park(s, id))
  {
    hide *;
    ReadyThere(s);
    var op, m := Take(id), Park(s, id);
    ParkRuns(s, id);
    ParkThreads(s, op, id);
    TakesOnly(s, id);
    ParkSemaphores(s, op, id);
    SameZombies(s, m);
    WaitersStill(s, op);
    QueuesStill(s, op);
    Assembled(s, op, m, []);
  }

  /** Receiver t is about to block at queue q. */
  function Asking(s: State, q: int): State
    requires s.th.ready != []
  {
    s.(mail := s.mail.(pending := s.mail.pending[s.th.ready[0] := q]))
  }

  lemma AskingParts(s: State, op: Op, q: int)
    requires Runs(s) && q in s.mail.queues && (op == Receive(q) || (op == Wait && q == s.env.waitMq))
    ensures var s1 := Asking(s, q);
            && Runs(s1) && s1.th == s.th && s1.sems == s.sems && s1.env == s.env && s1.reg == s.reg
            && s1.mail.queues == s.mail.queues && QueuesAre(s, op, s1.mail, [])
    ensures forall i :: Takes(s, op, i) <==> i == s.mail.queues[q].sem
  {
  }

  lemma AskedSame(s: State, q: int, id: int)
    requires s.th.ready != [] && id in s.sems
    ensures Park(Asking(s, q), id).sems == Park(s, id).sems && Park(Asking(s, q), id).th == Park(s, id).th
    ensures Park(Asking(s, q), id).mail == Asking(s, q).mail
    ensures Park(Asking(s, q), id).reg == s.reg && Park(Asking(s, q), id).env == s.env
  {
  }

  lemma ReadyThere(s: State)
    requires Runs(s)
    ensures s.th.ready != [] && s.env.waitMq in s.mail.queues && ZombieSem(s) in s.sems
    ensures forall q {:trigger s.mail.queues[q]} :: q in s.mail.queues ==> s.mail.queues[q].sem in s.sems
  {
  }

  lemma WaitersAsked(s: State, op: Op, q: int)
    requires Runs(s) && q in s.mail.queues
    requires (op == Receive(q) && s.mail.queues[q].sem != ZombieSem(s)) || (op == Wait && q == s.env.waitMq)
    ensures Waiters(s, op) == if s.mail.queues[q].sem == ZombieSem(s) then [s.th.ready[0]] + Mourners(s) else Mourners(s)
  {
  }

  lemma ReceiveEntered(s: State, op: Op, q: int)
    requires Runs(s) && Placed(s.th, s.sems) && s.th.ready[0] != s.env.idle && q in s.mail.queues
    requires (op == Receive(q) && s.mail.queues[q].sem != ZombieSem(s)) || (op == Wait && q == s.env.waitMq)
    ensures Runs(Asking(s, q)) && s.mail.queues[q].sem in s.sems
    ensures Entered(s, op, Park(Asking(s, q), s.mail.queues[q].sem))
  {
    hide *;
    var id := s.mail.queues[q].sem;
    ReadyThere(s);
    AskingParts(s, op, q);
    var m := Park(Asking(s, q), id);
    ParkRuns(Asking(s, q), id);
    AskedSame(s, q, id);
    ParkThreads(s, op, id);
    ParkSemaphores(s, op, id);
    SameZombies(s, m);
    WaitersAsked(s, op, q);
    Assembled(s, op, m, []);
  }

  lemma OwnSem(s: State, q: int)
    requires Inv(s) && q in s.mail.queues && s.env.waitMq in s.mail.queues
    ensures q != s.env.waitMq ==> s.mail.queues[q].sem != s.mail.queues[s.env.waitMq].sem
    ensures Placed(s.th, s.sems) && Sorted(s.th.sleeping, s.th.wake)
  {
    hide Placed, Tabled, Sorted, Conserved, Receivers, Mourned, Supplied;
  }

  // ---- the theorem --------------------------------------------------------------------------------

  /** The ring and the threads in wait() after the step: a zombie that comes first wakes one of them and leaves. */
  ghost predicate Dispatched(s: State, op: Op, s': State)
    requires Runs(s)
  {
    && Runs(s') && ZombieSem(s') == ZombieSem(s)
    && Line(s, op) != []
    && if Line(s, op)[0] in s.reg.zombi then
         s'.th.ready == First(Waiters(s, op)) + Line(s, op)[1..] && Mourners(s') == Rest(Waiters(s, op))
       else
         s'.th.ready == Line(s, op) && Mourners(s') == Waiters(s, op)
  }

  lemma EnteredParts(s: State, op: Op, m: State)
    requires Runs(s) && Entered(s, op, m)
    ensures Runs(m) && Placed(m.th, m.sems) && !m.th.skew && m.th.ready != [] && m.th.ready == Line(s, op)
    ensures ZombieSem(m) == ZombieSem(s) && Mourners(m) == Waiters(s, op)
    ensures Switched(s, op, m, if op.Exit? then [s.th.ready[0]] else []) && s.th.ready != []
    ensures m.reg == s.reg && m.env == s.env
  {
    hide Placed, DeadAre, SleepersAre, SemaphoresAre, Line, Waiters, Letters;
  }

  lemma DyingIs(s: State, op: Op)
    requires Runs(s) && Switches(s, op) && Line(s, op) != []
    ensures Dying(s, op) == (if op.Exit? then [s.th.ready[0]] else []) + if Line(s, op)[0] in s.reg.zombi then [Line(s, op)[0]] else []
  {
    hide Line, Switches;
  }

  lemma LeftZombies(m: State, s': State, dead: seq<Ctx>)
    requires Runs(m) && Left(m, s', dead) && Runs(s')
    ensures ZombieSem(s') == ZombieSem(m) && s'.env == m.env
  {
    hide DeadAre, CoinsGiven, Letters;
  }

  lemma DispatchedBy(s: State, op: Op, m: State, s': State)
    requires Runs(s) && Runs(m) && Runs(s') && m.th.ready != [] && m.th.ready == Line(s, op) && m.reg == s.reg
    requires ZombieSem(m) == ZombieSem(s) && ZombieSem(s') == ZombieSem(s) && Mourners(m) == Waiters(s, op)
    requires var x := m.th.ready[0];
             && s'.th.ready == (if x in m.reg.zombi then First(Mourners(m)) + m.th.ready[1..] else m.th.ready)
             && s'.sems[ZombieSem(m)].waiters == if x in m.reg.zombi then Rest(Mourners(m)) else Mourners(m)
    ensures Dispatched(s, op, s')
  {
    assert s'.sems[ZombieSem(m)].waiters == Mourners(s');
    hide Runs, Line, Waiters, ZombieSem, First, Rest, Mourners;
  }

  /** All that a step which ends in the scheduler does. */
  ghost predicate Effect(s: State, op: Op, s': State)
    requires Runs(s)
  {
    Dispatched(s, op, s') && Switched(s, op, s', Dying(s, op)) && !s'.th.skew
  }

  lemma EnteredDispatch(s: State, op: Op, m: State)
    requires Runs(s) && Entered(s, op, m) && Switches(s, op) && Runs(Dispatch(m))
    ensures Effect(s, op, Dispatch(m))
  {
    hide *;
    EnteredParts(s, op, m);
    DispatchLeft(m);
    var x := m.th.ready[0];
    var dead := if x in s.reg.zombi then [x] else [];
    SwitchedThen(s, op, m, Dispatch(m), if op.Exit? then [s.th.ready[0]] else [], dead);
    DyingIs(s, op);
    LeftZombies(m, Dispatch(m), dead);
    DispatchedBy(s, op, m, Dispatch(m));
    Effective(s, op, Dispatch(m));
  }

  lemma Effective(s: State, op: Op, s': State)
    requires Runs(s) && Dispatched(s, op, s') && Switched(s, op, s', Dying(s, op)) && !s'.th.skew
    ensures Effect(s, op, s')
  {
    hide Runs, Dispatched, Switched, Dying;
  }

  lemma StepRuns(s: State, op: Op)
    requires Inv(s) && Enabled(s, op)
    ensures Inv(Step(s, op)) && Runs(Step(s, op))
  {
    hide *;
    StepInv(s, op);
    InvRuns(Step(s, op));
  }

  lemma StartParts(s: State)
    requires Inv(s)
    ensures Placed(s.th, s.sems) && Sorted(s.th.sleeping, s.th.wake)
  {
    hide Placed, Tabled, Sorted, Conserved, Receivers, Mourned, Stocked;
  }

  lemma TimerEffect(s: State, op: Op)
    requires Inv(s) && Enabled(s, op) && (op.Yield? || op.Sleep? || op.Exit?)
    ensures Runs(s) && Effect(s, op, Step(s, op))
  {
    hide *;
    StepRuns(s, op);
    StartParts(s);
    assert Switches(s, op) by { AlwaysSwitches(s, op); }
    match op
    case Yield(now) =>
      YieldIs(s, now);
      YieldEntered(s, now);
      EnteredDispatch(s, op, s.(th := Advance(WakeDue(s.th, now))));
    case Sleep(seconds, now) =>
      SleepIs(s, seconds, now);
      SleepEntered(s, seconds, now);
      EnteredDispatch(s, op, s.(th := Doze(s.th, now + seconds)));
    case Exit =>
      ExitIs(s);
      ExitEntered(s);
      EnteredDispatch(s, op, Retire(s));
  }

  lemma AlwaysSwitches(s: State, op: Op)
    requires op.Yield? || op.Sleep? || op.Exit?
    ensures Switches(s, op)
  {
  }

  lemma TakeBlocks(s: State, id: int)
    requires Runs(s) && s.th.ready[0] != s.env.idle && Switches(s, Take(id))
    ensures id in s.sems && Runs(Park(s, id)) && TakeSem(s, id) == Dispatch(Park(s, id))
    ensures !Private(s.mail, id) ==> id != ZombieSem(s)
  {
    ParkRuns(s, id);
    hide Dispatch, Park;
  }

  lemma ParkedTake(s: State, id: int)
    requires Inv(s) && Enabled(s, Take(id)) && Switches(s, Take(id))
    ensures Runs(s) && Effect(s, Take(id), Step(s, Take(id)))
  {
    hide *;
    StepRuns(s, Take(id));
    StartParts(s);
    TakeIs(s, id);
    TakeBlocks(s, id);
    TakeEntered(s, id);
    EnteredDispatch(s, Take(id), Park(s, id));
  }

  lemma ReceiveBlocks(s: State, op: Op, q: int)
    requires Runs(s) && s.th.ready[0] != s.env.idle && Switches(s, op)
    requires op == Receive(q) || (op == Wait && q == s.env.waitMq)
    ensures q in s.mail.queues && s.mail.queues[q].sem in s.sems && s.sems[s.mail.queues[q].sem].counter <= 0
    ensures Runs(Park(Asking(s, q), s.mail.queues[q].sem))
    ensures ReceiveFrom(s, q) == Dispatch(Park(Asking(s, q), s.mail.queues[q].sem))
  {
    ParkRuns(Asking(s, q), s.mail.queues[q].sem);
    hide Dispatch, Park;
  }

  lemma ParkedReceive(s: State, op: Op, q: int)
    requires Inv(s) && Enabled(s, op) && Switches(s, op)
    requires op == Receive(q) || (op == Wait && q == s.env.waitMq)
    ensures Runs(s) && Effect(s, op, Step(s, op))
  {
    hide *;
    StepRuns(s, op);
    StartParts(s);
    ReceiveIs(s, op, q);
    ReceiveBlocks(s, op, q);
    ReadyThere(s);
    AskingParts(s, op, q);
    if op.Receive? {
      OwnSem(s, q);
      ReceiveOwn(s, q);
    }
    ReceiveEntered(s, op, q);
    EnteredDispatch(s, op, Park(Asking(s, q), s.mail.queues[q].sem));
  }

  lemma ReceiveOwn(s: State, q: int)
    requires Runs(s) && Enabled(s, Receive(q)) && q in s.mail.queues
    requires q != s.env.waitMq ==> s.mail.queues[q].sem != s.mail.queues[s.env.waitMq].sem
    ensures s.mail.queues[q].sem != ZombieSem(s)
  {
    hide Private, Forsaken;
  }

  /**
   * Every step that ends in the scheduler, whatever led there: who runs next, who dies, who wakes, and
   * that nothing else changes.
   */
  lemma SwitchEffect(s: State, op: Op)
    requires Inv(s) && Enabled(s, op) && Switches(s, op)
    ensures Runs(s) && Effect(s, op, Step(s, op))
  {
    hide *;
    match op
    case Take(id) => ParkedTake(s, id);
    case Receive(q) => ParkedReceive(s, op, q);
    case Wait => ParkedReceive(s, op, s.env.waitMq);
    case _ => OnlyTimer(s, op); TimerEffect(s, op);
  }

  lemma OnlyTimer(s: State, op: Op)
    requires Switches(s, op) && !op.Take? && !op.Receive? && !op.Wait?
    ensures op.Yield? || op.Sleep? || op.Exit?
  {
  }

  lemma EffectParts(s: State, op: Op, s': State)
    requires Runs(s) && Effect(s, op, s')
    ensures Dispatched(s, op, s') && !s'.th.skew && DeadAre(s.th, s'.th, Dying(s, op))
    ensures SleepersAre(s, op, s'.th) && SemaphoresAre(s, op, s'.sems, |Dying(s, op)|) && QueuesAre(s, op, s'.mail, Dying(s, op))
    ensures s'.reg == s.reg && s'.env == s.env
    ensures Line(s, op) != [] && s.th.ready != []
  {
    hide Line, Waiters, Dying, DeadAre, SleepersAre, SemaphoresAre, QueuesAre;
  }

  /** Who runs, and who does not. */
  lemma NextRuns(s: State, op: Op, s': State)
    requires Runs(s) && Switches(s, op) && Dispatched(s, op, s') && DeadAre(s.th, s'.th, Dying(s, op)) && Placed(s'.th, s'.sems)
    ensures var x := Line(s, op)[0];
            && s'.th.ready != [] && x in s'.th.status
            && (x !in s.reg.zombi ==> s'.th.ready[0] == x && s'.th.status[x] == Ready)
            && (x in s.reg.zombi ==> s'.th.status[x] == Dead && x !in s'.th.ready)
  {
    DyingIs(s, op);
    hide Line, Waiters, Dying, Switches;
    if Line(s, op)[0] !in s.reg.zombi {
      NotAsleep(s'.th, s'.sems);
    } else {
      assert Line(s, op)[0] in Dying(s, op);
    }
  }

  lemma LettersOf(s: State, op: Op)
    requires Runs(s) && Switches(s, op) && Line(s, op) != []
    ensures Letters(s.reg, Dying(s, op)) ==
            (if op.Exit? then [EncodeInt(IdOf(s.reg, s.th.ready[0]))] else []) +
            (if Line(s, op)[0] in s.reg.zombi then [EncodeInt(IdOf(s.reg, Line(s, op)[0]))] else [])
  {
    DyingIs(s, op);
    hide Dying, Line, Switches, EncodeInt;
    var a := if op.Exit? then [s.th.ready[0]] else [];
    var b := if Line(s, op)[0] in s.reg.zombi then [Line(s, op)[0]] else [];
    LettersJoin(s.reg, a, b);
    LettersOne(s.reg, a);
    LettersOne(s.reg, b);
  }

  lemma LettersOne(reg: Registry, a: seq<Ctx>)
    requires |a| <= 1
    ensures Letters(reg, a) == if a == [] then [] else [EncodeInt(IdOf(reg, a[0]))]
  {
    hide EncodeInt;
    assert a != [] ==> a[1..] == [];
  }

  /**
   * A kill takes effect when its thread comes to run: the thread that the ring puts next runs if and
   * only if it was not killed, and otherwise it is dead, out of the ring, and its id is the last one sent
   * to the queue of the zombies.
   */
  lemma KillTakesEffect(s: State, op: Op)
    requires Inv(s) && Enabled(s, op) && Switches(s, op)
    ensures Runs(s) && Line(s, op) != []
    ensures var s', x := Step(s, op), Line(s, op)[0];
            && s'.th.ready != [] && x in s'.th.status
            && (x !in s.reg.zombi ==> s'.th.ready[0] == x && s'.th.status[x] == Ready)
            && (x in s.reg.zombi ==>
                  && s'.th.status[x] == Dead && x !in s'.th.ready && s.env.waitMq in s'.mail.queues
                  && s'.mail.queues[s.env.waitMq].sent ==
                     s.mail.queues[s.env.waitMq].sent + (if op.Exit? then [EncodeInt(IdOf(s.reg, s.th.ready[0]))] else [])
                     + [EncodeInt(IdOf(s.reg, x))])
  {
    hide *;
    SwitchEffect(s, op);
    StepRuns(s, op);
    StartParts(Step(s, op));
    EffectParts(s, op, Step(s, op));
    NextRuns(s, op, Step(s, op));
    LettersOf(s, op);
    SentIs(s, op, Step(s, op).mail, Dying(s, op));
  }

  lemma SentIs(s: State, op: Op, mail: Mail, dead: seq<Ctx>)
    requires Runs(s) && QueuesAre(s, op, mail, dead)
    ensures s.env.waitMq in mail.queues
    ensures mail.queues[s.env.waitMq].sent == s.mail.queues[s.env.waitMq].sent + Letters(s.reg, dead)
  {
    hide Letters;
  }

  /**
   * The scheduler tests one thread only.  A killed thread runs after all, until it gives way again, exactly
   * when it comes right behind another killed one that dies.
   */
  lemma ZombieRuns(s: State, op: Op)
    requires Inv(s) && Enabled(s, op) && Switches(s, op)
    ensures Runs(s) && Line(s, op) != [] && Step(s, op).th.ready != []
    ensures Step(s, op).th.ready[0] in s.reg.zombi <==>
              var next := First(Waiters(s, op)) + Line(s, op)[1..];
              Line(s, op)[0] in s.reg.zombi && next != [] && next[0] in s.reg.zombi
  {
    hide *;
    SwitchEffect(s, op);
    StepRuns(s, op);
    ReadyThere(Step(s, op));
    EffectParts(s, op, Step(s, op));
    RingIs(s, op, Step(s, op));
  }

  lemma RingIs(s: State, op: Op, s': State)
    requires Runs(s) && Dispatched(s, op, s')
    ensures Line(s, op) != []
    ensures s'.th.ready == if Line(s, op)[0] in s.reg.zombi then First(Waiters(s, op)) + Line(s, op)[1..] else Line(s, op)
  {
    hide Runs, Line, Waiters, ZombieSem, First, Rest, Mourners;
  }
}
