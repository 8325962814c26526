/**
 * The thread kernel as a state machine on values (kernel/ordo3.0).  Each container of threads is a
 * sequence; `status` says in which one a thread is.
 */
module KernelState {
  import opened Contexts

  type Bytes = seq<Byte>

  datatype Status = Ready | Sleeping | Waiting(sem: int) | Moving | Dead | Reaped

  /** The ready ring from the current thread on, and the sleep list. */
  datatype Threads = Threads(
    ready: seq<Ctx>,
    skew: bool,                 // the back link of ready[1] names the last thread instead of the current one
    sleeping: seq<Ctx>,
    wake: map<Ctx, int>,
    status: map<Ctx, Status>)

  /** A semaphore, with the history its conservation law speaks about. */
  datatype Semaphore = Semaphore(counter: int, waiters: seq<Ctx>, initial: int, gives: nat, taken: nat)

  /** A message queue, with the history of what was sent and received. */
  datatype Queue = Queue(sem: int, messages: seq<Bytes>, sent: seq<Bytes>, received: seq<Bytes>)

  /** The queues, and where the threads inside receive_message and wait() are. */
  datatype Mail = Mail(
    queues: map<int, Queue>,
    pending: map<Ctx, int>,     // blocked or granted, message not fetched yet: the queue
    reaping: map<Ctx, int>)     // inside wait(): the id received

  datatype Registry = Registry(ids: map<Ctx, int>, table: map<int, Ctx>, zombi: set<Ctx>)

  /** What never changes; `repaired` says whether semaphore.c:149 writes the right back link. */
  datatype Env = Env(waitMq: int, idle: Ctx, main: Ctx, repaired: bool)

  datatype State = State(th: Threads, sems: map<int, Semaphore>, mail: Mail, reg: Registry, env: Env)

  /** `q` lists exactly the threads of status `c`, each once. */
  ghost predicate Holds(q: seq<Ctx>, status: map<Ctx, Status>, c: Status) {
    && (forall i, j :: 0 <= i < j < |q| ==> q[i] != q[j])
    && (forall t :: t in q ==> t in status && status[t] == c)
    && (forall t :: t in status && status[t] == c ==> t in q)
  }

  /** What every step relies on: idle is ready and immortal, and the queues have semaphores. */
  ghost predicate Runs(s: State) {
    && s.env.idle in s.th.ready && s.env.idle !in s.reg.zombi
    && s.env.waitMq in s.mail.queues
    && (forall q {:trigger s.mail.queues[q]} :: q in s.mail.queues ==> s.mail.queues[q].sem in s.sems)
  }

  // ---- scheduler.c -------------------------------------------------------------------------

  /** disable_current_thread: the current thread leaves the ring. */
  function Unready(th: Threads, to: Status): Threads
    requires th.ready != []
  {
    th.(ready := th.ready[1..], skew := false, status := th.status[th.ready[0] := to])
  }

  /** A thread enters the ring behind the current one. */
  function Awaken(th: Threads, t: Ctx, skew: bool): Threads
    requires th.ready != []
  {
    th.(ready := [th.ready[0], t] + th.ready[1..], skew := skew, status := th.status[t := Ready])
  }

  /** The next thread of the ring becomes the current one. */
  function Advance(th: Threads): Threads
    requires th.ready != []
  {
    th.(ready := th.ready[1..] + [th.ready[0]])
  }

  /** The place of a new sleeper: behind those that wake up strictly earlier. */
  function InsertByWake(q: seq<Ctx>, wake: map<Ctx, int>, t: Ctx): seq<Ctx>
    requires t in wake
  {
    if q == [] || q[0] !in wake || wake[q[0]] >= wake[t] then [t] + q
    else [q[0]] + InsertByWake(q[1..], wake, t)
  }

  /** The current thread goes to sleep until `when`. */
  function Doze(th: Threads, when: int): Threads
    requires th.ready != []
  {
    var t := th.ready[0];
    var wake := th.wake[t := when];
    Unready(th, Sleeping).(wake := wake, sleeping := InsertByWake(th.sleeping, wake, t))
  }

  predicate Due(th: Threads, now: int) {
    th.sleeping != [] && th.sleeping[0] in th.wake && th.wake[th.sleeping[0]] <= now
  }

  /** The first sleeper enters the ring. */
  function WakeOne(th: Threads): Threads
    requires th.ready != [] && th.sleeping != []
  {
    Awaken(th.(sleeping := th.sleeping[1..]), th.sleeping[0], false)
  }

  /** The loop of `yield`: the sleepers at the front whose time has come enter the ring. */
  function WakeDue(th: Threads, now: int): (r: Threads)
    requires th.ready != []
    ensures r.ready != [] && r.ready[0] == th.ready[0]
    decreases |th.sleeping|
  {
    if Due(th, now) then WakeDue(WakeOne(th), now) else th
  }

  // ---- semaphore.c -------------------------------------------------------------------------

  /** The last thread that blocked gets the coin directly. */
  function HandOff(s: State, id: int): State
    requires s.th.ready != [] && id in s.sems && s.sems[id].waiters != []
  {
    var m := s.sems[id];
    s.(sems := s.sems[id := m.(waiters := m.waiters[1..], gives := m.gives + 1, taken := m.taken + 1)],
       th := Awaken(s.th, m.waiters[0], !s.env.repaired && |s.th.ready| >= 2))
  }

  function GiveSem(s: State, id: int): State
    requires s.th.ready != [] && id in s.sems
  {
    var m := s.sems[id];
    if m.waiters != [] then HandOff(s, id)
    else s.(sems := s.sems[id := m.(counter := m.counter + 1, gives := m.gives + 1)])
  }

  /** A coin is taken without blocking. */
  function TakeCoin(s: State, id: int): State
    requires id in s.sems
  {
    var m := s.sems[id];
    s.(sems := s.sems[id := m.(counter := m.counter - 1, taken := m.taken + 1)])
  }

  /** The current thread leaves the ring for the waiters of a semaphore. */
  function Park(s: State, id: int): State
    requires s.th.ready != [] && id in s.sems
  {
    var m := s.sems[id];
    s.(th := Unready(s.th, Waiting(id)), sems := s.sems[id := m.(waiters := [s.th.ready[0]] + m.waiters)])
  }

  // ---- m_queue.c ---------------------------------------------------------------------------

  function Enqueue(m: Queue, msg: Bytes): Queue {
    m.(messages := m.messages + [msg], sent := m.sent + [msg])
  }

  function Dequeue(m: Queue): Queue
    requires m.messages != []
  {
    m.(messages := m.messages[1..], received := m.received + [m.messages[0]])
  }

  /** The state between the append and the give of send_message. */
  function Appended(s: State, q: int, msg: Bytes): State
    requires q in s.mail.queues
  {
    s.(mail := s.mail.(queues := s.mail.queues[q := Enqueue(s.mail.queues[q], msg)]))
  }

  /** send_message on an existing queue. */
  ghost function Post(s: State, q: int, msg: Bytes): State
    requires Runs(s) && q in s.mail.queues
  {
    GiveSem(Appended(s, q, msg), s.mail.queues[q].sem)
  }

  // ---- scheduler.c, zombies ----------------------------------------------------------------

  function IdOf(reg: Registry, t: Ctx): int {
    if t in reg.ids then reg.ids[t] else -1
  }

  /** The current thread announces its death and leaves the ring for good. */
  ghost function Retire(s: State): State
    requires Runs(s)
  {
    var s1 := Post(s, s.env.waitMq, EncodeInt(IdOf(s.reg, s.th.ready[0])));
    s1.(th := Unready(s1.th, Dead))
  }

  /** `scheduler`: a zombie that would run retires instead. */
  ghost function Dispatch(s: State): State
    requires Runs(s)
  {
    if s.th.ready[0] in s.reg.zombi then Retire(s) else s
  }

  // ---- invariants --------------------------------------------------------------------------

  /** The containers and the statuses agree. */
  ghost predicate Placed(th: Threads, sems: map<int, Semaphore>) {
    && Holds(th.ready, th.status, Ready)
    && Holds(th.sleeping, th.status, Sleeping)
    && (forall id {:trigger sems[id]} :: id in sems ==> Holds(sems[id].waiters, th.status, Waiting(id)))
    && (forall t :: t in th.status && th.status[t].Waiting? ==> th.status[t].sem in sems)
  }

  /** The thread table lists the threads that are not reaped, under their ids; only main has none. */
  ghost predicate Tabled(status: map<Ctx, Status>, reg: Registry, env: Env) {
    && reg.ids.Keys == status.Keys
    && env.main in reg.ids && reg.ids[env.main] == -1 && status[env.main] != Dead && status[env.main] != Reaped
    && env.idle in status && status[env.idle] == Ready && env.idle != env.main
    && 0 in reg.table && reg.table[0] == env.idle
    && (forall i :: i in reg.table ==> 0 <= i < TABLE_SIZE && reg.table[i] in reg.ids && reg.ids[reg.table[i]] == i
                                       && status[reg.table[i]] != Reaped)
    && (forall t :: t in reg.ids && t != env.main && status[t] != Reaped ==> reg.ids[t] in reg.table && reg.table[reg.ids[t]] == t)
    && reg.zombi <= reg.ids.Keys && env.idle !in reg.zombi && env.main !in reg.zombi
  }

  /** The sleep list is sorted by wake-up time. */
  ghost predicate Sorted(q: seq<Ctx>, wake: map<Ctx, int>) {
    && (forall t :: t in q ==> t in wake)
    && (forall i, j :: 0 <= i < j < |q| ==> wake[q[i]] <= wake[q[j]])
  }

  /** The coins of a semaphore are conserved, and threads wait only where there is no coin. */
  ghost predicate CoinsOk(m: Semaphore) {
    && m.initial + m.gives == m.counter + m.taken
    && (m.waiters != [] ==> m.counter <= 0)
  }

  ghost predicate Conserved(sems: map<int, Semaphore>) {
    forall id :: id in sems ==> CoinsOk(sems[id])
  }

  /** Threads that were handed a coin of queue q and have not fetched their message, killed ones included. */
  ghost function Granted(pending: map<Ctx, int>, status: map<Ctx, Status>, q: int, sem: int): set<Ctx> {
    set t | t in pending && pending[t] == q && t in status && status[t] != Waiting(sem)
  }

  /** The coins of a queue's semaphore and the grants account for its messages; messages are first in first out. */
  ghost predicate Supplied(m: Queue, sem: Semaphore, granted: set<Ctx>) {
    && sem.counter >= 0
    && |m.messages| == sem.counter + |granted|
    && m.sent == m.received + m.messages
  }

  ghost predicate Stocked(s: State) {
    && s.env.waitMq in s.mail.queues
    && (forall q {:trigger s.mail.queues[q]} :: q in s.mail.queues ==>
          var m := s.mail.queues[q];
          m.sem in s.sems && Supplied(m, s.sems[m.sem], Granted(s.mail.pending, s.th.status, q, m.sem)))
    && (forall q, r :: q in s.mail.queues && r in s.mail.queues && s.mail.queues[q].sem == s.mail.queues[r].sem ==> q == r)
  }

  /** Only receivers wait at the semaphore of a queue, and a receiver waits nowhere else. */
  ghost predicate Receivers(status: map<Ctx, Status>, mail: Mail, idle: Ctx) {
    && (forall q, t :: q in mail.queues && t in status && status[t] == Waiting(mail.queues[q].sem)
          ==> t in mail.pending && mail.pending[t] == q)
    && (forall t :: t in mail.pending ==>
          && t in status && t != idle && mail.pending[t] in mail.queues
          && status[t] != Sleeping && (status[t].Waiting? ==> status[t].sem == mail.queues[mail.pending[t]].sem))
    && (forall t :: t in mail.reaping ==>
          && t in status && t != idle && t !in mail.pending
          && status[t] != Sleeping && !status[t].Waiting?)
  }

  ghost predicate DeadId(status: map<Ctx, Status>, table: map<int, Ctx>, i: int) {
    i in table && table[i] in status && status[table[i]] == Dead
  }

  /** Every id on its way to a `wait` names a dead thread of its own, and every dead thread is on its way. */
  ghost predicate Mourned(letters: seq<Bytes>, reaping: map<Ctx, int>, status: map<Ctx, Status>, reg: Registry) {
    && (forall k :: 0 <= k < |letters| ==> |letters[k]| == 4 && DeadId(status, reg.table, DecodeInt(letters[k])))
    && (forall k, l :: 0 <= k < l < |letters| ==> letters[k] != letters[l])
    && (forall t :: t in reaping ==> DeadId(status, reg.table, reaping[t]) && EncodeInt(reaping[t]) !in letters)
    && (forall t, u :: t in reaping && u in reaping && reaping[t] == reaping[u] ==> t == u)
    && (forall t :: t in status && status[t] == Dead ==>
          EncodeInt(IdOf(reg, t)) in letters || exists u :: u in reaping && reaping[u] == IdOf(reg, t))
  }

  ghost predicate Inv(s: State) {
    && Placed(s.th, s.sems)
    && (s.th.skew ==> !s.env.repaired && |s.th.ready| >= 3)
    && Tabled(s.th.status, s.reg, s.env)
    && Sorted(s.th.sleeping, s.th.wake)
    && Conserved(s.sems)
    && Stocked(s)
    && Receivers(s.th.status, s.mail, s.env.idle)
    && Mourned(s.mail.queues[s.env.waitMq].messages, s.mail.reaping, s.th.status, s.reg)
    && (forall t :: t in s.th.status ==> s.th.status[t] != Moving)
  }

  // ---- steps -------------------------------------------------------------------------------

  /** The lowest free slot of a table at or above i. */
  function FirstFree<T>(m: map<int, T>, i: nat): (r: nat)
    requires i <= TABLE_SIZE
    ensures i <= r <= TABLE_SIZE
    ensures r < TABLE_SIZE ==> r !in m
    ensures forall k :: i <= k < r ==> k in m
    decreases TABLE_SIZE - i
  {
    if i == TABLE_SIZE || i !in m then i else FirstFree(m, i + 1)
  }

  /** A table has a free slot among its 256. */
  predicate HasRoom<T>(m: map<int, T>) {
    FirstFree(m, 0) < TABLE_SIZE
  }

  /** create_thread: the lowest free id, and a place behind the current thread. */
  function CreateThread(s: State, c: Ctx): State
    requires s.th.ready != []
  {
    var id := FirstFree(s.reg.table, 0);
    s.(reg := s.reg.(ids := s.reg.ids[c := id], table := s.reg.table[id := c]), th := Awaken(s.th, c, false))
  }

  function KillThread(reg: Registry, pid: int): Registry {
    if pid in reg.table then reg.(zombi := reg.zombi + {reg.table[pid]}) else reg
  }

  function NewSem(init: int): Semaphore {
    Semaphore(init, [], init, 0, 0)
  }

  function CreateSemaphore(s: State, init: int): State {
    s.(sems := s.sems[FirstFree(s.sems, 0) := NewSem(init)])
  }

  function DeleteSemaphore(s: State, id: int): State
    requires id in s.sems
  {
    if s.sems[id].waiters != [] then s else s.(sems := s.sems - {id})
  }

  ghost function TakeSem(s: State, id: int): State
    requires Runs(s) && s.th.ready[0] != s.env.idle
  {
    if id !in s.sems then s
    else if s.sems[id].counter > 0 then TakeCoin(s, id)
    else ParkRuns(s, id); Dispatch(Park(s, id))
  }

  function CreateQueue(s: State): State {
    var sem := FirstFree(s.sems, 0);
    s.(sems := s.sems[sem := NewSem(0)],
       mail := s.mail.(queues := s.mail.queues[FirstFree(s.mail.queues, 0) := Queue(sem, [], [], [])]))
  }

  /** The records left once queue q and its grants are forgotten. */
  function WithoutQueue(mail: Mail, q: int): Mail {
    mail.(queues := mail.queues - {q}, pending := map u | u in mail.pending && mail.pending[u] != q :: mail.pending[u])
  }

  /** del_message_queue; nobody alive is left with a grant, so the grants on record are forgotten. */
  ghost function DeleteQueue(s: State, q: int): State
    requires Runs(s)
  {
    if q !in s.mail.queues || s.sems[s.mail.queues[q].sem].waiters != [] then s
    else s.(sems := s.sems - {s.mail.queues[q].sem}, mail := WithoutQueue(s.mail, q))
  }

  /** The first message of queue q reaches thread t; on the zombie queue it is an id that t now owns. */
  function Fetch(mail: Mail, q: int, t: Ctx, waitMq: int): Mail
    requires q in mail.queues && mail.queues[q].messages != []
    requires q == waitMq ==> |mail.queues[q].messages[0]| == 4
  {
    var m := mail.queues[q];
    mail.(queues := mail.queues[q := Dequeue(m)], pending := mail.pending - {t},
          reaping := if q == waitMq then mail.reaping[t := DecodeInt(m.messages[0])] else mail.reaping)
  }

  /** Queue q can be read: it has a message, and on the zombie queue it is an id. */
  predicate Readable(s: State, q: int) {
    q in s.mail.queues && s.mail.queues[q].messages != [] && (q == s.env.waitMq ==> |s.mail.queues[q].messages[0]| == 4)
  }

  /** receive_message on an existing queue, up to the point where it blocks. */
  ghost function ReceiveFrom(s: State, q: int): State
    requires Runs(s) && s.th.ready[0] != s.env.idle && q in s.mail.queues
    requires s.sems[s.mail.queues[q].sem].counter > 0 ==> Readable(s, q)
  {
    var t := s.th.ready[0];
    var sem := s.mail.queues[q].sem;
    if s.sems[sem].counter > 0 then
      TakeCoin(s, sem).(mail := Fetch(s.mail, q, t, s.env.waitMq))
    else
      var s1 := s.(mail := s.mail.(pending := s.mail.pending[t := q]));
      ParkRuns(s1, sem); Dispatch(Park(s1, sem))
  }

  /** The rest of receive_message, once a blocked receiver runs again. */
  ghost function FinishReceive(s: State): State
    requires s.th.ready != [] && s.th.ready[0] in s.mail.pending && Readable(s, s.mail.pending[s.th.ready[0]])
  {
    s.(mail := Fetch(s.mail, s.mail.pending[s.th.ready[0]], s.th.ready[0], s.env.waitMq))
  }

  /** The thread received by `wait` is freed and its slot cleared. */
  ghost function ReapThread(s: State): State
    requires s.th.ready != [] && s.th.ready[0] in s.mail.reaping && s.mail.reaping[s.th.ready[0]] in s.reg.table
  {
    var t := s.th.ready[0];
    var i := s.mail.reaping[t];
    s.(reg := s.reg.(table := s.reg.table - {i}),
       th := s.th.(status := s.th.status[s.reg.table[i] := Reaped]),
       mail := s.mail.(reaping := s.mail.reaping - {t}))
  }

  lemma ParkRuns(s: State, id: int)
    requires Runs(s) && s.th.ready[0] != s.env.idle && id in s.sems
    ensures Runs(Park(s, id))
  {
    assert s.th.ready == [s.th.ready[0]] + s.th.ready[1..];
  }

  lemma DozeRuns(s: State, when: int)
    requires Runs(s) && s.th.ready[0] != s.env.idle
    ensures Runs(s.(th := Doze(s.th, when)))
  {
    assert s.th.ready == [s.th.ready[0]] + s.th.ready[1..];
  }

  lemma AwakenRuns(th: Threads, t: Ctx, skew: bool, x: Ctx)
    requires x in th.ready
    ensures x in Awaken(th, t, skew).ready
  {
    assert th.ready == [th.ready[0]] + th.ready[1..];
  }

  lemma AdvanceRuns(th: Threads, x: Ctx)
    requires x in th.ready
    ensures x in Advance(th).ready
  {
    assert th.ready == [th.ready[0]] + th.ready[1..];
  }

  lemma {:induction false} WakeDueRuns(th: Threads, now: int, x: Ctx)
    requires x in th.ready
    ensures x in WakeDue(th, now).ready
    decreases |th.sleeping|
  {
    if Due(th, now) {
      AwakenRuns(th.(sleeping := th.sleeping[1..]), th.sleeping[0], false, x);
      WakeDueRuns(WakeOne(th), now, x);
    }
  }

  lemma PostRuns(s: State, q: int, msg: Bytes)
    requires Runs(s) && q in s.mail.queues
    ensures Runs(Post(s, q, msg)) && Post(s, q, msg).th.ready[0] == s.th.ready[0]
    ensures Post(s, q, msg).env == s.env
  {
    var w := s.sems[s.mail.queues[q].sem].waiters;
    if w != [] {
      AwakenRuns(s.th, w[0], !s.env.repaired && |s.th.ready| >= 2, s.env.idle);
    }
  }

  lemma RetireRuns(s: State)
    requires Runs(s) && s.th.ready[0] != s.env.idle
    ensures Runs(Retire(s))
  {
    var s1 := Post(s, s.env.waitMq, EncodeInt(IdOf(s.reg, s.th.ready[0])));
    PostRuns(s, s.env.waitMq, EncodeInt(IdOf(s.reg, s.th.ready[0])));
    assert s1.th.ready == [s1.th.ready[0]] + s1.th.ready[1..];
  }

  /**
   * The atomic steps of the current thread.  Interrupts are masked in all of them but Finish and Reap
   * (m_queue.c:61-74 after a wake-up, scheduler.c:264-267), which are taken to be atomic too.
   */
  datatype Op =
    | Yield(now: int)
    | Sleep(seconds: int, now: int)
    | Exit
    | Kill(pid: int)
    | Create(thread: Ctx)
    | NewSemaphore(init: int)
    | DelSemaphore(sem: int)
    | Take(sem: int)
    | Give(sem: int)
    | NewQueue
    | DelQueue(queue: int)
    | Send(queue: int, msg: Bytes)
    | Receive(queue: int)
    | Wait                      // the call of receive_message inside wait()
    | Finish                    // the rest of receive_message once a blocked receiver runs again
    | Reap                      // the rest of wait()

  /** The semaphore belongs to a message queue. */
  ghost predicate Private(mail: Mail, sem: int) {
    exists q :: q in mail.queues && mail.queues[q].sem == sem
  }

  /**
   * What the kernel relies on.  Idle only yields, is not killed, and main neither exits nor is
   * killed.  A thread inside receive_message or wait does nothing else.  The semaphores inside
   * message queues and the queue of the zombies are private.  A queue is not deleted while a
   * receiver has been granted a message it has not fetched.  Tables have room.  With the back link of
   * semaphore.c:149 as written, the timer must not fire on a skewed ring unless a sleeper is due.
   */
  ghost predicate Enabled(s: State, op: Op) {
    s.th.ready != [] &&
    var t := s.th.ready[0];
    if op.Yield? then s.th.skew ==> Due(s.th, op.now)
    else if op.Finish? then t in s.mail.pending
    else if op.Reap? then t in s.mail.reaping
    else
      && t != s.env.idle && t !in s.mail.pending && t !in s.mail.reaping
      && (match op
          case Exit => t != s.env.main
          case Kill(pid) => pid != 0
          case Create(c) => c !in s.reg.ids && HasRoom(s.reg.table)
          case NewSemaphore(_) => HasRoom(s.sems)
          case DelSemaphore(id) => id in s.sems && !Private(s.mail, id)
          case Take(id) => !Private(s.mail, id)
          case Give(id) => !Private(s.mail, id)
          case NewQueue => HasRoom(s.sems) && HasRoom(s.mail.queues)
          case DelQueue(q) => q != s.env.waitMq && Forsaken(s, q)
          case Send(q, _) => q != s.env.waitMq
          case Receive(q) => q != s.env.waitMq
          case _ => true)
  }

  /** Nobody alive holds a grant of queue q. */
  ghost predicate Forsaken(s: State, q: int) {
    q in s.mail.queues ==>
      forall u :: u in Granted(s.mail.pending, s.th.status, q, s.mail.queues[q].sem) ==> s.th.status[u] == Dead || s.th.status[u] == Reaped
  }

  ghost function Step(s: State, op: Op): State
    requires Inv(s) && Enabled(s, op)
  {
    StepDefined(s, op);
    hide *;
    match op
    case Yield(now) => YieldRuns(s, now); Dispatch(s.(th := Advance(WakeDue(s.th, now))))
    case Sleep(seconds, now) => DozeRuns(s, now + seconds); Dispatch(s.(th := Doze(s.th, now + seconds)))
    case Exit => Dispatch(Retire(s))
    case Kill(pid) => s.(reg := KillThread(s.reg, pid))
    case Create(c) => CreateThread(s, c)
    case NewSemaphore(init) => CreateSemaphore(s, init)
    case DelSemaphore(id) => DeleteSemaphore(s, id)
    case Take(id) => TakeSem(s, id)
    case Give(id) => if id in s.sems then GiveSem(s, id) else s
    case NewQueue => CreateQueue(s)
    case DelQueue(q) => DeleteQueue(s, q)
    case Send(q, msg) => if q in s.mail.queues then Post(s, q, msg) else s
    case Receive(q) => if q in s.mail.queues then ReceiveFrom(s, q) else s
    case Wait => ReceiveFrom(s, s.env.waitMq)
    case Finish => FinishReceive(s)
    case Reap => ReapThread(s)
  }

  lemma StepDefined(s: State, op: Op)
    requires Inv(s) && Enabled(s, op)
    ensures Runs(s) && s.th.ready != [] && s.env.waitMq in s.mail.queues
    ensures op.Sleep? || op.Exit? || op.Take? || op.Receive? || op.Wait? ==> s.th.ready[0] != s.env.idle
    ensures op.Exit? ==> Runs(Retire(s))
    ensures op.DelSemaphore? ==> op.sem in s.sems
    ensures forall q {:trigger s.mail.queues[q]} :: q in s.mail.queues ==>
              s.mail.queues[q].sem in s.sems && (s.sems[s.mail.queues[q].sem].counter > 0 ==> Readable(s, q))
    ensures op.Finish? ==> s.th.ready[0] in s.mail.pending && Readable(s, s.mail.pending[s.th.ready[0]])
    ensures op.Reap? ==> s.th.ready[0] in s.mail.reaping && s.mail.reaping[s.th.ready[0]] in s.reg.table
  {
    hide *;
    InvRuns(s);
    Guards(s, op);
    if op.Exit? {
      RetireRuns(s);
    }
  }

  /** What the current thread must be like for a step. */
  lemma Guards(s: State, op: Op)
    requires Enabled(s, op)
    ensures s.th.ready != []
    ensures op.Sleep? || op.Exit? || op.Take? || op.Receive? || op.Wait? ==> s.th.ready[0] != s.env.idle
    ensures op.DelSemaphore? ==> op.sem in s.sems
    ensures op.Finish? ==> s.th.ready[0] in s.mail.pending
    ensures op.Reap? ==> s.th.ready[0] in s.mail.reaping
  {
    hide Private, Forsaken, HasRoom, Due;
  }

  lemma YieldRuns(s: State, now: int)
    requires Runs(s)
    ensures Runs(s.(th := Advance(WakeDue(s.th, now))))
  {
    WakeDueRuns(s.th, now, s.env.idle);
    AdvanceRuns(WakeDue(s.th, now), s.env.idle);
  }

  /** In a state of the invariant every step is defined. */
  lemma InvRuns(s: State)
    requires Inv(s)
    ensures Runs(s) && s.th.ready != [] && s.env.waitMq in s.mail.queues
    ensures forall q {:trigger s.mail.queues[q]} :: q in s.mail.queues ==>
              s.mail.queues[q].sem in s.sems && (s.sems[s.mail.queues[q].sem].counter > 0 ==> Readable(s, q))
    ensures s.th.ready[0] in s.mail.pending ==> Readable(s, s.mail.pending[s.th.ready[0]])
    ensures s.th.ready[0] in s.mail.reaping ==> s.mail.reaping[s.th.ready[0]] in s.reg.table
  {
    hide *;
    RingRuns(s);
    forall q {:trigger s.mail.queues[q]} | q in s.mail.queues
      ensures s.mail.queues[q].sem in s.sems && (s.sems[s.mail.queues[q].sem].counter > 0 ==> Readable(s, q))
    {
      CoinReadable(s, q);
    }
    if s.th.ready[0] in s.mail.pending {
      GrantReadable(s);
    }
    if s.th.ready[0] in s.mail.reaping {
      ReceivedTabled(s);
    }
  }

  lemma RingRuns(s: State)
    requires Inv(s)
    ensures Runs(s) && s.th.ready != [] && s.env.waitMq in s.mail.queues
  {
    hide Sorted, Conserved, Receivers, Mourned, Supplied, Granted;
    assert s.env.idle in s.th.ready;
  }

  /** The messages of queue q can be read once there is one; those of the zombies are ids. */
  lemma MessageReadable(s: State, q: int)
    requires Inv(s) && q in s.mail.queues
    ensures s.mail.queues[q].messages != [] ==> Readable(s, q)
  {
    hide Placed, Tabled, Sorted, Conserved, Receivers, Stocked, DeadId, EncodeInt, DecodeInt;
  }

  lemma CoinReadable(s: State, q: int)
    requires Inv(s) && q in s.mail.queues
    ensures s.mail.queues[q].sem in s.sems && (s.sems[s.mail.queues[q].sem].counter > 0 ==> Readable(s, q))
  {
    hide Placed, Tabled, Sorted, Conserved, Receivers, Mourned, Readable;
    MessageReadable(s, q);
    var m := s.mail.queues[q];
    assert Supplied(m, s.sems[m.sem], Granted(s.mail.pending, s.th.status, q, m.sem));
  }

  lemma GrantReadable(s: State)
    requires Inv(s) && s.th.ready != [] && s.th.ready[0] in s.mail.pending
    ensures Readable(s, s.mail.pending[s.th.ready[0]])
  {
    hide Tabled, Sorted, Conserved, Mourned, Readable;
    var t := s.th.ready[0];
    var q := s.mail.pending[t];
    assert t in s.th.ready;
    MessageReadable(s, q);
    var m := s.mail.queues[q];
    assert Supplied(m, s.sems[m.sem], Granted(s.mail.pending, s.th.status, q, m.sem));
    assert t in Granted(s.mail.pending, s.th.status, q, m.sem);
  }

  lemma ReceivedTabled(s: State)
    requires Inv(s) && s.th.ready != [] && s.th.ready[0] in s.mail.reaping
    ensures s.mail.reaping[s.th.ready[0]] in s.reg.table
  {
    hide Placed, Tabled, Sorted, Conserved, Receivers, Stocked, EncodeInt, DecodeInt;
  }
}
