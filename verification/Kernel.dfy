/** The thread kernel itself: kernel/ordo3.0, pointer by pointer. */
module Kernels {
  import opened Contexts
  import opened KernelState
  import opened KernelRuns
  import opened KernelMemory
  import opened KernelHeap
  import opened Links
  import opened MessageMemory

  class Kernel {
    var currentThread: Ctx
    var threadInWaiting: Ctx?
    const threads: array<Ctx?>
    const semaphores: array<Sem?>
    const messageQueues: array<MessageQueue?>
    var waitMq: int
    var savedTo: Ctx?           // the record that the registers went to last
    const repaired: bool
    ghost var y: Layout

    ghost predicate Represents(s: State)
      reads this, threads, semaphores, messageQueues, y.ctxs, y.semOf.Values, y.queueOf.Values, y.owner.Keys
    {
      && Rep(s, y, currentThread, threadInWaiting, ThreadsOf(y.ctxs), SemsOf(y.semOf), QueuesOf(y.queueOf, y.owner.Keys))
      && ThreadTable(threads, s.reg.table)
      && SemTable(semaphores, y.semOf)
      && QueueTable(messageQueues, y.queueOf)
      && s.env.waitMq == waitMq && s.env.repaired == repaired
    }

    lemma Opened(s: State)
      requires Represents(s)
      ensures Rep(s, y, currentThread, threadInWaiting, ThreadsOf(y.ctxs), SemsOf(y.semOf), QueuesOf(y.queueOf, y.owner.Keys))
      ensures ThreadTable(threads, s.reg.table) && SemTable(semaphores, y.semOf) && QueueTable(messageQueues, y.queueOf)
      ensures s.env.waitMq == waitMq && s.env.repaired == repaired
    {
      hide Rep, ThreadTable, SemTable, QueueTable, ThreadsOf, SemsOf, QueuesOf;
    }

    lemma Closed(s: State)
      requires Rep(s, y, currentThread, threadInWaiting, ThreadsOf(y.ctxs), SemsOf(y.semOf), QueuesOf(y.queueOf, y.owner.Keys))
      requires ThreadTable(threads, s.reg.table) && SemTable(semaphores, y.semOf) && QueueTable(messageQueues, y.queueOf)
      requires s.env.waitMq == waitMq && s.env.repaired == repaired
      ensures Represents(s)
    {
      hide Rep, ThreadTable, SemTable, QueueTable, ThreadsOf, SemsOf, QueuesOf;
    }

    /** What a method may read off the representation. */
    lemma Seen(s: State)
      requires Represents(s)
      ensures s.env.waitMq == waitMq && s.env.repaired == repaired
      ensures s.th.ready != [] && currentThread == s.th.ready[0] && currentThread in y.ctxs
      ensures currentThread.id == IdOf(s.reg, currentThread)
      ensures currentThread.zombi <==> currentThread in s.reg.zombi
      ensures Placed(s.th, s.sems) && y.ctxs == s.th.status.Keys
    {
      hide LinkRep, MailRep, Placed, Timed, Counters, SemIds, ThreadTable, SemTable, QueueTable, ThreadsOf, SemsOf, QueuesOf;
      CurrentHas(s, y, currentThread, threadInWaiting, SemsOf(y.semOf), QueuesOf(y.queueOf, y.owner.Keys));
    }

    lemma RingSeen(s: State)
      requires Represents(s)
      ensures Ring<Ctx?>(s.th.ready, ThreadsOf(y.ctxs).links, s.th.skew)
      ensures forall t :: t in s.th.ready ==> t in y.ctxs
    {
      hide ThreadTable, SemTable, QueueTable, ThreadsOf, SemsOf, QueuesOf, LinkRep, MailRep, Placed, Timed, Counters, SemIds;
      RingIs(s.th, s.sems, currentThread, threadInWaiting, SemsOf(y.semOf).heads, ThreadsOf(y.ctxs).links);
      RingKnown(s.th, s.sems);
    }

    /** The first half of start_scheduler: the tables are empty and main runs alone. */
    constructor (repaired: bool, main: Ctx)
      modifies main
      ensures currentThread == main && y.ctxs == {main}
      ensures this.repaired == repaired && Represents(Bare(currentThread, repaired))
      ensures fresh(threads) && fresh(semaphores) && fresh(messageQueues)
      ensures y.semOf == map[] && y.queueOf == map[] && y.owner == map[]
    {
      main.next, main.last, main.zombi, main.id := main, main, false, -1;
      currentThread, threadInWaiting, savedTo := main, null, null;
      threads := new Ctx?[TABLE_SIZE](_ => null);
      semaphores := new Sem?[TABLE_SIZE](_ => null);
      messageQueues := new MessageQueue?[TABLE_SIZE](_ => null);
      this.repaired, waitMq := repaired, 0;
      y := Layout({main}, map[], map[], map[], map[]);
      new;
      hide *;
      RepresentsBare(main);
    }

    /** The second half of start_scheduler: idle is created, and the zombies get a queue. */
    method Start(ghost main: Ctx, idle: Ctx)
      requires Represents(Bare(main, repaired)) && idle !in y.ctxs && idle != main
      modifies `waitMq, `y, threads, semaphores, messageQueues, y.ctxs, idle
      ensures Represents(Booted(main, idle, repaired))
      ensures y.ctxs == old(y.ctxs) + {idle} && fresh(y.semOf.Values - old(y.semOf.Values))
      ensures fresh(y.queueOf.Values - old(y.queueOf.Values)) && y.owner == old(y.owner)
    {
      hide *;
      BareRoom(main, repaired);
      var id := CreateThread(Bare(main, repaired), idle);
      StartQueue(main, idle);
    }

    /** Line 143 of scheduler.c: the queue of the zombies is the first one. */
    method StartQueue(ghost main: Ctx, ghost idle: Ctx)
      requires main != idle && Represents(KernelState.CreateThread(Bare(main, repaired), idle))
      modifies `waitMq, `y, semaphores, messageQueues
      ensures Represents(Booted(main, idle, repaired))
      ensures y == Layout(old(y.ctxs), y.semOf, y.queueOf, y.cells, old(y.owner))
      ensures fresh(y.semOf.Values - old(y.semOf.Values)) && fresh(y.queueOf.Values - old(y.queueOf.Values))
    {
      hide *;
      BareReady(main, idle, repaired);
      ghost var s := KernelState.CreateThread(Bare(main, repaired), idle);
      BootedFrom(main, idle, repaired);
      Seen(s);
      var mq := NewMessageQueue(s);
      Same(CreateQueue(s), Booted(main, idle, repaired));
      waitMq := mq;
    }

    lemma RepresentsBare(main: Ctx)
      requires currentThread == main && threadInWaiting == null && waitMq == 0
      requires y == Layout({main}, map[], map[], map[], map[])
      requires main.next == main && main.last == main && main.id == -1 && !main.zombi
      requires threads.Length == semaphores.Length == messageQueues.Length == TABLE_SIZE
      requires forall i :: 0 <= i < TABLE_SIZE ==> threads[i] == null && semaphores[i] == null && messageQueues[i] == null
      ensures Represents(Bare(main, repaired))
    {
      hide Rep;
      BareRep(main, repaired);
    }

    /** disable_current_thread. */
    method DisableCurrentThread(ghost s: State, ghost to: Status)
      requires Represents(s) && |s.th.ready| >= 2 && (to == Dead || to == Moving)
      modifies `currentThread, y.ctxs
      ensures Represents(s.(th := Unready(s.th, to)))
      ensures old(currentThread).timeToWait == old(currentThread.timeToWait)
    {
      hide Rep, ThreadTable, SemTable, QueueTable, ThreadsOf, SemsOf, QueuesOf, Unlinked;
      ThreadsHave(y.ctxs);
      UnreadyRep(s, y, currentThread, threadInWaiting, ThreadsOf(y.ctxs), SemsOf(y.semOf), QueuesOf(y.queueOf, y.owner.Keys), to);
      currentThread := Unlink(y.ctxs, currentThread);
    }

    /** Lines 211-217 of scheduler.c: the first sleeper enters the ring. */
    method WakeFirst(ghost s: State)
      requires Represents(s) && s.th.sleeping != []
      modifies `threadInWaiting, y.ctxs
      ensures s.th.ready != [] && Represents(s.(th := WakeOne(s.th)))
    {
      hide Rep, ThreadTable, SemTable, QueueTable, ThreadsOf, SemsOf, QueuesOf, Insert;
      ThreadsHave(y.ctxs);
      WakeOneRep(s, y, currentThread, threadInWaiting, ThreadsOf(y.ctxs), SemsOf(y.semOf), QueuesOf(y.queueOf, y.owner.Keys));
      var threadToWakeUp: Ctx := threadInWaiting;
      threadInWaiting := threadInWaiting.next;
      LinkBehind(y.ctxs, currentThread, threadToWakeUp, currentThread);
    }

    /** sem_give.  With `repaired` the woken thread gets the back link that line 149 should have written. */
    method SemGive(ghost s: State, semId: int)
      requires Represents(s)
      modifies y.ctxs, y.semOf.Values
      ensures s.th.ready != [] && Represents(if semId in s.sems then GiveSem(s, semId) else s)
    {
      hide Rep, ThreadTable, SemTable, QueueTable, ThreadsOf, SemsOf, QueuesOf, Insert, HandOff;
      SemSlot(semaphores, y.semOf, semId);
      SemHas(s, y, currentThread, threadInWaiting, ThreadsOf(y.ctxs), QueuesOf(y.queueOf, y.owner.Keys), semId);
      if semId < 0 || semId > 255 || semaphores[semId] == null {
        return;
      }
      var sema := semaphores[semId];
      if sema.waitingThreads == null {
        GiveCoinRep(s, y, currentThread, threadInWaiting, ThreadsOf(y.ctxs), SemsOf(y.semOf), QueuesOf(y.queueOf, y.owner.Keys), semId);
        SetCounter(y.semOf, semId, sema, sema.counter + 1);
        assert Represents(GiveSem(s, semId));
      } else {
        WakeWaiter(s, semId, sema);
        assert HandOff(s,semId) == GiveSem(s, semId);
      }
    }

    /** Lines 144-151 of semaphore.c. */
    method WakeWaiter(ghost s: State, ghost semId: int, sema: Sem)
      requires Represents(s) && semId in s.sems && s.sems[semId].waiters != [] && semId in y.semOf && y.semOf[semId] == sema
      modifies y.ctxs, y.semOf.Values
      ensures s.th.ready != [] && Represents(HandOff(s, semId))
    {
      hide *;
      Opened(s);
      SemSlot(semaphores, y.semOf, semId);
      SemHas(s, y, currentThread, threadInWaiting, ThreadsOf(y.ctxs), QueuesOf(y.queueOf, y.owner.Keys), semId);
      CurrentLinks(s, y, currentThread, threadInWaiting, ThreadsOf(y.ctxs), SemsOf(y.semOf), QueuesOf(y.queueOf, y.owner.Keys));
      ThreadsHave(y.ctxs);
      var back: Ctx := if repaired then currentThread else currentThread.last;
      HandOffRep(s, y, currentThread, threadInWaiting, ThreadsOf(y.ctxs), SemsOf(y.semOf), QueuesOf(y.queueOf, y.owner.Keys), semId, back);
      var save: Ctx := sema.waitingThreads;
      SetHead(y.semOf, semId, sema, save.next);
      LinkBehind(y.ctxs, currentThread, save, back);
      HandOffAround(s, semId);
      Closed(HandOff(s, semId));
    }

    /** send_message. */
    method SendMessage(ghost s: State, mqId: int, buffer: array<Byte>, size: nat)
      requires Represents(s) && Runs(s) && size <= buffer.Length
      modifies `y, y.ctxs, y.semOf.Values, y.queueOf.Values, y.owner.Keys
      ensures Represents(if mqId in s.mail.queues then Post(s, mqId, buffer[..size]) else s)
      ensures y.ctxs == old(y.ctxs) && y.semOf == old(y.semOf) && y.queueOf == old(y.queueOf) && fresh(y.owner.Keys - old(y.owner.Keys))
    {
      hide Represents, GiveSem, Runs, Post, Appended;
      QueueSeen(s, mqId);
      if mqId < 0 || mqId > 255 || messageQueues[mqId] == null {
        return;
      }
      var cell := NewMessage(buffer, size);
      AddMessage(s, mqId, messageQueues[mqId], cell);
      PostIs(s, mqId, buffer[..size]);
      SemGive(Appended(s, mqId, buffer[..size]), messageQueues[mqId].semId);
    }

    /** Lines 115-124 of m_queue.c. */
    method AddMessage(ghost s: State, ghost q: int, mq: MessageQueue, cell: Message)
      requires Represents(s) && q in s.mail.queues && q in y.queueOf && y.queueOf[q] == mq
      requires cell !in y.owner && cell.next == null
      modifies `y, mq, y.owner.Keys
      ensures Represents(Appended(s, q, cell.data))
      ensures y.ctxs == old(y.ctxs) && y.semOf == old(y.semOf) && y.queueOf == old(y.queueOf) && y.owner == old(y.owner)[cell := q]
      ensures mq.semId == old(mq.semId)
    {
      hide *;
      Opened(s);
      QueueSlot(messageQueues, y.queueOf, q);
      QueueHas(s, y, currentThread, threadInWaiting, ThreadsOf(y.ctxs), SemsOf(y.semOf), q);
      EnqueueRep(s, y, currentThread, threadInWaiting, ThreadsOf(y.ctxs), SemsOf(y.semOf), QueuesOf(y.queueOf, y.owner.Keys), q, cell, cell.data);
      AppendCell(y.queueOf, y.owner.Keys, q, mq, cell);
      assert y.owner.Keys + {cell} == y.owner[cell := q].Keys;
      y := Layout(y.ctxs, y.semOf, y.queueOf, y.cells[q := y.cells[q] + [cell]], y.owner[cell := q]);
      AppendedAround(s, q, cell.data);
      Closed(Appended(s, q, cell.data));
    }

    /** A thread announces its death and leaves the ring: lines 93-95 and 242-243 of scheduler.c. */
    method RetireCurrent(ghost s: State)
      requires Represents(s) && Runs(s) && s.th.ready != [] && s.th.ready[0] != s.env.idle
      modifies `currentThread, `y, y.ctxs, y.semOf.Values, y.queueOf.Values, y.owner.Keys
      ensures Represents(Retire(s))
      ensures y.ctxs == old(y.ctxs) && y.semOf == old(y.semOf) && y.queueOf == old(y.queueOf) && fresh(y.owner.Keys - old(y.owner.Keys))
    {
      hide *;
      Seen(s);
      var buffer := BytesOf(currentThread.id);
      assert buffer[..4] == buffer[..];
      ghost var msg := EncodeInt(IdOf(s.reg, s.th.ready[0]));
      RetireRoom(s, msg);
      SendMessage(s, waitMq, buffer, 4);
      DisableCurrentThread(Post(s, s.env.waitMq, msg), Dead);
    }

    /** scheduler: the registers of `toSave` are stored and those of the current thread loaded, which is not modelled. */
    method Scheduler(ghost s: State, toSave: Ctx?)
      requires Represents(s) && Runs(s)
      modifies `currentThread, `savedTo, `y, y.ctxs, y.semOf.Values, y.queueOf.Values, y.owner.Keys
      ensures s.th.ready != [] && Represents(Dispatch(s)) && savedTo == toSave
      ensures y.ctxs == old(y.ctxs) && y.semOf == old(y.semOf) && y.queueOf == old(y.queueOf) && fresh(y.owner.Keys - old(y.owner.Keys))
    {
      hide Represents, Retire;
      Seen(s);
      if currentThread.zombi {
        RetireCurrent(s);
      }
      SwitchToCtx(Dispatch(s), toSave);
    }

    /** Lines 275-276 of scheduler.c: the registers go to the record of `toSave`. */
    method SwitchToCtx(ghost s: State, toSave: Ctx?)
      requires Represents(s)
      modifies `savedTo
      ensures Represents(s) && savedTo == toSave
    {
      hide Rep, ThreadTable, SemTable, QueueTable, ThreadsOf, SemsOf, QueuesOf;
      savedTo := toSave;
    }

    /** What a method may read off a semaphore. */
    lemma SemSeen(s: State, id: int)
      requires Represents(s)
      ensures semaphores.Length == TABLE_SIZE
      ensures id in s.sems <==> 0 <= id < TABLE_SIZE && semaphores[id] != null
      ensures id in s.sems ==> id in y.semOf && semaphores[id] == y.semOf[id]
      ensures id in s.sems ==> semaphores[id].counter == s.sems[id].counter
      ensures id in s.sems ==> (semaphores[id].waitingThreads == null <==> s.sems[id].waiters == [])
    {
      hide Rep, ThreadTable, SemTable, QueueTable, ThreadsOf, SemsOf, QueuesOf;
      SemSlot(semaphores, y.semOf, id);
      SemHas(s, y, currentThread, threadInWaiting, ThreadsOf(y.ctxs), QueuesOf(y.queueOf, y.owner.Keys), id);
    }

    /** sem_take. */
    method SemTake(ghost s: State, semId: int)
      requires Represents(s) && Runs(s) && s.th.ready != [] && s.th.ready[0] != s.env.idle
      modifies `currentThread, `savedTo, `y, y.ctxs, y.semOf.Values, y.queueOf.Values, y.owner.Keys
      ensures Represents(TakeSem(s, semId))
      ensures savedTo == if semId in s.sems && s.sems[semId].counter <= 0 then old(currentThread) else old(savedTo)
      ensures y.ctxs == old(y.ctxs) && y.semOf == old(y.semOf) && y.queueOf == old(y.queueOf) && fresh(y.owner.Keys - old(y.owner.Keys))
    {
      hide Represents, Park, Dispatch, Runs;
      SemSeen(s, semId);
      if semId < 0 || semId > 255 || semaphores[semId] == null {
        return;
      }
      var sema := semaphores[semId];
      if sema.counter > 0 {
        UseCoin(s, semId, sema);
      } else {
        var save := currentThread;
        ParkRuns(s, semId);
        Company(s);
        ParkCurrent(s, semId, sema);
        Scheduler(Park(s, semId), save);
      }
    }

    method UseCoin(ghost s: State, ghost id: int, sema: Sem)
      requires Represents(s) && id in s.sems && id in y.semOf && y.semOf[id] == sema
      modifies sema
      ensures Represents(TakeCoin(s, id))
    {
      hide Rep, ThreadTable, SemTable, QueueTable, ThreadsOf, SemsOf, QueuesOf;
      SemSlot(semaphores, y.semOf, id);
      SemHas(s, y, currentThread, threadInWaiting, ThreadsOf(y.ctxs), QueuesOf(y.queueOf, y.owner.Keys), id);
      TakeCoinRep(s, y, currentThread, threadInWaiting, ThreadsOf(y.ctxs), SemsOf(y.semOf), QueuesOf(y.queueOf, y.owner.Keys), id);
      SetCounter(y.semOf, id, sema, sema.counter - 1);
    }

    /** Lines 102-107 of semaphore.c. */
    method ParkCurrent(ghost s: State, ghost id: int, sema: Sem)
      requires Represents(s) && |s.th.ready| >= 2 && id in s.sems && id in y.semOf && y.semOf[id] == sema
      modifies `currentThread, y.ctxs, sema
      ensures Represents(Park(s, id))
    {
      var save := currentThread;
      assert Placed(s.th, s.sems) && save in s.th.status && save in y.ctxs && s.th.ready[0] == save by {
        hide Represents;
        Seen(s);
      }
      hide Represents, Park;
      DisableCurrentThread(s, Moving);
      PushCurrent(s, id, sema, save);
    }

    /** Lines 106-107 of semaphore.c. */
    method PushCurrent(ghost s: State, ghost id: int, sema: Sem, save: Ctx)
      requires s.th.ready != [] && s.th.ready[0] == save && save in s.th.status && save in y.ctxs && Placed(s.th, s.sems)
      requires Represents(s.(th := Unready(s.th, Moving))) && id in s.sems && id in y.semOf && y.semOf[id] == sema
      modifies y.ctxs, sema
      ensures Represents(Park(s, id))
    {
      hide Rep, ThreadTable, SemTable, QueueTable, ThreadsOf, SemsOf, QueuesOf, Unready, Placed;
      SemSlot(semaphores, y.semOf, id);
      SemHas(s.(th := Unready(s.th, Moving)), y, currentThread, threadInWaiting, ThreadsOf(y.ctxs), QueuesOf(y.queueOf, y.owner.Keys), id);
      ThreadsHave(y.ctxs);
      ParkRep(s, y, currentThread, threadInWaiting, ThreadsOf(y.ctxs), SemsOf(y.semOf), QueuesOf(y.queueOf, y.owner.Keys), id, save);
      SetNext(y.ctxs, save, sema.waitingThreads);
      SetHead(y.semOf, id, sema, save);
    }

    /** What a method may read off the sleep list. */
    lemma SleepersSeen(s: State)
      requires Represents(s)
      ensures threadInWaiting == if s.th.sleeping == [] then null else s.th.sleeping[0]
      ensures forall i {:trigger NextIn(s.th.sleeping, i)} :: 0 <= i < |s.th.sleeping| ==>
                s.th.sleeping[i] in y.ctxs && s.th.sleeping[i].next == NextIn(s.th.sleeping, i)
      ensures forall i :: 0 <= i < |s.th.sleeping| ==>
                var t := s.th.sleeping[i]; t in y.ctxs && t in s.th.wake && t.timeToWait == s.th.wake[t]
    {
      hide Rep, ThreadTable, SemTable, QueueTable, ThreadsOf, SemsOf, QueuesOf;
      SleepersHave(s, y, currentThread, threadInWaiting, SemsOf(y.semOf), QueuesOf(y.queueOf, y.owner.Keys));
    }

    /** yield; the registers are stored for the thread that ran. */
    method Yield(ghost s: State, now: int)
      requires Represents(s) && Runs(s) && s.th.ready != [] && (s.th.skew ==> Due(s.th, now))
      modifies this, y.ctxs, y.semOf.Values, y.queueOf.Values, y.owner.Keys
      ensures Runs(s.(th := Advance(WakeDue(s.th, now)))) && Represents(Dispatch(s.(th := Advance(WakeDue(s.th, now)))))
      ensures savedTo == old(currentThread)
      ensures y.ctxs == old(y.ctxs) && y.semOf == old(y.semOf) && y.queueOf == old(y.queueOf) && fresh(y.owner.Keys - old(y.owner.Keys))
    {
      hide *;
      Seen(s);
      WakeAll(s, now);
      ghost var s1 := s.(th := WakeDue(s.th, now));
      Unskewed(s, now);
      AdvanceCurrent(s1);
      YieldRuns(s, now);
      Scheduler(s1.(th := Advance(s1.th)), currentThread.last);
    }

    /**
     * yield on a ring that line 149 of semaphore.c has skewed, with nobody to wake: the next thread
     * runs, but the registers of the thread that ran go to the record of another one.
     */
    method YieldSkewed(ghost s: State, now: int)
      requires Represents(s) && s.th.skew && !Due(s.th, now) && |s.th.ready| >= 2 && s.th.ready[1] !in s.reg.zombi
      modifies `threadInWaiting, `currentThread, `savedTo, y.ctxs
      ensures currentThread == s.th.ready[1] && savedTo == s.th.ready[|s.th.ready| - 1]
      ensures savedTo != old(currentThread)
    {
      hide *;
      NoneDue(s.th, now);
      WakeAll(s, now);
      SkewedLinks(s);
      currentThread := currentThread.next;
      savedTo := currentThread.last;
    }

    /** The links of the current thread and of the next one in a skewed ring. */
    lemma SkewedLinks(s: State)
      requires Represents(s) && s.th.skew && |s.th.ready| >= 2
      ensures currentThread == s.th.ready[0] && currentThread in y.ctxs
      ensures currentThread.next != null && currentThread.next == s.th.ready[1]
      ensures s.th.ready[1].last != null && s.th.ready[1].last == s.th.ready[|s.th.ready| - 1] != s.th.ready[0]
    {
      hide Represents, Ring, ThreadsOf;
      Seen(s);
      RingSeen(s);
      ThreadsHave(y.ctxs);
      LinkAt<Ctx?>(s.th.ready, ThreadsOf(y.ctxs).links, true, 0);
      LinkAt<Ctx?>(s.th.ready, ThreadsOf(y.ctxs).links, true, 1);
      RingSizes(s.th.ready, ThreadsOf(y.ctxs).links, true);
    }

    /** Lines 209-218 of scheduler.c. */
    method WakeAll(ghost s: State, now: int)
      requires Represents(s) && s.th.ready != []
      modifies `threadInWaiting, y.ctxs
      ensures Represents(s.(th := WakeDue(s.th, now)))
    {
      hide Represents, WakeOne;
      ghost var th := s.th;
      SleepersSeen(s);
      while threadInWaiting != null && threadInWaiting.timeToWait <= now
        invariant th.ready != [] && Represents(s.(th := th)) && WakeDue(th, now) == WakeDue(s.th, now)
        invariant threadInWaiting != null ==> threadInWaiting in y.ctxs
        invariant threadInWaiting != null && threadInWaiting.timeToWait <= now <==> Due(th, now)
        decreases |th.sleeping|
      {
        WakeFirst(s.(th := th));
        WokenFewer(th);
        th := WakeOne(th);
        SleepersSeen(s.(th := th));
      }
    }

    /** Line 220 of scheduler.c. */
    method AdvanceCurrent(ghost s: State)
      requires Represents(s) && !s.th.skew
      modifies `currentThread
      ensures s.th.ready != [] && Represents(s.(th := Advance(s.th)))
      ensures currentThread.last == old(currentThread)
    {
      hide Rep, ThreadTable, SemTable, QueueTable, ThreadsOf, SemsOf, QueuesOf, Advance;
      ThreadsHave(y.ctxs);
      AdvancedRep(s, y, currentThread, threadInWaiting, ThreadsOf(y.ctxs), SemsOf(y.semOf), QueuesOf(y.queueOf, y.owner.Keys));
      currentThread := currentThread.next;
    }

    /** sleep. */
    method Sleep(ghost s: State, seconds: int, now: int)
      requires Represents(s) && Runs(s) && s.th.ready != [] && s.th.ready[0] != s.env.idle
      modifies this, y.ctxs, y.semOf.Values, y.queueOf.Values, y.owner.Keys
      ensures Runs(s.(th := Doze(s.th, now + seconds))) && Represents(Dispatch(s.(th := Doze(s.th, now + seconds))))
      ensures savedTo == old(currentThread)
      ensures y.ctxs == old(y.ctxs) && y.semOf == old(y.semOf) && y.queueOf == old(y.queueOf) && fresh(y.owner.Keys - old(y.owner.Keys))
    {
      hide *;
      Seen(s);
      Company(s);
      var when := now + seconds;
      Stamp(s, when);
      ghost var k: nat;
      var prev, iter;
      prev, iter, k := FindPlace(s, when);
      var toSleep := currentThread;
      DisableCurrentThread(s, Moving);
      LinkSleeper(s, when, toSleep, prev, iter, k);
      DozeRuns(s, when);
      Scheduler(s.(th := Doze(s.th, when)), toSleep);
    }

    /** Line 61 of scheduler.c. */
    method Stamp(ghost s: State, when: int)
      requires Represents(s)
      modifies y.ctxs
      ensures Represents(s) && currentThread.timeToWait == when
    {
      hide Rep, ThreadTable, SemTable, QueueTable, ThreadsOf, SemsOf, QueuesOf;
      Seen(s);
      StampRep(s, y, currentThread, threadInWaiting, ThreadsOf(y.ctxs), SemsOf(y.semOf), QueuesOf(y.queueOf, y.owner.Keys), when);
      SetTime(y.ctxs, currentThread, when);
    }

    /** Lines 63-69 of scheduler.c. */
    method FindPlace(ghost s: State, when: int) returns (prev: Ctx?, iter: Ctx?, ghost k: nat)
      requires Represents(s) && currentThread.timeToWait == when
      ensures Place(s.th, when, k)
      ensures iter != null ==> iter in s.th.sleeping && iter.timeToWait >= when
      ensures prev != null ==> prev in s.th.sleeping && prev.timeToWait < when
      ensures prev == null ==> threadInWaiting == iter
      ensures prev != null ==> prev.next == iter
      ensures iter == if k < |s.th.sleeping| then s.th.sleeping[k] else null
      ensures prev == if k == 0 then null else s.th.sleeping[k - 1]
    {
      hide Represents, InsertByWake;
      Seen(s);
      SleepersSeen(s);
      SleepersApart(s.th, s.sems);
      ghost var q := s.th.sleeping;
      prev, iter, k := null, threadInWaiting, 0;
      while iter != null && iter.timeToWait < currentThread.timeToWait
        invariant k <= |q| && iter == (if k < |q| then q[k] else null) && prev == (if k == 0 then null else q[k - 1])
        invariant forall i :: 0 <= i < k ==> s.th.wake[q[i]] < when
        invariant if prev == null then iter == threadInWaiting else prev.next == iter
        decreases |q| - k
      {
        ghost var n := NextIn(q, k);
        prev := iter;
        iter := iter.next;
        k := k + 1;
      }
      StopsAt(q, s.th.wake[currentThread := when], currentThread, k);
    }

    /** Lines 72-81 of scheduler.c. */
    method LinkSleeper(ghost s: State, ghost when: int, toSleep: Ctx, prev: Ctx?, iter: Ctx?, ghost k: nat)
      requires Place(s.th, when, k) && s.th.ready[0] == toSleep && toSleep.timeToWait == when && toSleep in s.th.status
      requires iter == if k < |s.th.sleeping| then s.th.sleeping[k] else null
      requires prev == if k == 0 then null else s.th.sleeping[k - 1]
      requires Placed(s.th, s.sems) && y.ctxs == s.th.status.Keys
      requires Represents(s.(th := Unready(s.th, Moving)))
      modifies `threadInWaiting, y.ctxs
      ensures Represents(s.(th := Doze(s.th, when)))
    {
      hide Rep, ThreadTable, SemTable, QueueTable, ThreadsOf, SemsOf, QueuesOf, Doze, Unready, Place, Placed, WakeOne;
      PlaceReady(s.th, when, k);
      SleepersApart(s.th, s.sems);
      ThreadsHave(y.ctxs);
      DozeRep(s, y, currentThread, threadInWaiting, ThreadsOf(y.ctxs), SemsOf(y.semOf), QueuesOf(y.queueOf, y.owner.Keys), when, k);
      LinkBetween(y.ctxs, prev, toSleep, iter);
      if prev == null {
        threadInWaiting := toSleep;
      }
    }

    /** delete_current_thread; its registers go to a record that nobody reads again. */
    method DeleteCurrentThread(ghost s: State)
      requires Represents(s) && Runs(s) && s.th.ready != [] && s.th.ready[0] != s.env.idle
      modifies this, y.ctxs, y.semOf.Values, y.queueOf.Values, y.owner.Keys
      ensures Runs(Retire(s)) && Represents(Dispatch(Retire(s)))
      ensures savedTo == null
      ensures y.ctxs == old(y.ctxs) && y.semOf == old(y.semOf) && y.queueOf == old(y.queueOf) && fresh(y.owner.Keys - old(y.owner.Keys))
    {
      hide *;
      RetireCurrent(s);
      RetireRuns(s);
      Scheduler(Retire(s), null);
    }

    /** kill. */
    method KillThread(ghost s: State, pid: int)
      requires Represents(s) && (pid in s.reg.table ==> s.reg.table[pid] in s.reg.ids)
      modifies y.ctxs
      ensures Represents(s.(reg := KernelState.KillThread(s.reg, pid)))
    {
      hide Rep, ThreadTable, SemTable, QueueTable, ThreadsOf, SemsOf, QueuesOf;
      ThreadSlot(threads, s.reg.table, pid);
      if pid < 0 || pid > 255 || threads[pid] == null {
        return;
      }
      KillRep(s, y, currentThread, threadInWaiting, ThreadsOf(y.ctxs), SemsOf(y.semOf), QueuesOf(y.queueOf, y.owner.Keys), pid);
      SetZombi(y.ctxs, threads[pid]);
    }

    /** create_thread; `c` is the memory that malloc returned.  The stack and the registers are not modelled. */
    method CreateThread(ghost s: State, c: Ctx) returns (id: int)
      requires Represents(s) && HasRoom(s.reg.table) && c !in y.ctxs
      modifies `y, threads, y.ctxs, c
      ensures id == FirstFree(s.reg.table, 0) && s.th.ready != []
      ensures Represents(KernelState.CreateThread(s, c))
      ensures y == Layout(old(y.ctxs) + {c}, old(y.semOf), old(y.queueOf), old(y.cells), old(y.owner))
    {
      hide *;
      Opened(s);
      CurrentLinks(s, y, currentThread, threadInWaiting, ThreadsOf(y.ctxs), SemsOf(y.semOf), QueuesOf(y.queueOf, y.owner.Keys));
      ThreadsHave(y.ctxs);
      ghost var f := ThreadsOf(y.ctxs);
      id := EnterThread(threads, s.reg.table, y.ctxs, currentThread, c);
      CreateRep(s, y, currentThread, threadInWaiting, f, SemsOf(y.semOf), QueuesOf(y.queueOf, y.owner.Keys), c, c.timeToWait);
      CreatedSame(s, c);
      y := Layout(y.ctxs + {c}, y.semOf, y.queueOf, y.cells, y.owner);
      Closed(KernelState.CreateThread(s, c));
    }

    /** new_semaphore. */
    method NewSemaphore(ghost s: State, init: int) returns (id: int)
      requires Represents(s) && HasRoom(s.sems)
      modifies `y, semaphores
      ensures id == FirstFree(s.sems, 0) && Represents(CreateSemaphore(s, init))
      ensures y == Layout(old(y.ctxs), y.semOf, old(y.queueOf), old(y.cells), old(y.owner)) && fresh(y.semOf.Values - old(y.semOf.Values))
    {
      hide Rep, ThreadTable, SemTable, QueueTable, ThreadsOf, SemsOf, QueuesOf, HasRoom;
      SemRoom(s, y, currentThread, threadInWaiting, ThreadsOf(y.ctxs), QueuesOf(y.queueOf, y.owner.Keys));
      ghost var f := SemsOf(y.semOf);
      var sem;
      id, sem := EnterSem(semaphores, y.semOf, init);
      NewSemRep(s, y, currentThread, threadInWaiting, ThreadsOf(y.ctxs), f, QueuesOf(y.queueOf, y.owner.Keys), id, init, sem);
      y := Layout(y.ctxs, y.semOf[id := sem], y.queueOf, y.cells, y.owner);
    }

    /** del_semaphore. */
    method DelSemaphore(ghost s: State, id: int) returns (r: int)
      requires Represents(s) && id in s.sems
      modifies `y, semaphores
      ensures Represents(DeleteSemaphore(s, id))
      ensures r == if s.sems[id].waiters != [] then -1 else 1
      ensures r == -1 ==> y == old(y) && unchanged(semaphores)
      ensures r == 1 ==> 0 <= id < semaphores.Length && semaphores[id] == null
      ensures y == Layout(old(y.ctxs), y.semOf, old(y.queueOf), old(y.cells), old(y.owner)) && y.semOf.Values <= old(y.semOf.Values)
    {
      hide Represents, DeleteSemaphore;
      SemSeen(s, id);
      DeletedSame(s, id);
      if semaphores[id].waitingThreads != null {
        return -1;
      }
      DropSemaphore(s, id);
      SemSeen(s.(sems := s.sems - {id}), id);
      return 1;
    }

    /** Line 65 of semaphore.c. */
    method DropSemaphore(ghost s: State, id: int)
      requires Represents(s) && id in s.sems && id in y.semOf && s.sems[id].waiters == []
      modifies `y, semaphores
      ensures Represents(s.(sems := s.sems - {id}))
      ensures y == Layout(old(y.ctxs), old(y.semOf) - {id}, old(y.queueOf), old(y.cells), old(y.owner))
    {
      hide Rep, ThreadTable, SemTable, QueueTable, ThreadsOf, SemsOf, QueuesOf;
      DelSemRep(s, y, currentThread, threadInWaiting, ThreadsOf(y.ctxs), SemsOf(y.semOf), QueuesOf(y.queueOf, y.owner.Keys), id);
      SemsWithout(y.semOf, id);
      ClearSem(semaphores, y.semOf, id);
      y := Layout(y.ctxs, y.semOf - {id}, y.queueOf, y.cells, y.owner);
    }

    /** new_message_queue. */
    method NewMessageQueue(ghost s: State) returns (id: int)
      requires Represents(s) && HasRoom(s.sems) && HasRoom(s.mail.queues)
      modifies `y, semaphores, messageQueues
      ensures id == FirstFree(s.mail.queues, 0) && Represents(CreateQueue(s))
      ensures y == Layout(old(y.ctxs), y.semOf, y.queueOf, y.cells, old(y.owner))
      ensures fresh(y.semOf.Values - old(y.semOf.Values)) && fresh(y.queueOf.Values - old(y.queueOf.Values))
    {
      hide Represents, HasRoom, CreateSemaphore;
      var sem := NewSemaphore(s, 0);
      CreatedSem(s);
      id := AddQueue(CreateSemaphore(s, 0), sem);
    }

    /** Lines 188-193 of m_queue.c. */
    method AddQueue(ghost s: State, sem: int) returns (id: int)
      requires Represents(s) && HasRoom(s.mail.queues)
      modifies `y, messageQueues
      ensures id == FirstFree(s.mail.queues, 0)
      ensures Represents(s.(mail := s.mail.(queues := s.mail.queues[id := Queue(sem, [], [], [])])))
      ensures y == Layout(old(y.ctxs), old(y.semOf), y.queueOf, y.cells, old(y.owner)) && fresh(y.queueOf.Values - old(y.queueOf.Values))
    {
      hide Rep, ThreadTable, SemTable, QueueTable, ThreadsOf, SemsOf, QueuesOf, HasRoom;
      QueueRoom(s, y, currentThread, threadInWaiting, ThreadsOf(y.ctxs), SemsOf(y.semOf));
      ghost var f := QueuesOf(y.queueOf, y.owner.Keys);
      var mq;
      id, mq := EnterQueue(messageQueues, y.queueOf, y.owner.Keys, sem);
      NewQueueRep(s, y, currentThread, threadInWaiting, ThreadsOf(y.ctxs), SemsOf(y.semOf), f, id, sem, mq);
      y := Layout(y.ctxs, y.semOf, y.queueOf[id := mq], y.cells[id := []], y.owner);
    }

    /** What a method may read off a message queue. */
    lemma QueueSeen(s: State, q: int)
      requires Represents(s)
      ensures messageQueues.Length == TABLE_SIZE
      ensures q in s.mail.queues <==> 0 <= q < TABLE_SIZE && messageQueues[q] != null
      ensures q in s.mail.queues ==> q in y.queueOf && messageQueues[q] == y.queueOf[q] && messageQueues[q].semId == s.mail.queues[q].sem
    {
      hide Rep, ThreadTable, SemTable, QueueTable, ThreadsOf, SemsOf, QueuesOf;
      QueueSlot(messageQueues, y.queueOf, q);
      QueueHas(s, y, currentThread, threadInWaiting, ThreadsOf(y.ctxs), SemsOf(y.semOf), q);
    }

    /** What is pending is not represented. */
    lemma Same(s: State, s': State)
      requires Represents(s)
      requires s'.th == s.th && s'.sems == s.sems && s'.mail.queues == s.mail.queues && s'.reg == s.reg
      requires s'.env.waitMq == s.env.waitMq && s'.env.repaired == s.env.repaired
      ensures Represents(s')
    {
      hide Rep, ThreadTable, SemTable, QueueTable, ThreadsOf, SemsOf, QueuesOf;
      SameRep(s, s', y, currentThread, threadInWaiting, ThreadsOf(y.ctxs), SemsOf(y.semOf), QueuesOf(y.queueOf, y.owner.Keys));
    }

    /** del_message_queue. */
    method DelMessageQueue(ghost s: State, q: int) returns (r: int)
      requires Represents(s) && Runs(s)
      modifies `y, semaphores, messageQueues, y.queueOf.Values
      ensures Represents(DeleteQueue(s, q))
      ensures r == if q !in s.mail.queues || s.sems[s.mail.queues[q].sem].waiters != [] then -1 else 1
      ensures r == -1 ==> y == old(y) && unchanged(semaphores) && unchanged(messageQueues) && unchanged(y.queueOf.Values)
      ensures r == 1 ==> 0 <= q < messageQueues.Length && messageQueues[q] == null
      ensures r == 1 ==> 0 <= s.mail.queues[q].sem < semaphores.Length && semaphores[s.mail.queues[q].sem] == null
      ensures y == Layout(old(y.ctxs), y.semOf, y.queueOf, y.cells, old(y.owner))
      ensures y.semOf.Values <= old(y.semOf.Values) && y.queueOf.Values <= old(y.queueOf.Values)
    {
      hide Represents, DeleteSemaphore;
      QueueSeen(s, q);
      if q < 0 || q > 255 || messageQueues[q] == null {
        return -1;
      }
      var sem := messageQueues[q].semId;
      DeletedSame(s, sem);
      r := DelSemaphore(s, sem);
      if r == -1 {
        return;
      }
      ghost var s1 := s.(sems := s.sems - {sem});
      DropQueue(s1, q, messageQueues[q]);
      QueueSeen(s1.(mail := s1.mail.(queues := s1.mail.queues - {q})), q);
      Same(s1.(mail := s1.mail.(queues := s1.mail.queues - {q})), DeleteQueue(s, q));
    }

    /** Lines 162-172 of m_queue.c. */
    method DropQueue(ghost s: State, q: int, mq: MessageQueue)
      requires Represents(s) && q in s.mail.queues && q in y.queueOf && y.queueOf[q] == mq
      modifies `y, messageQueues, y.queueOf.Values
      ensures Represents(s.(mail := s.mail.(queues := s.mail.queues - {q})))
      ensures y == Layout(old(y.ctxs), old(y.semOf), old(y.queueOf) - {q}, y.cells, old(y.owner))
    {
      hide Rep, ThreadTable, SemTable, QueueTable, ThreadsOf, SemsOf, QueuesOf;
      CellsHave(s, y, currentThread, threadInWaiting, ThreadsOf(y.ctxs), SemsOf(y.semOf), q);
      DropQueueRep(s, y, currentThread, threadInWaiting, ThreadsOf(y.ctxs), SemsOf(y.semOf), QueuesOf(y.queueOf, y.owner.Keys), q);
      QueuesWithout(y.queueOf, y.owner.Keys, q);
      QueueSlot(messageQueues, y.queueOf, q);
      Elsewhere(y.queueOf, q);
      EmptyQueue(messageQueues, y.queueOf, q, mq, y.cells[q]);
      y := Layout(y.ctxs, y.semOf, y.queueOf - {q}, y.cells - {q}, y.owner);
    }

    /** Lines 61-71 of m_queue.c: the first message of a queue is copied out and linked out. */
    method ReadMessage(ghost s: State, ghost q: int, mq: MessageQueue, buffer: array<Byte>, maxSize: int) returns (i: int)
      requires Represents(s) && q in s.mail.queues && s.mail.queues[q].messages != [] && q in y.queueOf && y.queueOf[q] == mq
      requires maxSize <= buffer.Length
      modifies `y, mq, buffer
      ensures Represents(s.(mail := s.mail.(queues := s.mail.queues[q := Dequeue(s.mail.queues[q])])))
      ensures Copied(s.mail.queues[q].messages[0], old(buffer[..]), buffer[..], maxSize, i)
      ensures y == Layout(old(y.ctxs), old(y.semOf), old(y.queueOf), y.cells, old(y.owner))
    {
      hide Rep, ThreadTable, SemTable, QueueTable, ThreadsOf, SemsOf, QueuesOf, Copied;
      QueueSlot(messageQueues, y.queueOf, q);
      QueueHas(s, y, currentThread, threadInWaiting, ThreadsOf(y.ctxs), SemsOf(y.semOf), q);
      DequeueRep(s, y, currentThread, threadInWaiting, ThreadsOf(y.ctxs), SemsOf(y.semOf), QueuesOf(y.queueOf, y.owner.Keys), q);
      i := CopyOut(mq.messages, buffer, maxSize);
      UnlinkCell(y.queueOf, y.owner.Keys, q, mq);
      y := Layout(y.ctxs, y.semOf, y.queueOf, y.cells[q := y.cells[q][1..]], y.owner);
    }

    /**
     * receive_message up to the point where it returns or blocks.  A thread that blocks goes on in
     * FinishReceive when it runs again.
     */
    method ReceiveMessage(ghost s: State, mqId: int, buffer: array<Byte>, maxSize: int) returns (i: int, blocked: bool)
      requires Represents(s) && Runs(s) && s.th.ready != [] && s.th.ready[0] != s.env.idle && maxSize <= buffer.Length
      requires HasCoin(s, mqId) ==> Readable(s, mqId)
      modifies `currentThread, `savedTo, `y, y.ctxs, y.semOf.Values, y.queueOf.Values, y.owner.Keys, buffer
      ensures Represents(Received(s, mqId))
      ensures blocked <==> mqId in s.mail.queues && !HasCoin(s, mqId)
      ensures HasCoin(s, mqId) ==> FirstCopied(s, mqId, old(buffer[..]), buffer[..], maxSize, i)
      ensures !HasCoin(s, mqId) ==> buffer[..] == old(buffer[..])
      ensures mqId !in s.mail.queues ==> i == 0
      ensures savedTo == if blocked then old(currentThread) else old(savedTo)
      ensures y.ctxs == old(y.ctxs) && y.semOf == old(y.semOf) && y.queueOf == old(y.queueOf) && fresh(y.owner.Keys - old(y.owner.Keys))
    {
      hide *;
      i, blocked := 0, false;
      QueueSeen(s, mqId);
      HasCoinIs(s, mqId);
      ReceivedIs(s, mqId);
      TableSize();
      if mqId < 0 || mqId > 255 || messageQueues[mqId] == null {
        return;
      }
      var sem := messageQueues[mqId].semId;
      SemSeen(s, sem);
      blocked := semaphores[sem].counter <= 0;
      if blocked {
        BlockReceiver(s, mqId, sem);
      } else {
        i := ReadNow(s, mqId, messageQueues[mqId], semaphores[sem], buffer, maxSize);
      }
    }

    /** Line 59 of m_queue.c, when there is no coin. */
    method BlockReceiver(ghost s: State, ghost q: int, sem: int)
      requires Represents(s) && Runs(s) && s.th.ready != [] && s.th.ready[0] != s.env.idle
      requires q in s.mail.queues && s.mail.queues[q].sem == sem && !HasCoin(s, q)
      modifies `currentThread, `savedTo, `y, y.ctxs, y.semOf.Values, y.queueOf.Values, y.owner.Keys
      ensures Represents(ReceiveFrom(s, q)) && savedTo == old(currentThread)
      ensures y.ctxs == old(y.ctxs) && y.semOf == old(y.semOf) && y.queueOf == old(y.queueOf) && fresh(y.owner.Keys - old(y.owner.Keys))
    {
      hide *;
      ReceiverParks(s, q);
      ghost var s1 := s.(mail := s.mail.(pending := s.mail.pending[s.th.ready[0] := q]));
      Same(s, s1);
      SemTake(s1, sem);
    }

    /** Lines 59-71 of m_queue.c, when there is a coin. */
    method ReadNow(ghost s: State, ghost q: int, mq: MessageQueue, sema: Sem, buffer: array<Byte>, maxSize: int) returns (i: int)
      requires Represents(s) && Runs(s) && s.th.ready != [] && s.th.ready[0] != s.env.idle && maxSize <= buffer.Length
      requires HasCoin(s, q) && Readable(s, q) && q in y.queueOf && y.queueOf[q] == mq
      requires s.mail.queues[q].sem in y.semOf && y.semOf[s.mail.queues[q].sem] == sema
      modifies `y, sema, mq, buffer
      ensures Represents(ReceiveFrom(s, q))
      ensures FirstCopied(s, q, old(buffer[..]), buffer[..], maxSize, i)
      ensures y == Layout(old(y.ctxs), old(y.semOf), old(y.queueOf), y.cells, old(y.owner))
    {
      hide *;
      ReceiverReads(s, q);
      ghost var was := buffer[..];
      ghost var s1 := TakeCoin(s, s.mail.queues[q].sem);
      UseCoin(s, s.mail.queues[q].sem, sema);
      i := ReadMessage(s1, q, mq, buffer, maxSize);
      FirstIs(s, q, was, buffer[..], maxSize, i);
      Same(s1.(mail := s1.mail.(queues := s1.mail.queues[q := Dequeue(s1.mail.queues[q])])), ReceiveFrom(s, q));
    }

    /** The rest of receive_message when a blocked receiver runs again. */
    method FinishReceive(ghost s: State, mqId: int, buffer: array<Byte>, maxSize: int) returns (i: int)
      requires Represents(s) && s.th.ready != [] && maxSize <= buffer.Length
      requires s.th.ready[0] in s.mail.pending && s.mail.pending[s.th.ready[0]] == mqId && Readable(s, mqId)
      modifies `y, y.queueOf.Values, buffer
      ensures Represents(KernelState.FinishReceive(s))
      ensures Copied(s.mail.queues[mqId].messages[0], old(buffer[..]), buffer[..], maxSize, i)
      ensures y == Layout(old(y.ctxs), old(y.semOf), old(y.queueOf), y.cells, old(y.owner))
    {
      hide Represents, Copied;
      QueueSeen(s, mqId);
      i := ReadMessage(s, mqId, messageQueues[mqId], buffer, maxSize);
      Same(s.(mail := s.mail.(queues := s.mail.queues[mqId := Dequeue(s.mail.queues[mqId])])), KernelState.FinishReceive(s));
    }

    /** The first half of wait: the id of a dead thread is received, or the thread blocks. */
    method Wait(ghost s: State) returns (i: int, blocked: bool)
      requires Represents(s) && Runs(s) && s.th.ready != [] && s.th.ready[0] != s.env.idle
      requires HasCoin(s, s.env.waitMq) ==> Readable(s, s.env.waitMq)
      modifies `currentThread, `savedTo, `y, y.ctxs, y.semOf.Values, y.queueOf.Values, y.owner.Keys
      ensures s.env.waitMq in s.mail.queues && Represents(ReceiveFrom(s, s.env.waitMq))
      ensures blocked <==> !HasCoin(s, s.env.waitMq)
      ensures !blocked ==> var r := ReceiveFrom(s, s.env.waitMq).mail.reaping; s.th.ready[0] in r && r[s.th.ready[0]] == i
      ensures savedTo == if blocked then old(currentThread) else old(savedTo)
      ensures y.ctxs == old(y.ctxs) && y.semOf == old(y.semOf) && y.queueOf == old(y.queueOf) && fresh(y.owner.Keys - old(y.owner.Keys))
    {
      hide *;
      Seen(s);
      HasCoinIs(s, waitMq);
      ReceivedIs(s, waitMq);
      WaitedThere(s);
      var bytes := new Byte[4];
      ghost var was := bytes[..];
      var n;
      n, blocked := ReceiveMessage(s, waitMq, bytes, 4);
      if !blocked {
        WaitReads(s, was, bytes[..], n);
      }
      i := DecodeInt(bytes[..]);
    }

    /** wait goes on when its thread, which had blocked, runs again. */
    method FinishWait(ghost s: State) returns (i: int)
      requires Represents(s) && s.th.ready != [] && s.th.ready[0] in s.mail.pending
      requires s.mail.pending[s.th.ready[0]] == s.env.waitMq && Readable(s, s.env.waitMq)
      modifies `y, y.queueOf.Values
      ensures Represents(KernelState.FinishReceive(s))
      ensures var r := KernelState.FinishReceive(s).mail.reaping; s.th.ready[0] in r && r[s.th.ready[0]] == i
      ensures y == Layout(old(y.ctxs), old(y.semOf), old(y.queueOf), y.cells, old(y.owner))
    {
      hide Represents, Copied, DecodeInt, EncodeInt;
      Seen(s);
      var bytes := new Byte[4];
      ghost var was := bytes[..];
      var n := FinishReceive(s, waitMq, bytes, 4);
      WholeInt(s.mail.queues[waitMq].messages[0], was, bytes[..], n);
      i := DecodeInt(bytes[..]);
    }

    /** Lines 265-267 of scheduler.c. */
    method Reap(ghost s: State, i: int)
      requires Represents(s) && s.th.ready != [] && s.th.ready[0] in s.mail.reaping && s.mail.reaping[s.th.ready[0]] == i
      requires DeadId(s.th.status, s.reg.table, i)
      modifies threads
      ensures Represents(ReapThread(s))
    {
      hide Rep, ThreadTable, SemTable, QueueTable, ThreadsOf, SemsOf, QueuesOf;
      ReapRep(s, y, currentThread, threadInWaiting, ThreadsOf(y.ctxs), SemsOf(y.semOf), QueuesOf(y.queueOf, y.owner.Keys));
      ClearThread(threads, s.reg.table, i);
    }
  }
}
