/** What the objects of the kernel hold, as values, and what that says about the abstract state. */
module KernelHeap {
  import opened Contexts
  import opened KernelState
  import opened KernelPlaces
  import opened KernelRuns
  import opened KernelMemory
  import opened Links
  import opened MessageMemory

  datatype ThreadFields = ThreadFields(links: CtxLinks, ids: map<Ctx, int>, zombi: set<Ctx>, times: map<Ctx, int>)

  datatype SemFields = SemFields(heads: map<int, Ctx?>, counters: map<int, int>)

  datatype QueueFields = QueueFields(sems: map<int, int>, boxes: Boxes)

  /** The objects in use: the threads, what the tables list, the message cells and their queues. */
  datatype Layout = Layout(ctxs: set<Ctx>, semOf: map<int, Sem>, queueOf: map<int, MessageQueue>,
                           cells: map<int, seq<Message>>, owner: map<Message, int>)

  ghost function ThreadsOf(ctxs: set<Ctx>): ThreadFields
    reads ctxs
  {
    ThreadFields(Links(map t: Ctx | t in ctxs :: t.next, map t: Ctx | t in ctxs :: t.last),
                 map t | t in ctxs :: t.id, set t | t in ctxs && t.zombi, map t | t in ctxs :: t.timeToWait)
  }

  ghost function SemsOf(semOf: map<int, Sem>): SemFields
    reads semOf.Values
  {
    SemFields(map id | id in semOf :: semOf[id].waitingThreads, map id | id in semOf :: semOf[id].counter)
  }

  ghost function QueuesOf(queueOf: map<int, MessageQueue>, pool: set<Message>): QueueFields
    reads queueOf.Values, pool
  {
    QueueFields(map q | q in queueOf :: queueOf[q].semId,
                Boxes(map q | q in queueOf :: queueOf[q].messages, map q | q in queueOf :: queueOf[q].last,
                      map m | m in pool :: m.next, map m | m in pool :: m.data))
  }

  /** The used slots of a table. */
  ghost function Entries<T>(s: seq<T>, none: T): map<int, T> {
    map i | 0 <= i < |s| && s[i] != none :: s[i]
  }

  lemma EntriesSet<T>(s: seq<T>, none: T, i: nat, x: T)
    requires i < |s| && x != none
    ensures Entries(s[i := x], none) == Entries(s, none)[i := x]
  {
  }

  lemma EntriesClear<T>(s: seq<T>, none: T, i: nat)
    requires i < |s|
    ensures Entries(s[i := none], none) == Entries(s, none) - {i}
  {
  }

  /** No two slots hold the same object. */
  ghost predicate OneSlot<T>(m: map<int, T>) {
    forall i, j :: i in m && j in m && m[i] == m[j] ==> i == j
  }

  lemma Elsewhere(m: map<int, MessageQueue>, i: int)
    requires OneSlot(m) && i in m
    ensures m[i] !in (m - {i}).Values
  {
    forall j | j in m - {i} ensures (m - {i})[j] != m[i] {
      assert m[j] != m[i];
    }
  }

  ghost predicate ThreadTable(threads: array<Ctx?>, table: map<int, Ctx>)
    reads threads
  {
    threads.Length == TABLE_SIZE && Entries<Ctx?>(threads[..], null) == table
  }

  ghost predicate SemTable(semaphores: array<Sem?>, semOf: map<int, Sem>)
    reads semaphores
  {
    semaphores.Length == TABLE_SIZE && Entries<Sem?>(semaphores[..], null) == semOf && OneSlot(semOf)
  }

  ghost predicate QueueTable(messageQueues: array<MessageQueue?>, queueOf: map<int, MessageQueue>)
    reads messageQueues
  {
    messageQueues.Length == TABLE_SIZE && Entries<MessageQueue?>(messageQueues[..], null) == queueOf && OneSlot(queueOf)
  }

  lemma QueueSlot(messageQueues: array<MessageQueue?>, queueOf: map<int, MessageQueue>, id: int)
    requires QueueTable(messageQueues, queueOf)
    ensures OneSlot(queueOf) && messageQueues.Length == TABLE_SIZE
    ensures id in queueOf <==> 0 <= id < TABLE_SIZE && messageQueues[id] != null
    ensures id in queueOf ==> queueOf[id] == messageQueues[id]
  {
    var e := Entries<MessageQueue?>(messageQueues[..], null);
  }

  lemma ThreadSlot(threads: array<Ctx?>, table: map<int, Ctx>, id: int)
    requires ThreadTable(threads, table)
    ensures threads.Length == TABLE_SIZE
    ensures id in table <==> 0 <= id < TABLE_SIZE && threads[id] != null
    ensures id in table ==> table[id] == threads[id]
  {
    var e := Entries<Ctx?>(threads[..], null);
  }

  lemma SemSlot(semaphores: array<Sem?>, semOf: map<int, Sem>, id: int)
    requires SemTable(semaphores, semOf)
    ensures OneSlot(semOf) && semaphores.Length == TABLE_SIZE
    ensures id in semOf <==> 0 <= id < TABLE_SIZE && semaphores[id] != null
    ensures id in semOf ==> semOf[id] == semaphores[id]
  {
    var e := Entries<Sem?>(semaphores[..], null);
  }

  ghost function Counters(sems: map<int, Semaphore>): map<int, int> {
    map id | id in sems :: sems[id].counter
  }

  ghost function SemIds(queues: map<int, Queue>): map<int, int> {
    map q | q in queues :: queues[q].sem
  }

  /** The wake-up times of the sleepers. */
  ghost predicate Timed(sleeping: seq<Ctx>, wake: map<Ctx, int>, times: map<Ctx, int>) {
    forall t :: t in sleeping ==> t in wake && t in times && times[t] == wake[t]
  }

  /** The fields of the objects represent the abstract state. */
  ghost predicate Rep(s: State, y: Layout, current: Ctx, sleepers: Ctx?, t: ThreadFields, m: SemFields, q: QueueFields) {
    && LinkRep(s.th, s.sems, current, sleepers, m.heads, t.links)
    && Placed(s.th, s.sems) && y.ctxs == s.th.status.Keys
    && t.ids == s.reg.ids && t.ids.Keys == y.ctxs && t.zombi == s.reg.zombi && Timed(s.th.sleeping, s.th.wake, t.times)
    && m.counters == Counters(s.sems)
    && q.sems == SemIds(s.mail.queues) && MailRep(s.mail.queues, y.cells, y.owner, q.boxes)
  }

  // ---- pointer code -----------------------------------------------------------------------------

  lemma ThreadsHave(ctxs: set<Ctx>)
    ensures ThreadsOf(ctxs).links.next.Keys == ctxs && ThreadsOf(ctxs).links.last.Keys == ctxs
    ensures forall t :: t in ctxs ==> t.next == ThreadsOf(ctxs).links.next[t] && t.last == ThreadsOf(ctxs).links.last[t]
    ensures forall t :: t in ctxs ==> t in ThreadsOf(ctxs).times && t.timeToWait == ThreadsOf(ctxs).times[t]
  {
  }

  twostate lemma LinksStay(ctxs: set<Ctx>)
    requires forall t :: t in ctxs ==> t.next == old(t.next) && t.last == old(t.last)
    ensures ThreadsOf(ctxs).links == old(ThreadsOf(ctxs).links)
  {
    assert ThreadsOf(ctxs).links.next == old(ThreadsOf(ctxs).links.next);
    assert ThreadsOf(ctxs).links.last == old(ThreadsOf(ctxs).links.last);
  }

  twostate lemma LinksOnly(ctxs: set<Ctx>)
    requires forall t :: t in ctxs ==> t.id == old(t.id) && t.zombi == old(t.zombi) && t.timeToWait == old(t.timeToWait)
    ensures ThreadsOf(ctxs) == old(ThreadsOf(ctxs)).(links := ThreadsOf(ctxs).links)
  {
    assert ThreadsOf(ctxs).ids == old(ThreadsOf(ctxs)).ids;
    assert ThreadsOf(ctxs).times == old(ThreadsOf(ctxs)).times;
  }

  /** The links after lines 109-114 of scheduler.c, thread by thread. */
  lemma UnlinkedLinks(ctxs: set<Ctx>, l: CtxLinks, cur: Ctx)
    requires l.next.Keys == ctxs && l.last.Keys == ctxs && cur in ctxs && l.next[cur] in ctxs && l.last[cur] in ctxs
    requires forall t :: t in ctxs ==> t.next == if t == cur then null else if t == l.last[cur] then l.next[cur] else l.next[t]
    requires forall t :: t in ctxs ==> t.last == if t == cur then null else if t == l.next[cur] then l.last[cur] else l.last[t]
    ensures ThreadsOf(ctxs).links == Unlinked(l, cur)
  {
    assert ThreadsOf(ctxs).links.next == Unlinked(l, cur).next;
    assert ThreadsOf(ctxs).links.last == Unlinked(l, cur).last;
  }

  /** Lines 109-114 of scheduler.c. */
  method Unlink(ghost ctxs: set<Ctx>, save: Ctx) returns (current: Ctx)
    requires save in ctxs && save.next in ctxs && save.last in ctxs && save.next != null && save.last != null
    modifies ctxs
    ensures current == old(save.next) && save.timeToWait == old(save.timeToWait)
    ensures old(save in ThreadsOf(ctxs).links.next && save in ThreadsOf(ctxs).links.last)
    ensures ThreadsOf(ctxs) == old(ThreadsOf(ctxs).(links := Unlinked(ThreadsOf(ctxs).links, save)))
  {
    hide ThreadsOf, Unlinked;
    ghost var l := ThreadsOf(ctxs).links;
    ThreadsHave(ctxs);
    current := save.next;
    current.last := save.last;
    current.last.next := current;
    save.next := null;
    save.last := null;
    assert forall t :: t in ctxs ==> t.next == if t == save then null else if t == old(save.last) then current else old(t.next);
    assert forall t :: t in ctxs ==> t.last == if t == save then null else if t == current then old(save.last) else old(t.last);
    UnlinkedLinks(ctxs, l, save);
    LinksOnly(ctxs);
  }

  lemma InsertedLinks(ctxs: set<Ctx>, l: CtxLinks, cur: Ctx, w: Ctx, back: Ctx)
    requires l.next.Keys == ctxs && l.last.Keys == ctxs && cur in ctxs && w in ctxs && l.next[cur] in ctxs && cur != w
    requires forall t :: t in ctxs ==> t.next == if t == cur then w else if t == w then l.next[cur] else l.next[t]
    requires forall t :: t in ctxs ==> t.last == if t == l.next[cur] then w else if t == w then back else l.last[t]
    ensures ThreadsOf(ctxs).links == Insert<Ctx?>(l, cur, w, back)
  {
    assert ThreadsOf(ctxs).links.next == Insert<Ctx?>(l, cur, w, back).next;
    assert ThreadsOf(ctxs).links.last == Insert<Ctx?>(l, cur, w, back).last;
  }

  /** Lines 214-217 of scheduler.c, in create_thread lines 164-167, and with another back link lines 148-151 of semaphore.c. */
  method LinkBehind(ghost ctxs: set<Ctx>, cur: Ctx, w: Ctx, back: Ctx)
    requires cur in ctxs && w in ctxs && cur.next in ctxs && cur.next != null && cur != w && cur.next != w
    modifies ctxs
    ensures w.id == old(w.id) && w.timeToWait == old(w.timeToWait)
    ensures old(cur in ThreadsOf(ctxs).links.next)
    ensures ThreadsOf(ctxs) == old(ThreadsOf(ctxs).(links := Insert<Ctx?>(ThreadsOf(ctxs).links, cur, w, back)))
  {
    hide ThreadsOf, Insert;
    ghost var l := ThreadsOf(ctxs).links;
    ThreadsHave(ctxs);
    w.last := back;
    w.next := cur.next;
    cur.next.last := w;
    cur.next := w;
    assert forall t :: t in ctxs ==> t.next == if t == cur then w else if t == w then old(cur.next) else old(t.next);
    assert forall t :: t in ctxs ==> t.last == if t == old(cur.next) then w else if t == w then back else old(t.last);
    InsertedLinks(ctxs, l, cur, w, back);
    LinksOnly(ctxs);
  }

  method SetNext(ghost ctxs: set<Ctx>, t: Ctx, next: Ctx?)
    requires t in ctxs
    modifies t
    ensures ThreadsOf(ctxs) == old(ThreadsOf(ctxs).(links := Links(ThreadsOf(ctxs).links.next[t := next], ThreadsOf(ctxs).links.last)))
  {
    t.next := next;
    assert ThreadsOf(ctxs).links.next == old(ThreadsOf(ctxs).links.next[t := next]);
    assert ThreadsOf(ctxs).links.last == old(ThreadsOf(ctxs).links.last);
    LinksOnly(ctxs);
  }

  /** The links of lines 72 and 80 of scheduler.c. */
  method LinkBetween(ghost ctxs: set<Ctx>, prev: Ctx?, t: Ctx, iter: Ctx?)
    requires t in ctxs && (prev != null ==> prev in ctxs)
    modifies ctxs
    ensures var l := old(ThreadsOf(ctxs).links);
            var next := l.next[t := iter];
            ThreadsOf(ctxs) == old(ThreadsOf(ctxs)).(links := Links(if prev == null then next else next[prev := t], l.last))
  {
    hide ThreadsOf;
    SetNext(ctxs, t, iter);
    if prev != null {
      SetNext(ctxs, prev, t);
    }
  }

  lemma EnlargedLinks(ctxs: set<Ctx>, c: Ctx)
    requires c !in ctxs
    ensures var f := ThreadsOf(ctxs);
            ThreadsOf(ctxs + {c}).links == Links(f.links.next[c := c.next], f.links.last[c := c.last])
  {
    var f, f' := ThreadsOf(ctxs), ThreadsOf(ctxs + {c});
    assert f'.links.next == f.links.next[c := c.next];
    assert f'.links.last == f.links.last[c := c.last];
  }

  lemma Enlarged(ctxs: set<Ctx>, c: Ctx)
    requires c !in ctxs && !c.zombi
    ensures var f := ThreadsOf(ctxs);
            ThreadsOf(ctxs + {c}) == ThreadFields(Links(f.links.next[c := c.next], f.links.last[c := c.last]),
                                                  f.ids[c := c.id], f.zombi, f.times[c := c.timeToWait])
  {
    EnlargedLinks(ctxs, c);
    var f, f' := ThreadsOf(ctxs), ThreadsOf(ctxs + {c});
    assert f'.ids == f.ids[c := c.id];
    assert f'.times == f.times[c := c.timeToWait];
    assert f'.zombi == f.zombi;
  }

  lemma InsertNew(l: CtxLinks, cur: Ctx, c: Ctx, next: Ctx?, last: Ctx?)
    requires cur in l.next && cur != c && l.next[cur] != c
    ensures Insert<Ctx?>(Links(l.next[c := next], l.last[c := last]), cur, c, cur) == Insert<Ctx?>(l, cur, c, cur)
  {
    var n := l.next[cur];
    assert l.next[c := next][c := n][cur := c] == l.next[c := n][cur := c];
    assert l.last[c := last][c := cur][n := c] == l.last[c := cur][n := c];
  }

  /** Lines 162-169 of scheduler.c: a new thread is linked in behind the current one. */
  method NewThread(ghost ctxs: set<Ctx>, cur: Ctx, c: Ctx)
    requires cur in ctxs && cur.next in ctxs && cur.next != null && c !in ctxs
    modifies ctxs, c
    ensures old(cur in ThreadsOf(ctxs).links.next)
    ensures var f := old(ThreadsOf(ctxs));
            ThreadsOf(ctxs + {c}) == f.(links := Insert<Ctx?>(f.links, cur, c, cur), ids := f.ids[c := c.id], times := f.times[c := c.timeToWait])
  {
    hide ThreadsOf, Insert;
    c.zombi := false;
    ThreadsHave(ctxs);
    Enlarged(ctxs, c);
    InsertNew(ThreadsOf(ctxs).links, cur, c, c.next, c.last);
    LinkBehind(ctxs + {c}, cur, c, cur);
  }

  method SetTime(ghost ctxs: set<Ctx>, t: Ctx, when: int)
    requires t in ctxs
    modifies t
    ensures t.timeToWait == when
    ensures ThreadsOf(ctxs) == old(ThreadsOf(ctxs).(times := ThreadsOf(ctxs).times[t := when]))
  {
    t.timeToWait := when;
    LinksStay(ctxs);
    assert ThreadsOf(ctxs).times == old(ThreadsOf(ctxs).times[t := when]);
    assert ThreadsOf(ctxs).zombi == old(ThreadsOf(ctxs).zombi);
    assert ThreadsOf(ctxs).ids == old(ThreadsOf(ctxs).ids);
  }

  method SetId(ghost ctxs: set<Ctx>, t: Ctx, id: int)
    requires t in ctxs
    modifies t
    ensures t.timeToWait == old(t.timeToWait)
    ensures ThreadsOf(ctxs) == old(ThreadsOf(ctxs).(ids := ThreadsOf(ctxs).ids[t := id]))
  {
    t.id := id;
    LinksStay(ctxs);
    assert ThreadsOf(ctxs).ids == old(ThreadsOf(ctxs).ids[t := id]);
    assert ThreadsOf(ctxs).zombi == old(ThreadsOf(ctxs).zombi);
    assert ThreadsOf(ctxs).times == old(ThreadsOf(ctxs).times);
  }

  /** Line 171 of scheduler.c. */
  method FreeId(threads: array<Ctx?>, ghost table: map<int, Ctx>) returns (id: int)
    requires ThreadTable(threads, table) && HasRoom(table)
    ensures id == FirstFree(table, 0) && 0 <= id < threads.Length == TABLE_SIZE
  {
    hide ThreadTable;
    id := 0;
    ThreadSlot(threads, table, 0);
    while threads[id] != null
      invariant 0 <= id < threads.Length == TABLE_SIZE && FirstFree(table, id) == FirstFree(table, 0)
      invariant id in table <==> threads[id] != null
      decreases TABLE_SIZE - id
    {
      id := id + 1;
      ThreadSlot(threads, table, id);
    }
  }

  method SetThread(threads: array<Ctx?>, ghost table: map<int, Ctx>, id: int, c: Ctx)
    requires ThreadTable(threads, table) && 0 <= id < threads.Length
    modifies threads
    ensures ThreadTable(threads, table[id := c])
  {
    EntriesSet<Ctx?>(threads[..], null, id, c);
    ghost var was := threads[..];
    threads[id] := c;
    assert threads[..] == was[id := c];
  }

  /** Lines 162-173 of scheduler.c. */
  method EnterThread(threads: array<Ctx?>, ghost table: map<int, Ctx>, ghost ctxs: set<Ctx>, cur: Ctx, c: Ctx)
    returns (id: int)
    requires ThreadTable(threads, table) && HasRoom(table)
    requires cur in ctxs && cur.next in ctxs && cur.next != null && c !in ctxs
    modifies threads, ctxs, c
    ensures id == FirstFree(table, 0) && ThreadTable(threads, table[id := c])
    ensures old(cur in ThreadsOf(ctxs).links.next)
    ensures var f := old(ThreadsOf(ctxs));
            ThreadsOf(ctxs + {c}) == f.(links := Insert<Ctx?>(f.links, cur, c, cur), ids := f.ids[c := id], times := f.times[c := c.timeToWait])
  {
    hide ThreadTable, HasRoom, ThreadsOf, Insert;
    ThreadsHave(ctxs);
    NewThread(ctxs, cur, c);
    id := FreeId(threads, table);
    SetId(ctxs + {c}, c, id);
    SetThread(threads, table, id, c);
  }

  method SetZombi(ghost ctxs: set<Ctx>, t: Ctx)
    requires t in ctxs
    modifies t
    ensures ThreadsOf(ctxs) == old(ThreadsOf(ctxs).(zombi := ThreadsOf(ctxs).zombi + {t}))
  {
    t.zombi := true;
    LinksStay(ctxs);
    assert ThreadsOf(ctxs).zombi == old(ThreadsOf(ctxs).zombi + {t});
    assert ThreadsOf(ctxs).ids == old(ThreadsOf(ctxs).ids);
    assert ThreadsOf(ctxs).times == old(ThreadsOf(ctxs).times);
  }

  method SetCounter(ghost semOf: map<int, Sem>, ghost id: int, sema: Sem, counter: int)
    requires id in semOf && semOf[id] == sema && OneSlot(semOf)
    modifies sema
    ensures SemsOf(semOf) == old(SemsOf(semOf).(counters := SemsOf(semOf).counters[id := counter]))
  {
    sema.counter := counter;
    forall i | i in semOf && i != id ensures semOf[i] != sema {}
    assert SemsOf(semOf).counters == old(SemsOf(semOf).counters[id := counter]);
    assert SemsOf(semOf).heads == old(SemsOf(semOf).heads);
  }

  /** Lines 31-36 of semaphore.c. */
  method EnterSem(semaphores: array<Sem?>, ghost semOf: map<int, Sem>, init: int) returns (id: int, sem: Sem)
    requires SemTable(semaphores, semOf) && HasRoom(semOf)
    modifies semaphores
    ensures fresh(sem) && id == FirstFree(semOf, 0) && SemTable(semaphores, semOf[id := sem])
    ensures var f := old(SemsOf(semOf));
            SemsOf(semOf[id := sem]) == SemFields(f.heads[id := null], f.counters[id := init])
  {
    sem := new Sem(init);
    id := FreeSem(semaphores, semOf);
    EntriesSet<Sem?>(semaphores[..], null, id, sem);
    ghost var was := semaphores[..];
    semaphores[id] := sem;
    assert semaphores[..] == was[id := sem];
    assert sem !in semOf.Values;
    EnlargedSems(semOf, id, sem);
  }

  lemma EnlargedSems(semOf: map<int, Sem>, id: int, sem: Sem)
    ensures var f := SemsOf(semOf);
            SemsOf(semOf[id := sem]) == SemFields(f.heads[id := sem.waitingThreads], f.counters[id := sem.counter])
  {
    var f, f' := SemsOf(semOf), SemsOf(semOf[id := sem]);
    assert f'.heads == f.heads[id := sem.waitingThreads];
    assert f'.counters == f.counters[id := sem.counter];
  }

  /** Line 35 of semaphore.c. */
  method FreeSem(semaphores: array<Sem?>, ghost semOf: map<int, Sem>) returns (id: int)
    requires SemTable(semaphores, semOf) && HasRoom(semOf)
    ensures id == FirstFree(semOf, 0) && 0 <= id < semaphores.Length == TABLE_SIZE
  {
    hide SemTable;
    id := 0;
    SemSlot(semaphores, semOf, 0);
    while semaphores[id] != null
      invariant 0 <= id < semaphores.Length == TABLE_SIZE && FirstFree(semOf, id) == FirstFree(semOf, 0)
      invariant id in semOf <==> semaphores[id] != null
      decreases TABLE_SIZE - id
    {
      id := id + 1;
      SemSlot(semaphores, semOf, id);
    }
  }

  method ClearSem(semaphores: array<Sem?>, ghost semOf: map<int, Sem>, id: int)
    requires SemTable(semaphores, semOf) && id in semOf
    modifies semaphores
    ensures SemTable(semaphores, semOf - {id})
  {
    SemSlot(semaphores, semOf, id);
    EntriesClear<Sem?>(semaphores[..], null, id);
    ghost var was := semaphores[..];
    semaphores[id] := null;
    assert semaphores[..] == was[id := null];
  }

  lemma SemsWithout(semOf: map<int, Sem>, id: int)
    ensures SemsOf(semOf - {id}) == SemFields(SemsOf(semOf).heads - {id}, SemsOf(semOf).counters - {id})
  {
    assert SemsOf(semOf - {id}).heads == SemsOf(semOf).heads - {id};
    assert SemsOf(semOf - {id}).counters == SemsOf(semOf).counters - {id};
  }

  method SetHead(ghost semOf: map<int, Sem>, ghost id: int, sema: Sem, head: Ctx?)
    requires id in semOf && semOf[id] == sema && OneSlot(semOf)
    modifies sema
    ensures SemsOf(semOf) == old(SemsOf(semOf).(heads := SemsOf(semOf).heads[id := head]))
  {
    sema.waitingThreads := head;
    forall i | i in semOf && i != id ensures semOf[i] != sema {}
    assert SemsOf(semOf).counters == old(SemsOf(semOf).counters);
    assert SemsOf(semOf).heads == old(SemsOf(semOf).heads[id := head]);
  }

  lemma QueuesHave(queueOf: map<int, MessageQueue>, pool: set<Message>)
    ensures var f := QueuesOf(queueOf, pool);
            && f.sems.Keys == queueOf.Keys && f.boxes.first.Keys == queueOf.Keys && f.boxes.last.Keys == queueOf.Keys
            && f.boxes.next.Keys == pool && f.boxes.data.Keys == pool
            && (forall i :: i in queueOf ==> queueOf[i].semId == f.sems[i])
            && (forall i :: i in queueOf ==> queueOf[i].messages == f.boxes.first[i] && queueOf[i].last == f.boxes.last[i])
            && (forall m :: m in pool ==> m.next == f.boxes.next[m] && m.data == f.boxes.data[m])
  {
  }

  /** The converse: what the fields are determines the value. */
  lemma QueuesAre(queueOf: map<int, MessageQueue>, pool: set<Message>, f: QueueFields)
    requires f.sems.Keys == queueOf.Keys && f.boxes.first.Keys == queueOf.Keys && f.boxes.last.Keys == queueOf.Keys
    requires f.boxes.next.Keys == pool && f.boxes.data.Keys == pool
    requires forall i :: i in queueOf ==> queueOf[i].semId == f.sems[i]
    requires forall i :: i in queueOf ==> queueOf[i].messages == f.boxes.first[i] && queueOf[i].last == f.boxes.last[i]
    requires forall m :: m in pool ==> m.next == f.boxes.next[m] && m.data == f.boxes.data[m]
    ensures QueuesOf(queueOf, pool) == f
  {
    var f' := QueuesOf(queueOf, pool);
    forall i | i in queueOf
      ensures f'.sems[i] == f.sems[i] && f'.boxes.first[i] == f.boxes.first[i] && f'.boxes.last[i] == f.boxes.last[i]
    {
      var mq := queueOf[i];
    }
    assert f'.sems == f.sems;
    assert f'.boxes.first == f.boxes.first;
    assert f'.boxes.last == f.boxes.last;
    assert f'.boxes.next == f.boxes.next;
    assert f'.boxes.data == f.boxes.data;
  }

  /** Lines 105-113 of m_queue.c. */
  method NewMessage(buffer: array<Byte>, size: nat) returns (cell: Message)
    requires size <= buffer.Length
    ensures fresh(cell) && cell.next == null && cell.data == buffer[..size]
  {
    var data: seq<Byte> := [];
    for i := 0 to size
      invariant data == buffer[..i]
    {
      data := data + [buffer[i]];
    }
    cell := new Message(data);
  }

  lemma AppendedCell(queueOf: map<int, MessageQueue>, pool: set<Message>, f: QueueFields, q: int, mq: MessageQueue, cell: Message)
    requires f.sems.Keys == queueOf.Keys && f.boxes.first.Keys == queueOf.Keys && f.boxes.last.Keys == queueOf.Keys
    requires f.boxes.next.Keys == pool && f.boxes.data.Keys == pool
    requires q in queueOf && queueOf[q] == mq && cell !in pool && cell.next == null
    requires f.boxes.last[q] == null || f.boxes.last[q] in pool
    requires forall i :: i in queueOf && i != q ==> queueOf[i] != mq
    requires mq.last == cell && mq.messages == (if f.boxes.last[q] == null then cell else f.boxes.first[q])
    requires forall i :: i in queueOf ==> queueOf[i].semId == f.sems[i]
    requires forall i :: i in queueOf && i != q ==> queueOf[i].messages == f.boxes.first[i] && queueOf[i].last == f.boxes.last[i]
    requires forall m :: m in pool ==> m.next == if m == f.boxes.last[q] then cell else f.boxes.next[m]
    requires forall m :: m in pool ==> m.data == f.boxes.data[m]
    ensures QueuesOf(queueOf, pool + {cell}) ==
              f.(boxes := Boxes(if f.boxes.last[q] == null then f.boxes.first[q := cell] else f.boxes.first, f.boxes.last[q := cell],
                                LinkedLast(f.boxes.next, f.boxes.last[q], cell), f.boxes.data[cell := cell.data]))
  {
    var b := f.boxes;
    var b' := Boxes(if b.last[q] == null then b.first[q := cell] else b.first, b.last[q := cell],
                    LinkedLast(b.next, b.last[q], cell), b.data[cell := cell.data]);
    hide QueuesOf;
    forall m | m in pool + {cell} ensures m in b'.next && m.next == b'.next[m] && m in b'.data && m.data == b'.data[m] {
    }
    hide LinkedLast;
    assert b'.next.Keys == pool + {cell} by {
      LinkedKeys(b.next, b.last[q], cell);
    }
    QueuesAre(queueOf, pool + {cell}, f.(boxes := b'));
  }

  lemma LinkedKeys(next: map<Message, Message?>, last: Message?, m: Message)
    requires last == null || last in next
    ensures LinkedLast(next, last, m).Keys == next.Keys + {m}
  {
  }

  /** Lines 115-124 of m_queue.c: a new cell is linked in at the end of queue q. */
  method AppendCell(ghost queueOf: map<int, MessageQueue>, ghost pool: set<Message>, ghost q: int, mq: MessageQueue, cell: Message)
    requires q in queueOf && queueOf[q] == mq && OneSlot(queueOf)
    requires cell !in pool && cell.next == null && (mq.last == null || mq.last in pool)
    modifies mq, pool
    ensures mq.semId == old(mq.semId)
    ensures old(q in QueuesOf(queueOf, pool).boxes.last)
    ensures QueuesOf(queueOf, pool + {cell}) ==
              var f := old(QueuesOf(queueOf, pool));
              var b := f.boxes;
              f.(boxes := Boxes(if b.last[q] == null then b.first[q := cell] else b.first, b.last[q := cell],
                                LinkedLast(b.next, b.last[q], cell), b.data[cell := cell.data]))
  {
    hide QueuesOf;
    QueuesHave(queueOf, pool);
    ghost var f := QueuesOf(queueOf, pool);
    ghost var b := f.boxes;
    ghost var tail := mq.last;
    if mq.last == null {
      mq.last := cell;
      mq.messages := cell;
    } else {
      mq.last.next := cell;
      mq.last := cell;
    }
    assert forall m :: m in pool ==> m.next == if m == tail then cell else b.next[m];
    assert forall i :: i in queueOf && i != q ==> queueOf[i] != mq;
    AppendedCell(queueOf, pool, f, q, mq, cell);
  }

  /** Lines 67-71 of m_queue.c: the first cell of queue q is linked out. */
  method UnlinkCell(ghost queueOf: map<int, MessageQueue>, ghost pool: set<Message>, ghost q: int, mq: MessageQueue)
    requires q in queueOf && queueOf[q] == mq && OneSlot(queueOf) && mq.messages != null && mq.messages in pool
    modifies mq
    ensures old(q in QueuesOf(queueOf, pool).boxes.first && QueuesOf(queueOf, pool).boxes.first[q] in QueuesOf(queueOf, pool).boxes.next)
    ensures QueuesOf(queueOf, pool) ==
              var f := old(QueuesOf(queueOf, pool));
              var rest := f.boxes.next[f.boxes.first[q]];
              f.(boxes := f.boxes.(first := f.boxes.first[q := rest],
                                   last := if rest == null then f.boxes.last[q := null] else f.boxes.last))
  {
    hide QueuesOf;
    QueuesHave(queueOf, pool);
    ghost var f := QueuesOf(queueOf, pool);
    ghost var rest := mq.messages.next;
    mq.messages := mq.messages.next;
    if mq.messages == null {
      mq.last := null;
    }
    ghost var b' := f.boxes.(first := f.boxes.first[q := rest], last := if rest == null then f.boxes.last[q := null] else f.boxes.last);
    forall i | i in queueOf ensures queueOf[i].messages == b'.first[i] && queueOf[i].last == b'.last[i] && queueOf[i].semId == f.sems[i] {}
    QueuesAre(queueOf, pool, f.(boxes := b'));
  }

  /** Lines 188-193 of m_queue.c. */
  method EnterQueue(messageQueues: array<MessageQueue?>, ghost queueOf: map<int, MessageQueue>, ghost pool: set<Message>, sem: int)
    returns (id: int, mq: MessageQueue)
    requires QueueTable(messageQueues, queueOf) && HasRoom(queueOf)
    modifies messageQueues
    ensures fresh(mq) && id == FirstFree(queueOf, 0) && QueueTable(messageQueues, queueOf[id := mq])
    ensures var f := old(QueuesOf(queueOf, pool));
            QueuesOf(queueOf[id := mq], pool) ==
              QueueFields(f.sems[id := sem], f.boxes.(first := f.boxes.first[id := null], last := f.boxes.last[id := null]))
  {
    hide QueuesOf;
    id := FreeQueue(messageQueues, queueOf);
    mq := new MessageQueue(sem);
    EntriesSet<MessageQueue?>(messageQueues[..], null, id, mq);
    ghost var was := messageQueues[..];
    messageQueues[id] := mq;
    assert messageQueues[..] == was[id := mq];
    assert mq !in queueOf.Values;
    EnlargedQueues(queueOf, pool, id, mq);
  }

  lemma EnlargedQueues(queueOf: map<int, MessageQueue>, pool: set<Message>, id: int, mq: MessageQueue)
    ensures var f := QueuesOf(queueOf, pool);
            QueuesOf(queueOf[id := mq], pool) ==
              QueueFields(f.sems[id := mq.semId], f.boxes.(first := f.boxes.first[id := mq.messages], last := f.boxes.last[id := mq.last]))
  {
    var f, f' := QueuesOf(queueOf, pool), QueuesOf(queueOf[id := mq], pool);
    assert f'.sems == f.sems[id := mq.semId];
    assert f'.boxes.first == f.boxes.first[id := mq.messages];
    assert f'.boxes.last == f.boxes.last[id := mq.last];
  }

  /** Line 188 of m_queue.c. */
  method FreeQueue(messageQueues: array<MessageQueue?>, ghost queueOf: map<int, MessageQueue>) returns (id: int)
    requires QueueTable(messageQueues, queueOf) && HasRoom(queueOf)
    ensures id == FirstFree(queueOf, 0) && 0 <= id < messageQueues.Length == TABLE_SIZE
  {
    hide QueueTable;
    id := 0;
    QueueSlot(messageQueues, queueOf, 0);
    while messageQueues[id] != null
      invariant 0 <= id < messageQueues.Length == TABLE_SIZE && FirstFree(queueOf, id) == FirstFree(queueOf, 0)
      invariant id in queueOf <==> messageQueues[id] != null
      decreases TABLE_SIZE - id
    {
      id := id + 1;
      QueueSlot(messageQueues, queueOf, id);
    }
  }

  method ClearQueue(messageQueues: array<MessageQueue?>, ghost queueOf: map<int, MessageQueue>, id: int)
    requires QueueTable(messageQueues, queueOf) && id in queueOf
    modifies messageQueues
    ensures QueueTable(messageQueues, queueOf - {id})
  {
    QueueSlot(messageQueues, queueOf, id);
    EntriesClear<MessageQueue?>(messageQueues[..], null, id);
    ghost var was := messageQueues[..];
    messageQueues[id] := null;
    assert messageQueues[..] == was[id := null];
  }

  lemma QueuesWithout(queueOf: map<int, MessageQueue>, pool: set<Message>, id: int)
    ensures var f := QueuesOf(queueOf, pool);
            QueuesOf(queueOf - {id}, pool) ==
              QueueFields(f.sems - {id}, f.boxes.(first := f.boxes.first - {id}, last := f.boxes.last - {id}))
  {
    var f, f' := QueuesOf(queueOf, pool), QueuesOf(queueOf - {id}, pool);
    assert f'.sems == f.sems - {id};
    assert f'.boxes.first == f.boxes.first - {id};
    assert f'.boxes.last == f.boxes.last - {id};
  }

  /** Lines 162-168 of m_queue.c: the cells of a queue are released one by one; `q` lists them. */
  method ReleaseCells(mq: MessageQueue, ghost q: seq<Message>)
    requires mq.messages == if q == [] then null else q[0]
    requires forall i {:trigger NextCell(q, i)} :: 0 <= i < |q| ==> q[i].next == NextCell(q, i)
    modifies mq`messages
    ensures mq.messages == null
  {
    ghost var k := 0;
    while mq.messages != null
      invariant k <= |q| && mq.messages == if k < |q| then q[k] else null
      decreases |q| - k
    {
      ghost var n := NextCell(q, k);
      mq.messages := mq.messages.next;
      k := k + 1;
    }
  }

  method EmptyQueue(messageQueues: array<MessageQueue?>, ghost queueOf: map<int, MessageQueue>, id: int, mq: MessageQueue, ghost q: seq<Message>)
    requires QueueTable(messageQueues, queueOf) && id in queueOf
    requires mq.messages == if q == [] then null else q[0]
    requires forall i {:trigger NextCell(q, i)} :: 0 <= i < |q| ==> q[i].next == NextCell(q, i)
    modifies messageQueues, mq`messages
    ensures QueueTable(messageQueues, queueOf - {id})
  {
    ReleaseCells(mq, q);
    ClearQueue(messageQueues, queueOf, id);
  }

  /** Queue q exists and its semaphore has a coin. */
  ghost predicate HasCoin(s: State, q: int) {
    q in s.mail.queues && s.mail.queues[q].sem in s.sems && s.sems[s.mail.queues[q].sem].counter > 0
  }

  /** What receive_message on queue q comes to, when it does not exist too. */
  ghost function Received(s: State, q: int): State
    requires Runs(s) && s.th.ready != [] && s.th.ready[0] != s.env.idle && (HasCoin(s, q) ==> Readable(s, q))
  {
    if q in s.mail.queues then ReceiveFrom(s, q) else s
  }

  /** The first message of queue q was copied to the buffer. */
  ghost predicate FirstCopied(s: State, q: int, was: Bytes, buffer: Bytes, maxSize: int, i: int) {
    && q in s.mail.queues && s.mail.queues[q].messages != []
    && Copied(s.mail.queues[q].messages[0], was, buffer, maxSize, i)
  }

  lemma ReceivedIs(s: State, q: int)
    requires Runs(s) && s.th.ready != [] && s.th.ready[0] != s.env.idle && (HasCoin(s, q) ==> Readable(s, q))
    ensures q in s.mail.queues ==> s.mail.queues[q].sem in s.sems && (s.sems[s.mail.queues[q].sem].counter > 0 ==> Readable(s, q))
    ensures Received(s, q) == if q in s.mail.queues then ReceiveFrom(s, q) else s
  {
    hide ReceiveFrom, Copied, Readable;
  }

  lemma FirstIs(s: State, q: int, was: Bytes, buffer: Bytes, maxSize: int, i: int)
    requires q in s.mail.queues && s.mail.queues[q].messages != []
    ensures FirstCopied(s, q, was, buffer, maxSize, i) <==> Copied(s.mail.queues[q].messages[0], was, buffer, maxSize, i)
  {
    hide Copied;
  }

  lemma HasCoinIs(s: State, q: int)
    requires Runs(s)
    ensures HasCoin(s, q) <==> q in s.mail.queues && s.sems[s.mail.queues[q].sem].counter > 0
    ensures q in s.mail.queues ==> s.mail.queues[q].sem in s.sems
  {
  }

  lemma TableSize()
    ensures TABLE_SIZE == 256
  {
  }

  lemma WaitedThere(s: State)
    requires Runs(s)
    ensures s.env.waitMq in s.mail.queues
  {
  }

  /** The int that wait() decodes is the id that the state machine assigns to the caller. */
  lemma WaitReads(s: State, was: Bytes, bytes: Bytes, n: int)
    requires Runs(s) && s.th.ready != [] && s.th.ready[0] != s.env.idle
    requires HasCoin(s, s.env.waitMq) && Readable(s, s.env.waitMq)
    requires |was| == |bytes| == 4 && FirstCopied(s, s.env.waitMq, was, bytes, 4, n)
    ensures var r := ReceiveFrom(s, s.env.waitMq).mail.reaping; s.th.ready[0] in r && r[s.th.ready[0]] == DecodeInt(bytes)
  {
    hide Copied, DecodeInt, Dequeue;
    WholeInt(s.mail.queues[s.env.waitMq].messages[0], was, bytes, n);
  }

  /** receive_message on queue q without a coin: the receiver is on record, and takes the semaphore. */
  lemma ReceiverParks(s: State, q: int)
    requires Runs(s) && s.th.ready[0] != s.env.idle && q in s.mail.queues && !HasCoin(s, q)
    ensures var sem := s.mail.queues[q].sem;
            var s1 := s.(mail := s.mail.(pending := s.mail.pending[s.th.ready[0] := q]));
            && sem in s.sems && s.sems[sem].counter <= 0 && Runs(s1) && TakeSem(s1, sem) == ReceiveFrom(s, q)
  {
    hide Dispatch, Park;
  }

  /** receive_message on queue q with a coin. */
  lemma ReceiverReads(s: State, q: int)
    requires Runs(s) && s.th.ready[0] != s.env.idle && HasCoin(s, q) && Readable(s, q)
    ensures var sem := s.mail.queues[q].sem;
            && q in s.mail.queues && sem in s.sems && s.mail.queues[q].messages != []
            && var s1 := TakeCoin(s, sem);
               var r, r' := s1.(mail := s1.mail.(queues := s1.mail.queues[q := Dequeue(s1.mail.queues[q])])), ReceiveFrom(s, q);
               && s1.mail == s.mail && s1.th == s.th && s1.reg == s.reg && s1.env == s.env
               && r'.th == r.th && r'.sems == r.sems && r'.mail.queues == r.mail.queues && r'.reg == r.reg && r'.env == r.env
  {
    hide DecodeInt, Dequeue;
  }

  /** What receive_message leaves in the buffer: the message, cut off at maxSize bytes; i is how many. */
  ghost predicate Copied(msg: Bytes, was: Bytes, buffer: Bytes, maxSize: int, i: int) {
    && i == (if maxSize < 0 then 0 else if |msg| < maxSize then |msg| else maxSize)
    && i <= |was| == |buffer|
    && buffer == msg[..i] + was[i..]
  }

  /** An id fills the int that receives it. */
  lemma WholeInt(msg: Bytes, was: Bytes, buffer: Bytes, i: int)
    requires Copied(msg, was, buffer, 4, i) && |msg| == 4 && |was| == 4
    ensures buffer == msg
  {
  }

  /** Lines 62-65 of m_queue.c. */
  method CopyOut(toRead: Message, buffer: array<Byte>, maxSize: int) returns (i: int)
    requires maxSize <= buffer.Length
    modifies buffer
    ensures Copied(toRead.data, old(buffer[..]), buffer[..], maxSize, i)
  {
    i := 0;
    while i < |toRead.data| && i < maxSize
      invariant 0 <= i <= |toRead.data| && (i <= maxSize || i == 0) && i <= buffer.Length
      invariant forall k :: 0 <= k < i ==> buffer[k] == toRead.data[k]
      invariant forall k :: i <= k < buffer.Length ==> buffer[k] == old(buffer[k])
    {
      buffer[i] := toRead.data[i];
      i := i + 1;
    }
    assert buffer[..] == toRead.data[..i] + old(buffer[..])[i..];
  }

  method ClearThread(threads: array<Ctx?>, ghost table: map<int, Ctx>, id: int)
    requires ThreadTable(threads, table) && id in table
    modifies threads
    ensures ThreadTable(threads, table - {id})
  {
    ThreadSlot(threads, table, id);
    EntriesClear<Ctx?>(threads[..], null, id);
    ghost var was := threads[..];
    threads[id] := null;
    assert threads[..] == was[id := null];
  }

  // ---- steps on the representation --------------------------------------------------------------

  lemma UnreadyRep(s: State, y: Layout, current: Ctx, sleepers: Ctx?, t: ThreadFields, m: SemFields, q: QueueFields, to: Status)
    requires Rep(s, y, current, sleepers, t, m, q) && |s.th.ready| >= 2
    requires to == Dead || to == Moving
    ensures current in t.links.next && current in t.links.last && current in y.ctxs
    ensures t.links.next[current] == s.th.ready[1] && t.links.next[current] in y.ctxs && t.links.last[current] in y.ctxs
    ensures t.links.last[current] != null
    ensures Rep(s.(th := Unready(s.th, to)), y, s.th.ready[1], sleepers, t.(links := Unlinked(t.links, current)), m, q)
  {
    hide MailRep, Counters, SemIds, Timed, Ring, ChainIn, Unlinked;
    PlacedApart(s.th, s.sems);
    UnlinkRep(s.th, s.sems, current, sleepers, m.heads, t.links, to);
    UnreadyPlaced(s.th, s.sems, to);
    assert s.th.ready[0] in s.th.ready && s.th.ready[1] in s.th.ready && s.th.ready[|s.th.ready| - 1] in s.th.ready;
  }

  /** The body of the loop in yield. */
  lemma WakeOneRep(s: State, y: Layout, current: Ctx, sleepers: Ctx?, t: ThreadFields, m: SemFields, q: QueueFields)
    requires Rep(s, y, current, sleepers, t, m, q) && s.th.sleeping != []
    ensures s.th.ready != [] && sleepers == s.th.sleeping[0] && sleepers in t.links.next && sleepers in y.ctxs
    ensures current in t.links.next && current in y.ctxs && t.links.next[current] in y.ctxs
    ensures t.links.next[current] != null && t.links.next[current] != sleepers && current != sleepers
    ensures Rep(s.(th := WakeOne(s.th)), y, current, t.links.next[sleepers],
                t.(links := Insert<Ctx?>(t.links, current, sleepers, current)), m, q)
  {
    hide MailRep, Counters, SemIds, Ring, ChainIn, Insert;
    PlacedApart(s.th, s.sems);
    NextInRing(s.th, s.sems, current, sleepers, m.heads, t.links);
    var w := s.th.sleeping[0];
    assert w in s.th.sleeping;
    assert w !in s.th.ready && w in s.th.status;
    PopSleeperRep(s.th, s.sems, current, sleepers, m.heads, t.links);
    var th1 := s.th.(sleeping := s.th.sleeping[1..]);
    PoppedLoose(s.th, s.sems);
    InsertRep(th1, s.sems, current, t.links.next[sleepers], m.heads, t.links, w, current, false);
    WakeOnePlaced(s.th, s.sems);
    assert s.th.status[w := Ready].Keys == s.th.status.Keys;
  }

  lemma NextInRing(th: Threads, sems: map<int, Semaphore>, current: Ctx, sleepers: Ctx?, heads: map<int, Ctx?>, l: CtxLinks)
    requires LinkRep(th, sems, current, sleepers, heads, l)
    ensures current in l.next && l.next[current] in th.ready && l.next[current] != null && current in th.ready
    ensures current in l.last && l.last[current] in th.ready && l.last[current] != null
  {
    LinkAt<Ctx?>(th.ready, l, th.skew, 0);
  }

  lemma PoppedLoose(th: Threads, sems: map<int, Semaphore>)
    requires Placed(th, sems) && th.sleeping != []
    ensures var th1 := th.(sleeping := th.sleeping[1..]); Apart(th1, sems) && Loose(th1, sems, th.sleeping[0])
  {
    assert th.sleeping[0] in th.sleeping;
    assert forall t :: t in th.sleeping[1..] ==> t in th.sleeping;
    PlacedApart(th, sems);
    assert forall i :: 0 <= i < |th.sleeping[1..]| ==> th.sleeping[1..][i] == th.sleeping[i + 1];
  }

  /** The lists of threads do not notice that a counter changes. */
  lemma CounterLinks(th: Threads, sems: map<int, Semaphore>, sems': map<int, Semaphore>, current: Ctx, sleepers: Ctx?,
                     heads: map<int, Ctx?>, l: CtxLinks)
    requires LinkRep(th, sems, current, sleepers, heads, l) && Placed(th, sems) && sems'.Keys == sems.Keys
    requires forall i {:trigger sems'[i]} :: i in sems ==> sems'[i].waiters == sems[i].waiters
    ensures LinkRep(th, sems', current, sleepers, heads, l) && Placed(th, sems')
  {
    hide Ring, ChainIn, Holds;
  }

  lemma CounterRep(s: State, s': State, y: Layout, current: Ctx, sleepers: Ctx?, t: ThreadFields, m: SemFields, q: QueueFields)
    requires Rep(s, y, current, sleepers, t, m, q) && s' == s.(sems := s'.sems) && s'.sems.Keys == s.sems.Keys
    requires forall i {:trigger s'.sems[i]} :: i in s.sems ==> s'.sems[i].waiters == s.sems[i].waiters
    ensures Rep(s', y, current, sleepers, t, m.(counters := Counters(s'.sems)), q)
  {
    hide LinkRep, Placed, MailRep, Counters, SemIds, Timed;
    CounterLinks(s.th, s.sems, s'.sems, current, sleepers, m.heads, t.links);
  }

  lemma CounterAt(sems: map<int, Semaphore>, sems': map<int, Semaphore>, id: int, c: int)
    requires id in sems && sems'.Keys == sems.Keys && sems'[id].counter == c
    requires forall i {:trigger sems'[i]} :: i in sems && i != id ==> sems'[i].counter == sems[i].counter
    ensures id in Counters(sems) && Counters(sems') == Counters(sems)[id := c] && Counters(sems)[id] == sems[id].counter
  {
  }

  lemma RepCounters(s: State, y: Layout, current: Ctx, sleepers: Ctx?, t: ThreadFields, m: SemFields, q: QueueFields)
    requires Rep(s, y, current, sleepers, t, m, q)
    ensures m.counters == Counters(s.sems) && s.th.ready != []
  {
    hide Ring, ChainIn, Placed, MailRep, Counters, SemIds, Timed;
  }

  /** sem_give where nobody waits. */
  lemma GiveCoinRep(s: State, y: Layout, current: Ctx, sleepers: Ctx?, t: ThreadFields, m: SemFields, q: QueueFields, id: int)
    requires Rep(s, y, current, sleepers, t, m, q) && id in s.sems && s.sems[id].waiters == []
    ensures s.th.ready != [] && id in m.counters
    ensures Rep(GiveSem(s, id), y, current, sleepers, t, m.(counters := m.counters[id := m.counters[id] + 1]), q)
  {
    hide Rep, Counters;
    RepCounters(s, y, current, sleepers, t, m, q);
    CounterRep(s, GiveSem(s, id), y, current, sleepers, t, m, q);
    CounterAt(s.sems, GiveSem(s, id).sems, id, s.sems[id].counter + 1);
  }

  lemma TakeCoinRep(s: State, y: Layout, current: Ctx, sleepers: Ctx?, t: ThreadFields, m: SemFields, q: QueueFields, id: int)
    requires Rep(s, y, current, sleepers, t, m, q) && id in s.sems
    ensures id in m.counters
    ensures Rep(TakeCoin(s, id), y, current, sleepers, t, m.(counters := m.counters[id := m.counters[id] - 1]), q)
  {
    hide Rep, Counters;
    RepCounters(s, y, current, sleepers, t, m, q);
    CounterRep(s, TakeCoin(s, id), y, current, sleepers, t, m, q);
    CounterAt(s.sems, TakeCoin(s, id).sems, id, s.sems[id].counter - 1);
  }

  lemma PostIs(s: State, q: int, msg: Bytes)
    requires Runs(s) && q in s.mail.queues
    ensures s.th.ready != [] && s.mail.queues[q].sem in s.sems && Appended(s, q, msg).sems == s.sems
    ensures Appended(s, q, msg).th == s.th && Post(s, q, msg) == GiveSem(Appended(s, q, msg), s.mail.queues[q].sem)
  {
  }

  lemma AppendedAround(s: State, q: int, msg: Bytes)
    requires q in s.mail.queues
    ensures Appended(s, q, msg).reg == s.reg && Appended(s, q, msg).env == s.env
  {
  }

  lemma HandOffAround(s: State, id: int)
    requires s.th.ready != [] && id in s.sems && s.sems[id].waiters != []
    ensures HandOff(s, id).reg == s.reg && HandOff(s, id).env == s.env
  {
  }

  lemma WaiterLoose(th: Threads, sems: map<int, Semaphore>, id: int, m: Semaphore)
    requires Placed(th, sems) && id in sems && sems[id].waiters != [] && m.waiters == sems[id].waiters[1..]
    ensures Apart(th, sems[id := m]) && Loose(th, sems[id := m], sems[id].waiters[0])
  {
    var w := sems[id].waiters;
    assert w[0] in w && forall t :: t in w[1..] ==> t in w;
    assert forall i :: 0 <= i < |w[1..]| ==> w[1..][i] == w[i + 1];
    PlacedApart(th, sems);
  }

  lemma WaiterFacts(th: Threads, sems: map<int, Semaphore>, current: Ctx, sleepers: Ctx?, heads: map<int, Ctx?>, l: CtxLinks, id: int)
    requires LinkRep(th, sems, current, sleepers, heads, l) && Placed(th, sems) && id in sems && sems[id].waiters != []
    ensures id in heads && heads[id] == sems[id].waiters[0] && heads[id] in l.next
    ensures heads[id] in th.status && heads[id] !in th.ready
    ensures th.ready != [] && current == th.ready[0] && current in l.last
    ensures l.last[current] == th.ready[|th.ready| - 1]
    ensures th.status.Keys == th.status[sems[id].waiters[0] := Ready].Keys
  {
    var w := sems[id].waiters;
    assert w[0] in w;
    ChainAt(heads[id], w, l.next, 0);
    LinkAt<Ctx?>(th.ready, l, th.skew, 0);
    hide Ring, ChainIn;
  }

  lemma HandOffLinks(s: State, current: Ctx, sleepers: Ctx?, heads: map<int, Ctx?>, l: CtxLinks, id: int, back: Ctx?)
    requires LinkRep(s.th, s.sems, current, sleepers, heads, l) && Placed(s.th, s.sems) && id in s.sems && s.sems[id].waiters != []
    requires s.th.ready != [] && current in l.last && id in heads && heads[id] in l.next && current in l.next && heads[id] != null
    requires back == if s.env.repaired then current else l.last[current]
    requires back != null
    ensures LinkRep(HandOff(s, id).th, HandOff(s, id).sems, current, sleepers, heads[id := l.next[heads[id]]],
                    Insert<Ctx?>(l, current, heads[id], back))
  {
    hide LinkRep, Placed, Insert, Ring, Awaken, Loose, Apart;
    WaiterFacts(s.th, s.sems, current, sleepers, heads, l, id);
    var n := s.sems[id];
    var n' := n.(waiters := n.waiters[1..], gives := n.gives + 1, taken := n.taken + 1);
    PopWaiterRep(s.th, s.sems, current, sleepers, heads, l, id, n');
    WaiterLoose(s.th, s.sems, id, n');
    InsertRep(s.th, s.sems[id := n'], current, sleepers, heads[id := l.next[heads[id]]], l, n.waiters[0], back,
              !s.env.repaired && |s.th.ready| >= 2);
  }

  /** sem_give where a thread waits; `back` is the back link that the thread gets. */
  lemma HandOffRep(s: State, y: Layout, current: Ctx, sleepers: Ctx?, t: ThreadFields, m: SemFields, q: QueueFields, id: int, back: Ctx?)
    requires Rep(s, y, current, sleepers, t, m, q) && id in s.sems && s.sems[id].waiters != [] && current in t.links.last
    requires back == if s.env.repaired then current else t.links.last[current]
    ensures s.th.ready != [] && id in m.heads && m.heads[id] == s.sems[id].waiters[0] && m.heads[id] in t.links.next
    ensures m.heads[id] in y.ctxs
    ensures current in t.links.next && current in y.ctxs && t.links.next[current] in y.ctxs && t.links.last[current] in y.ctxs
    ensures t.links.next[current] != null && t.links.next[current] != m.heads[id] && current != m.heads[id] && back != null
    ensures Rep(HandOff(s, id), y, current, sleepers, t.(links := Insert<Ctx?>(t.links, current, m.heads[id], back)),
                m.(heads := m.heads[id := t.links.next[m.heads[id]]]), q)
  {
    hide MailRep, SemIds, LinkRep, Placed, Insert, Timed;
    WaiterFacts(s.th, s.sems, current, sleepers, m.heads, t.links, id);
    NextInRing(s.th, s.sems, current, sleepers, m.heads, t.links);
    RingKnown(s.th, s.sems);
    HandOffLinks(s, current, sleepers, m.heads, t.links, id, back);
    HandOffPlaced(s, id);
    assert Counters(HandOff(s, id).sems) == Counters(s.sems);
  }

  lemma RingKnown(th: Threads, sems: map<int, Semaphore>)
    requires Placed(th, sems)
    ensures forall t :: t in th.ready ==> t in th.status
  {
  }

  lemma UnreadyLoose(th: Threads, sems: map<int, Semaphore>)
    requires th.ready != [] && Placed(Unready(th, Moving), sems)
    ensures Loose(Unready(th, Moving), sems, th.ready[0])
  {
    assert Unready(th, Moving).status[th.ready[0]] == Moving;
    PlacedApart(Unready(th, Moving), sems);
  }

  lemma ParkLinks(s: State, current: Ctx, sleepers: Ctx?, heads: map<int, Ctx?>, l: CtxLinks, id: int, save: Ctx)
    requires s.th.ready != [] && s.th.ready[0] == save && id in s.sems
    requires LinkRep(Unready(s.th, Moving), s.sems, current, sleepers, heads, l) && Placed(Unready(s.th, Moving), s.sems)
    requires save in l.next
    ensures id in heads
    ensures LinkRep(Park(s, id).th, Park(s, id).sems, current, sleepers, heads[id := save], Links(l.next[save := heads[id]], l.last))
  {
    hide Placed, Loose, Ring, ChainIn;
    UnreadyLoose(s.th, s.sems);
    var n := s.sems[id];
    PushWaiterRep(Unready(s.th, Moving), s.sems, current, sleepers, heads, l, id, n.(waiters := [save] + n.waiters), save);
  }

  /** Lines 105-107 of semaphore.c: a thread that has left the ring becomes the first waiter. */
  lemma ParkRep(s: State, y: Layout, current: Ctx, sleepers: Ctx?, t: ThreadFields, m: SemFields, q: QueueFields, id: int, save: Ctx)
    requires s.th.ready != [] && s.th.ready[0] == save
    requires Rep(s.(th := Unready(s.th, Moving)), y, current, sleepers, t, m, q) && id in s.sems && Placed(s.th, s.sems)
    requires save in s.th.status && save in t.links.next
    ensures id in m.heads
    ensures Rep(Park(s, id), y, current, sleepers, t.(links := Links(t.links.next[save := m.heads[id]], t.links.last)),
                m.(heads := m.heads[id := save]), q)
  {
    hide MailRep, SemIds, LinkRep, Placed, Timed;
    ParkLinks(s, current, sleepers, m.heads, t.links, id, save);
    ParkPlaced(s, id);
    assert Counters(Park(s, id).sems) == Counters(s.sems);
    assert s.th.status[save := Waiting(id)].Keys == s.th.status.Keys;
  }

  /** What a semaphore object holds. */
  lemma SemHas(s: State, y: Layout, current: Ctx, sleepers: Ctx?, t: ThreadFields, q: QueueFields, id: int)
    requires Rep(s, y, current, sleepers, t, SemsOf(y.semOf), q)
    ensures id in s.sems <==> id in y.semOf
    ensures id in s.sems ==> y.semOf[id].counter == s.sems[id].counter
    ensures id in s.sems ==> (y.semOf[id].waitingThreads == null <==> s.sems[id].waiters == [])
    ensures id in s.sems ==> y.semOf[id].waitingThreads == SemsOf(y.semOf).heads[id] && y.semOf[id].counter == SemsOf(y.semOf).counters[id]
    ensures s.th.ready != [] && current == s.th.ready[0]
  {
    hide MailRep, SemIds, Timed, Ring, Placed;
    assert id in s.sems <==> id in Counters(s.sems);
    assert id in y.semOf <==> id in SemsOf(y.semOf).counters;
  }

  /** The current thread and its neighbours. */
  lemma CurrentLinks(s: State, y: Layout, current: Ctx, sleepers: Ctx?, t: ThreadFields, m: SemFields, q: QueueFields)
    requires Rep(s, y, current, sleepers, t, m, q)
    ensures s.th.ready != [] && current == s.th.ready[0] && current in y.ctxs
    ensures current in t.links.next && t.links.next[current] in y.ctxs && t.links.next[current] != null
    ensures current in t.links.last && t.links.last[current] in y.ctxs && t.links.last[current] != null
  {
    hide MailRep, SemIds, Timed, Ring, Placed, ChainIn, Counters;
    NextInRing(s.th, s.sems, current, sleepers, m.heads, t.links);
    RingKnown(s.th, s.sems);
  }

  /** What a queue object holds. */
  lemma QueueHas(s: State, y: Layout, current: Ctx, sleepers: Ctx?, t: ThreadFields, m: SemFields, q: int)
    requires Rep(s, y, current, sleepers, t, m, QueuesOf(y.queueOf, y.owner.Keys))
    ensures q in s.mail.queues <==> q in y.queueOf
    ensures q in s.mail.queues ==>
              var o := y.queueOf[q];
              && o.semId == s.mail.queues[q].sem
              && (o.last == null || o.last in y.owner)
              && (o.messages == null <==> s.mail.queues[q].messages == [])
              && (o.messages != null ==> o.messages in y.owner && o.messages.data == s.mail.queues[q].messages[0])
              && q in y.cells && o.messages == QueuesOf(y.queueOf, y.owner.Keys).boxes.first[q]
  {
    hide LinkRep, Timed, Placed, Counters;
    var f := QueuesOf(y.queueOf, y.owner.Keys);
    assert q in y.queueOf <==> q in f.sems;
    assert q in s.mail.queues <==> q in SemIds(s.mail.queues);
    if q in s.mail.queues {
      hide Owned;
      var b := f.boxes;
      assert y.queueOf[q].last == b.last[q] && y.queueOf[q].messages == b.first[q];
      QueueEnds(s.mail.queues, y.cells, y.owner, b, q);
    }
  }

  lemma CellsHave(s: State, y: Layout, current: Ctx, sleepers: Ctx?, t: ThreadFields, m: SemFields, q: int)
    requires Rep(s, y, current, sleepers, t, m, QueuesOf(y.queueOf, y.owner.Keys)) && q in s.mail.queues
    ensures q in y.queueOf && q in y.cells
    ensures y.queueOf[q].messages == if y.cells[q] == [] then null else y.cells[q][0]
    ensures forall i {:trigger NextCell(y.cells[q], i)} :: 0 <= i < |y.cells[q]| ==> y.cells[q][i].next == NextCell(y.cells[q], i)
  {
    hide LinkRep, Timed, Placed, Counters, Owned;
    var f := QueuesOf(y.queueOf, y.owner.Keys);
    assert q in y.queueOf <==> q in f.sems;
    assert q in s.mail.queues <==> q in SemIds(s.mail.queues);
    assert y.queueOf[q].messages == f.boxes.first[q];
    forall i | 0 <= i < |y.cells[q]| ensures y.cells[q][i].next == NextCell(y.cells[q], i) {
      CellAt(s.mail.queues[q].messages, y.cells[q], f.boxes.first[q], f.boxes.last[q], f.boxes.next, f.boxes.data, i);
    }
  }

  lemma QueueEnds(queues: map<int, Queue>, cells: map<int, seq<Message>>, owner: map<Message, int>, b: Boxes, q: int)
    requires MailRep(queues, cells, owner, b) && q in queues
    ensures q in cells && q in b.first && q in b.last
    ensures b.last[q] == null || b.last[q] in owner
    ensures b.first[q] == null <==> queues[q].messages == []
    ensures b.first[q] != null ==> b.first[q] in owner && b.first[q] in b.data && b.data[b.first[q]] == queues[q].messages[0]
  {
    OwnedCells(cells, owner, q);
    LastCell(queues[q].messages, cells[q], b.first[q], b.last[q], b.next, b.data);
    if queues[q].messages != [] {
      CellAt(queues[q].messages, cells[q], b.first[q], b.last[q], b.next, b.data, 0);
    }
  }

  /** A message is linked in at the end of a queue. */
  lemma EnqueueRep(s: State, y: Layout, current: Ctx, sleepers: Ctx?, t: ThreadFields, m: SemFields, f: QueueFields,
                   q: int, cell: Message, msg: Bytes)
    requires Rep(s, y, current, sleepers, t, m, f) && q in s.mail.queues && cell !in y.owner
    ensures q in y.cells && q in f.boxes.last && q in f.boxes.first
    ensures var b := f.boxes;
            Rep(Appended(s, q, msg),
                Layout(y.ctxs, y.semOf, y.queueOf, y.cells[q := y.cells[q] + [cell]], y.owner[cell := q]), current, sleepers, t, m,
                f.(boxes := Boxes(if b.last[q] == null then b.first[q := cell] else b.first, b.last[q := cell],
                                  LinkedLast(b.next, b.last[q], cell), b.data[cell := msg])))
  {
    hide LinkRep, Placed, Timed, Counters, MailRep, LinkedLast;
    MailAppend(s.mail.queues, y.cells, y.owner, f.boxes, q, cell, msg);
    assert SemIds(s.mail.queues[q := Enqueue(s.mail.queues[q], msg)]) == SemIds(s.mail.queues);
  }

  /** The id and the flag of the current thread. */
  lemma CurrentHas(s: State, y: Layout, current: Ctx, sleepers: Ctx?, m: SemFields, q: QueueFields)
    requires Rep(s, y, current, sleepers, ThreadsOf(y.ctxs), m, q)
    ensures s.th.ready != [] && current == s.th.ready[0] && current in y.ctxs
    ensures current.id == IdOf(s.reg, current)
    ensures current.zombi <==> current in s.reg.zombi
  {
    hide MailRep, SemIds, Timed, Ring, ChainIn, Counters;
    assert s.th.ready[0] in s.th.ready;
    assert current in ThreadsOf(y.ctxs).ids;
  }

  /** Somebody is left to run once the current thread, not idle, has announced its death. */
  lemma RetireRoom(s: State, msg: Bytes)
    requires Runs(s) && s.th.ready != [] && s.th.ready[0] != s.env.idle && msg == EncodeInt(IdOf(s.reg, s.th.ready[0]))
    ensures s.env.waitMq in s.mail.queues
    ensures |Post(s, s.env.waitMq, msg).th.ready| >= 2
    ensures Retire(s) == Post(s, s.env.waitMq, msg).(th := Unready(Post(s, s.env.waitMq, msg).th, Dead))
  {
    PostRuns(s, s.env.waitMq, msg);
    hide Post;
  }

  /** A thread other than idle does not run alone. */
  lemma Company(s: State)
    requires Runs(s) && s.th.ready != [] && s.th.ready[0] != s.env.idle
    ensures |s.th.ready| >= 2
  {
  }

  /** The sleep list, read off its head, and off thread i of it. */
  lemma SleepersHave(s: State, y: Layout, current: Ctx, sleepers: Ctx?, m: SemFields, q: QueueFields)
    requires Rep(s, y, current, sleepers, ThreadsOf(y.ctxs), m, q)
    ensures sleepers == if s.th.sleeping == [] then null else s.th.sleeping[0]
    ensures forall i {:trigger NextIn(s.th.sleeping, i)} :: 0 <= i < |s.th.sleeping| ==>
              s.th.sleeping[i] in y.ctxs && s.th.sleeping[i].next == NextIn(s.th.sleeping, i)
    ensures forall i :: 0 <= i < |s.th.sleeping| ==>
              var t := s.th.sleeping[i]; t in y.ctxs && t in s.th.wake && t.timeToWait == s.th.wake[t]
  {
    hide MailRep, SemIds, Ring, Counters;
    forall i | 0 <= i < |s.th.sleeping|
      ensures var t := s.th.sleeping[i];
              t in y.ctxs && t in s.th.wake && t.timeToWait == s.th.wake[t] && t.next == NextIn(s.th.sleeping, i)
    {
      ChainAt(sleepers, s.th.sleeping, ThreadsOf(y.ctxs).links.next, i);
      assert s.th.sleeping[i] in s.th.sleeping;
    }
  }

  /** Where the search of sleep stops. */
  lemma {:induction false} StopsAt(q: seq<Ctx>, wake: map<Ctx, int>, t: Ctx, k: nat)
    requires t in wake && forall x :: x in q ==> x in wake
    requires k <= |q| && (forall i :: 0 <= i < k ==> wake[q[i]] < wake[t]) && (k < |q| ==> wake[q[k]] >= wake[t])
    ensures InsertByWake(q, wake, t) == q[..k] + [t] + q[k..]
  {
    if k == 0 {
      assert [t] + q == q[..0] + [t] + q[0..];
    } else {
      assert wake[q[0]] < wake[t];
      StopsAt(q[1..], wake, t, k - 1);
      assert [q[0]] + (q[1..][..k - 1] + [t] + q[1..][k - 1..]) == q[..k] + [t] + q[k..];
    }
  }

  lemma AdvancedRep(s: State, y: Layout, current: Ctx, sleepers: Ctx?, t: ThreadFields, m: SemFields, q: QueueFields)
    requires Rep(s, y, current, sleepers, t, m, q) && !s.th.skew
    ensures s.th.ready != [] && current in t.links.next && t.links.next[current] == Advance(s.th).ready[0]
    ensures Advance(s.th).ready[0] in t.links.last && t.links.last[Advance(s.th).ready[0]] == current
    ensures Advance(s.th).ready[0] in y.ctxs
    ensures Rep(s.(th := Advance(s.th)), y, Advance(s.th).ready[0], sleepers, t, m, q)
  {
    hide MailRep, SemIds, Counters, Timed, Ring, ChainIn;
    AdvanceRep(s.th, s.sems, current, sleepers, m.heads, t.links);
    AdvancePlaced(s.th, s.sems);
    assert Advance(s.th).ready[0] in Advance(s.th).ready;
  }

  /** A new wake-up time for a thread that does not sleep. */
  lemma StampRep(s: State, y: Layout, current: Ctx, sleepers: Ctx?, t: ThreadFields, m: SemFields, q: QueueFields, when: int)
    requires Rep(s, y, current, sleepers, t, m, q)
    ensures Rep(s, y, current, sleepers, t.(times := t.times[current := when]), m, q)
  {
    hide MailRep, SemIds, Counters, Ring, ChainIn;
    assert current in s.th.ready && current !in s.th.sleeping;
  }

  /** The sleep list of Doze is the old one with the current thread at position k. */
  ghost predicate Place(th: Threads, when: int, k: nat) {
    && th.ready != [] && k <= |th.sleeping|
    && InsertByWake(th.sleeping, th.wake[th.ready[0] := when], th.ready[0])
       == th.sleeping[..k] + [th.ready[0]] + th.sleeping[k..]
  }

  lemma DozeLinks(th: Threads, sems: map<int, Semaphore>, current: Ctx, sleepers: Ctx?, heads: map<int, Ctx?>, l: CtxLinks, when: int, k: nat)
    requires Place(th, when, k) && th.ready[0] in l.next
    requires LinkRep(Unready(th, Moving), sems, current, sleepers, heads, l) && Placed(Unready(th, Moving), sems)
    ensures var save := th.ready[0];
            var next := l.next[save := if k < |th.sleeping| then th.sleeping[k] else null];
            LinkRep(Doze(th, when), sems, current, if k == 0 then save else sleepers, heads,
                    Links(if k == 0 then next else next[th.sleeping[k - 1] := save], l.last))
  {
    hide LinkRep, Loose, Apart, InsertByWake;
    var th1 := Unready(th, Moving);
    UnreadyLoose(th, sems);
    PlacedApart(th1, sems);
    hide Placed;
    SleeperRep(th1, sems, current, sleepers, heads, l, th.ready[0], k, Doze(th, when));
  }

  lemma DozeTimed(th: Threads, when: int, k: nat, times: map<Ctx, int>)
    requires Place(th, when, k) && Timed(th.sleeping, th.wake, times)
    requires th.ready[0] in times && times[th.ready[0]] == when && th.ready[0] !in th.sleeping
    ensures Timed(Doze(th, when).sleeping, Doze(th, when).wake, times)
  {
    hide InsertByWake;
    var q := th.sleeping[..k] + [th.ready[0]] + th.sleeping[k..];
    assert Doze(th, when).sleeping == q;
    assert forall x :: x in q ==> x == th.ready[0] || x in th.sleeping;
  }

  /** Lines 72-81 of scheduler.c: a thread that has left the ring is linked into the sleep list. */
  lemma DozeRep(s: State, y: Layout, current: Ctx, sleepers: Ctx?, t: ThreadFields, m: SemFields, q: QueueFields, when: int, k: nat)
    requires Place(s.th, when, k) && Placed(s.th, s.sems)
    requires Rep(s.(th := Unready(s.th, Moving)), y, current, sleepers, t, m, q)
    requires s.th.ready[0] in t.links.next && s.th.ready[0] in t.times && t.times[s.th.ready[0]] == when
    requires s.th.ready[0] in s.th.status
    ensures var save := s.th.ready[0];
            var next := t.links.next[save := if k < |s.th.sleeping| then s.th.sleeping[k] else null];
            Rep(s.(th := Doze(s.th, when)), y, current, if k == 0 then save else sleepers,
                t.(links := Links(if k == 0 then next else next[s.th.sleeping[k - 1] := save], t.links.last)), m, q)
  {
    hide MailRep, SemIds, Counters, LinkRep, Placed, Timed, Place, InsertByWake, Doze, Unready;
    PlaceReady(s.th, when, k);
    UnreadySame(s.th);
    assert s.th.ready[0] !in s.th.sleeping && forall x :: x in s.th.sleeping ==> x in s.th.wake by {
      DozeApart(s.th, s.sems, t.times);
    }
    DozeLinks(s.th, s.sems, current, sleepers, m.heads, t.links, when, k);
    DozeTimed(s.th, when, k, t.times);
    DozePlaced(s.th, s.sems, when);
    DozeKeys(s.th, when);
  }

  lemma DozeKeys(th: Threads, when: int)
    requires th.ready != [] && th.ready[0] in th.status
    ensures Doze(th, when).status.Keys == th.status.Keys
  {
  }

  lemma UnreadySame(th: Threads)
    requires th.ready != []
    ensures Unready(th, Moving).sleeping == th.sleeping && Unready(th, Moving).wake == th.wake
    ensures th.ready[0] in th.status ==> Unready(th, Moving).status.Keys == th.status.Keys
  {
  }

  lemma PlaceReady(th: Threads, when: int, k: nat)
    requires Place(th, when, k)
    ensures th.ready != [] && k <= |th.sleeping|
  {
  }

  lemma DozeApart(th: Threads, sems: map<int, Semaphore>, times: map<Ctx, int>)
    requires th.ready != [] && Placed(th, sems) && Timed(th.sleeping, th.wake, times)
    ensures th.ready[0] !in th.sleeping && forall x :: x in th.sleeping ==> x in th.wake
  {
    assert th.ready[0] in th.ready;
  }

  lemma KillRep(s: State, y: Layout, current: Ctx, sleepers: Ctx?, t: ThreadFields, m: SemFields, q: QueueFields, pid: int)
    requires Rep(s, y, current, sleepers, t, m, q) && pid in s.reg.table && s.reg.table[pid] in s.reg.ids
    ensures s.reg.table[pid] in y.ctxs
    ensures Rep(s.(reg := KernelState.KillThread(s.reg, pid)), y, current, sleepers, t.(zombi := t.zombi + {s.reg.table[pid]}), m, q)
  {
    hide MailRep, SemIds, Counters, LinkRep, Placed, Timed;
  }

  /** create_thread, with the id that the table search found. */
  lemma CreateRep(s: State, y: Layout, current: Ctx, sleepers: Ctx?, t: ThreadFields, m: SemFields, q: QueueFields, c: Ctx, time: int)
    requires Rep(s, y, current, sleepers, t, m, q) && c !in y.ctxs
    ensures s.th.ready != [] && current in t.links.next
    ensures Rep(KernelState.CreateThread(s, c), Layout(y.ctxs + {c}, y.semOf, y.queueOf, y.cells, y.owner), current, sleepers,
                t.(links := Insert<Ctx?>(t.links, current, c, current), ids := t.ids[c := FirstFree(s.reg.table, 0)], times := t.times[c := time]),
                m, q)
  {
    hide MailRep, SemIds, Counters, LinkRep, Placed, Insert;
    NextInRing(s.th, s.sems, current, sleepers, m.heads, t.links);
    RingHead(s.th, s.sems, current, sleepers, m.heads, t.links);
    PlacedApart(s.th, s.sems);
    InsertRep(s.th, s.sems, current, sleepers, m.heads, t.links, c, current, false);
    CreatePlaced(s.th, s.sems, c);
    assert c !in s.th.sleeping by {
      SleepersApart(s.th, s.sems);
    }
    assert s.th.status[c := Ready].Keys == s.th.status.Keys + {c};
  }

  lemma CreatedSame(s: State, c: Ctx)
    requires s.th.ready != []
    ensures KernelState.CreateThread(s, c).reg.table == s.reg.table[FirstFree(s.reg.table, 0) := c]
    ensures KernelState.CreateThread(s, c).env == s.env
  {
  }

  lemma RingHead(th: Threads, sems: map<int, Semaphore>, current: Ctx, sleepers: Ctx?, heads: map<int, Ctx?>, l: CtxLinks)
    requires LinkRep(th, sems, current, sleepers, heads, l)
    ensures th.ready != [] && current == th.ready[0]
  {
  }

  lemma {:induction false} FirstFreeSame<T, U>(m: map<int, T>, n: map<int, U>, i: nat)
    requires m.Keys == n.Keys && i <= TABLE_SIZE
    ensures FirstFree(m, i) == FirstFree(n, i)
    decreases TABLE_SIZE - i
  {
    assert i in m <==> i in m.Keys;
    assert i in n <==> i in n.Keys;
    if i < TABLE_SIZE && i in m {
      FirstFreeSame(m, n, i + 1);
    }
  }

  lemma SemRoom(s: State, y: Layout, current: Ctx, sleepers: Ctx?, t: ThreadFields, q: QueueFields)
    requires Rep(s, y, current, sleepers, t, SemsOf(y.semOf), q)
    ensures s.sems.Keys == y.semOf.Keys
    ensures FirstFree(s.sems, 0) == FirstFree(y.semOf, 0) && (HasRoom(s.sems) <==> HasRoom(y.semOf))
  {
    hide LinkRep, Placed, MailRep, SemIds, Timed;
    assert Counters(s.sems).Keys == s.sems.Keys;
    assert SemsOf(y.semOf).counters.Keys == y.semOf.Keys;
    FirstFreeSame(s.sems, y.semOf, 0);
  }

  lemma NewSemRep(s: State, y: Layout, current: Ctx, sleepers: Ctx?, t: ThreadFields, m: SemFields, q: QueueFields, id: int, init: int, sem: Sem)
    requires Rep(s, y, current, sleepers, t, m, q) && id == FirstFree(s.sems, 0) && HasRoom(s.sems)
    ensures Rep(CreateSemaphore(s, init), Layout(y.ctxs, y.semOf[id := sem], y.queueOf, y.cells, y.owner), current, sleepers, t,
                SemFields(m.heads[id := null], m.counters[id := init]), q)
  {
    hide MailRep, SemIds, Timed, LinkRep, Placed;
    assert Counters(s.sems[id := NewSem(init)]) == Counters(s.sems)[id := init];
    NewSemPlaced(s.th, s.sems, id, init);
    NewSemLinks(s.th, s.sems, current, sleepers, m.heads, t.links, id, init);
  }

  lemma NewSemLinks(th: Threads, sems: map<int, Semaphore>, current: Ctx, sleepers: Ctx?, heads: map<int, Ctx?>, l: CtxLinks, id: int, init: int)
    requires LinkRep(th, sems, current, sleepers, heads, l) && id !in sems
    ensures LinkRep(th, sems[id := NewSem(init)], current, sleepers, heads[id := null], l)
  {
    hide Ring;
  }

  lemma DeletedSame(s: State, id: int)
    requires id in s.sems
    ensures DeleteSemaphore(s, id) == if s.sems[id].waiters != [] then s else s.(sems := s.sems - {id})
  {
  }

  lemma DelSemRep(s: State, y: Layout, current: Ctx, sleepers: Ctx?, t: ThreadFields, m: SemFields, q: QueueFields, id: int)
    requires Rep(s, y, current, sleepers, t, m, q) && id in s.sems && s.sems[id].waiters == []
    ensures Rep(s.(sems := s.sems - {id}), Layout(y.ctxs, y.semOf - {id}, y.queueOf, y.cells, y.owner), current, sleepers, t,
                SemFields(m.heads - {id}, m.counters - {id}), q)
  {
    hide MailRep, SemIds, Timed, LinkRep, Placed;
    assert Counters(s.sems - {id}) == Counters(s.sems) - {id};
    DropSemPlaced(s.th, s.sems, id);
    DelSemLinks(s.th, s.sems, current, sleepers, m.heads, t.links, id);
  }

  lemma DelSemLinks(th: Threads, sems: map<int, Semaphore>, current: Ctx, sleepers: Ctx?, heads: map<int, Ctx?>, l: CtxLinks, id: int)
    requires LinkRep(th, sems, current, sleepers, heads, l)
    ensures LinkRep(th, sems - {id}, current, sleepers, heads - {id}, l)
  {
    hide Ring;
  }

  lemma CreatedSem(s: State)
    ensures CreateSemaphore(s, 0).mail == s.mail && CreateSemaphore(s, 0).env == s.env && CreateSemaphore(s, 0).reg == s.reg
    ensures CreateQueue(s) ==
              var s1 := CreateSemaphore(s, 0);
              s1.(mail := s1.mail.(queues := s1.mail.queues[FirstFree(s1.mail.queues, 0) := Queue(FirstFree(s.sems, 0), [], [], [])]))
  {
  }

  lemma QueueRoom(s: State, y: Layout, current: Ctx, sleepers: Ctx?, t: ThreadFields, m: SemFields)
    requires Rep(s, y, current, sleepers, t, m, QueuesOf(y.queueOf, y.owner.Keys))
    ensures s.mail.queues.Keys == y.queueOf.Keys
    ensures FirstFree(s.mail.queues, 0) == FirstFree(y.queueOf, 0) && (HasRoom(s.mail.queues) <==> HasRoom(y.queueOf))
  {
    hide LinkRep, Placed, MailRep, Counters, Timed;
    assert SemIds(s.mail.queues).Keys == s.mail.queues.Keys;
    assert QueuesOf(y.queueOf, y.owner.Keys).sems.Keys == y.queueOf.Keys;
    FirstFreeSame(s.mail.queues, y.queueOf, 0);
  }

  lemma NewQueueRep(s: State, y: Layout, current: Ctx, sleepers: Ctx?, t: ThreadFields, m: SemFields, f: QueueFields,
                    id: int, sem: int, mq: MessageQueue)
    requires Rep(s, y, current, sleepers, t, m, f) && id == FirstFree(s.mail.queues, 0) && HasRoom(s.mail.queues)
    ensures Rep(s.(mail := s.mail.(queues := s.mail.queues[id := Queue(sem, [], [], [])])),
                Layout(y.ctxs, y.semOf, y.queueOf[id := mq], y.cells[id := []], y.owner), current, sleepers, t, m,
                QueueFields(f.sems[id := sem], f.boxes.(first := f.boxes.first[id := null], last := f.boxes.last[id := null])))
  {
    hide LinkRep, Placed, Timed, Counters, MailRep;
    MailNew(s.mail.queues, y.cells, y.owner, f.boxes, id, sem);
    assert SemIds(s.mail.queues[id := Queue(sem, [], [], [])]) == SemIds(s.mail.queues)[id := sem];
  }

  /** The queue that is dropped may have been emptied before: its own pointers no longer matter. */
  lemma DropQueueRep(s: State, y: Layout, current: Ctx, sleepers: Ctx?, t: ThreadFields, m: SemFields, f: QueueFields, id: int)
    requires Rep(s, y, current, sleepers, t, m, f)
    ensures Rep(s.(mail := s.mail.(queues := s.mail.queues - {id})),
                Layout(y.ctxs, y.semOf, y.queueOf - {id}, y.cells - {id}, y.owner), current, sleepers, t, m,
                QueueFields(f.sems - {id}, f.boxes.(first := f.boxes.first - {id}, last := f.boxes.last - {id})))
  {
    hide LinkRep, Placed, Timed, Counters, MailRep;
    MailDrop(s.mail.queues, y.cells, y.owner, f.boxes, id);
    assert SemIds(s.mail.queues - {id}) == SemIds(s.mail.queues) - {id};
  }

  /** The first message of a queue is linked out. */
  lemma DequeueRep(s: State, y: Layout, current: Ctx, sleepers: Ctx?, t: ThreadFields, m: SemFields, f: QueueFields, q: int)
    requires Rep(s, y, current, sleepers, t, m, f) && q in s.mail.queues && s.mail.queues[q].messages != []
    ensures q in y.cells && y.cells[q] != [] && q in f.boxes.first && f.boxes.first[q] in f.boxes.next
    ensures var rest := f.boxes.next[f.boxes.first[q]];
            Rep(s.(mail := s.mail.(queues := s.mail.queues[q := Dequeue(s.mail.queues[q])])),
                Layout(y.ctxs, y.semOf, y.queueOf, y.cells[q := y.cells[q][1..]], y.owner),
                current, sleepers, t, m,
                f.(boxes := f.boxes.(first := f.boxes.first[q := rest],
                                     last := if rest == null then f.boxes.last[q := null] else f.boxes.last)))
  {
    hide LinkRep, Placed, Timed, Counters, MailRep;
    MailPop(s.mail.queues, y.cells, y.owner, f.boxes, q);
    assert SemIds(s.mail.queues[q := Dequeue(s.mail.queues[q])]) == SemIds(s.mail.queues);
  }

  /** Only the contents of the queues are represented, not what is pending. */
  lemma SameRep(s: State, s': State, y: Layout, current: Ctx, sleepers: Ctx?, t: ThreadFields, m: SemFields, q: QueueFields)
    requires Rep(s, y, current, sleepers, t, m, q)
    requires s'.th == s.th && s'.sems == s.sems && s'.mail.queues == s.mail.queues && s'.reg == s.reg
    ensures Rep(s', y, current, sleepers, t, m, q)
  {
  }

  lemma ReapRep(s: State, y: Layout, current: Ctx, sleepers: Ctx?, t: ThreadFields, m: SemFields, q: QueueFields)
    requires Rep(s, y, current, sleepers, t, m, q) && s.th.ready != [] && s.th.ready[0] in s.mail.reaping
    requires DeadId(s.th.status, s.reg.table, s.mail.reaping[s.th.ready[0]])
    ensures Rep(ReapThread(s), y, current, sleepers, t, m, q)
  {
    hide Timed, Counters, MailRep, Placed;
    var i := s.mail.reaping[s.th.ready[0]];
    var d := s.reg.table[i];
    ReapPlaced(s.th, s.sems, d);
    assert s.th.status[d := Reaped].Keys == s.th.status.Keys;
    assert LinkRep(ReapThread(s).th, s.sems, current, sleepers, m.heads, t.links) by {
      hide Ring, ChainIn;
    }
    hide LinkRep;
  }

  /** Before idle is created: main alone, and nothing else. */
  function Bare(main: Ctx, repaired: bool): State {
    State(Threads([main], false, [], map[], map[main := Ready]), map[], Mail(map[], map[], map[]),
          Registry(map[main := -1], map[], {}), Env(0, main, main, repaired))
  }

  lemma BareRep(main: Ctx, repaired: bool)
    requires main.next == main && main.last == main && main.id == -1 && !main.zombi
    ensures Rep(Bare(main, repaired), Layout({main}, map[], map[], map[], map[]), main, null,
                ThreadsOf({main}), SemsOf(map[]), QueuesOf(map[], {}))
  {
    BareFields(main);
    BareLinks(main, ThreadsOf({main}).links);
    hide ThreadsOf, LinkRep;
    var s := Bare(main, repaired);
    assert Counters(s.sems) == map[] && SemIds(s.mail.queues) == map[];
    assert SemsOf(map[]) == SemFields(map[], map[]);
    assert QueuesOf(map[], {}) == QueueFields(map[], Boxes(map[], map[], map[], map[]));
  }

  lemma BareFields(main: Ctx)
    requires main.next == main && main.last == main && main.id == -1 && !main.zombi
    ensures var f := ThreadsOf({main});
            f.ids == map[main := -1] && f.zombi == {} && f.ids.Keys == {main}
            && f.links.next.Keys == {main} && f.links.last.Keys == {main} && f.links.next[main] == main && f.links.last[main] == main
  {
  }

  lemma BareLinks(main: Ctx, l: CtxLinks)
    requires main in l.next && l.next[main] == main && main in l.last && l.last[main] == main
    ensures LinkRep(Threads([main], false, [], map[], map[main := Ready]), map[], main, null, map[], l)
  {
    assert Ring<Ctx?>([main], l, false);
  }

  lemma BareReady(main: Ctx, idle: Ctx, repaired: bool)
    ensures Bare(main, repaired).th.ready == [main]
    ensures var s := KernelState.CreateThread(Bare(main, repaired), idle);
            s.env.waitMq == 0 && HasRoom(s.sems) && HasRoom(s.mail.queues) && FirstFree(s.mail.queues, 0) == 0
  {
  }

  lemma BareRoom(main: Ctx, repaired: bool)
    ensures HasRoom(Bare(main, repaired).reg.table) && HasRoom(Bare(main, repaired).sems) && HasRoom(Bare(main, repaired).mail.queues)
    ensures FirstFree(Bare(main, repaired).reg.table, 0) == 0
  {
  }

  lemma BootedFrom(main: Ctx, idle: Ctx, repaired: bool)
    requires main != idle
    ensures var s := CreateQueue(KernelState.CreateThread(Bare(main, repaired), idle));
            var b := Booted(main, idle, repaired);
            && b.th == s.th && b.sems == s.sems && b.mail.queues == s.mail.queues && b.reg == s.reg
            && b.env.waitMq == s.env.waitMq && b.env.repaired == s.env.repaired
            && 0 in s.reg.table && s.reg.table[0] == idle && s.th.ready[0] == main && b.env.waitMq == 0
  {
    var s := CreateQueue(KernelState.CreateThread(Bare(main, repaired), idle));
    var b := Booted(main, idle, repaired);
    assert b.th.status == s.th.status && b.th.ready == s.th.ready;
    assert b.reg.ids == s.reg.ids && b.reg.table == s.reg.table;
  }

  lemma RingIs(th: Threads, sems: map<int, Semaphore>, current: Ctx, sleepers: Ctx?, heads: map<int, Ctx?>, l: CtxLinks)
    requires LinkRep(th, sems, current, sleepers, heads, l)
    ensures Ring<Ctx?>(th.ready, l, th.skew)
  {
  }

  lemma RingSizes(r: seq<Ctx>, l: CtxLinks, skew: bool)
    requires Ring<Ctx?>(r, l, skew)
    ensures |r| >= 1 && (skew ==> |r| >= 3)
    ensures forall i, j :: 0 <= i < j < |r| ==> r[i] != r[j]
  {
  }

  lemma NoneDue(th: Threads, now: int)
    requires th.ready != [] && !Due(th, now)
    ensures WakeDue(th, now) == th
  {
  }

  lemma WokenFewer(th: Threads)
    requires th.ready != [] && th.sleeping != []
    ensures |WakeOne(th).sleeping| < |th.sleeping| && WakeOne(th).ready != []
  {
  }

  /** Where yield is allowed, the ring is well formed once the sleepers are in it. */
  lemma Unskewed(s: State, now: int)
    requires Placed(s.th, s.sems) && s.th.ready != [] && (s.th.skew ==> Due(s.th, now))
    ensures !WakeDue(s.th, now).skew
  {
    WakeDuePlaced(s.th, s.sems, now);
  }

  lemma SleepersApart(th: Threads, sems: map<int, Semaphore>)
    requires Placed(th, sems) && th.ready != []
    ensures th.ready[0] !in th.sleeping && forall x :: x in th.sleeping ==> x in th.status
    ensures forall i :: 0 <= i < |th.sleeping| ==> th.sleeping[i] != th.ready[0] && th.sleeping[i] in th.status
  {
    assert th.ready[0] in th.ready;
  }

  /** The bytes of an int. */
  method BytesOf(i: int) returns (buffer: array<Byte>)
    ensures fresh(buffer) && buffer.Length == 4 && buffer[..] == EncodeInt(i)
  {
    buffer := new Byte[4](k requires 0 <= k < 4 => EncodeInt(i)[k]);
  }
}
