/** How the message queues lie in memory: linked cells, a head and a tail pointer per queue. */
module MessageMemory {
  import opened Contexts
  import opened KernelState

  /** The head and tail pointers of the queues, and the fields of the cells. */
  datatype Boxes = Boxes(first: map<int, Message?>, last: map<int, Message?>, next: map<Message, Message?>, data: map<Message, Bytes>)

  function NextCell(q: seq<Message>, i: nat): Message? {
    if i + 1 < |q| then q[i + 1] else null
  }

  /** `first` leads through the cells to null, `last` names the final cell, and the cells hold the messages. */
  ghost predicate QueueRep(messages: seq<Bytes>, q: seq<Message>, first: Message?, last: Message?,
                           next: map<Message, Message?>, data: map<Message, Bytes>) {
    && |q| == |messages|
    && first == (if q == [] then null else q[0])
    && last == (if q == [] then null else q[|q| - 1])
    && (forall i, j :: 0 <= i < j < |q| ==> q[i] != q[j])
    && (forall i {:trigger NextCell(q, i)} :: 0 <= i < |q| ==> q[i] in next && next[q[i]] == NextCell(q, i))
    && (forall i :: 0 <= i < |q| ==> q[i] in data && data[q[i]] == messages[i])
  }

  /** No cell is in two queues. */
  ghost predicate Owned(cells: map<int, seq<Message>>, owner: map<Message, int>) {
    forall q {:trigger cells[q]} :: q in cells ==> forall m :: m in cells[q] ==> m in owner && owner[m] == q
  }

  ghost predicate MailRep(queues: map<int, Queue>, cells: map<int, seq<Message>>, owner: map<Message, int>, b: Boxes) {
    && cells.Keys == queues.Keys && b.first.Keys == queues.Keys && b.last.Keys == queues.Keys
    && b.next.Keys == owner.Keys && b.data.Keys == owner.Keys
    && Owned(cells, owner)
    && (forall q {:trigger queues[q]} :: q in queues ==>
          QueueRep(queues[q].messages, cells[q], b.first[q], b.last[q], b.next, b.data))
  }

  lemma CellAt(messages: seq<Bytes>, q: seq<Message>, first: Message?, last: Message?,
               next: map<Message, Message?>, data: map<Message, Bytes>, i: nat)
    requires QueueRep(messages, q, first, last, next, data) && i < |q|
    ensures |q| == |messages| && q[i] in next && next[q[i]] == NextCell(q, i) && q[i] in data && data[q[i]] == messages[i]
  {
    var n := NextCell(q, i);
  }

  /** Cells of other queues do not matter. */
  lemma QueueFrame(messages: seq<Bytes>, q: seq<Message>, first: Message?, last: Message?,
                   next: map<Message, Message?>, data: map<Message, Bytes>, next': map<Message, Message?>, data': map<Message, Bytes>)
    requires QueueRep(messages, q, first, last, next, data)
    requires forall m :: m in q && m in next ==> m in next' && next'[m] == next[m]
    requires forall m :: m in q && m in data ==> m in data' && data'[m] == data[m]
    ensures QueueRep(messages, q, first, last, next', data')
  {
    forall i | 0 <= i < |q| ensures q[i] in next' && next'[q[i]] == NextCell(q, i) {
      CellAt(messages, q, first, last, next, data, i);
    }
  }

  /** Lines 104-124 of m_queue.c: a cell is linked in behind the last one. */
  function LinkedLast(next: map<Message, Message?>, last: Message?, m: Message): map<Message, Message?> {
    if last == null then next[m := null] else next[m := null][last := m]
  }

  lemma QueueAppend(messages: seq<Bytes>, q: seq<Message>, first: Message?, last: Message?,
                    next: map<Message, Message?>, data: map<Message, Bytes>, m: Message, msg: Bytes)
    requires QueueRep(messages, q, first, last, next, data) && m !in q
    ensures QueueRep(messages + [msg], q + [m], if last == null then m else first, m, LinkedLast(next, last, m), data[m := msg])
  {
    var q', next' := q + [m], LinkedLast(next, last, m);
    forall i | 0 <= i < |q'| ensures q'[i] in next' && next'[q'[i]] == NextCell(q', i) {
      if i < |q| {
        CellAt(messages, q, first, last, next, data, i);
      }
    }
  }

  /** Lines 61 and 67-71: the first cell is linked out. */
  lemma QueuePop(messages: seq<Bytes>, q: seq<Message>, first: Message?, last: Message?,
                 next: map<Message, Message?>, data: map<Message, Bytes>)
    requires QueueRep(messages, q, first, last, next, data) && messages != []
    ensures q != [] && first == q[0] && first in next && first in data && data[first] == messages[0]
    ensures var rest := next[first];
            QueueRep(messages[1..], q[1..], rest, if rest == null then null else last, next, data)
  {
    CellAt(messages, q, first, last, next, data, 0);
    forall i | 0 <= i < |q[1..]| ensures q[1..][i] in next && next[q[1..][i]] == NextCell(q[1..], i) {
      CellAt(messages, q, first, last, next, data, i + 1);
    }
  }

  lemma LastCell(messages: seq<Bytes>, q: seq<Message>, first: Message?, last: Message?,
                 next: map<Message, Message?>, data: map<Message, Bytes>)
    requires QueueRep(messages, q, first, last, next, data)
    ensures last != null ==> last in q
  {
  }

  lemma AppendFrame(queues: map<int, Queue>, cells: map<int, seq<Message>>, owner: map<Message, int>, b: Boxes,
                    q: int, m: Message, msg: Bytes, r: int)
    requires MailRep(queues, cells, owner, b) && q in queues && r in queues && r != q && m !in owner
    ensures q in b.last && r in cells && r in b.first && r in b.last
    ensures QueueRep(queues[r].messages, cells[r], b.first[r], b.last[r], LinkedLast(b.next, b.last[q], m), b.data[m := msg])
  {
    hide QueueRep;
    LastCell(queues[q].messages, cells[q], b.first[q], b.last[q], b.next, b.data);
    forall c | c in cells[r] ensures c != m && c != b.last[q] {
      assert owner[c] == r;
      assert b.last[q] != null ==> b.last[q] in cells[q];
    }
    QueueFrame(queues[r].messages, cells[r], b.first[r], b.last[r], b.next, b.data, LinkedLast(b.next, b.last[q], m), b.data[m := msg]);
  }

  lemma OwnedAppend(cells: map<int, seq<Message>>, owner: map<Message, int>, q: int, m: Message)
    requires Owned(cells, owner) && q in cells && m !in owner
    ensures Owned(cells[q := cells[q] + [m]], owner[m := q])
  {
  }

  lemma MailAppend(queues: map<int, Queue>, cells: map<int, seq<Message>>, owner: map<Message, int>, b: Boxes,
                   q: int, m: Message, msg: Bytes)
    requires MailRep(queues, cells, owner, b) && q in queues && m !in owner
    ensures q in cells && q in b.first && q in b.last
    ensures MailRep(queues[q := Enqueue(queues[q], msg)], cells[q := cells[q] + [m]], owner[m := q],
                    Boxes(if b.last[q] == null then b.first[q := m] else b.first, b.last[q := m],
                          LinkedLast(b.next, b.last[q], m), b.data[m := msg]))
  {
    hide QueueRep, Owned;
    OwnedAppend(cells, owner, q, m);
    assert m !in cells[q] by {
      OwnedCells(cells, owner, q);
    }
    QueueAppend(queues[q].messages, cells[q], b.first[q], b.last[q], b.next, b.data, m, msg);
    assert b.last[q] != null ==> b.last[q] in owner by {
      OwnedCells(cells, owner, q);
      LastCell(queues[q].messages, cells[q], b.first[q], b.last[q], b.next, b.data);
    }
    forall r | r in queues && r != q
      ensures QueueRep(queues[r].messages, cells[r], b.first[r], b.last[r], LinkedLast(b.next, b.last[q], m), b.data[m := msg])
    {
      AppendFrame(queues, cells, owner, b, q, m, msg, r);
    }
  }

  lemma OwnedCells(cells: map<int, seq<Message>>, owner: map<Message, int>, q: int)
    requires Owned(cells, owner) && q in cells
    ensures forall m :: m in cells[q] ==> m in owner && owner[m] == q
  {
  }

  lemma MailPop(queues: map<int, Queue>, cells: map<int, seq<Message>>, owner: map<Message, int>, b: Boxes, q: int)
    requires MailRep(queues, cells, owner, b) && q in queues && queues[q].messages != []
    ensures q in cells && cells[q] != [] && q in b.first && q in b.last
    ensures b.first[q] == cells[q][0] && b.first[q] in owner
    ensures b.first[q] in b.next && b.first[q] in b.data && b.data[b.first[q]] == queues[q].messages[0]
    ensures var rest := b.next[b.first[q]];
            MailRep(queues[q := Dequeue(queues[q])], cells[q := cells[q][1..]], owner,
                    b.(first := b.first[q := rest], last := if rest == null then b.last[q := null] else b.last))
  {
    QueuePop(queues[q].messages, cells[q], b.first[q], b.last[q], b.next, b.data);
    assert cells[q][0] in cells[q];
    hide QueueRep;
  }

  lemma MailNew(queues: map<int, Queue>, cells: map<int, seq<Message>>, owner: map<Message, int>, b: Boxes, q: int, sem: int)
    requires MailRep(queues, cells, owner, b) && q !in queues
    ensures MailRep(queues[q := Queue(sem, [], [], [])], cells[q := []], owner, b.(first := b.first[q := null], last := b.last[q := null]))
  {
  }

  lemma MailDrop(queues: map<int, Queue>, cells: map<int, seq<Message>>, owner: map<Message, int>, b: Boxes, q: int)
    requires MailRep(queues, cells, owner, b)
    ensures MailRep(queues - {q}, cells - {q}, owner, b.(first := b.first - {q}, last := b.last - {q}))
  {
  }
}
