/** The records of the thread kernel (kernel/ordo3.0/context.h, semaphore.c, m_queue.c). */
module Contexts {

  type Byte = x: int | 0 <= x < 256

  const TABLE_SIZE: nat := 256

  /** A thread.  The registers and the stack are not modelled.  Its memory comes from malloc with any contents. */
  class Ctx {
    var next: Ctx?
    var last: Ctx?
    var id: int
    var timeToWait: int
    var zombi: bool
  }

  class Sem {
    var counter: int
    var waitingThreads: Ctx?

    constructor (init: int)
      ensures counter == init && waitingThreads == null
    {
      counter, waitingThreads := init, null;
    }
  }

  class Message {
    const data: seq<Byte>       // written before the message is linked in, never after
    var next: Message?

    constructor (data: seq<Byte>)
      ensures this.data == data && next == null
    {
      this.data, next := data, null;
    }
  }

  class MessageQueue {
    var semId: int
    var messages: Message?
    var last: Message?

    constructor (semId: int)
      ensures this.semId == semId && messages == null && last == null
    {
      this.semId, messages, last := semId, null, null;
    }
  }

  /** An int as its four bytes in memory, lowest first. */
  function EncodeInt(i: int): (b: seq<Byte>)
    ensures |b| == 4
  {
    var u := i % 0x1_0000_0000;
    [u % 256, u / 256 % 256, u / 65536 % 256, u / 16777216]
  }

  function DecodeInt(b: seq<Byte>): int
    requires |b| == 4
  {
    var u: int := b[0] as int + 256 * b[1] as int + 65536 * b[2] as int + 16777216 * b[3] as int;
    if u < 0x8000_0000 then u else u - 0x1_0000_0000
  }

  /** A thread id survives the trip through the message queue. */
  lemma DecodeEncode(i: int)
    requires -0x8000_0000 <= i < 0x8000_0000
    ensures DecodeInt(EncodeInt(i)) == i
  {
    var u := i % 0x1_0000_0000;
    assert u == u % 256 + 256 * (u / 256 % 256) + 65536 * (u / 65536 % 256) + 16777216 * (u / 16777216) by {
      assert u / 65536 == u / 256 / 256;
      assert u / 16777216 == u / 65536 / 256;
    }
  }

  /** Four bytes are the int they stand for, and no other. */
  lemma EncodeDecode(b: seq<Byte>)
    requires |b| == 4
    ensures EncodeInt(DecodeInt(b)) == b
  {
    hide EncodeInt, DecodeInt;
    var k2: int := b[2] as int + 256 * b[3] as int;
    var k1: int := b[1] as int + 256 * k2;
    var u: int := b[0] as int + 256 * k1;
    assert DecodeInt(b) % 0x1_0000_0000 == u by {
      DecodeUnsigned(b);
    }
    assert u / 256 == k1 && u % 256 == b[0];
    assert k1 / 256 == k2 && k1 % 256 == b[1];
    assert k2 / 256 == b[3] && k2 % 256 == b[2];
    assert u / 65536 == u / 256 / 256 && u / 16777216 == u / 65536 / 256;
    EncodeUnsigned(DecodeInt(b), u);
  }

  lemma DecodeUnsigned(b: seq<Byte>)
    requires |b| == 4
    ensures DecodeInt(b) % 0x1_0000_0000 == b[0] as int + 256 * b[1] as int + 65536 * b[2] as int + 16777216 * b[3] as int
  {
  }

  lemma EncodeUnsigned(i: int, u: int)
    requires i % 0x1_0000_0000 == u
    ensures EncodeInt(i) == [u % 256, u / 256 % 256, u / 65536 % 256, u / 16777216]
  {
  }
}
