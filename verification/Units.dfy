/** Bytes, header units and the constants of the allocator (kernel/memory/memory.c, memory.h). */
module Units {

  const SIZE_ALLOC: nat := 5000000
  const SECRET_CODE: int := 42

  /** sizeof(Header): 12 bytes with 32-bit pointers, 24 bytes with 64-bit pointers. */
  type HeaderSize = h: nat | h == 12 || h == 24 witness 24

  /** The number of whole headers in the static heap. */
  function HeapUnits(h: HeaderSize): nat {
    SIZE_ALLOC / h
  }

  /** The units one request takes: its own header and the payload rounded up to whole headers. */
  function UnitsFor(nbytes: nat, h: HeaderSize): nat {
    (nbytes + h - 1) / h + 1
  }

  /** A chunk of `UnitsFor(nbytes)` units holds at least `nbytes`, with less than one header of slack. */
  lemma PayloadFits(nbytes: nat, h: HeaderSize)
    ensures UnitsFor(nbytes, h) >= 1
    ensures nbytes <= (UnitsFor(nbytes, h) - 1) * h < nbytes + h
  {
    if h == 12 {
      assert (nbytes + 11) / 12 * 12 <= nbytes + 11 < (nbytes + 11) / 12 * 12 + 12;
    } else {
      assert (nbytes + 23) / 24 * 24 <= nbytes + 23 < (nbytes + 23) / 24 * 24 + 24;
    }
  }

  /**
   * Unit u (counted from 1) starts (u - 1) * h bytes into the heap, so the payload of the chunk
   * whose header is unit u starts at byte u * h.  The heap size is not a multiple of the header
   * size, so this byte is inside the heap even for the very last unit.
   */
  lemma PayloadInHeap(u: nat, h: HeaderSize)
    requires 1 <= u <= HeapUnits(h)
    ensures 0 < u * h < SIZE_ALLOC
    ensures u * h % h == 0 && u * h / h == u
  {
    if h == 12 {
      assert u * 12 / 12 == u;
    } else {
      assert u * 24 / 24 == u;
    }
  }

  /** A byte offset inside the heap that is a positive multiple of the header size names one header. */
  lemma HeaderOfOffset(offset: nat, h: HeaderSize)
    requires offset < SIZE_ALLOC
    ensures offset / h <= HeapUnits(h)
    ensures offset % h == 0 ==> offset / h * h == offset
  {
  }
}
