/** The cursor arithmetic on machine integers: `int` cursors, `size_t` sizes, a `uint32_t` loop index. */
module Cursor {
  const INT_LIMIT := 0x8000_0000
  const UINT_LIMIT := 0x1_0000_0000
  const SIZE_LIMIT := 0x1_0000_0000_0000_0000

  /** Conversion to a 32-bit `int`: the low 32 bits, in two's complement. */
  function ToInt(x: int): int
  {
    var low := x % UINT_LIMIT;
    if low < INT_LIMIT then low else low - UINT_LIMIT
  }

  function ToUint(x: int): nat { x % UINT_LIMIT }

  function ToSize(x: int): nat { x % SIZE_LIMIT }

  /** `last_msg_received = messages.size() - 1` */
  function StoredEnd(size: nat): int { ToInt(ToSize(size - 1)) }

  /** `messages.size() - last_msg_received > 1`, the subtraction done in `size_t` */
  predicate Behind(size: nat, cursor: int) { ToSize(size - ToSize(cursor)) > 1 }

  /** `uint32_t i = last_msg_received + 1` */
  function FirstIndex(cursor: int): nat { ToUint(cursor + 1) }

  /** The truncating store is exact for every log below 2^31 messages, the empty one included. */
  lemma StoredEndExact(size: nat)
    requires size < INT_LIMIT
    ensures StoredEnd(size) == size - 1
  {
    if size == 0 {
      assert ToSize(-1) == SIZE_LIMIT - 1;
      assert (SIZE_LIMIT - 1) % UINT_LIMIT == UINT_LIMIT - 1;
    }
  }

  /**
   The guard wraps for a cursor of -1 and for one past the end. It opens exactly when something is
   missing or the cursor lies beyond the end, and the loop's first index is right; so what is sent is
   the indices cursor+1 to size-1, and nothing for a cursor at or past the end.
   */
  lemma GuardExact(size: nat, cursor: int)
    requires size < INT_LIMIT && -1 <= cursor < INT_LIMIT - 1
    ensures Behind(size, cursor) <==> (cursor + 1 < size || size < cursor)
    ensures FirstIndex(cursor) == cursor + 1
  {
    if cursor == -1 {
      assert ToSize(cursor) == SIZE_LIMIT - 1;
      assert size - (SIZE_LIMIT - 1) == (size + 1) + (-1) * SIZE_LIMIT;
      assert ToSize(size - ToSize(cursor)) == size + 1;
    } else {
      assert ToSize(cursor) == cursor;
      if size < cursor {
        assert ToSize(size - cursor) == size - cursor + SIZE_LIMIT;
      }
    }
  }

  /** The loop's index does not wrap below 2^31. */
  lemma NextIndex(i: nat)
    requires i < INT_LIMIT
    ensures ToUint(i + 1) == i + 1
  {
  }
}
