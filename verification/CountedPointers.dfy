/**
 The one-word pair of a 48-bit address and a 16-bit counter used by the lock-free stack and queue
 (lockfree/queue.hpp:29-77, lockfree/stack.hpp:18-67).
 */
module CountedPointers {

  const POINTER_SPAN: int := 0x1_0000_0000_0000
  const COUNT_SPAN: int := 0x1_0000
  const WORD_SPAN: int := 0x1_0000_0000_0000_0000

  /** Address 0 is the null pointer. */
  datatype CountedPtr = CountedPtr(ptr: nat, count: nat) {

    /** Fits the machine word. */
    predicate Fits() {
      ptr < POINTER_SPAN && count < COUNT_SPAN
    }

    /** `IncreaseCount`: the 16-bit counter wraps and the address never changes. */
    function Increased(): CountedPtr {
      CountedPtr(ptr, (count + 1) % COUNT_SPAN)
    }

    function Word(): int {
      ptr + count * POINTER_SPAN
    }
  }

  const NULL := CountedPtr(0, 0)

  function FromWord(w: int): (c: CountedPtr)
    requires 0 <= w < WORD_SPAN
  {
    CountedPtr(w % POINTER_SPAN, w / POINTER_SPAN)
  }

  /** `GetPointer` and `GetCount` recover what the constructor packed. */
  lemma UnpackPack(c: CountedPtr)
    requires c.Fits()
    ensures 0 <= c.Word() < WORD_SPAN && FromWord(c.Word()) == c
  {
  }

  /** Comparing words is comparing pairs, so a compare-exchange on words is one on pairs. */
  lemma WordsAgree(c: CountedPtr, d: CountedPtr)
    requires c.Fits() && d.Fits()
    ensures c.Word() == d.Word() <==> c == d
  {
    UnpackPack(c);
    UnpackPack(d);
  }

  /** Adding 2^48 modulo 2^64 to the word is `Increased`: even a wrapping counter leaves the address alone. */
  lemma IncreaseWord(c: CountedPtr)
    requires c.Fits()
    ensures c.Increased().Fits()
    ensures (c.Word() + POINTER_SPAN) % WORD_SPAN == c.Increased().Word()
  {
    if c.count + 1 == COUNT_SPAN {
      assert c.Word() + POINTER_SPAN == c.ptr + WORD_SPAN;
    }
  }
}
