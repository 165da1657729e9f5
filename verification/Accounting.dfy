/** The shared atomics: the process-wide byte budget and the live drop counters. */
module Accounting {

  const WORD_VALUES: nat := 0x1_0000_0000_0000_0000

  type Word = x: int | 0 <= x < WORD_VALUES

  /** `fetch_add` and `fetch_sub` on a 64-bit atomic wrap around. */
  function Wrap(x: int): (w: Word)
    ensures 0 <= x < WORD_VALUES ==> w == x
  {
    x % WORD_VALUES
  }

  /** Wrapping at every step or once at the end is the same. */
  lemma WrapAdd(x: int, y: int)
    ensures Wrap(Wrap(x) + y) == Wrap(x + y)
  {
  }

  /** The counters come round after 2^64 and not before. */
  lemma WrapPeriod(x: int)
    ensures Wrap(x + 0x1_0000_0000_0000_0000) == Wrap(x)
    ensures 0 <= x < 0x1_0000_0000_0000_0000 ==> Wrap(x) == x
  {
  }

  /** `BYTES_IN_MEMORY`. */
  class Budget {
    var bytes: Word

    constructor ()
      ensures bytes == 0
    {
      bytes := 0;
    }

    method Add(n: nat)
      modifies this
      ensures bytes == Wrap(old(bytes) + n)
    {
      bytes := Wrap(bytes + n);
    }

    method Sub(n: nat)
      modifies this
      ensures bytes == Wrap(old(bytes) - n)
    {
      bytes := Wrap(bytes - n);
    }

    method Snapshot() returns (n: Word)
      ensures n == bytes
    {
      n := bytes;
    }
  }

  function CountOf(counts: map<nat, Word>, id: nat): Word { if id in counts then counts[id] else 0 }

  /** One drop counter per trace, shared by the trace and all its batches. */
  class DropCounters {
    var counts: map<nat, Word>

    constructor ()
      ensures counts == map[] && forall id :: CountOf(counts, id) == 0
    {
      counts := map[];
    }

    method Bump(id: nat, n: nat)
      modifies this
      ensures CountOf(counts, id) == Wrap(CountOf(old(counts), id) + n)
      ensures forall other :: other != id ==> CountOf(counts, other) == CountOf(old(counts), other)
    {
      counts := counts[id := Wrap(CountOf(counts, id) + n)];
    }
  }
}
