/** Fixed-width unsigned arithmetic, and positions in a ring of slots. */
module Words {

  const TWO32: nat := 0x1_0000_0000
  const MAX32: nat := 0xFFFF_FFFF
  const TWO64: nat := 0x1_0000_0000_0000_0000

  type u32 = x: nat | x < 0x1_0000_0000

  /** Conversion to uint32_t: the value modulo 2^32. */
  function Wrap(x: nat): u32 {
    x % 0x1_0000_0000
  }

  /** Conversion to uint64_t. */
  function Wrap64(x: nat): (y: nat)
    ensures y < TWO64
  {
    x % 0x1_0000_0000_0000_0000
  }

  /** `if (++i >= n) i = 0;` */
  function NextSlot(i: nat, n: nat): nat {
    if i + 1 >= n then 0 else i + 1
  }

  /** The slot reached after k steps around a ring of n slots, starting at 0. */
  function SlotAt(k: nat, n: nat): (slot: nat)
    requires 0 < n
    ensures slot < n
  {
    if k == 0 then 0 else NextSlot(SlotAt(k - 1, n), n)
  }

  /** Fewer than n steps on from a position, the slot is the sum or the sum less one lap. */
  lemma {:induction false} SlotAhead(k: nat, d: nat, n: nat)
    requires 0 < n && d < n
    ensures SlotAt(k + d, n) == if SlotAt(k, n) + d < n then SlotAt(k, n) + d else SlotAt(k, n) + d - n
  {
    if d == 0 {
    } else {
      SlotAhead(k, d - 1, n);
      assert SlotAt(k + d, n) == NextSlot(SlotAt(k + (d - 1), n), n);
    }
  }

  /** Two positions less than one lap apart occupy different slots. */
  lemma SlotsDiffer(i: nat, j: nat, n: nat)
    requires 0 < n && i < j < i + n
    ensures SlotAt(i, n) != SlotAt(j, n)
  {
    SlotAhead(i, j - i, n);
  }

  lemma WrapUnique(x: nat, laps: nat, rest: nat)
    requires x == laps * 0x1_0000_0000 + rest && rest < 0x1_0000_0000
    ensures Wrap(x) == rest
  {
  }

  /** Whole laps do not matter. */
  lemma WrapLaps(laps: nat, x: nat)
    ensures Wrap(laps * 0x1_0000_0000 + x) == Wrap(x)
  {
    hide Wrap;
    var more, rest := x / 0x1_0000_0000, x % 0x1_0000_0000;
    WrapUnique(x, more, rest);
    WrapUnique(laps * 0x1_0000_0000 + x, laps + more, rest);
  }

  lemma WrapAdd(a: nat, d: nat)
    ensures Wrap(Wrap(a) + d) == Wrap(a + d)
  {
    hide Wrap;
    var laps, rest := a / 0x1_0000_0000, a % 0x1_0000_0000;
    WrapUnique(a, laps, rest);
    WrapLaps(laps, rest + d);
  }

  lemma WrapDouble(a: nat)
    ensures Wrap(Wrap(a) * 2) == Wrap(a * 2)
  {
    hide Wrap;
    var laps, rest := a / 0x1_0000_0000, a % 0x1_0000_0000;
    WrapUnique(a, laps, rest);
    WrapLaps(2 * laps, 2 * rest);
  }

  /** Incrementing a wrapped counter is incrementing, then wrapping; MAX32 stands for -1. */
  lemma WrapNext(x: nat)
    ensures Wrap(Wrap(x) + 1) == Wrap(x + 1)
    ensures Wrap(Wrap(x + MAX32) + 1) == Wrap(x)
  {
    hide Wrap;
    WrapAdd(x, 1);
    WrapAdd(x + MAX32, 1);
    WrapLaps(1, x);
  }

  lemma WrapAtMost(x: nat)
    ensures Wrap(x) <= x
  {
  }

  lemma WrapSmall(x: nat)
    requires x < TWO32
    ensures Wrap(x) == x
  {
  }

  /** Counters that agree modulo 2^32 and are less than 2^32 apart are equal. */
  lemma WrapInjective(a: nat, b: nat)
    requires a <= b < a + TWO32 && Wrap(a) == Wrap(b)
    ensures a == b
  {
  }
}
