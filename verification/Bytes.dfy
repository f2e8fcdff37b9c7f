/** Bytes and the machine's 64-bit word. */
module Bytes {
  type Byte = b: int | 0 <= b < 256

  const WORD := 0x1_0000_0000_0000_0000

  /**
   `low | group << n`, where `unit` is 2^n and `low` has only the bits below it: the word keeps
   what the shift leaves of the group, and with no bit in common `|` is addition.
   */
  function OrShifted(low: nat, group: nat, unit: nat): nat
    requires low < unit
  {
    low + group * unit % WORD
  }

  lemma NothingShiftedOut(low: nat, group: nat, unit: nat)
    requires low < unit && group * unit < WORD
    ensures OrShifted(low, group, unit) == low + group * unit
  {
    var shifted := group * unit;
    assert shifted % WORD == shifted;
  }

  lemma SliceOfSlice<T>(s: seq<T>, at: nat, start: nat, end: nat)
    requires at <= start <= end <= |s|
    ensures s[at..][start - at..end - at] == s[start..end]
  {
  }
}
