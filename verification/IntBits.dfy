/** The 64-bit masks of the C and C++ code as sets of the positions of their set bits, and what an int shift
    does in them: x86-64 takes the count of a 32-bit shift modulo 32, and the int is then sign-extended. */
module IntBits {

  /** Bits in an unsigned long. */
  const NR_BITS: nat := 64

  predicate IsPosition(k: int) { 0 <= k < NR_BITS }

  /** 1 << bit, as an int. */
  function IntShift(bit: int): set<int> { {bit % 32} }

  /** An int converted to 64 bits, and back. */
  function SignExtended(bits: set<int>): set<int> {
    if 31 in bits then bits + (set k: int | 32 <= k < 64 && IsPosition(k)) else bits
  }

  function Truncated(bits: set<int>): set<int> { set k | k in bits && k < 32 }

  /** The shifted bit alone, or from bit 31 on all of them. */
  lemma ShiftIff(i: nat, k: int)
    ensures k in SignExtended(IntShift(i)) <==> k == i % 32 || (i % 32 == 31 && 32 <= k < 64)
  {
  }

  /** Converted to 64 bits, the shifts of two counts overlap exactly when the counts agree modulo 32. */
  lemma ShiftsOverlapIff(a: int, b: int)
    ensures SignExtended(IntShift(a)) * SignExtended(IntShift(b)) != {} <==> a % 32 == b % 32
  {
    if a % 32 == b % 32 {
      assert a % 32 in SignExtended(IntShift(a)) * SignExtended(IntShift(b));
    }
  }
}
