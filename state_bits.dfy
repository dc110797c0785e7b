/**
 * state/bits.go: Bits, a Go int used as a bit mask. The value is modelled as its
 * 64-bit two's-complement bit pattern.
 */
module StateBits {
  import opened Bynom

  const SignBit: bv64 := 0x8000_0000_0000_0000

  /** Go's int(bits): the signed value of the 64-bit pattern. */
  function ToInt(w: bv64): (i: int)
    ensures -0x8000_0000_0000_0000 <= i < 0x8000_0000_0000_0000
    ensures i >= 0 ==> i == w as int
    ensures i < 0 ==> i + 0x1_0000_0000_0000_0000 == w as int
  {
    var n := w as int;
    if n < 0x8000_0000_0000_0000 then n else n - 0x1_0000_0000_0000_0000
  }

  /** bits | v: every bit of v becomes 1, every other bit keeps its value. */
  function Or(bits: bv64, v: bv64): bv64 {
    bits | v
  }

  /** bits &^ v: every bit of v becomes 0, every other bit keeps its value. */
  function AndNot(bits: bv64, v: bv64): bv64 {
    bits & !v
  }

  /** AllSet's test: every 1 bit of v is 1 in bits. */
  predicate AllBitsSet(bits: bv64, v: bv64) {
    bits & v == v
  }

  /** AnySet's test: bits & v compared with 0 as a signed int. */
  predicate AnyBitSet(bits: bv64, v: bv64) {
    ToInt(bits & v) > 0
  }

  /** bits and v share a 1 bit, and the sign bit is not one of the shared bits. */
  predicate SharesBitsBelowSign(bits: bv64, v: bv64) {
    bits & v != 0 && bits & v & SignBit == 0
  }

  /** NothingSet's test: no 1 bit of v is 1 in bits. */
  predicate NoBitSet(bits: bv64, v: bv64) {
    bits & v == 0
  }

  /** `state.Bits`, updated in place through its pointer receiver. */
  class Bits {
    var value: bv64

    /** NewBits starts with every bit 0. */
    constructor NewBits()
      ensures value == 0
    {
      value := 0;
    }

    /** Replace makes the value exactly v. */
    method Replace(v: bv64) returns (err: Option<Error>)
      modifies this
      ensures value == v && err == None
    {
      value := v;
      return None;
    }

    /** Set turns on the bits of v. */
    method Set(v: bv64) returns (err: Option<Error>)
      modifies this
      ensures value == Or(old(value), v) && err == None
    {
      value := value | v;
      return None;
    }

    /** Reset turns off the bits of v. */
    method Reset(v: bv64) returns (err: Option<Error>)
      modifies this
      ensures value == AndNot(old(value), v) && err == None
    {
      value := value & !v;
      return None;
    }

    /** AllSet(v): every bit of v is on, so Set(v) would change nothing. */
    function AllSet(v: bv64): (r: bool)
      reads this
      ensures r <==> Or(value, v) == value
    {
      OrSetsAll(value, v);
      AllBitsSet(value, v)
    }

    /**
     * AnySet(v): the shared bits, read as a signed int, are positive; they are
     * non-zero and the sign bit is not among them.
     */
    function AnySet(v: bv64): (r: bool)
      reads this
      ensures r <==> SharesBitsBelowSign(value, v)
    {
      AnySetIgnoresSignBit(value, v);
      AnyBitSet(value, v)
    }

    /** NothingSet(v): every bit of v is off, so Reset(v) would change nothing. */
    function NothingSet(v: bv64): (r: bool)
      reads this
      ensures r <==> AndNot(value, v) == value
    {
      AndNotClearsAll(value, v);
      NoBitSet(value, v)
    }

    /** Equal(v): the value is v, which is the same as their signed readings agreeing. */
    function Equal(v: bv64): (r: bool)
      reads this
      ensures r <==> ToInt(value) == ToInt(v)
    {
      ToIntIsInjective(value, v);
      value == v
    }

    /** Int: the signed int whose 64-bit two's-complement pattern is the value. */
    function Int(): (i: int)
      reads this
      ensures -0x8000_0000_0000_0000 <= i < 0x8000_0000_0000_0000
      ensures (i + 0x1_0000_0000_0000_0000) % 0x1_0000_0000_0000_0000 == value as int
    {
      ToIntWraps(value);
      ToInt(value)
    }
  }

  lemma OrSetsAll(bits: bv64, v: bv64) ensures AllBitsSet(Or(bits, v), v) {}
  lemma OrKeepsSet(bits: bv64, v: bv64) ensures AllBitsSet(Or(bits, v), bits) {}
  lemma OrKeepsOthers(bits: bv64, v: bv64) ensures Or(bits, v) & !v == bits & !v {}
  lemma OrIdempotent(bits: bv64, v: bv64) ensures Or(Or(bits, v), v) == Or(bits, v) {}
  lemma AndNotClearsAll(bits: bv64, v: bv64) ensures NoBitSet(AndNot(bits, v), v) {}
  lemma AndNotKeepsOthers(bits: bv64, v: bv64) ensures AndNot(bits, v) & !v == bits & !v {}
  lemma AndNotIdempotent(bits: bv64, v: bv64) ensures AndNot(AndNot(bits, v), v) == AndNot(bits, v) {}

  /**
   * Set(v) turns on exactly the bits of v and Reset(v) turns off exactly those:
   * afterwards AllSet(v), respectively NothingSet(v), holds, bits already set stay
   * set under Set, and every bit outside v keeps its value.
   */
  lemma SetAndResetEffects(bits: bv64, v: bv64)
    ensures AllBitsSet(Or(bits, v), v) && AllBitsSet(Or(bits, v), bits)
    ensures NoBitSet(AndNot(bits, v), v)
    ensures Or(bits, v) & !v == bits & !v && AndNot(bits, v) & !v == bits & !v
  {
    OrSetsAll(bits, v);
    OrKeepsSet(bits, v);
    OrKeepsOthers(bits, v);
    AndNotClearsAll(bits, v);
    AndNotKeepsOthers(bits, v);
  }

  /** Set and Reset are idempotent. */
  lemma SetResetIdempotent(bits: bv64, v: bv64)
    ensures Or(Or(bits, v), v) == Or(bits, v)
    ensures AndNot(AndNot(bits, v), v) == AndNot(bits, v)
  {
    OrIdempotent(bits, v);
    AndNotIdempotent(bits, v);
  }

  /** AllSet(0) holds whatever the value. */
  lemma AllSetOfZero(bits: bv64)
    ensures AllBitsSet(bits, 0)
  {
  }

  /** Distinct words have distinct signed readings. */
  lemma ToIntIsInjective(a: bv64, b: bv64)
    ensures ToInt(a) == ToInt(b) <==> a == b
  {
    if ToInt(a) == ToInt(b) {
      SameReadingSameInt(ToInt(a), a as int, b as int);
      IntReadingIsInjective(a, b);
    }
  }

  /** Words with the same unsigned reading are equal. */
  lemma IntReadingIsInjective(a: bv64, b: bv64)
    requires a as int == b as int
    ensures a == b
  {
    assert a == (a as int) as bv64;
  }

  /** Two unsigned readings with the same signed value are equal. */
  lemma SameReadingSameInt(i: int, n: int, m: int)
    requires 0 <= n < 0x1_0000_0000_0000_0000 && 0 <= m < 0x1_0000_0000_0000_0000
    requires i >= 0 ==> i == n && i == m
    requires i < 0 ==> i + 0x1_0000_0000_0000_0000 == n && i + 0x1_0000_0000_0000_0000 == m
    ensures n == m
  {
  }

  /** The signed reading, taken modulo 2^64, gives back the word. */
  lemma ToIntWraps(w: bv64)
    ensures (ToInt(w) + 0x1_0000_0000_0000_0000) % 0x1_0000_0000_0000_0000 == w as int
  {
    WrapsBack(ToInt(w), w as int);
  }

  /** i + 2^64 modulo 2^64 is n when i is the signed reading of n. */
  lemma WrapsBack(i: int, n: int)
    requires 0 <= n < 0x1_0000_0000_0000_0000
    requires i >= 0 ==> i == n
    requires i < 0 ==> i + 0x1_0000_0000_0000_0000 == n
    ensures (i + 0x1_0000_0000_0000_0000) % 0x1_0000_0000_0000_0000 == n
  {
    if i >= 0 {
      assert i + 0x1_0000_0000_0000_0000 == n + 0x1_0000_0000_0000_0000;
    }
  }

  /** A word is below the sign bit exactly when its top bit is 0. */
  lemma TopBitClear(w: bv64)
    ensures w & SignBit == 0 <==> w < SignBit
    ensures w < SignBit <==> (w as int) < 0x8000_0000_0000_0000
    ensures w == 0 <==> w as int == 0
  {
  }

  /**
   * AnySet is a signed comparison: it holds iff the shared bits are non-zero and
   * do not include the sign bit, so a mask sharing only the sign bit is not "any set".
   */
  lemma AnySetIgnoresSignBit(bits: bv64, v: bv64)
    ensures AnyBitSet(bits, v) <==> SharesBitsBelowSign(bits, v)
    ensures !AnyBitSet(SignBit, SignBit) && SignBit & SignBit != 0
  {
    TopBitClear(bits & v);
    TopBitClear(SignBit);
  }
}
