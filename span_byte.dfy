/** span/byte.go: a Range that contains exactly one byte. */
module SpanByte {

  /** `span.Byte`: the byte itself is the range. */
  datatype Byte = Byte(value: bv8) {

    /** Includes tests whether v equals the stored byte. */
    predicate Includes(v: bv8) {
      value == v
    }

    /** Excludes tests whether v differs from the stored byte. */
    predicate Excludes(v: bv8) {
      value != v
    }
  }

  /** NewByte stores b; b is the one and only byte the range includes. */
  function NewByte(b: bv8): (r: Byte)
    ensures r.Includes(b)
    ensures forall v: bv8 :: r.Includes(v) ==> v == b
  {
    Byte(b)
  }

  /** Excludes is the exact complement of Includes. */
  lemma ExcludesIsComplement(r: Byte, v: bv8)
    ensures r.Excludes(v) <==> !r.Includes(v)
  {
  }
}
