/** span/single.go: a Range that contains exactly one byte. */
module SpanSingle {

  /** `span.Single`: the byte itself is the range. */
  datatype Single = Single(value: bv8) {

    /** Includes tests whether v equals the stored byte. */
    predicate Includes(v: bv8) {
      value == v
    }

    /** Excludes tests whether v differs from the stored byte. */
    predicate Excludes(v: bv8) {
      value != v
    }
  }

  /** NewSingle stores b; b is the one and only byte the range includes. */
  function NewSingle(b: bv8): (r: Single)
    ensures r.Includes(b)
    ensures forall v: bv8 :: r.Includes(v) ==> v == b
  {
    Single(b)
  }

  /** Excludes is the exact complement of Includes. */
  lemma ExcludesIsComplement(r: Single, v: bv8)
    ensures r.Excludes(v) <==> !r.Includes(v)
  {
  }
}
