/** span/range.go: an inclusive byte range used as a quantifier relevance. */
module SpanRange {

  /**
   * `span.ByteRange`. Its relevance answer is a pair (matched, remaining in unit);
   * a plain range always reports -1, meaning "no fixed-length unit".
   */
  datatype ByteRange = ByteRange(from: bv8, to: bv8) {

    /** IsAcceptable: v lies between from and to, both inclusive; the index is ignored. */
    function IsAcceptable(n: int, v: bv8): (r: (bool, int))
      ensures r.0 <==> from <= v && v <= to
      ensures r.1 == -1
    {
      (v >= from && v <= to, -1)
    }

    /** IsIneligible: v lies outside [from, to]; the index is ignored. */
    function IsIneligible(n: int, v: bv8): (r: (bool, int))
      ensures r.0 <==> v < from || to < v
      ensures r.1 == -1
    {
      (v < from || v > to, -1)
    }
  }

  /** Range(a, b) keeps a as the lower and b as the upper bound. */
  function Range(a: bv8, b: bv8): (r: ByteRange)
    ensures forall n: int, v: bv8 :: r.IsAcceptable(n, v).0 <==> a <= v <= b
  {
    ByteRange(a, b)
  }

  /** IsIneligible is the exact complement of IsAcceptable, at every index. */
  lemma IneligibleIsComplement(r: ByteRange, n: int, v: bv8)
    ensures r.IsIneligible(n, v).0 <==> !r.IsAcceptable(n, v).0
    ensures r.IsIneligible(n, v).1 == r.IsAcceptable(n, v).1
  {
  }

  /**
   * The bytes a range accepts form an interval that holds both bounds when
   * from <= to: a byte between two accepted bytes is accepted too.
   */
  lemma AcceptedBytesFormAnInterval(r: ByteRange, n: int, a: bv8, b: bv8, c: bv8)
    ensures r.from <= r.to ==> r.IsAcceptable(n, r.from).0 && r.IsAcceptable(n, r.to).0
    ensures r.IsAcceptable(n, a).0 && r.IsAcceptable(n, c).0 && a <= b <= c ==> r.IsAcceptable(n, b).0
  {
  }

  /** Both bounds are tight: the byte just below from and the byte just above to are refused. */
  lemma BoundsAreTight(r: ByteRange, n: int)
    ensures r.from > 0 ==> !r.IsAcceptable(n, r.from - 1).0
    ensures r.to < 0xFF ==> !r.IsAcceptable(n, r.to + 1).0
  {
  }

  /** A range whose lower bound is above its upper bound accepts no byte. */
  lemma InvertedRangeIsEmpty(r: ByteRange, n: int, v: bv8)
    requires r.from > r.to
    ensures !r.IsAcceptable(n, v).0
  {
  }
}
