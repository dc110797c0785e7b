/** span/sample.go: a fixed multi-byte sample matched byte by byte. */
module SpanSample {

  /**
   * `span.ByteSample`: the sample and l, the index of its last byte.
   * The relevance answer is (matched, bytes remaining in the unit after index n).
   */
  datatype ByteSample = ByteSample(sample: seq<bv8>, l: int) {

    /** The shape Sample builds: l is the last index of the sample. */
    predicate Valid() {
      l == |sample| - 1
    }

    /** IsAcceptable: out of range (false, -1); in range, sample[n] == v and l - n remain. */
    function IsAcceptable(n: int, v: bv8): (r: (bool, int))
      requires Valid()
      ensures n < 0 || n >= |sample| ==> r == (false, -1)
      ensures 0 <= n < |sample| ==> r.0 == (sample[n] == v)
      ensures 0 <= n < |sample| ==> r.1 == |sample| - 1 - n && r.1 >= 0
    {
      if n < 0 || n > l then (false, -1) else (sample[n] == v, l - n)
    }

    /** IsIneligible: out of range (false, -1); in range, sample[n] != v and l - n remain. */
    function IsIneligible(n: int, v: bv8): (r: (bool, int))
      requires Valid()
      ensures n < 0 || n >= |sample| ==> r == (false, -1)
      ensures 0 <= n < |sample| ==> r.0 == (sample[n] != v)
      ensures 0 <= n < |sample| ==> r.1 == |sample| - 1 - n && r.1 >= 0
    {
      if n < 0 || n > l then (false, -1) else (sample[n] != v, l - n)
    }
  }

  /** Sample stores the sample with l = len(sample) - 1. */
  function Sample(sample: seq<bv8>): (r: ByteSample)
    ensures r.Valid() && r.sample == sample
  {
    ByteSample(sample, |sample| - 1)
  }

  /** The remaining count is 0 exactly at the last index and positive before it. */
  lemma RemainingCountsDown(w: ByteSample, n: int, v: bv8)
    requires w.Valid() && 0 <= n < |w.sample|
    ensures w.IsAcceptable(n, v).1 == 0 <==> n == |w.sample| - 1
    ensures n < |w.sample| - 1 ==> w.IsAcceptable(n, v).1 > 0
  {
  }

  /** In range the two answers are complements with the same remaining count. */
  lemma InRangeComplement(w: ByteSample, n: int, v: bv8)
    requires w.Valid() && 0 <= n < |w.sample|
    ensures w.IsIneligible(n, v).0 == !w.IsAcceptable(n, v).0
    ensures w.IsIneligible(n, v).1 == w.IsAcceptable(n, v).1
  {
  }

  /** Out of range both answers are false, so they are not complements there. */
  lemma OutOfRangeBothFalse(w: ByteSample, n: int, v: bv8)
    requires w.Valid() && (n < 0 || n >= |w.sample|)
    ensures !w.IsAcceptable(n, v).0 && !w.IsIneligible(n, v).0
  {
  }

  /** An empty sample has no index in range and always answers (false, -1). */
  lemma EmptySampleRejects(n: int, v: bv8)
    ensures Sample([]).IsAcceptable(n, v) == (false, -1)
    ensures Sample([]).IsIneligible(n, v) == (false, -1)
  {
  }
}
