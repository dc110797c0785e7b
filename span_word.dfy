/** span/word.go: a fixed multi-byte word matched byte by byte (boolean relevance). */
module SpanWord {

  /** `span.ByteWord`. */
  datatype ByteWord = ByteWord(sample: seq<bv8>) {

    /** IsAcceptable: false out of range, otherwise sample[n] == v. */
    predicate IsAcceptable(n: int, v: bv8) {
      if n < 0 || n >= |sample| then false else sample[n] == v
    }

    /** IsIneligible: false out of range, otherwise sample[n] != v. */
    predicate IsIneligible(n: int, v: bv8) {
      if n < 0 || n >= |sample| then false else sample[n] != v
    }
  }

  /** Word keeps the sample as given. */
  function Word(sample: seq<bv8>): (r: ByteWord)
    ensures forall n: int, v: bv8 :: r.IsAcceptable(n, v) <==> 0 <= n < |sample| && sample[n] == v
  {
    ByteWord(sample)
  }

  /** Out of range both answers are false; in range they are complements. */
  lemma AnswersByRange(w: ByteWord, n: int, v: bv8)
    ensures (n < 0 || n >= |w.sample|) ==> !w.IsAcceptable(n, v) && !w.IsIneligible(n, v)
    ensures 0 <= n < |w.sample| ==> (w.IsIneligible(n, v) <==> !w.IsAcceptable(n, v))
  {
  }
}
