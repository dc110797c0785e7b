/** span/set.go: a Range made of an explicit list of byte variants. */
module SpanSet {

  /** `span.Set`: the variants as given, possibly unordered and with duplicates. */
  datatype Set = Set(variants: seq<bv8>) {

    /** Includes scans the variants and answers true at the first equal one. */
    predicate Includes(v: bv8) {
      Found(variants, v)
    }

    /** Excludes scans the variants and answers false at the first equal one. */
    predicate Excludes(v: bv8) {
      Missing(variants, v)
    }
  }

  /** NewSet keeps the variants exactly as given. */
  function NewSet(variants: seq<bv8>): (r: Set)
    ensures forall v: bv8 :: r.Includes(v) <==> v in variants
  {
    Set(variants)
  }

  /** The early-return scan of Includes: true iff some variant equals v. */
  function Found(variants: seq<bv8>, v: bv8): (r: bool)
    ensures r <==> v in variants
  {
    if variants == [] then false
    else if variants[0] == v then true
    else Found(variants[1..], v)
  }

  /** The early-return scan of Excludes: false iff some variant equals v. */
  function Missing(variants: seq<bv8>, v: bv8): (r: bool)
    ensures r <==> v !in variants
  {
    if variants == [] then true
    else if variants[0] == v then false
    else Missing(variants[1..], v)
  }

  /** Excludes answers the opposite of Includes for every byte. */
  lemma ExcludesIsComplement(s: Set, v: bv8)
    ensures s.Excludes(v) <==> !s.Includes(v)
  {
  }

  /** An empty set includes nothing and excludes everything. */
  lemma EmptySetIncludesNothing(v: bv8)
    ensures !Set([]).Includes(v) && Set([]).Excludes(v)
  {
  }

  /** Order and duplicates of the variants do not change either answer. */
  lemma OnlyMembershipMatters(a: Set, b: Set, v: bv8)
    requires forall x :: x in a.variants <==> x in b.variants
    ensures a.Includes(v) == b.Includes(v)
    ensures a.Excludes(v) == b.Excludes(v)
  {
  }
}
