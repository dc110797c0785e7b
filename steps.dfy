/**
 * What the primitive noms do to (buffer, position), as functions. The methods in
 * Noms, Expects, NomExpect, Whiles, Misc and NomMisc are proved against these.
 */
module Steps {
  import opened Bynom
  import SpanSingle

  /** The test a single-byte nom or a quantifier applies to a byte. */
  datatype Class =
    | Is(r: bv8)                  // b == r
    | IsNot(r: bv8)               // b != r
    | OneOf(members: seq<bv8>)    // b occurs in members
    | NotOneOf(members: seq<bv8>) // b does not occur in members
    | InRange(range: Range)       // the loop goes on unless range.Excludes(b)
    | NotInRange(range: Range)    // the loop goes on unless range.Includes(b)

  /** Whether the byte b passes the test c. */
  predicate Keeps(c: Class, b: bv8) {
    match c
    case Is(r) => b == r
    case IsNot(r) => b != r
    case OneOf(m) => b in m
    case NotOneOf(m) => b !in m
    case InRange(rng) => !rng.Excludes(b)
    case NotInRange(rng) => !rng.Includes(b)
  }

  /**
   * The position a zero-or-more quantifier stops at: the end of the longest run of
   * bytes from pos that pass c.
   */
  function Scan(buf: seq<bv8>, pos: nat, c: Class): (q: nat)
    requires pos <= |buf|
    ensures pos <= q <= |buf|
    ensures forall k :: pos <= k < q ==> Keeps(c, buf[k])
    ensures q < |buf| ==> !Keeps(c, buf[q])
    decreases |buf| - pos
  {
    if pos == |buf| || !Keeps(c, buf[pos]) then pos else Scan(buf, pos + 1, c)
  }

  /** The run Scan finds is the only one that ends at the end of input or before a failing byte. */
  lemma {:induction false} ScanIsTheLongestRun(buf: seq<bv8>, pos: nat, c: Class, q: nat)
    requires pos <= q <= |buf|
    requires forall k :: pos <= k < q ==> Keeps(c, buf[k])
    requires q < |buf| ==> !Keeps(c, buf[q])
    ensures Scan(buf, pos, c) == q
    decreases q - pos
  {
    if pos < q {
      ScanIsTheLongestRun(buf, pos + 1, c, q);
    }
  }

  /** Scanning again from where a scan stopped consumes nothing. */
  lemma ScanIsIdempotent(buf: seq<bv8>, pos: nat, c: Class)
    requires pos <= |buf|
    ensures Scan(buf, Scan(buf, pos, c), c) == Scan(buf, pos, c)
  {
  }

  /**
   * A single-byte expectation: NextByte, then the test. At the end of input the
   * plate's io.EOF is returned without moving; otherwise exactly one byte is
   * consumed whether or not it passes. A failure reports `expected`, the byte read
   * (left unset, 0, in the negated noms) and the negation flag.
   */
  function ExpectOne(buf: seq<bv8>, pos: nat, c: Class, expected: seq<bv8>, not: bool): (m: Moved)
    requires pos <= |buf|
    ensures pos == |buf| ==> m == Moved(Some(EOF), pos)
    ensures pos < |buf| ==> m.pos == pos + 1
    ensures pos < |buf| ==> (m.err.None? <==> Keeps(c, buf[pos]))
    ensures m.err.Some? && pos < |buf| ==>
      m.err == Some(ExpectationFailed(Literal(expected), if not then 0 else buf[pos], not))
  {
    var rd := NextByte(buf, pos);
    if rd.err.Some? then Moved(rd.err, rd.pos)
    else if Keeps(c, rd.b) then Moved(None, rd.pos)
    else Moved(Some(ExpectationFailed(Literal(expected), if not then 0 else rd.b, not)), rd.pos)
  }

  /**
   * Expect(r): io.EOF at the end of input; otherwise one byte is consumed and the
   * nom succeeds iff it is r, reporting the byte read when it is not.
   */
  function Expect(buf: seq<bv8>, pos: nat, r: bv8): (m: Moved)
    requires pos <= |buf|
    ensures pos == |buf| ==> m == Moved(Some(EOF), pos)
    ensures pos < |buf| && buf[pos] == r ==> m == Moved(None, pos + 1)
    ensures pos < |buf| && buf[pos] != r ==>
      m == Moved(Some(ExpectationFailed(Literal([r]), buf[pos], false)), pos + 1)
  {
    ExpectOne(buf, pos, Is(r), [r], false)
  }

  /**
   * ExpectOneOf(set...): io.EOF at the end of input; otherwise one byte is
   * consumed and the nom succeeds iff it is a member; the failure reports the
   * whole set and the byte read.
   */
  function ExpectOneOf(buf: seq<bv8>, pos: nat, members: seq<bv8>): (m: Moved)
    requires pos <= |buf|
    ensures pos == |buf| ==> m == Moved(Some(EOF), pos)
    ensures pos < |buf| && buf[pos] in members ==> m == Moved(None, pos + 1)
    ensures pos < |buf| && buf[pos] !in members ==>
      m == Moved(Some(ExpectationFailed(Literal(members), buf[pos], false)), pos + 1)
  {
    ExpectOne(buf, pos, OneOf(members), members, false)
  }

  /**
   * ExpectNot(r): io.EOF at the end of input; otherwise one byte is consumed and
   * the nom succeeds iff it is not r; the failure leaves the byte read unset.
   */
  function ExpectNot(buf: seq<bv8>, pos: nat, r: bv8): (m: Moved)
    requires pos <= |buf|
    ensures pos == |buf| ==> m == Moved(Some(EOF), pos)
    ensures pos < |buf| && buf[pos] != r ==> m == Moved(None, pos + 1)
    ensures pos < |buf| && buf[pos] == r ==>
      m == Moved(Some(ExpectationFailed(Literal([r]), 0, true)), pos + 1)
  {
    ExpectOne(buf, pos, IsNot(r), [r], true)
  }

  /**
   * ExpectNotOneOf(set...): io.EOF at the end of input; otherwise one byte is
   * consumed and the nom succeeds iff it is not a member; the failure reports the
   * set and leaves the byte read unset.
   */
  function ExpectNotOneOf(buf: seq<bv8>, pos: nat, members: seq<bv8>): (m: Moved)
    requires pos <= |buf|
    ensures pos == |buf| ==> m == Moved(Some(EOF), pos)
    ensures pos < |buf| && buf[pos] !in members ==> m == Moved(None, pos + 1)
    ensures pos < |buf| && buf[pos] in members ==>
      m == Moved(Some(ExpectationFailed(Literal(members), 0, true)), pos + 1)
  {
    ExpectOne(buf, pos, NotOneOf(members), members, true)
  }

  /** An empty set accepts no byte and its negation accepts every byte. */
  lemma EmptySetExpectations(buf: seq<bv8>, pos: nat)
    requires pos < |buf|
    ensures ExpectOneOf(buf, pos, []).err == Some(ExpectationFailed(Literal([]), buf[pos], false))
    ensures ExpectNotOneOf(buf, pos, []) == Moved(None, pos + 1)
  {
  }

  /**
   * The at-least-one quantifiers of while.go: they consume the same run as Scan
   * and succeed iff it is not empty. An empty run at the end of input is
   * io.ErrUnexpectedEOF; an empty run before a failing byte reports that byte,
   * which is only peeked, so the position does not move.
   */
  function AtLeastOne(buf: seq<bv8>, pos: nat, c: Class, expected: Expected, not: bool): (m: Moved)
    requires pos <= |buf|
    ensures m.pos == Scan(buf, pos, c)
    ensures m.err.None? <==> pos < m.pos
    ensures m.err.Some? && pos == |buf| ==> m.err == Some(UnexpectedEOF)
    ensures m.err.Some? && pos < |buf| ==>
      m.err == Some(ExpectationFailed(expected, buf[pos], not)) && !Keeps(c, buf[pos])
  {
    var q := Scan(buf, pos, c);
    if pos < q then Moved(None, q)
    else if pos == |buf| then Moved(Some(UnexpectedEOF), pos)
    else Moved(Some(ExpectationFailed(expected, buf[pos], not)), pos)
  }

  /** The Expected value while.go reports for a byte r: span.NewSingle(r). */
  function SingleOf(r: bv8): (e: Expected)
    ensures e.Ranged? && forall v: bv8 :: e.range.Includes(v) <==> v == r
  {
    Ranged(OfSingle(SpanSingle.NewSingle(r)))
  }

  /** A zero-or-more quantifier succeeds wherever the at-least-one one does, at the same position. */
  lemma AtLeastOneRefinesScan(buf: seq<bv8>, pos: nat, c: Class, expected: Expected, not: bool)
    requires pos <= |buf|
    ensures AtLeastOne(buf, pos, c, expected, not).err.None? ==>
      AtLeastOne(buf, pos, c, expected, not).pos == Scan(buf, pos, c) > pos
    ensures AtLeastOne(buf, pos, c, expected, not).err.Some? ==>
      AtLeastOne(buf, pos, c, expected, not).pos == pos
  {
  }
}
