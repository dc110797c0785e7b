/**
 * nom/expect.go: the single-byte expectations of the nom package. Its
 * ErrExpectationFailed is modelled by the same Error constructor as the root package's.
 */
module NomExpect {
  import opened Bynom
  import opened BytePlates
  import Steps

  /** Expect(r): consume one byte, which must be r. */
  method Expect(p: BytePlate, r: bv8) returns (err: Option<Error>)
    requires p.Valid()
    modifies p
    ensures p.Valid()
    ensures Moved(err, p.pos) == Steps.Expect(p.buf, old(p.pos), r)
  {
    var b, e := p.NextByte();
    if e.Some? {
      return e;
    }
    if b != r {
      return Some(ExpectationFailed(Literal([r]), b, false));
    }
    return None;
  }

  /** ExpectOneOf(set...): consume one byte, which must occur in the set. */
  method ExpectOneOf(p: BytePlate, members: seq<bv8>) returns (err: Option<Error>)
    requires p.Valid()
    modifies p
    ensures p.Valid()
    ensures Moved(err, p.pos) == Steps.ExpectOneOf(p.buf, old(p.pos), members)
  {
    var b, e := p.NextByte();
    if e.Some? {
      return e;
    }
    var i := 0;
    while i < |members|
      invariant 0 <= i <= |members|
      invariant b !in members[..i]
    {
      if b == members[i] {
        return None;
      }
      i := i + 1;
    }
    assert members[..i] == members;
    return Some(ExpectationFailed(Literal(members), b, false));
  }

  /** ExpectNot(r): consume one byte, which must not be r; the failure leaves Have unset. */
  method ExpectNot(p: BytePlate, r: bv8) returns (err: Option<Error>)
    requires p.Valid()
    modifies p
    ensures p.Valid()
    ensures Moved(err, p.pos) == Steps.ExpectNot(p.buf, old(p.pos), r)
  {
    var b, e := p.NextByte();
    if e.Some? {
      return e;
    }
    if b != r {
      return None;
    }
    return Some(ExpectationFailed(Literal([r]), 0, true));
  }

  /** ExpectNotOneOf(set...): consume one byte, which must not occur in the set. */
  method ExpectNotOneOf(p: BytePlate, members: seq<bv8>) returns (err: Option<Error>)
    requires p.Valid()
    modifies p
    ensures p.Valid()
    ensures Moved(err, p.pos) == Steps.ExpectNotOneOf(p.buf, old(p.pos), members)
  {
    var b, e := p.NextByte();
    if e.Some? {
      return e;
    }
    var i := 0;
    while i < |members|
      invariant 0 <= i <= |members|
      invariant b !in members[..i]
    {
      if b == members[i] {
        return Some(ExpectationFailed(Literal(members), 0, true));
      }
      i := i + 1;
    }
    assert members[..i] == members;
    return None;
  }
}
