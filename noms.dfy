/**
 * noms.go: the single-byte expectations and the zero-or-more quantifiers of the
 * context-free generation, over a BytePlate.
 */
module Noms {
  import opened Bynom
  import opened BytePlates
  import Steps

  /** Expect(r): consume one byte, which must be r. */
  method Expect(p: BytePlate, r: bv8) returns (err: Option<Error>)
    requires p.Valid()
    modifies p
    ensures p.Valid()
    ensures Moved(err, p.pos) == Steps.Expect(p.buf, old(p.pos), r)
  {
    var b, e := p.NextByte();
    if e.Some? {
      return e;
    }
    if b != r {
      return Some(ExpectationFailed(Literal([r]), b, false));
    }
    return None;
  }

  /** ExpectOneOf(set...): consume one byte, which must occur in the set. */
  method ExpectOneOf(p: BytePlate, members: seq<bv8>) returns (err: Option<Error>)
    requires p.Valid()
    modifies p
    ensures p.Valid()
    ensures Moved(err, p.pos) == Steps.ExpectOneOf(p.buf, old(p.pos), members)
  {
    var b, e := p.NextByte();
    if e.Some? {
      return e;
    }
    var i := 0;
    while i < |members|
      invariant 0 <= i <= |members|
      invariant b !in members[..i]
    {
      if b == members[i] {
        return None;
      }
      i := i + 1;
    }
    assert members[..i] == members;
    return Some(ExpectationFailed(Literal(members), b, false));
  }

  /** ExpectNot(r): consume one byte, which must not be r; the failure leaves Have unset. */
  method ExpectNot(p: BytePlate, r: bv8) returns (err: Option<Error>)
    requires p.Valid()
    modifies p
    ensures p.Valid()
    ensures Moved(err, p.pos) == Steps.ExpectNot(p.buf, old(p.pos), r)
  {
    var b, e := p.NextByte();
    if e.Some? {
      return e;
    }
    if b != r {
      return None;
    }
    return Some(ExpectationFailed(Literal([r]), 0, true));
  }

  /** ExpectNotOneOf(set...): consume one byte, which must not occur in the set. */
  method ExpectNotOneOf(p: BytePlate, members: seq<bv8>) returns (err: Option<Error>)
    requires p.Valid()
    modifies p
    ensures p.Valid()
    ensures Moved(err, p.pos) == Steps.ExpectNotOneOf(p.buf, old(p.pos), members)
  {
    var b, e := p.NextByte();
    if e.Some? {
      return e;
    }
    var i := 0;
    while i < |members|
      invariant 0 <= i <= |members|
      invariant b !in members[..i]
    {
      if b == members[i] {
        return Some(ExpectationFailed(Literal(members), 0, true));
      }
      i := i + 1;
    }
    assert members[..i] == members;
    return None;
  }

  /** While(r): consume bytes equal to r; the end of input is success. */
  method While(p: BytePlate, r: bv8) returns (err: Option<Error>)
    requires p.Valid()
    modifies p
    ensures p.Valid()
    ensures err == None && p.pos == Steps.Scan(p.buf, old(p.pos), Steps.Is(r))
  {
    while true
      invariant p.Valid() && old(p.pos) <= p.pos
      invariant Steps.Scan(p.buf, old(p.pos), Steps.Is(r)) == Steps.Scan(p.buf, p.pos, Steps.Is(r))
      decreases |p.buf| - p.pos
    {
      var b, e := p.PeekByte();
      if e.Some? {
        if e == Some(EOF) {
          return None;
        }
        return e;
      }
      if b != r {
        break;
      }
      var _, e' := p.NextByte();
      if e'.Some? {
        return e';
      }
    }
    return None;
  }

  /** WhileOneOf(set...): consume bytes that occur in the set; the end of input is success. */
  method WhileOneOf(p: BytePlate, members: seq<bv8>) returns (err: Option<Error>)
    requires p.Valid()
    modifies p
    ensures p.Valid()
    ensures err == None && p.pos == Steps.Scan(p.buf, old(p.pos), Steps.OneOf(members))
  {
    while true
      invariant p.Valid() && old(p.pos) <= p.pos
      invariant Steps.Scan(p.buf, old(p.pos), Steps.OneOf(members))
             == Steps.Scan(p.buf, p.pos, Steps.OneOf(members))
      decreases |p.buf| - p.pos
    {
      var b, e := p.PeekByte();
      if e.Some? {
        if e == Some(EOF) {
          return None;
        }
        return e;
      }
      var belong := false;
      var i := 0;
      while i < |members|
        invariant 0 <= i <= |members|
        invariant belong <==> b in members[..i]
        invariant belong ==> b in members
      {
        if b == members[i] {
          belong := true;
          break;
        }
        i := i + 1;
      }
      assert !belong ==> members[..i] == members;
      if !belong {
        break;
      }
      var _, e' := p.NextByte();
      if e'.Some? {
        return e';
      }
    }
    return None;
  }

  /** WhileNot(r): consume bytes other than r; the end of input is success. */
  method WhileNot(p: BytePlate, r: bv8) returns (err: Option<Error>)
    requires p.Valid()
    modifies p
    ensures p.Valid()
    ensures err == None && p.pos == Steps.Scan(p.buf, old(p.pos), Steps.IsNot(r))
  {
    while true
      invariant p.Valid() && old(p.pos) <= p.pos
      invariant Steps.Scan(p.buf, old(p.pos), Steps.IsNot(r)) == Steps.Scan(p.buf, p.pos, Steps.IsNot(r))
      decreases |p.buf| - p.pos
    {
      var b, e := p.PeekByte();
      if e.Some? {
        if e == Some(EOF) {
          return None;
        }
        return e;
      }
      if b == r {
        break;
      }
      var _, e' := p.NextByte();
      if e'.Some? {
        return e';
      }
    }
    return None;
  }

  /** WhileNotOneOf(set...): consume bytes outside the set, stopping before the first member. */
  method WhileNotOneOf(p: BytePlate, members: seq<bv8>) returns (err: Option<Error>)
    requires p.Valid()
    modifies p
    ensures p.Valid()
    ensures err == None && p.pos == Steps.Scan(p.buf, old(p.pos), Steps.NotOneOf(members))
  {
    label Loop:
    while true
      invariant p.Valid() && old(p.pos) <= p.pos
      invariant Steps.Scan(p.buf, old(p.pos), Steps.NotOneOf(members))
             == Steps.Scan(p.buf, p.pos, Steps.NotOneOf(members))
      decreases |p.buf| - p.pos
    {
      var b, e := p.PeekByte();
      if e.Some? {
        if e == Some(EOF) {
          return None;
        }
        return e;
      }
      var i := 0;
      while i < |members|
        invariant 0 <= i <= |members|
        invariant b !in members[..i]
      {
        if b == members[i] {
          break Loop;
        }
        i := i + 1;
      }
      assert members[..i] == members;
      var _, e' := p.NextByte();
      if e'.Some? {
        return e';
      }
    }
    return None;
  }

  /** Any: consume every remaining byte; the end of input is success. */
  method Any(p: BytePlate) returns (err: Option<Error>)
    requires p.Valid()
    modifies p
    ensures p.Valid()
    ensures err == None && p.pos == |p.buf|
  {
    while true
      invariant p.Valid()
      decreases |p.buf| - p.pos
    {
      var _, e := p.NextByte();
      if e.Some? {
        if e == Some(EOF) {
          return None;
        }
        return e;
      }
    }
  }
}
