/**
 * while.go: the at-least-one quantifiers. Each counts the bytes it consumes and
 * fails when the count is 0, reporting the byte that stopped it (only peeked).
 */
module Whiles {
  import opened Bynom
  import opened BytePlates
  import Steps

  /** While(r): one or more bytes equal to r. */
  method While(p: BytePlate, r: bv8) returns (err: Option<Error>)
    requires p.Valid()
    modifies p
    ensures p.Valid()
    ensures Moved(err, p.pos) == Steps.AtLeastOne(p.buf, old(p.pos), Steps.Is(r), Steps.SingleOf(r), false)
  {
    var count := 0;
    var b: bv8 := 0;
    while true
      invariant p.Valid() && old(p.pos) <= p.pos
      invariant count == p.pos - old(p.pos)
      invariant Steps.Scan(p.buf, old(p.pos), Steps.Is(r)) == Steps.Scan(p.buf, p.pos, Steps.Is(r))
      decreases |p.buf| - p.pos
    {
      var e;
      b, e := p.PeekByte();
      if e.Some? {
        if e == Some(EOF) {
          if count == 0 {
            return Some(UnexpectedEOF);
          }
          return None;
        }
        return e;
      }
      if b != r {
        break;
      }
      var _, e' := p.NextByte();
      if e'.Some? {
        return e';
      }
      count := count + 1;
    }
    if count == 0 {
      return Some(ExpectationFailed(Steps.SingleOf(r), b, false));
    }
    return None;
  }

  /** WhileInRange(r): one or more bytes, stopping at the first one r excludes. */
  method WhileInRange(p: BytePlate, r: Range) returns (err: Option<Error>)
    requires p.Valid()
    modifies p
    ensures p.Valid()
    ensures Moved(err, p.pos) == Steps.AtLeastOne(p.buf, old(p.pos), Steps.InRange(r), Ranged(r), false)
  {
    var count := 0;
    var b: bv8 := 0;
    while true
      invariant p.Valid() && old(p.pos) <= p.pos
      invariant count == p.pos - old(p.pos)
      invariant Steps.Scan(p.buf, old(p.pos), Steps.InRange(r)) == Steps.Scan(p.buf, p.pos, Steps.InRange(r))
      decreases |p.buf| - p.pos
    {
      var e;
      b, e := p.PeekByte();
      if e.Some? {
        if e == Some(EOF) {
          if count == 0 {
            return Some(UnexpectedEOF);
          }
          return None;
        }
        return e;
      }
      if r.Excludes(b) {
        break;
      }
      var _, e' := p.NextByte();
      if e'.Some? {
        return e';
      }
      count := count + 1;
    }
    if count == 0 {
      return Some(ExpectationFailed(Ranged(r), b, false));
    }
    return None;
  }

  /** WhileNot(r): one or more bytes other than r. */
  method WhileNot(p: BytePlate, r: bv8) returns (err: Option<Error>)
    requires p.Valid()
    modifies p
    ensures p.Valid()
    ensures Moved(err, p.pos) == Steps.AtLeastOne(p.buf, old(p.pos), Steps.IsNot(r), Steps.SingleOf(r), true)
  {
    var count := 0;
    var b: bv8 := 0;
    while true
      invariant p.Valid() && old(p.pos) <= p.pos
      invariant count == p.pos - old(p.pos)
      invariant Steps.Scan(p.buf, old(p.pos), Steps.IsNot(r)) == Steps.Scan(p.buf, p.pos, Steps.IsNot(r))
      decreases |p.buf| - p.pos
    {
      var e;
      b, e := p.PeekByte();
      if e.Some? {
        if e == Some(EOF) {
          if count == 0 {
            return Some(UnexpectedEOF);
          }
          return None;
        }
        return e;
      }
      if b == r {
        break;
      }
      var _, e' := p.NextByte();
      if e'.Some? {
        return e';
      }
      count := count + 1;
    }
    if count == 0 {
      return Some(ExpectationFailed(Steps.SingleOf(r), b, true));
    }
    return None;
  }

  /** WhileNotInRange(r): one or more bytes, stopping at the first one r includes. */
  method WhileNotInRange(p: BytePlate, r: Range) returns (err: Option<Error>)
    requires p.Valid()
    modifies p
    ensures p.Valid()
    ensures Moved(err, p.pos) == Steps.AtLeastOne(p.buf, old(p.pos), Steps.NotInRange(r), Ranged(r), true)
  {
    var count := 0;
    var b: bv8 := 0;
    while true
      invariant p.Valid() && old(p.pos) <= p.pos
      invariant count == p.pos - old(p.pos)
      invariant Steps.Scan(p.buf, old(p.pos), Steps.NotInRange(r)) == Steps.Scan(p.buf, p.pos, Steps.NotInRange(r))
      decreases |p.buf| - p.pos
    {
      var e;
      b, e := p.PeekByte();
      if e.Some? {
        if e == Some(EOF) {
          if count == 0 {
            return Some(UnexpectedEOF);
          }
          return None;
        }
        return e;
      }
      if r.Includes(b) {
        break;
      }
      var _, e' := p.NextByte();
      if e'.Some? {
        return e';
      }
      count := count + 1;
    }
    if count == 0 {
      return Some(ExpectationFailed(Ranged(r), b, true));
    }
    return None;
  }
}
