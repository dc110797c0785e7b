/**
 * dish/string.go: String, the Plate over a Go string (an immutable byte sequence).
 */
module DishString {
  import opened Bynom

  /** `dish.String`: the wrapped string and the read position. */
  class String {
    const buf: seq<bv8>
    var pos: nat

    /** The read position never passes the end of the buffer. */
    ghost predicate Valid()
      reads this
    {
      pos <= |buf|
    }

    /** NewString starts reading at position 0. */
    constructor NewString(s: seq<bv8>)
      ensures Valid()
      ensures buf == s && pos == 0
    {
      buf := s;
      pos := 0;
    }

    /** NextByte returns the byte at the read position and moves past it, or io.EOF without moving. */
    method NextByte() returns (b: bv8, err: Option<Error>)
      requires Valid()
      modifies this
      ensures Valid()
      ensures Read(b, err, pos) == Bynom.NextByte(buf, old(pos))
    {
      if pos >= |buf| {
        return 0, Some(EOF);
      }
      b := buf[pos];
      pos := pos + 1;
      err := None;
    }

    /** PeekByte returns the byte at the read position, or io.EOF, and never moves. */
    method PeekByte() returns (b: bv8, err: Option<Error>)
      requires Valid()
      ensures err.None? <==> pos < |buf|
      ensures err.None? ==> b == buf[pos]
      ensures err.Some? ==> b == 0 && err == Some(EOF)
    {
      if pos >= |buf| {
        return 0, Some(EOF);
      }
      return buf[pos], None;
    }

    /** ByteSlice returns a copy of the bytes of buf[start:end], or an error for a reversed or out-of-bounds window. */
    method ByteSlice(start: int, end: int) returns (p: Slice, err: Option<Error>)
      ensures Sliced(p, err) == Bynom.ByteSlice(buf, start, end)
      ensures err.None? ==> p.Bytes? && p.data == buf[start..end]
    {
      if end < start {
        return Nil, Some(StartLessEnd);
      }
      if start < 0 || start >= |buf| {
        return Nil, Some(PositionOutOfBound);
      }
      if end < 0 || end > |buf| {
        return Nil, Some(PositionOutOfBound);
      }
      return Bytes(buf[start..end]), None;
    }

    /** TellPosition reports the read position; it cannot fail. */
    method TellPosition() returns (at: int, err: Option<Error>)
      ensures at == pos && err == None
    {
      return pos, None;
    }

    /** SeekPosition moves to an absolute readable position, or fails without moving. */
    method SeekPosition(target: int) returns (err: Option<Error>)
      requires Valid()
      modifies this
      ensures Valid()
      ensures Moved(err, pos) == Bynom.SeekPosition(buf, old(pos), target)
    {
      if target >= 0 && target < |buf| {
        pos := target;
        return None;
      }
      return Some(PositionOutOfBound);
    }
  }
}
