/**
 * bynom.go: the Plate contract, the error values the noms produce and the Range
 * interface the quantifiers consult.
 *
 * A plate is a byte buffer plus a read position. The functions here state what
 * each of the five Plate operations does to (buffer, position); every concrete
 * plate class is proved against them, and the functional semantics of the noms
 * is written in terms of them.
 */
module Bynom {
  import SpanByte
  import SpanSingle
  import SpanSet

  datatype Option<+T> = None | Some(value: T)

  /** The Range interface, closed over the implementations that provide it. */
  datatype Range =
    | OfByte(b: SpanByte.Byte)
    | OfSingle(s: SpanSingle.Single)
    | OfSet(variants: SpanSet.Set)
  {
    predicate Includes(v: bv8) {
      match this
      case OfByte(b) => b.Includes(v)
      case OfSingle(s) => s.Includes(v)
      case OfSet(s) => s.Includes(v)
    }

    predicate Excludes(v: bv8) {
      match this
      case OfByte(b) => b.Excludes(v)
      case OfSingle(s) => s.Excludes(v)
      case OfSet(s) => s.Excludes(v)
    }
  }

  /** Every Range answers Excludes(v) exactly when it does not answer Includes(v). */
  lemma RangeExcludesIsComplement(r: Range, v: bv8)
    ensures r.Excludes(v) <==> !r.Includes(v)
  {
    match r
    case OfByte(b) => SpanByte.ExcludesIsComplement(b, v);
    case OfSingle(s) => SpanSingle.ExcludesIsComplement(s, v);
    case OfSet(s) => SpanSet.ExcludesIsComplement(s, v);
  }

  /**
   * A span.Byte of b, a span.Single of b and a span.Set holding only b are the
   * same range: each includes b and nothing else.
   */
  lemma OneByteRangesAgree(b: bv8, v: bv8)
    ensures OfByte(SpanByte.NewByte(b)).Includes(v) <==> v == b
    ensures OfSingle(SpanSingle.NewSingle(b)).Includes(v) <==> v == b
    ensures OfSet(SpanSet.NewSet([b])).Includes(v) <==> v == b
    ensures OfByte(SpanByte.NewByte(b)).Excludes(v) == OfSingle(SpanSingle.NewSingle(b)).Excludes(v)
                                                   == OfSet(SpanSet.NewSet([b])).Excludes(v)
  {
    RangeExcludesIsComplement(OfByte(SpanByte.NewByte(b)), v);
    RangeExcludesIsComplement(OfSingle(SpanSingle.NewSingle(b)), v);
    RangeExcludesIsComplement(OfSet(SpanSet.NewSet([b])), v);
  }

  /** What an ErrExpectationFailed says was expected: literal bytes or a Range. */
  datatype Expected = Literal(bytes: seq<bv8>) | Ranged(range: Range)

  /**
   * The errors of the core. Those built by code that is not part of this model
   * (WrapBreadcrumb, ExtendBreadcrumb, ErrStateTestFailed, ErrRequirementNotMet)
   * are opaque constructors carrying their arguments.
   */
  datatype Error =
    | EOF                                   // io.EOF
    | UnexpectedEOF                         // io.ErrUnexpectedEOF
    | PositionOutOfBound                    // errPositionOufOfBound
    | StartLessEnd                          // errStartLessEnd
    | ExpectationFailed(expected: Expected, have: bv8, not: bool)
    | RequirementNotMet(expectedLen: int, haveLen: int, msg: string)
    | StateTestFailed(asserted: bv64)
    | Wrapped(cause: Error, name: string)   // WrapBreadcrumb(err, name)
    | Extended(inner: Error, index: int, startPos: int, endPos: int)  // ExtendBreadcrumb

  /** A Go byte slice, which is either nil or a (possibly empty) run of bytes. */
  datatype Slice = Nil | Bytes(data: seq<bv8>)

  /** The result of NextByte or PeekByte: the byte, the error and the read position after it. */
  datatype Read = Read(b: bv8, err: Option<Error>, pos: nat)

  /** The result of ByteSlice. */
  datatype Sliced = Sliced(p: Slice, err: Option<Error>)

  /** The result of an operation whose only effects are an error and a new read position. */
  datatype Moved = Moved(err: Option<Error>, pos: nat)

  /** NextByte: the byte at pos and one step forward, or io.EOF without moving. */
  function NextByte(buf: seq<bv8>, pos: nat): (r: Read)
    requires pos <= |buf|
    ensures r.err.None? <==> pos < |buf|
    ensures r.err.None? ==> r.b == buf[pos] && r.pos == pos + 1
    ensures r.err.Some? ==> r == Read(0, Some(EOF), pos)
  {
    if pos >= |buf| then Read(0, Some(EOF), pos) else Read(buf[pos], None, pos + 1)
  }

  /** PeekByte: what NextByte would return, without moving. */
  function PeekByte(buf: seq<bv8>, pos: nat): (r: Read)
    requires pos <= |buf|
    ensures r.pos == pos
    ensures r.b == NextByte(buf, pos).b && r.err == NextByte(buf, pos).err
  {
    if pos >= |buf| then Read(0, Some(EOF), pos) else Read(buf[pos], None, pos)
  }

  /**
   * ByteSlice: the half-open window [start, end). The start must be a readable
   * position (start < len), so an empty window at start == len is refused.
   */
  function ByteSlice(buf: seq<bv8>, start: int, end: int): (r: Sliced)
    ensures r.err.None? <==> 0 <= start < |buf| && start <= end <= |buf|
    ensures r.err.None? ==> r.p == Bytes(buf[start..end]) && |r.p.data| == end - start
    ensures end < start ==> r == Sliced(Nil, Some(StartLessEnd))
    ensures start <= end && r.err.Some? ==> r == Sliced(Nil, Some(PositionOutOfBound))
  {
    if end < start then Sliced(Nil, Some(StartLessEnd))
    else if start < 0 || start >= |buf| then Sliced(Nil, Some(PositionOutOfBound))
    else if end < 0 || end > |buf| then Sliced(Nil, Some(PositionOutOfBound))
    else Sliced(Bytes(buf[start..end]), None)
  }

  /**
   * SeekPosition from the start of the buffer: only a readable position
   * (0 <= target < len) is accepted; a refused seek leaves the position alone.
   */
  function SeekPosition(buf: seq<bv8>, pos: nat, target: int): (r: Moved)
    ensures r.err.None? <==> 0 <= target < |buf|
    ensures r.err.None? ==> r.pos == target
    ensures r.err.Some? ==> r == Moved(Some(PositionOutOfBound), pos)
  {
    if target >= 0 && target < |buf| then Moved(None, target) else Moved(Some(PositionOutOfBound), pos)
  }

  /** Seeking to the end of the buffer fails, so does every seek on an empty buffer. */
  lemma SeekToEndRefused(buf: seq<bv8>, pos: nat)
    ensures SeekPosition(buf, pos, |buf|) == Moved(Some(PositionOutOfBound), pos)
    ensures buf == [] ==> forall t: int :: SeekPosition(buf, pos, t).err.Some?
  {
  }

  /** An empty window at the end of the buffer is refused although it lies within bounds. */
  lemma EmptySliceAtEndRefused(buf: seq<bv8>)
    ensures ByteSlice(buf, |buf|, |buf|) == Sliced(Nil, Some(PositionOutOfBound))
  {
  }

  /** Every operation keeps the read position within [0, len]. */
  lemma PositionStaysInBounds(buf: seq<bv8>, pos: nat, target: int)
    requires pos <= |buf|
    ensures NextByte(buf, pos).pos <= |buf|
    ensures PeekByte(buf, pos).pos <= |buf|
    ensures SeekPosition(buf, pos, target).pos <= |buf|
  {
  }
}
