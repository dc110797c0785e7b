/**
 * misc.go: Any of the context-taking generation, whose plate errors other than
 * io.EOF are wrapped with the breadcrumb "Any".
 */
module Misc {
  import opened Bynom
  import opened BytePlates

  /** Any: consume every remaining byte; the end of input is success. */
  method Any(p: BytePlate) returns (err: Option<Error>)
    requires p.Valid()
    modifies p
    ensures p.Valid()
    ensures err == None && p.pos == |p.buf|
  {
    while true
      invariant p.Valid()
      decreases |p.buf| - p.pos
    {
      var _, e := p.NextByte();
      match e
      case None =>
      case Some(cause) =>
        if cause == EOF {
          return None;
        }
        return Some(Wrapped(cause, "Any"));
    }
  }
}
