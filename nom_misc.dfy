/**
 * nom/misc.go: Any of the nom package, which returns plate errors other than
 * io.EOF unchanged.
 */
module NomMisc {
  import opened Bynom
  import opened BytePlates

  /** Any: consume every remaining byte; the end of input is success. */
  method Any(p: BytePlate) returns (err: Option<Error>)
    requires p.Valid()
    modifies p
    ensures p.Valid()
    ensures err == None && p.pos == |p.buf|
  {
    while true
      invariant p.Valid()
      decreases |p.buf| - p.pos
    {
      var _, e := p.NextByte();
      if e.Some? {
        if e == Some(EOF) {
          return None;
        }
        return e;
      }
    }
  }
}
