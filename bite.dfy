/**
 * bite.go: Bite, a list of noms eaten as one transaction.
 */
module Bites {
  import opened Bynom
  import opened BytePlates
  import opened Variables
  import opened Engine

  /** `Bite`: the noms to run, fixed when it is made. */
  class Bite {
    const noms: seq<Nom>

    /** NewBite(noms...) keeps the noms in the order given. */
    constructor NewBite(noms: seq<Nom>)
      ensures this.noms == noms
    {
      this.noms := noms;
    }

    /**
     * Eat runs the noms in order and stops at the first failure, seeking back to the
     * entry position (the seek's own error is dropped) and returning the failure.
     */
    method Eat(p: BytePlate, st: Store) returns (err: Option<Error>)
      requires p.Valid()
      modifies p, st
      ensures p.Valid()
      ensures Outcome(err, p.pos, st.Snapshot()) == EvalEat(p.buf, noms, old(p.pos), old(st.Snapshot()))
    {
      var start, e := p.TellPosition();
      if e.Some? {
        return e;
      }
      ghost var o := EvalSeq(p.buf, noms, 0, p.pos, st.Snapshot(), Plain);
      err := None;
      for i := 0 to |noms|
        invariant p.Valid() && err == None
        invariant o == EvalSeq(p.buf, noms, i, p.pos, st.Snapshot(), Plain)
      {
        err := Run(p, st, noms[i]);
        if err.Some? {
          var _ := p.SeekPosition(start);
          break;
        }
      }
    }
  }
}
