/**
 * nom/signal.go: Signal, which hands a bool to every React, and ReflectBool, the
 * React that stores it. Signal never touches the plate, so it does not take one here.
 */
module NomSignal {
  import opened Bynom
  import opened Variables
  import opened Callbacks

  /** Signal(v, reacts...): call each React with v in order, stopping at the first error. */
  method Signal(st: Store, v: bool, reacts: seq<React>) returns (err: Option<Error>)
    modifies st
    ensures Effect(err, st.Snapshot()) == ReactAll(reacts, 0, v, old(st.Snapshot()))
  {
    err := None;
    for i := 0 to |reacts|
      invariant err == None
      invariant ReactAll(reacts, 0, v, old(st.Snapshot())) == ReactAll(reacts, i, v, st.Snapshot())
    {
      err := DoReact(st, reacts[i], v);
      if err.Some? {
        break;
      }
    }
  }

  /** ReflectBool(p)(v): write v into *p; returns nil. */
  method ReflectBool(st: Store, dst: Name, v: bool) returns (err: Option<Error>)
    modifies st
    ensures err == None
    ensures st.bools == old(st.bools)[dst := v]
    ensures st.slices == old(st.slices) && st.states == old(st.states) && st.calls == old(st.calls)
  {
    st.bools := st.bools[dst := v];
    return None;
  }
}
