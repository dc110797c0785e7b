/**
 * vars.go: ResetSignals and SetSignal of the generation that also holds the
 * pointer-writing Take (Engine.RunTakeInto) and TakeFunc (Engine.RunTake, which
 * runs the Take of takes.go as well).
 */
module Vars {
  import opened Bynom
  import opened Variables
  import Signals

  /** ResetSignals(dst...): set every destination to false; returns nil. */
  method ResetSignals(st: Store, dsts: seq<Name>) returns (err: Option<Error>)
    modifies st
    ensures err == None
    ensures st.bools == Signals.Cleared(old(st.bools), dsts)
    ensures st.slices == old(st.slices) && st.states == old(st.states) && st.calls == old(st.calls)
  {
    for i := 0 to |dsts|
      invariant st.bools == Signals.Cleared(old(st.bools), dsts[..i])
      invariant st.slices == old(st.slices) && st.states == old(st.states) && st.calls == old(st.calls)
    {
      assert dsts[..i + 1][..i] == dsts[..i];
      st.bools := st.bools[dsts[i] := false];
    }
    assert dsts[..|dsts|] == dsts;
    return None;
  }

  /** SetSignal(dst): set the destination to true; returns nil. */
  method SetSignal(st: Store, dst: Name) returns (err: Option<Error>)
    modifies st
    ensures err == None
    ensures st.bools == old(st.bools)[dst := true]
    ensures st.slices == old(st.slices) && st.states == old(st.states) && st.calls == old(st.calls)
  {
    st.bools := st.bools[dst := true];
    return None;
  }
}
