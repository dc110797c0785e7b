/**
 * signals.go: the noms that write signal flags. Neither reads or moves the plate,
 * so neither takes one here.
 */
module Signals {
  import opened Bynom
  import opened Variables

  /** The flags after the loop has set every destination in dsts to false, in order. */
  function Cleared(bools: map<Name, bool>, dsts: seq<Name>): map<Name, bool>
    decreases |dsts|
  {
    if |dsts| == 0 then bools else Cleared(bools, dsts[..|dsts| - 1])[dsts[|dsts| - 1] := false]
  }

  /** After ResetSignals every destination is false and every other flag is unchanged. */
  lemma {:induction false} ClearedPointwise(bools: map<Name, bool>, dsts: seq<Name>, x: Name)
    ensures GetBool(Cleared(bools, dsts), x) == if x in dsts then false else GetBool(bools, x)
    decreases |dsts|
  {
    if |dsts| > 0 {
      var init := dsts[..|dsts| - 1];
      ClearedPointwise(bools, init, x);
      assert dsts == init + [dsts[|dsts| - 1]];
    }
  }

  /** ResetSignals(dst...): set every destination to false; returns nil. */
  method ResetSignals(st: Store, dsts: seq<Name>) returns (err: Option<Error>)
    modifies st
    ensures err == None
    ensures st.bools == Cleared(old(st.bools), dsts)
    ensures st.slices == old(st.slices) && st.states == old(st.states) && st.calls == old(st.calls)
  {
    for i := 0 to |dsts|
      invariant st.bools == Cleared(old(st.bools), dsts[..i])
      invariant st.slices == old(st.slices) && st.states == old(st.states) && st.calls == old(st.calls)
    {
      assert dsts[..i + 1][..i] == dsts[..i];
      st.bools := st.bools[dsts[i] := false];
    }
    assert dsts[..|dsts|] == dsts;
    return None;
  }

  /** SetSignal(dst): set the destination to true; returns nil. */
  method SetSignal(st: Store, dst: Name) returns (err: Option<Error>)
    modifies st
    ensures err == None
    ensures st.bools == old(st.bools)[dst := true]
    ensures st.slices == old(st.slices) && st.states == old(st.states) && st.calls == old(st.calls)
  {
    st.bools := st.bools[dst := true];
    return None;
  }
}
