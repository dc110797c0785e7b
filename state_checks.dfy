/**
 * state_checks.go: the TestState callbacks over a list of destination variables.
 */
module StateChecks {
  import opened Variables
  import StateBits

  /** StateHasAllBits(dst...)(s): every destination has all bits of s set. */
  function StateHasAllBits(states: map<Name, bv64>, dsts: seq<Name>, s: bv64): (r: bool)
    ensures r <==> forall i :: 0 <= i < |dsts| ==> StateBits.AllBitsSet(GetState(states, dsts[i]), s)
    decreases |dsts|
  {
    if |dsts| == 0 then true
    else if !StateBits.AllBitsSet(GetState(states, dsts[0]), s) then false
    else StateHasAllBits(states, dsts[1..], s)
  }

  /** StateHasAnyBits(dst...)(s): every destination shares at least one bit with s. */
  function StateHasAnyBits(states: map<Name, bv64>, dsts: seq<Name>, s: bv64): (r: bool)
    ensures r <==> forall i :: 0 <= i < |dsts| ==> !StateBits.NoBitSet(GetState(states, dsts[i]), s)
    decreases |dsts|
  {
    if |dsts| == 0 then true
    else if StateBits.NoBitSet(GetState(states, dsts[0]), s) then false
    else StateHasAnyBits(states, dsts[1..], s)
  }

  /** With no destinations both checks hold; with s = 0 all-bits holds and any-bits fails on a non-empty list. */
  lemma EdgeCases(states: map<Name, bv64>, dsts: seq<Name>, s: bv64)
    ensures StateHasAllBits(states, [], s) && StateHasAnyBits(states, [], s)
    ensures StateHasAllBits(states, dsts, 0)
    ensures |dsts| > 0 ==> !StateHasAnyBits(states, dsts, 0)
  {
    if |dsts| > 0 {
      assert GetState(states, dsts[0]) & 0 == 0;
    }
  }
}
