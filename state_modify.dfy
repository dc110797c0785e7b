/**
 * state_modify.go: the ModifyState callbacks that write a state value into every
 * destination variable.
 */
module StateModify {
  import opened Bynom
  import opened Variables
  import StateBits

  /** What a modifier does to one destination. */
  datatype Op = Replace | SetBits | ResetBits

  /** The new value of a destination holding cur. */
  function Apply(op: Op, cur: bv64, s: bv64): bv64 {
    match op
    case Replace => s
    case SetBits => StateBits.Or(cur, s)
    case ResetBits => StateBits.AndNot(cur, s)
  }

  /**
   * ReplaceState writes s; SetStateBits sets the bits of s and keeps those already
   * set; ResetStateBits clears the bits of s; the last two leave the bits outside s alone.
   */
  lemma ApplyEffects(op: Op, cur: bv64, s: bv64)
    ensures op == Replace ==> Apply(op, cur, s) == s
    ensures op == SetBits ==> StateBits.AllBitsSet(Apply(op, cur, s), s) && StateBits.AllBitsSet(Apply(op, cur, s), cur)
    ensures op == ResetBits ==> StateBits.NoBitSet(Apply(op, cur, s), s)
    ensures op != Replace ==> Apply(op, cur, s) & !s == cur & !s
  {
    if op == SetBits {
      StateBits.OrSetsAll(cur, s);
      StateBits.OrKeepsSet(cur, s);
      StateBits.OrKeepsOthers(cur, s);
    } else if op == ResetBits {
      StateBits.AndNotClearsAll(cur, s);
      StateBits.AndNotKeepsOthers(cur, s);
    }
  }

  /** Applying a modifier twice to one destination is the same as once. */
  lemma ApplyIsIdempotent(op: Op, cur: bv64, s: bv64)
    ensures Apply(op, Apply(op, cur, s), s) == Apply(op, cur, s)
  {
    match op
    case Replace =>
    case SetBits => StateBits.OrIdempotent(cur, s);
    case ResetBits => StateBits.AndNotIdempotent(cur, s);
  }

  /** The states after the loop has written s into dsts, one destination after another. */
  function Modified(states: map<Name, bv64>, dsts: seq<Name>, op: Op, s: bv64): (r: map<Name, bv64>)
    decreases |dsts|
  {
    if |dsts| == 0 then states
    else
      var before := Modified(states, dsts[..|dsts| - 1], op, s);
      var x := dsts[|dsts| - 1];
      before[x := Apply(op, GetState(before, x), s)]
  }

  /**
   * Each destination ends up as the modifier applied once to its old value, even
   * when it is listed more than once; every other variable is unchanged.
   */
  lemma {:induction false} ModifiedPointwise(states: map<Name, bv64>, dsts: seq<Name>, op: Op, s: bv64, x: Name)
    ensures GetState(Modified(states, dsts, op, s), x)
         == if x in dsts then Apply(op, GetState(states, x), s) else GetState(states, x)
    ensures x !in dsts ==> (x in Modified(states, dsts, op, s) <==> x in states)
    decreases |dsts|
  {
    if |dsts| > 0 {
      var init := dsts[..|dsts| - 1];
      ModifiedPointwise(states, init, op, s, x);
      assert dsts == init + [dsts[|dsts| - 1]];
      if x in init && x == dsts[|dsts| - 1] {
        ApplyIsIdempotent(op, GetState(states, x), s);
      }
    }
  }

  /** The loop shared by the three modifiers. */
  method ModifyEach(st: Store, dsts: seq<Name>, op: Op, s: bv64)
    modifies st
    ensures st.states == Modified(old(st.states), dsts, op, s)
    ensures st.bools == old(st.bools) && st.slices == old(st.slices) && st.calls == old(st.calls)
  {
    for i := 0 to |dsts|
      invariant st.states == Modified(old(st.states), dsts[..i], op, s)
      invariant st.bools == old(st.bools) && st.slices == old(st.slices) && st.calls == old(st.calls)
    {
      assert dsts[..i + 1][..i] == dsts[..i];
      var v := dsts[i];
      st.states := st.states[v := Apply(op, GetState(st.states, v), s)];
    }
    assert dsts[..|dsts|] == dsts;
  }

  /** ReplaceState(dst...)(s): every destination becomes s; returns nil. */
  method ReplaceState(st: Store, dsts: seq<Name>, s: bv64) returns (err: Option<Error>)
    modifies st
    ensures err == None
    ensures st.states == Modified(old(st.states), dsts, Replace, s)
    ensures st.bools == old(st.bools) && st.slices == old(st.slices) && st.calls == old(st.calls)
  {
    ModifyEach(st, dsts, Replace, s);
    return None;
  }

  /** SetStateBits(dst...)(s): every destination becomes dst | s; returns nil. */
  method SetStateBits(st: Store, dsts: seq<Name>, s: bv64) returns (err: Option<Error>)
    modifies st
    ensures err == None
    ensures st.states == Modified(old(st.states), dsts, SetBits, s)
    ensures st.bools == old(st.bools) && st.slices == old(st.slices) && st.calls == old(st.calls)
  {
    ModifyEach(st, dsts, SetBits, s);
    return None;
  }

  /** ResetStateBits(dst...)(s): every destination becomes dst &^ s; returns nil. */
  method ResetStateBits(st: Store, dsts: seq<Name>, s: bv64) returns (err: Option<Error>)
    modifies st
    ensures err == None
    ensures st.states == Modified(old(st.states), dsts, ResetBits, s)
    ensures st.bools == old(st.bools) && st.slices == old(st.slices) && st.calls == old(st.calls)
  {
    ModifyEach(st, dsts, ResetBits, s);
    return None;
  }
}
