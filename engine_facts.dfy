/**
 * What the flow, transaction, capture and length combinators promise, stated over
 * Engine.Eval and proved for every buffer, position, child list and variables.
 */
module EngineFacts {
  import opened Bynom
  import opened Variables
  import opened Engine
  import Callbacks

  /** An empty Switch and an empty Eat succeed without moving or writing anything. */
  lemma EmptyListsSucceedInPlace(buf: seq<bv8>, pos: nat, env: Env)
    requires pos <= |buf|
    ensures Eval(buf, Switch([]), pos, env) == Outcome(None, pos, env)
    ensures EvalEat(buf, [], pos, env) == Outcome(None, pos, env)
  {
  }

  /**
   * Eat restores the cursor and only the cursor: on failure the position is back
   * at the entry (even at the end of input, where the seek itself is refused),
   * while variables written before the failure keep their new values.
   */
  lemma EatRestoresOnlyTheCursor(buf: seq<bv8>, noms: seq<Nom>, pos: nat, env: Env)
    requires pos <= |buf|
    ensures EvalEat(buf, noms, pos, env).err == EvalSeq(buf, noms, 0, pos, env, Plain).err
    ensures EvalEat(buf, noms, pos, env).env == EvalSeq(buf, noms, 0, pos, env, Plain).env
    ensures EvalEat(buf, noms, pos, env).err.Some? ==> EvalEat(buf, noms, pos, env).pos == pos
  {
  }

  /** When whose test fails returns the test's error with the cursor back at the entry. */
  lemma WhenFailureRestores(buf: seq<bv8>, test: Nom, noms: seq<Nom>, pos: nat, env: Env)
    requires pos <= |buf|
    requires Eval(buf, test, pos, env).err.Some?
    ensures Eval(buf, When(test, noms), pos, env)
         == Outcome(Eval(buf, test, pos, env).err, pos, Eval(buf, test, pos, env).env)
  {
  }

  /** Optional never fails; when a child fails the cursor goes back to the entry. */
  lemma OptionalNeverFails(buf: seq<bv8>, noms: seq<Nom>, pos: nat, env: Env)
    requires pos <= |buf|
    ensures Eval(buf, Optional(noms), pos, env).err == None
    ensures EvalSeq(buf, noms, 0, pos, env, Plain).err.Some? ==> Eval(buf, Optional(noms), pos, env).pos == pos
    ensures EvalSeq(buf, noms, 0, pos, env, Plain).err.None? ==>
      Eval(buf, Optional(noms), pos, env) == EvalSeq(buf, noms, 0, pos, env, Plain)
  {
  }

  /** Switch stops at an alternative that succeeds: the later ones are not run. */
  lemma SwitchFirstSuccessWins(buf: seq<bv8>, alts: seq<Nom>, pos: nat, env: Env)
    requires pos <= |buf| && |alts| > 0
    requires Eval(buf, alts[0], pos, env).err.None?
    ensures Eval(buf, Switch(alts), pos, env) == Eval(buf, alts[0], pos, env)
  {
  }

  /** Past its first step, the Switch loop over alts is the loop over alts[1..], one index behind. */
  lemma {:induction false} SwitchLoopShifts(buf: seq<bv8>, alts: seq<Nom>, i: nat, start: nat, pos: nat, env: Env, last: Option<Error>)
    requires 1 <= i <= |alts| - 1 && start <= pos <= |buf|
    ensures EvalSwitch(buf, alts, i + 1, start, pos, env, last) == EvalSwitch(buf, alts[1..], i, start, pos, env, last)
    decreases |alts| - i
  {
    if i + 1 < |alts| {
      assert alts[1..][i] == alts[i + 1];
      var at := SeekPosition(buf, pos, start);
      if at.err.None? {
        var o := Eval(buf, alts[i + 1], at.pos, env);
        if o.err.Some? {
          SwitchLoopShifts(buf, alts, i + 1, start, o.pos, o.env, o.err);
        }
      }
    }
  }

  /**
   * When the first alternative fails at a position before the end of input, Switch
   * seeks back and behaves as the Switch of the remaining alternatives started at
   * the entry, with the first alternative's writes to variables kept.
   */
  lemma SwitchFallsThrough(buf: seq<bv8>, alts: seq<Nom>, pos: nat, env: Env)
    requires pos < |buf| && |alts| >= 2
    requires Eval(buf, alts[0], pos, env).err.Some?
    ensures Eval(buf, Switch(alts), pos, env) == Eval(buf, Switch(alts[1..]), pos, Eval(buf, alts[0], pos, env).env)
  {
    var o := Eval(buf, alts[0], pos, env);
    assert Eval(buf, Switch(alts), pos, env) == EvalSwitch(buf, alts, 1, pos, o.pos, o.env, o.err);
    assert alts[1..][0] == alts[1];
    var o1 := Eval(buf, alts[1], pos, o.env);
    assert Eval(buf, Switch(alts[1..]), pos, o.env) == EvalSwitch(buf, alts[1..], 0, pos, pos, o.env, None);
    if o1.err.Some? {
      SwitchLoopShifts(buf, alts, 1, pos, o1.pos, o1.env, o1.err);
    }
  }

  /**
   * At the end of input the seek back to the entry is refused, so Switch returns
   * errPositionOufOfBound after its first failing alternative and never runs the others.
   */
  lemma SwitchAtEndSkipsTheRest(buf: seq<bv8>, alts: seq<Nom>, env: Env)
    requires |alts| >= 2
    requires Eval(buf, alts[0], |buf|, env).err.Some?
    ensures Eval(buf, Switch(alts), |buf|, env)
         == Outcome(Some(PositionOutOfBound), |buf|, Eval(buf, alts[0], |buf|, env).env)
  {
    var o := Eval(buf, alts[0], |buf|, env);
    assert Eval(buf, Switch(alts), |buf|, env) == EvalSwitch(buf, alts, 1, |buf|, o.pos, o.env, o.err);
  }

  /** When every alternative fails the cursor is not restored: Switch(Expect('a')) on "b" ends past the b. */
  lemma SwitchDoesNotRestoreOnFailure()
    ensures Eval([0x62], Switch([Expect(0x61)]), 0, Env(map[], map[], map[], []))
         == Outcome(Some(ExpectationFailed(Literal([0x61]), 0x62, false)), 1, Env(map[], map[], map[], []))
  {
  }

  /** A Switch of one alternative is that alternative. */
  lemma SwitchOfOne(buf: seq<bv8>, a: Nom, pos: nat, env: Env)
    requires pos <= |buf|
    ensures Eval(buf, Switch([a]), pos, env) == Eval(buf, a, pos, env)
  {
    var o := Eval(buf, a, pos, env);
    if o.err.Some? {
      assert EvalSwitch(buf, [a], 1, pos, o.pos, o.env, o.err) == o;
    }
  }

  /**
   * When every alternative fails before the end of input, Switch returns exactly
   * what the last alternative returns, run from the entry position with the
   * variables the earlier alternatives left: its error, and the cursor where it
   * stopped, with no final restore.
   */
  lemma {:induction false} SwitchAllFailIsLast(buf: seq<bv8>, alts: seq<Nom>, pos: nat, env: Env) returns (e: Env)
    requires pos < |buf| && |alts| >= 1
    requires Eval(buf, Switch(alts), pos, env).err.Some?
    ensures Eval(buf, Switch(alts), pos, env) == Eval(buf, alts[|alts| - 1], pos, e)
    decreases |alts|
  {
    if |alts| == 1 {
      assert alts == [alts[0]];
      SwitchOfOne(buf, alts[0], pos, env);
      e := env;
    } else {
      var o := Eval(buf, alts[0], pos, env);
      SwitchFallsThrough(buf, alts, pos, env);
      assert alts[1..][|alts[1..]| - 1] == alts[|alts| - 1];
      e := SwitchAllFailIsLast(buf, alts[1..], pos, o.env);
    }
  }

  /**
   * A tag changes only how a failure is reported: position, variables and success
   * are the same. The index k it reports is the child that failed: the children
   * before it, run from i, all succeed, and noms[k] fails from where they stopped.
   */
  lemma {:induction false} TagOnlyRewordsFailure(buf: seq<bv8>, noms: seq<Nom>, i: nat, pos: nat, env: Env, tag: Tag)
    returns (k: nat)
    requires i <= |noms| && pos <= |buf|
    ensures EvalSeq(buf, noms, i, pos, env, tag).pos == EvalSeq(buf, noms, i, pos, env, Plain).pos
    ensures EvalSeq(buf, noms, i, pos, env, tag).env == EvalSeq(buf, noms, i, pos, env, Plain).env
    ensures EvalSeq(buf, noms, i, pos, env, tag).err.None? <==> EvalSeq(buf, noms, i, pos, env, Plain).err.None?
    ensures EvalSeq(buf, noms, i, pos, env, tag).err.Some? ==>
      && i <= k < |noms|
      && EvalSeq(buf, noms[..k], i, pos, env, Plain).err.None?
      && var pre := EvalSeq(buf, noms[..k], i, pos, env, Plain);
         var child := Eval(buf, noms[k], pre.pos, pre.env);
         && child.err.Some?
         && EvalSeq(buf, noms, i, pos, env, Plain) == child
         && EvalSeq(buf, noms, i, pos, env, tag).err == Some(Fail(tag, child.err.value, k))
    decreases |noms| - i
  {
    k := i;
    if i < |noms| {
      var o := Eval(buf, noms[i], pos, env);
      if o.err.None? {
        k := TagOnlyRewordsFailure(buf, noms, i + 1, o.pos, o.env, tag);
        if EvalSeq(buf, noms, i, pos, env, tag).err.Some? {
          assert noms[..k][i] == noms[i];
          assert EvalSeq(buf, noms[..k], i, pos, env, Plain) == EvalSeq(buf, noms[..k], i + 1, o.pos, o.env, Plain);
        }
      }
    }
  }

  /**
   * The Take of take.go reports a failing child as that child's error extended
   * with the child's index k, the entry position and -1, wrapped with "Take"; it
   * does not restore the cursor.
   */
  lemma TakeWrappedNamesTheChild(buf: seq<bv8>, fn: Callbacks.Convert, noms: seq<Nom>, pos: nat, env: Env)
    returns (k: nat)
    requires pos <= |buf|
    requires EvalSeq(buf, noms, 0, pos, env, Plain).err.Some?
    ensures 0 <= k < |noms| && EvalSeq(buf, noms[..k], 0, pos, env, Plain).err.None?
    ensures var pre := EvalSeq(buf, noms[..k], 0, pos, env, Plain);
      var child := Eval(buf, noms[k], pre.pos, pre.env);
      && child.err.Some?
      && Eval(buf, TakeWrapped(fn, noms), pos, env)
         == Outcome(Some(Wrapped(Extended(child.err.value, k, pos, -1), "Take")), child.pos, child.env)
  {
    k := TagOnlyRewordsFailure(buf, noms, 0, pos, env, TakeCrumb(pos));
  }

  /**
   * When the children of take.go's Take succeed before the end of input, fn is
   * called once with the bytes they consumed, and its error comes back wrapped
   * with "Take".
   */
  lemma TakeWrappedCallsConvertOnce(buf: seq<bv8>, id: nat, f: seq<bv8> -> Option<Error>, noms: seq<Nom>, pos: nat, env: Env)
    requires pos < |buf|
    requires EvalSeq(buf, noms, 0, pos, env, Plain).err.None?
    ensures var o := EvalSeq(buf, noms, 0, pos, env, Plain);
      && Eval(buf, TakeWrapped(Callbacks.ConvertFn(id, f), noms), pos, env).pos == o.pos
      && Eval(buf, TakeWrapped(Callbacks.ConvertFn(id, f), noms), pos, env).env
         == o.env.(calls := o.env.calls + [Converted(id, buf[pos..o.pos])])
      && (f(buf[pos..o.pos]).None? ==> Eval(buf, TakeWrapped(Callbacks.ConvertFn(id, f), noms), pos, env).err.None?)
      && (f(buf[pos..o.pos]).Some? ==> Eval(buf, TakeWrapped(Callbacks.ConvertFn(id, f), noms), pos, env).err
                                       == Some(Wrapped(f(buf[pos..o.pos]).value, "Take")))
  {
    var _ := TagOnlyRewordsFailure(buf, noms, 0, pos, env, TakeCrumb(pos));
  }

  /**
   * take.go's Take whose children succeed at the end of input fails with the
   * ByteSlice refusal wrapped with "Take", without calling fn.
   */
  lemma TakeWrappedAtEndFails(buf: seq<bv8>, fn: Callbacks.Convert, noms: seq<Nom>, env: Env)
    requires EvalSeq(buf, noms, 0, |buf|, env, Plain).err.None?
    ensures Eval(buf, TakeWrapped(fn, noms), |buf|, env)
         == Outcome(Some(Wrapped(PositionOutOfBound, "Take")), |buf|, EvalSeq(buf, noms, 0, |buf|, env, Plain).env)
  {
    var _ := TagOnlyRewordsFailure(buf, noms, 0, |buf|, env, TakeCrumb(|buf|));
  }

  /** Take(DstBytes(dst), ...) stores exactly the bytes its children consumed. */
  lemma TakeDeliversConsumedBytes(buf: seq<bv8>, dst: Name, noms: seq<Nom>, pos: nat, env: Env)
    requires pos < |buf|
    requires EvalSeq(buf, noms, 0, pos, env, Plain).err.None?
    ensures var o := EvalSeq(buf, noms, 0, pos, env, Plain);
      Eval(buf, Take(Callbacks.DstBytes(dst), noms), pos, env)
        == Outcome(None, o.pos, o.env.(slices := o.env.slices[dst := Bytes(buf[pos..o.pos])]))
  {
  }

  /** A caller's Convert is called exactly once, with the consumed bytes, and its error is Take's. */
  lemma TakeCallsConvertOnce(buf: seq<bv8>, id: nat, f: seq<bv8> -> Option<Error>, noms: seq<Nom>, pos: nat, env: Env)
    requires pos < |buf|
    requires EvalSeq(buf, noms, 0, pos, env, Plain).err.None?
    ensures var o := EvalSeq(buf, noms, 0, pos, env, Plain);
      Eval(buf, Take(Callbacks.ConvertFn(id, f), noms), pos, env)
        == Outcome(f(buf[pos..o.pos]), o.pos, o.env.(calls := o.env.calls + [Converted(id, buf[pos..o.pos])]))
  {
  }

  /**
   * A capture that starts at the end of input fails, since ByteSlice refuses a
   * window starting at the end: Take returns errPositionOufOfBound without calling
   * fn, and the Take of vars.go sets the destination to nil.
   */
  lemma CaptureAtEndFails(buf: seq<bv8>, fn: Callbacks.Convert, dst: Name, noms: seq<Nom>, env: Env)
    requires EvalSeq(buf, noms, 0, |buf|, env, Plain).err.None?
    ensures var o := EvalSeq(buf, noms, 0, |buf|, env, Plain);
      && Eval(buf, Take(fn, noms), |buf|, env) == Outcome(Some(PositionOutOfBound), |buf|, o.env)
      && Eval(buf, TakeInto(dst, noms), |buf|, env)
         == Outcome(Some(PositionOutOfBound), |buf|, o.env.(slices := o.env.slices[dst := Nil]))
  {
  }

  /** A child failure leaves the vars.go Take's destination untouched. */
  lemma TakeIntoKeepsDestinationOnChildFailure(buf: seq<bv8>, dst: Name, noms: seq<Nom>, pos: nat, env: Env)
    requires pos <= |buf|
    requires EvalSeq(buf, noms, 0, pos, env, Plain).err.Some?
    ensures Eval(buf, TakeInto(dst, noms), pos, env) == EvalSeq(buf, noms, 0, pos, env, Plain)
  {
  }

  /**
   * RequireLen succeeds iff its children succeed having consumed exactly n bytes;
   * it never restores the cursor.
   */
  lemma RequireLenIsExact(buf: seq<bv8>, n: int, noms: seq<Nom>, pos: nat, env: Env)
    requires pos <= |buf|
    ensures var o := EvalSeq(buf, noms, 0, pos, env, Plain);
      && (Eval(buf, RequireLen(n, noms), pos, env).err.None? <==> o.err.None? && o.pos - pos == n)
      && Eval(buf, RequireLen(n, noms), pos, env).pos == o.pos
      && (o.err.None? && o.pos - pos != n ==>
          Eval(buf, RequireLen(n, noms), pos, env).err == Some(RequirementNotMet(n, o.pos - pos, "invalid length")))
  {
  }

  /** Any consumes the rest of the input; a second Any consumes nothing and still succeeds. */
  lemma AnyTwice(buf: seq<bv8>, pos: nat, env: Env)
    requires pos <= |buf|
    ensures Eval(buf, Any, pos, env) == Outcome(None, |buf|, env)
    ensures Eval(buf, Any, Eval(buf, Any, pos, env).pos, env) == Outcome(None, |buf|, env)
  {
  }

  /** The state and signal noms never move the cursor. */
  lemma SideChannelNomsStayPut(buf: seq<bv8>, n: Nom, pos: nat, env: Env)
    requires pos <= |buf|
    requires n.ChangeState? || n.RequireState? || n.ResetSignals? || n.SetSignal? || n.Signal?
    ensures Eval(buf, n, pos, env).pos == pos
  {
  }
}
