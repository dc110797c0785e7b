/**
 * The callbacks a caller hands to the noms: Convert (takes.go), ModifyState and
 * TestState (signal.go, state.go, state_modify.go, state_checks.go) and React
 * (nom/signal.go). The ones the library defines are constructors with their
 * meaning spelled out; a callback the caller writes is a pure function value with
 * an id, and each call to it is appended to the call log.
 */
module Callbacks {
  import opened Bynom
  import opened Variables
  import StateModify
  import StateChecks

  /** A Convert: DstBytes(p) (also into.Bytes), or a caller function. */
  datatype Convert =
    | DstBytes(dst: Name)
    | ConvertFn(id: nat, f: seq<bv8> -> Option<Error>)

  /** A ModifyState: the three of state_modify.go, or a caller function. */
  datatype Mutator =
    | ReplaceState(dsts: seq<Name>)
    | SetStateBits(dsts: seq<Name>)
    | ResetStateBits(dsts: seq<Name>)
    | MutatorFn(id: nat, f: bv64 -> Option<Error>)

  /** A TestState: the two of state_checks.go, or a caller function. */
  datatype Tester =
    | StateHasAllBits(dsts: seq<Name>)
    | StateHasAnyBits(dsts: seq<Name>)
    | TesterFn(id: nat, f: bv64 -> bool)

  /** A React: ReflectBool(p), or a caller function. */
  datatype React =
    | ReflectBool(dst: Name)
    | ReactFn(id: nat, f: bool -> Option<Error>)

  /** The error a callback (or a run of them) returns and the variables afterwards. */
  datatype Effect = Effect(err: Option<Error>, env: Env)

  /** The verdict of a test and the variables afterwards. */
  datatype Verdict = Verdict(ok: bool, env: Env)

  /** Calling a Convert with the captured bytes. */
  function ApplyConvert(c: Convert, data: seq<bv8>, env: Env): Effect {
    match c
    case DstBytes(dst) => Effect(None, env.(slices := env.slices[dst := Bytes(data)]))
    case ConvertFn(id, f) => Effect(f(data), env.(calls := env.calls + [Converted(id, data)]))
  }

  /** Calling a ModifyState with v. */
  function ApplyMutator(m: Mutator, v: bv64, env: Env): Effect {
    match m
    case ReplaceState(dsts) => Effect(None, env.(states := StateModify.Modified(env.states, dsts, StateModify.Replace, v)))
    case SetStateBits(dsts) => Effect(None, env.(states := StateModify.Modified(env.states, dsts, StateModify.SetBits, v)))
    case ResetStateBits(dsts) => Effect(None, env.(states := StateModify.Modified(env.states, dsts, StateModify.ResetBits, v)))
    case MutatorFn(id, f) => Effect(f(v), env.(calls := env.calls + [Modified(id, v)]))
  }

  /** What a TestState answers for v, given the state variables. */
  predicate Passes(t: Tester, v: bv64, states: map<Name, bv64>) {
    match t
    case StateHasAllBits(dsts) => StateChecks.StateHasAllBits(states, dsts, v)
    case StateHasAnyBits(dsts) => StateChecks.StateHasAnyBits(states, dsts, v)
    case TesterFn(_, f) => f(v)
  }

  /** Calling a TestState with v. */
  function ApplyTester(t: Tester, v: bv64, env: Env): Verdict {
    match t
    case TesterFn(id, f) => Verdict(f(v), env.(calls := env.calls + [Tested(id, v)]))
    case _ => Verdict(Passes(t, v, env.states), env)
  }

  /** Calling a React with the signal v. */
  function ApplyReact(r: React, v: bool, env: Env): Effect {
    match r
    case ReflectBool(dst) => Effect(None, env.(bools := env.bools[dst := v]))
    case ReactFn(id, f) => Effect(f(v), env.(calls := env.calls + [Reacted(id, v)]))
  }

  /** The ChangeState loop from index i: call each modifier with v, stop at the first error. */
  function ChangeAll(fns: seq<Mutator>, i: nat, v: bv64, env: Env): Effect
    requires i <= |fns|
    decreases |fns| - i
  {
    if i == |fns| then Effect(None, env)
    else
      var e := ApplyMutator(fns[i], v, env);
      if e.err.Some? then e else ChangeAll(fns, i + 1, v, e.env)
  }

  /** The RequireState loop from index i: ErrStateTestFailed{v} at the first test that fails. */
  function TestAll(tests: seq<Tester>, i: nat, v: bv64, env: Env): Effect
    requires i <= |tests|
    decreases |tests| - i
  {
    if i == |tests| then Effect(None, env)
    else
      var t := ApplyTester(tests[i], v, env);
      if !t.ok then Effect(Some(StateTestFailed(v)), t.env) else TestAll(tests, i + 1, v, t.env)
  }

  /** The Signal loop from index i: call each React with v, stop at the first error. */
  function ReactAll(reacts: seq<React>, i: nat, v: bool, env: Env): Effect
    requires i <= |reacts|
    decreases |reacts| - i
  {
    if i == |reacts| then Effect(None, env)
    else
      var e := ApplyReact(reacts[i], v, env);
      if e.err.Some? then e else ReactAll(reacts, i + 1, v, e.env)
  }

  /** Whether the modifier fails when called with v (only a caller function can). */
  predicate MutatorFails(m: Mutator, v: bv64) {
    m.MutatorFn? && m.f(v).Some?
  }

  /** The index of the first modifier from i that fails on v, or |fns| when none does. */
  function FirstFailing(fns: seq<Mutator>, i: nat, v: bv64): (k: nat)
    requires i <= |fns|
    ensures i <= k <= |fns|
    ensures forall j :: i <= j < k ==> !MutatorFails(fns[j], v)
    ensures k < |fns| ==> MutatorFails(fns[k], v)
    decreases |fns| - i
  {
    if i == |fns| || MutatorFails(fns[i], v) then i else FirstFailing(fns, i + 1, v)
  }

  /** The log entries the caller modifiers among fns[i..n] add when called with v. */
  function MutatorCalls(fns: seq<Mutator>, i: nat, n: nat, v: bv64): seq<Call>
    requires i <= n <= |fns|
    decreases n - i
  {
    if i == n then []
    else (if fns[i].MutatorFn? then [Modified(fns[i].id, v)] else []) + MutatorCalls(fns, i + 1, n, v)
  }

  /** Where the ChangeState loop stops: one past the first failing modifier, or the end. */
  function StopsAfter(fns: seq<Mutator>, i: nat, v: bv64): (n: nat)
    requires i <= |fns|
    ensures i <= n <= |fns|
  {
    var k := FirstFailing(fns, i, v);
    if k < |fns| then k + 1 else k
  }

  /**
   * ChangeState calls the modifiers in order up to and including the first one that
   * fails, and no later one: the error is that modifier's (nil when none fails), the
   * log grows by exactly the caller functions among those called, and no signal or
   * slice variable is written.
   */
  lemma {:induction false} ChangeAllStopsAtFirstError(fns: seq<Mutator>, i: nat, v: bv64, env: Env)
    requires i <= |fns|
    ensures ChangeAll(fns, i, v, env).err
         == (if FirstFailing(fns, i, v) < |fns| then fns[FirstFailing(fns, i, v)].f(v) else None)
    ensures ChangeAll(fns, i, v, env).env.calls == env.calls + MutatorCalls(fns, i, StopsAfter(fns, i, v), v)
    ensures ChangeAll(fns, i, v, env).env.bools == env.bools
    ensures ChangeAll(fns, i, v, env).env.slices == env.slices
    decreases |fns| - i
  {
    if i == |fns| {
      return;
    }
    var e := ApplyMutator(fns[i], v, env);
    var head := if fns[i].MutatorFn? then [Modified(fns[i].id, v)] else [];
    assert e.env.calls == env.calls + head;
    if MutatorFails(fns[i], v) {
      assert StopsAfter(fns, i, v) == i + 1;
      assert MutatorCalls(fns, i, i + 1, v) == head + [];
    } else {
      assert e.err == None;
      ChangeAllStopsAtFirstError(fns, i + 1, v, e.env);
      assert FirstFailing(fns, i, v) == FirstFailing(fns, i + 1, v);
      assert StopsAfter(fns, i, v) == StopsAfter(fns, i + 1, v);
      assert MutatorCalls(fns, i, StopsAfter(fns, i, v), v) == head + MutatorCalls(fns, i + 1, StopsAfter(fns, i, v), v);
    }
  }

  /**
   * RequireState succeeds iff every test passes on the state variables, and
   * otherwise fails with ErrStateTestFailed{v}; it writes no variable.
   */
  lemma {:induction false} TestAllIff(tests: seq<Tester>, i: nat, v: bv64, env: Env)
    requires i <= |tests|
    ensures TestAll(tests, i, v, env).err.None? <==> forall j :: i <= j < |tests| ==> Passes(tests[j], v, env.states)
    ensures TestAll(tests, i, v, env).err.Some? ==> TestAll(tests, i, v, env).err == Some(StateTestFailed(v))
    ensures TestAll(tests, i, v, env).env == env.(calls := TestAll(tests, i, v, env).env.calls)
    decreases |tests| - i
  {
    if i < |tests| {
      var t := ApplyTester(tests[i], v, env);
      if t.ok {
        TestAllIff(tests, i + 1, v, t.env);
      }
    }
  }

  /** Signal with only ReflectBool reactions never fails and leaves every destination holding v. */
  lemma {:induction false} ReflectAllSetsEach(reacts: seq<React>, i: nat, v: bool, env: Env)
    requires i <= |reacts|
    requires forall j :: i <= j < |reacts| ==> reacts[j].ReflectBool?
    ensures ReactAll(reacts, i, v, env).err == None
    ensures forall j :: i <= j < |reacts| ==> GetBool(ReactAll(reacts, i, v, env).env.bools, reacts[j].dst) == v
    ensures ReactAll(reacts, i, v, env).env.calls == env.calls
    decreases |reacts| - i
  {
    if i < |reacts| {
      var e := ApplyReact(reacts[i], v, env);
      ReflectAllSetsEach(reacts, i + 1, v, e.env);
      ReflectKeepsOthers(reacts, i + 1, v, e.env, reacts[i].dst);
    }
  }

  /** ReflectBool reactions write v only into their own destinations. */
  lemma {:induction false} ReflectKeepsOthers(reacts: seq<React>, i: nat, v: bool, env: Env, x: Name)
    requires i <= |reacts|
    requires forall j :: i <= j < |reacts| ==> reacts[j].ReflectBool?
    ensures GetBool(env.bools, x) == v ==> GetBool(ReactAll(reacts, i, v, env).env.bools, x) == v
    ensures (forall j :: i <= j < |reacts| ==> reacts[j].dst != x) ==>
      GetBool(ReactAll(reacts, i, v, env).env.bools, x) == GetBool(env.bools, x)
    decreases |reacts| - i
  {
    if i < |reacts| {
      var e := ApplyReact(reacts[i], v, env);
      ReflectKeepsOthers(reacts, i + 1, v, e.env, x);
    }
  }

  /** Calling a Convert on the store. */
  method DoConvert(st: Store, c: Convert, data: seq<bv8>) returns (err: Option<Error>)
    modifies st
    ensures Effect(err, st.Snapshot()) == ApplyConvert(c, data, old(st.Snapshot()))
  {
    match c
    case DstBytes(dst) =>
      st.slices := st.slices[dst := Bytes(data)];
      return None;
    case ConvertFn(id, f) =>
      st.calls := st.calls + [Converted(id, data)];
      return f(data);
  }

  /** Calling a ModifyState on the store. */
  method DoMutator(st: Store, m: Mutator, v: bv64) returns (err: Option<Error>)
    modifies st
    ensures Effect(err, st.Snapshot()) == ApplyMutator(m, v, old(st.Snapshot()))
  {
    match m
    case ReplaceState(dsts) => err := StateModify.ReplaceState(st, dsts, v);
    case SetStateBits(dsts) => err := StateModify.SetStateBits(st, dsts, v);
    case ResetStateBits(dsts) => err := StateModify.ResetStateBits(st, dsts, v);
    case MutatorFn(id, f) =>
      st.calls := st.calls + [Modified(id, v)];
      return f(v);
  }

  /** Calling a TestState on the store. */
  method DoTester(st: Store, t: Tester, v: bv64) returns (ok: bool)
    modifies st
    ensures Verdict(ok, st.Snapshot()) == ApplyTester(t, v, old(st.Snapshot()))
  {
    match t
    case StateHasAllBits(dsts) =>
      ok := StateChecks.StateHasAllBits(st.states, dsts, v);
    case StateHasAnyBits(dsts) =>
      ok := StateChecks.StateHasAnyBits(st.states, dsts, v);
    case TesterFn(id, f) =>
      st.calls := st.calls + [Tested(id, v)];
      ok := f(v);
  }

  /** Calling a React on the store. */
  method DoReact(st: Store, r: React, v: bool) returns (err: Option<Error>)
    modifies st
    ensures Effect(err, st.Snapshot()) == ApplyReact(r, v, old(st.Snapshot()))
  {
    match r
    case ReflectBool(dst) =>
      st.bools := st.bools[dst := v];
      return None;
    case ReactFn(id, f) =>
      st.calls := st.calls + [Reacted(id, v)];
      return f(v);
  }
}
