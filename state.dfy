/**
 * state.go: ChangeState and RequireState of the context-taking generation. They
 * never touch the plate, so they do not take one here.
 */
module StateNoms {
  import opened Bynom
  import opened Variables
  import opened Callbacks

  /** ChangeState(v, fns...): call each modifier with v in order, stopping at the first error. */
  method ChangeState(st: Store, v: bv64, fns: seq<Mutator>) returns (err: Option<Error>)
    modifies st
    ensures Effect(err, st.Snapshot()) == ChangeAll(fns, 0, v, old(st.Snapshot()))
  {
    err := None;
    for i := 0 to |fns|
      invariant err == None
      invariant ChangeAll(fns, 0, v, old(st.Snapshot())) == ChangeAll(fns, i, v, st.Snapshot())
    {
      err := DoMutator(st, fns[i], v);
      if err.Some? {
        break;
      }
    }
  }

  /** RequireState(v, fns...): ErrStateTestFailed{v} at the first test that fails, else nil. */
  method RequireState(st: Store, v: bv64, tests: seq<Tester>) returns (err: Option<Error>)
    modifies st
    ensures Effect(err, st.Snapshot()) == TestAll(tests, 0, v, old(st.Snapshot()))
  {
    for i := 0 to |tests|
      invariant TestAll(tests, 0, v, old(st.Snapshot())) == TestAll(tests, i, v, st.Snapshot())
    {
      var ok := DoTester(st, tests[i], v);
      if !ok {
        return Some(StateTestFailed(v));
      }
    }
    return None;
  }
}
