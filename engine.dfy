/**
 * The combinator engine over a BytePlate. A Nom is a value of the datatype below,
 * one constructor per nom constructor of the library; Eval states what running it
 * does to (position, variables) and returns its error, and Run, the imperative
 * interpreter, is proved to do exactly that.
 *
 * Where two generations of the library give one name to different noms, the
 * constructors are told apart: While/WhileNot are the zero-or-more quantifiers of
 * noms.go and WhileSome/WhileNotSome the at-least-one ones of while.go; Take is the
 * Convert-taking one of takes.go, TakeWrapped the breadcrumb-wrapping one of
 * take.go, TakeInto the one of vars.go that writes into a []byte variable.
 */
module Engine {
  import opened Bynom
  import opened BytePlates
  import opened Variables
  import Steps
  import Callbacks
  import Signals
  import Noms
  import Whiles
  import SignalNoms
  import NomSignal

  datatype Nom =
    // noms.go
    | Expect(r: bv8)
    | ExpectOneOf(members: seq<bv8>)
    | ExpectNot(r: bv8)
    | ExpectNotOneOf(members: seq<bv8>)
    | While(r: bv8)
    | WhileOneOf(members: seq<bv8>)
    | WhileNot(r: bv8)
    | WhileNotOneOf(members: seq<bv8>)
    | Any
    // while.go
    | WhileSome(r: bv8)
    | WhileInRange(range: Range)
    | WhileNotSome(r: bv8)
    | WhileNotInRange(range: Range)
    // flow.go
    | Switch(alts: seq<Nom>)
    | When(test: Nom, noms: seq<Nom>)
    | Optional(noms: seq<Nom>)
    // takes.go, take.go, vars.go
    | Take(fn: Callbacks.Convert, noms: seq<Nom>)
    | TakeWrapped(fn: Callbacks.Convert, noms: seq<Nom>)
    | TakeInto(dst: Name, noms: seq<Nom>)
    | TakeFunc(fn: Callbacks.Convert, noms: seq<Nom>)
    // check_length.go
    | RequireLen(n: int, noms: seq<Nom>)
    // signal.go, signals.go, nom/signal.go
    | ChangeState(v: bv64, fns: seq<Callbacks.Mutator>)
    | RequireState(v: bv64, tests: seq<Callbacks.Tester>)
    | ResetSignals(dsts: seq<Name>)
    | SetSignal(dst: Name)
    | Signal(flag: bool, reacts: seq<Callbacks.React>)

  /** What running a nom leaves behind: its error, the read position and the variables. */
  datatype Outcome = Outcome(err: Option<Error>, pos: nat, env: Env)

  /** How a loop over children reports the failure of child i: as is, or as take.go wraps it. */
  datatype Tag = Plain | TakeCrumb(start: int)

  function Fail(tag: Tag, e: Error, i: nat): Error {
    match tag
    case Plain => e
    case TakeCrumb(start) => Wrapped(Extended(e, i, start, -1), "Take")
  }

  function Lift(m: Moved, env: Env): Outcome {
    Outcome(m.err, m.pos, env)
  }

  /**
   * Running n on buf from pos. Every nom leaves the position within
   * [pos, len(buf)]: the quantifiers only go forward and every seek goes back to a
   * position captured when the nom started.
   */
  function Eval(buf: seq<bv8>, n: Nom, pos: nat, env: Env): (o: Outcome)
    requires pos <= |buf|
    ensures pos <= o.pos <= |buf|
    decreases n, 2
  {
    match n
    case Expect(r) => Lift(Steps.Expect(buf, pos, r), env)
    case ExpectOneOf(members) => Lift(Steps.ExpectOneOf(buf, pos, members), env)
    case ExpectNot(r) => Lift(Steps.ExpectNot(buf, pos, r), env)
    case ExpectNotOneOf(members) => Lift(Steps.ExpectNotOneOf(buf, pos, members), env)
    case While(r) => Outcome(None, Steps.Scan(buf, pos, Steps.Is(r)), env)
    case WhileOneOf(members) => Outcome(None, Steps.Scan(buf, pos, Steps.OneOf(members)), env)
    case WhileNot(r) => Outcome(None, Steps.Scan(buf, pos, Steps.IsNot(r)), env)
    case WhileNotOneOf(members) => Outcome(None, Steps.Scan(buf, pos, Steps.NotOneOf(members)), env)
    case Any => Outcome(None, |buf|, env)
    case WhileSome(r) => Lift(Steps.AtLeastOne(buf, pos, Steps.Is(r), Steps.SingleOf(r), false), env)
    case WhileInRange(rng) => Lift(Steps.AtLeastOne(buf, pos, Steps.InRange(rng), Ranged(rng), false), env)
    case WhileNotSome(r) => Lift(Steps.AtLeastOne(buf, pos, Steps.IsNot(r), Steps.SingleOf(r), true), env)
    case WhileNotInRange(rng) => Lift(Steps.AtLeastOne(buf, pos, Steps.NotInRange(rng), Ranged(rng), true), env)
    case Switch(alts) => EvalSwitch(buf, alts, 0, pos, pos, env, None)
    case When(test, noms) =>
      var t := Eval(buf, test, pos, env);
      if t.err.Some? then Outcome(t.err, SeekPosition(buf, t.pos, pos).pos, t.env)
      else EvalSeq(buf, noms, 0, t.pos, t.env, Plain)
    case Optional(noms) =>
      var o := EvalSeq(buf, noms, 0, pos, env, Plain);
      if o.err.Some? then Outcome(None, SeekPosition(buf, o.pos, pos).pos, o.env) else o
    case Take(fn, noms) => EvalTake(buf, fn, noms, pos, env)
    case TakeWrapped(fn, noms) =>
      var o := EvalSeq(buf, noms, 0, pos, env, TakeCrumb(pos));
      if o.err.Some? then o
      else
        var s := ByteSlice(buf, pos, o.pos);
        if s.err.Some? then Outcome(Some(Wrapped(s.err.value, "Take")), o.pos, o.env)
        else
          var c := Callbacks.ApplyConvert(fn, s.p.data, o.env);
          if c.err.Some? then Outcome(Some(Wrapped(c.err.value, "Take")), o.pos, c.env)
          else Outcome(None, o.pos, c.env)
    case TakeInto(dst, noms) =>
      var o := EvalSeq(buf, noms, 0, pos, env, Plain);
      if o.err.Some? then o
      else
        var s := ByteSlice(buf, pos, o.pos);
        Outcome(s.err, o.pos, o.env.(slices := o.env.slices[dst := s.p]))
    case TakeFunc(fn, noms) => EvalTake(buf, fn, noms, pos, env)
    case RequireLen(want, noms) =>
      var o := EvalSeq(buf, noms, 0, pos, env, Plain);
      if o.err.Some? then o
      else if o.pos - pos != want then
        Outcome(Some(RequirementNotMet(want, o.pos - pos, "invalid length")), o.pos, o.env)
      else o
    case ChangeState(v, fns) =>
      var e := Callbacks.ChangeAll(fns, 0, v, env);
      Outcome(e.err, pos, e.env)
    case RequireState(v, tests) =>
      var e := Callbacks.TestAll(tests, 0, v, env);
      Outcome(e.err, pos, e.env)
    case ResetSignals(dsts) => Outcome(None, pos, env.(bools := Signals.Cleared(env.bools, dsts)))
    case SetSignal(dst) => Outcome(None, pos, env.(bools := env.bools[dst := true]))
    case Signal(flag, reacts) =>
      var e := Callbacks.ReactAll(reacts, 0, flag, env);
      Outcome(e.err, pos, e.env)
  }

  /**
   * The Take of takes.go (and TakeFunc of vars.go): run the children, then hand
   * the bytes they consumed to fn and return its error. Failures are returned as is.
   */
  function EvalTake(buf: seq<bv8>, fn: Callbacks.Convert, noms: seq<Nom>, pos: nat, env: Env): (o: Outcome)
    requires pos <= |buf|
    ensures pos <= o.pos <= |buf|
    decreases noms, |noms| + 1
  {
    var o := EvalSeq(buf, noms, 0, pos, env, Plain);
    if o.err.Some? then o
    else
      var s := ByteSlice(buf, pos, o.pos);
      if s.err.Some? then Outcome(s.err, o.pos, o.env)
      else
        var c := Callbacks.ApplyConvert(fn, s.p.data, o.env);
        Outcome(c.err, o.pos, c.env)
  }

  /** The children from index i in order, stopping at the first failure, which tag reports. */
  function EvalSeq(buf: seq<bv8>, noms: seq<Nom>, i: nat, pos: nat, env: Env, tag: Tag): (o: Outcome)
    requires i <= |noms| && pos <= |buf|
    ensures pos <= o.pos <= |buf|
    decreases noms, |noms| - i
  {
    if i == |noms| then Outcome(None, pos, env)
    else
      var o := Eval(buf, noms[i], pos, env);
      if o.err.Some? then Outcome(Some(Fail(tag, o.err.value, i)), o.pos, o.env)
      else EvalSeq(buf, noms, i + 1, o.pos, o.env, tag)
  }

  /**
   * The Switch loop from alternative i, last being the error of the alternative
   * before it. Every alternative after the first starts with a seek back to start;
   * a failed seek ends the loop with that error. The first alternative that
   * succeeds ends it with nil; when all fail the last error is returned where the
   * last alternative left the cursor.
   */
  function EvalSwitch(buf: seq<bv8>, alts: seq<Nom>, i: nat, start: nat, pos: nat, env: Env, last: Option<Error>): (o: Outcome)
    requires i <= |alts| && start <= pos <= |buf|
    requires i == 0 ==> pos == start
    ensures start <= o.pos <= |buf|
    decreases alts, |alts| - i
  {
    if i == |alts| then Outcome(last, pos, env)
    else
      var at := if i > 0 then SeekPosition(buf, pos, start) else Moved(None, pos);
      if at.err.Some? then Outcome(at.err, at.pos, env)
      else
        var o := Eval(buf, alts[i], at.pos, env);
        if o.err.None? then o else EvalSwitch(buf, alts, i + 1, start, o.pos, o.env, o.err)
  }

  /**
   * Bite.Eat and Rule.Eat: run the noms in order; on the first failure seek back to
   * the entry position (the seek's own error is dropped) and return the failure.
   */
  function EvalEat(buf: seq<bv8>, noms: seq<Nom>, pos: nat, env: Env): (o: Outcome)
    requires pos <= |buf|
    ensures o.err.Some? ==> o.pos == pos
    ensures o.err.None? ==> o == EvalSeq(buf, noms, 0, pos, env, Plain)
  {
    var o := EvalSeq(buf, noms, 0, pos, env, Plain);
    if o.err.Some? then Outcome(o.err, SeekPosition(buf, o.pos, pos).pos, o.env) else o
  }

  /** Running a nom on the plate and the variables. */
  method Run(p: BytePlate, st: Store, n: Nom) returns (err: Option<Error>)
    requires p.Valid()
    modifies p, st
    ensures p.Valid()
    ensures Outcome(err, p.pos, st.Snapshot()) == Eval(p.buf, n, old(p.pos), old(st.Snapshot()))
    decreases n, 2
  {
    match n
    case Expect(r) => err := Noms.Expect(p, r);
    case ExpectOneOf(members) => err := Noms.ExpectOneOf(p, members);
    case ExpectNot(r) => err := Noms.ExpectNot(p, r);
    case ExpectNotOneOf(members) => err := Noms.ExpectNotOneOf(p, members);
    case While(r) => err := Noms.While(p, r);
    case WhileOneOf(members) => err := Noms.WhileOneOf(p, members);
    case WhileNot(r) => err := Noms.WhileNot(p, r);
    case WhileNotOneOf(members) => err := Noms.WhileNotOneOf(p, members);
    case Any => err := Noms.Any(p);
    case WhileSome(r) => err := Whiles.While(p, r);
    case WhileInRange(rng) => err := Whiles.WhileInRange(p, rng);
    case WhileNotSome(r) => err := Whiles.WhileNot(p, r);
    case WhileNotInRange(rng) => err := Whiles.WhileNotInRange(p, rng);
    case Switch(_) => err := RunSwitch(p, st, n);
    case When(_, _) => err := RunWhen(p, st, n);
    case Optional(_) => err := RunOptional(p, st, n);
    case Take(_, _) => err := RunTake(p, st, n);
    case TakeWrapped(_, _) => err := RunTakeWrapped(p, st, n);
    case TakeInto(_, _) => err := RunTakeInto(p, st, n);
    case TakeFunc(_, _) => err := RunTake(p, st, n);
    case RequireLen(_, _) => err := RunRequireLen(p, st, n);
    case ChangeState(v, fns) => err := SignalNoms.ChangeState(st, v, fns);
    case RequireState(v, tests) => err := SignalNoms.RequireState(st, v, tests);
    case ResetSignals(dsts) => err := Signals.ResetSignals(st, dsts);
    case SetSignal(dst) => err := Signals.SetSignal(st, dst);
    case Signal(flag, reacts) => err := NomSignal.Signal(st, flag, reacts);
  }

  /** Switch(noms...) of flow.go. */
  method RunSwitch(p: BytePlate, st: Store, n: Nom) returns (err: Option<Error>)
    requires n.Switch? && p.Valid()
    modifies p, st
    ensures p.Valid()
    ensures Outcome(err, p.pos, st.Snapshot()) == Eval(p.buf, n, old(p.pos), old(st.Snapshot()))
    decreases n, 1
  {
    var start, e := p.TellPosition();
    if e.Some? {
      return e;
    }
    err := None;
    var i := 0;
    while i < |n.alts|
      invariant 0 <= i <= |n.alts|
      invariant p.Valid() && start <= p.pos && (i == 0 ==> p.pos == start)
      invariant Eval(p.buf, n, old(p.pos), old(st.Snapshot()))
             == EvalSwitch(p.buf, n.alts, i, start, p.pos, st.Snapshot(), err)
    {
      if i > 0 {
        err := p.SeekPosition(start);
        if err.Some? {
          break;
        }
      }
      err := Run(p, st, n.alts[i]);
      if err.None? {
        break;
      }
      i := i + 1;
    }
  }

  /** When(test, noms...) of flow.go. */
  method RunWhen(p: BytePlate, st: Store, n: Nom) returns (err: Option<Error>)
    requires n.When? && p.Valid()
    modifies p, st
    ensures p.Valid()
    ensures Outcome(err, p.pos, st.Snapshot()) == Eval(p.buf, n, old(p.pos), old(st.Snapshot()))
    decreases n, 1
  {
    var start, e := p.TellPosition();
    if e.Some? {
      return e;
    }
    err := Run(p, st, n.test);
    if err.Some? {
      var _ := p.SeekPosition(start);
      return;
    }
    for i := 0 to |n.noms|
      invariant p.Valid() && err == None
      invariant Eval(p.buf, n, old(p.pos), old(st.Snapshot()))
             == EvalSeq(p.buf, n.noms, i, p.pos, st.Snapshot(), Plain)
    {
      err := Run(p, st, n.noms[i]);
      if err.Some? {
        break;
      }
    }
  }

  /** Optional(noms...) of flow.go. */
  method RunOptional(p: BytePlate, st: Store, n: Nom) returns (err: Option<Error>)
    requires n.Optional? && p.Valid()
    modifies p, st
    ensures p.Valid()
    ensures Outcome(err, p.pos, st.Snapshot()) == Eval(p.buf, n, old(p.pos), old(st.Snapshot()))
    decreases n, 1
  {
    var start, e := p.TellPosition();
    if e.Some? {
      return e;
    }
    ghost var o := EvalSeq(p.buf, n.noms, 0, p.pos, st.Snapshot(), Plain);
    for i := 0 to |n.noms|
      invariant p.Valid()
      invariant o == EvalSeq(p.buf, n.noms, i, p.pos, st.Snapshot(), Plain)
    {
      err := Run(p, st, n.noms[i]);
      if err.Some? {
        var _ := p.SeekPosition(start);
        return None;
      }
    }
    return None;
  }

  /** Take(fn, noms...) of takes.go, and TakeFunc(fn, noms...) of vars.go. */
  method RunTake(p: BytePlate, st: Store, n: Nom) returns (err: Option<Error>)
    requires (n.Take? || n.TakeFunc?) && p.Valid()
    modifies p, st
    ensures p.Valid()
    ensures Outcome(err, p.pos, st.Snapshot()) == Eval(p.buf, n, old(p.pos), old(st.Snapshot()))
    decreases n, 1
  {
    var start, e := p.TellPosition();
    if e.Some? {
      return e;
    }
    ghost var o := EvalSeq(p.buf, n.noms, 0, p.pos, st.Snapshot(), Plain);
    for i := 0 to |n.noms|
      invariant p.Valid()
      invariant o == EvalSeq(p.buf, n.noms, i, p.pos, st.Snapshot(), Plain)
    {
      err := Run(p, st, n.noms[i]);
      if err.Some? {
        return;
      }
    }
    var end, e' := p.TellPosition();
    if e'.Some? {
      return e';
    }
    var s;
    s, err := p.ByteSlice(start, end);
    if err.Some? {
      return;
    }
    err := Callbacks.DoConvert(st, n.fn, s.data);
  }

  /** Take(fn, noms...) of take.go, which wraps every failure with the breadcrumb "Take". */
  method RunTakeWrapped(p: BytePlate, st: Store, n: Nom) returns (err: Option<Error>)
    requires n.TakeWrapped? && p.Valid()
    modifies p, st
    ensures p.Valid()
    ensures Outcome(err, p.pos, st.Snapshot()) == Eval(p.buf, n, old(p.pos), old(st.Snapshot()))
    decreases n, 1
  {
    var start, e := p.TellPosition();
    match e {
      case Some(cause) => return Some(Wrapped(cause, "Take"));
      case None =>
    }
    ghost var o := EvalSeq(p.buf, n.noms, 0, p.pos, st.Snapshot(), TakeCrumb(start));
    for i := 0 to |n.noms|
      invariant p.Valid()
      invariant o == EvalSeq(p.buf, n.noms, i, p.pos, st.Snapshot(), TakeCrumb(start))
    {
      err := Run(p, st, n.noms[i]);
      if err.Some? {
        return Some(Wrapped(Extended(err.value, i, start, -1), "Take"));
      }
    }
    var end, e' := p.TellPosition();
    match e' {
      case Some(cause) => return Some(Wrapped(cause, "Take"));
      case None =>
    }
    var s;
    s, err := p.ByteSlice(start, end);
    if err.Some? {
      return Some(Wrapped(err.value, "Take"));
    }
    err := Callbacks.DoConvert(st, n.fn, s.data);
    if err.Some? {
      return Some(Wrapped(err.value, "Take"));
    }
    return;
  }

  /** Take(dst, noms...) of vars.go: *dst, err = ByteSlice(start, end) once the children succeed. */
  method RunTakeInto(p: BytePlate, st: Store, n: Nom) returns (err: Option<Error>)
    requires n.TakeInto? && p.Valid()
    modifies p, st
    ensures p.Valid()
    ensures Outcome(err, p.pos, st.Snapshot()) == Eval(p.buf, n, old(p.pos), old(st.Snapshot()))
    decreases n, 1
  {
    var start, e := p.TellPosition();
    if e.Some? {
      return e;
    }
    ghost var o := EvalSeq(p.buf, n.noms, 0, p.pos, st.Snapshot(), Plain);
    for i := 0 to |n.noms|
      invariant p.Valid()
      invariant o == EvalSeq(p.buf, n.noms, i, p.pos, st.Snapshot(), Plain)
    {
      err := Run(p, st, n.noms[i]);
      if err.Some? {
        return;
      }
    }
    var end, e' := p.TellPosition();
    if e'.Some? {
      return e';
    }
    var s;
    s, err := p.ByteSlice(start, end);
    st.slices := st.slices[n.dst := s];
  }

  /** RequireLen(n, noms...) of check_length.go. */
  method RunRequireLen(p: BytePlate, st: Store, n: Nom) returns (err: Option<Error>)
    requires n.RequireLen? && p.Valid()
    modifies p, st
    ensures p.Valid()
    ensures Outcome(err, p.pos, st.Snapshot()) == Eval(p.buf, n, old(p.pos), old(st.Snapshot()))
    decreases n, 1
  {
    var start, e := p.TellPosition();
    if e.Some? {
      return e;
    }
    ghost var o := EvalSeq(p.buf, n.noms, 0, p.pos, st.Snapshot(), Plain);
    for i := 0 to |n.noms|
      invariant p.Valid()
      invariant o == EvalSeq(p.buf, n.noms, i, p.pos, st.Snapshot(), Plain)
    {
      err := Run(p, st, n.noms[i]);
      if err.Some? {
        return;
      }
    }
    var end, e' := p.TellPosition();
    if e'.Some? {
      return e';
    }
    var l := end - start;
    if l != n.n {
      return Some(RequirementNotMet(n.n, l, "invalid length"));
    }
    return None;
  }
}
