/**
 * rule_test.go as a proof: the bracketed key/value rule over "{NameHere} = VALUE"
 * succeeds, raises the curly signal, leaves the square one down and captures the
 * name and the value verbatim.
 */
module RuleScenario {
  import opened Bynom
  import opened Variables
  import opened Engine
  import Steps
  import Signals

  /** The bytes of "{NameHere} = VALUE". */
  function Pattern(): (buf: seq<bv8>)
    ensures |buf| == 18
  {
    [0x7B, 0x4E, 0x61, 0x6D, 0x65, 0x48, 0x65, 0x72, 0x65, 0x7D, 0x20, 0x3D, 0x20, 0x56, 0x41, 0x4C, 0x55, 0x45]
  }

  /** Spaces and tabs. */
  function Blank(): seq<bv8> {
    [0x20, 0x09]
  }

  /** One bracketed alternative: the opening byte, the name up to the closing byte, the closing byte, the signal. */
  function Bracketed(open: bv8, close: bv8, signal: Name): Nom {
    When(Expect(open), [TakeInto("name", [WhileNot(close)]), Expect(close), SetSignal(signal)])
  }

  /** The rule of rule_test.go. */
  function KeyValueRule(): seq<Nom> {
    [ ResetSignals(["square", "curly"]),
      WhileOneOf(Blank()),
      Switch([Bracketed(0x5B, 0x5D, "square"), Bracketed(0x7B, 0x7D, "curly")]),
      WhileOneOf(Blank()),
      Expect(0x3D),
      WhileOneOf(Blank()),
      TakeInto("value", [Any])
    ]
  }

  /** The variables before the rule runs, and after the steps that write them. */
  function Start(): Env { Env(map[], map[], map[], []) }
  function Reset(): Env { Start().(bools := Signals.Cleared(map[], ["square", "curly"])) }
  function NameTaken(): Env { Reset().(slices := map["name" := Bytes(Pattern()[1..9])]) }
  function CurlyRaised(): Env { NameTaken().(bools := NameTaken().bools["curly" := true]) }
  function ValueTaken(): Env { CurlyRaised().(slices := CurlyRaised().slices["value" := Bytes(Pattern()[13..18])]) }

  /** A child that succeeds hands its position and variables to the next one. */
  lemma Next(buf: seq<bv8>, noms: seq<Nom>, i: nat, pos: nat, env: Env, pos': nat, env': Env)
    requires i < |noms| && pos <= |buf|
    requires Eval(buf, noms[i], pos, env) == Outcome(None, pos', env')
    ensures pos' <= |buf|
    ensures EvalSeq(buf, noms, i, pos, env, Plain) == EvalSeq(buf, noms, i + 1, pos', env', Plain)
  {
  }

  lemma RuleShape()
    ensures |KeyValueRule()| == 7
    ensures KeyValueRule()[0] == ResetSignals(["square", "curly"])
    ensures KeyValueRule()[1] == KeyValueRule()[3] == KeyValueRule()[5] == WhileOneOf(Blank())
    ensures KeyValueRule()[2] == Switch([Bracketed(0x5B, 0x5D, "square"), Bracketed(0x7B, 0x7D, "curly")])
    ensures KeyValueRule()[4] == Expect(0x3D)
    ensures KeyValueRule()[6] == TakeInto("value", [Any])
  {
  }

  lemma BlanksAt(pos: nat, end: nat)
    requires (pos, end) in {(0, 0), (10, 11), (12, 13)}
    ensures Eval(Pattern(), WhileOneOf(Blank()), pos, CurlyRaised()) == Outcome(None, end, CurlyRaised())
    ensures Eval(Pattern(), WhileOneOf(Blank()), pos, Reset()) == Outcome(None, end, Reset())
  {
    Steps.ScanIsTheLongestRun(Pattern(), pos, Steps.OneOf(Blank()), end);
  }

  lemma SquareFails()
    ensures Eval(Pattern(), Bracketed(0x5B, 0x5D, "square"), 0, Reset()).err.Some?
    ensures Eval(Pattern(), Bracketed(0x5B, 0x5D, "square"), 0, Reset()).pos == 0
    ensures Eval(Pattern(), Bracketed(0x5B, 0x5D, "square"), 0, Reset()).env == Reset()
  {
    assert Eval(Pattern(), Expect(0x5B), 0, Reset()).err.Some?;
  }

  lemma NameTakenAt1()
    ensures Eval(Pattern(), TakeInto("name", [WhileNot(0x7D)]), 1, Reset()) == Outcome(None, 9, NameTaken())
  {
    Steps.ScanIsTheLongestRun(Pattern(), 1, Steps.IsNot(0x7D), 9);
    Next(Pattern(), [WhileNot(0x7D)], 0, 1, Reset(), 9, Reset());
  }

  function CurlyBody(): seq<Nom> {
    [TakeInto("name", [WhileNot(0x7D)]), Expect(0x7D), SetSignal("curly")]
  }

  lemma CloseCurlyAt9()
    ensures Eval(Pattern(), Expect(0x7D), 9, NameTaken()) == Outcome(None, 10, NameTaken())
  {
  }

  lemma CurlyBodyTail()
    ensures EvalSeq(Pattern(), CurlyBody(), 2, 10, NameTaken(), Plain) == Outcome(None, 10, CurlyRaised())
  {
    assert CurlyBody()[2] == SetSignal("curly");
    assert Eval(Pattern(), SetSignal("curly"), 10, NameTaken()) == Outcome(None, 10, CurlyRaised());
    Next(Pattern(), CurlyBody(), 2, 10, NameTaken(), 10, CurlyRaised());
    assert EvalSeq(Pattern(), CurlyBody(), 3, 10, CurlyRaised(), Plain) == Outcome(None, 10, CurlyRaised());
  }

  lemma CurlyBodyRuns()
    ensures EvalSeq(Pattern(), CurlyBody(), 0, 1, Reset(), Plain) == Outcome(None, 10, CurlyRaised())
  {
    var buf := Pattern();
    assert CurlyBody()[0] == TakeInto("name", [WhileNot(0x7D)]) && CurlyBody()[1] == Expect(0x7D);
    NameTakenAt1();
    Next(buf, CurlyBody(), 0, 1, Reset(), 9, NameTaken());
    CloseCurlyAt9();
    Next(buf, CurlyBody(), 1, 9, NameTaken(), 10, NameTaken());
    CurlyBodyTail();
  }

  lemma CurlyRuns()
    ensures Eval(Pattern(), Bracketed(0x7B, 0x7D, "curly"), 0, Reset()) == Outcome(None, 10, CurlyRaised())
  {
    assert Eval(Pattern(), Expect(0x7B), 0, Reset()) == Outcome(None, 1, Reset());
    assert Bracketed(0x7B, 0x7D, "curly") == When(Expect(0x7B), CurlyBody());
    CurlyBodyRuns();
  }

  lemma SwitchStep()
    ensures Eval(Pattern(), Switch([Bracketed(0x5B, 0x5D, "square"), Bracketed(0x7B, 0x7D, "curly")]), 0, Reset())
         == Outcome(None, 10, CurlyRaised())
  {
    SquareFails();
    CurlyRuns();
    var alts := [Bracketed(0x5B, 0x5D, "square"), Bracketed(0x7B, 0x7D, "curly")];
    var o := Eval(Pattern(), alts[0], 0, Reset());
    assert Eval(Pattern(), Switch(alts), 0, Reset()) == EvalSwitch(Pattern(), alts, 1, 0, o.pos, o.env, o.err);
  }

  lemma ValueTakenAt13()
    ensures Eval(Pattern(), TakeInto("value", [Any]), 13, CurlyRaised()) == Outcome(None, 18, ValueTaken())
  {
    Next(Pattern(), [Any], 0, 13, CurlyRaised(), 18, CurlyRaised());
  }

  /**
   * Eating the rule over the pattern succeeds at the end of input with the curly
   * signal up, the square one down, the name "NameHere" and the value "VALUE".
   */
  lemma RuleTestScenario()
    ensures var o := EvalEat(Pattern(), KeyValueRule(), 0, Start());
      && o.err == None && o.pos == 18
      && !GetBool(o.env.bools, "square") && GetBool(o.env.bools, "curly")
      && GetSlice(o.env.slices, "name") == Bytes(Pattern()[1..9])
      && GetSlice(o.env.slices, "value") == Bytes(Pattern()[13..18])
  {
    var buf := Pattern();
    var noms := KeyValueRule();
    RuleShape();
    Next(buf, noms, 0, 0, Start(), 0, Reset());
    BlanksAt(0, 0);
    Next(buf, noms, 1, 0, Reset(), 0, Reset());
    SwitchStep();
    Next(buf, noms, 2, 0, Reset(), 10, CurlyRaised());
    BlanksAt(10, 11);
    Next(buf, noms, 3, 10, CurlyRaised(), 11, CurlyRaised());
    assert Eval(buf, Expect(0x3D), 11, CurlyRaised()) == Outcome(None, 12, CurlyRaised());
    Next(buf, noms, 4, 11, CurlyRaised(), 12, CurlyRaised());
    BlanksAt(12, 13);
    Next(buf, noms, 5, 12, CurlyRaised(), 13, CurlyRaised());
    ValueTakenAt13();
    Next(buf, noms, 6, 13, CurlyRaised(), 18, ValueTaken());
    Signals.ClearedPointwise(map[], ["square", "curly"], "square");
  }
}
