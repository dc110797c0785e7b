# bynom in Dafny

bynom is a byte-level parser-combinator library. A parser is a *nom*: a function
that reads bytes from a *plate* and returns an error or nothing. A plate is a
seekable cursor over an in-memory byte sequence. Noms are combined into larger
noms:

- single-byte expectations;
- zero-or-more and at-least-one quantifiers over bytes, byte sets and ranges;
- `Switch`, `When` and `Optional`;
- capture noms (`Take`) that hand the consumed bytes to a caller;
- `RequireLen`;
- noms that only touch caller variables: signals (bools) and states (integer bit masks).

A `Bite` or `Rule` runs a list of noms as one transaction. The cursor goes back
to where it started when one of them fails.

This project models that core and proves its contracts:

- **Plates.** The plate contract is a set of functions over (buffer, position)
  in `Bynom`. The three plates are classes with a mutable `pos`, each proved
  against those functions: `BytePlates.BytePlate`, `DishBytes.Bytes` and
  `DishString.String`.
- **Primitive noms.** These are methods on a `BytePlate`, one module per
  source file. Each one's loops are proved against the functions in `Steps`:
  - `Scan` is the longest run of bytes of a class;
  - `ExpectOne` is a single-byte expectation;
  - `AtLeastOne` is a quantifier that must make progress.
- **The combinator language.** It is a datatype, `Engine.Nom`, with one
  constructor per nom constructor of the library.
  - `Engine.Eval` gives its meaning as a function of (buffer, position,
    caller variables).
  - `Engine.Run` and its helpers run a nom on a real plate and a variable
    store. They are proved to do exactly what `Eval` says.
  - `EngineFacts` states the flow rules as lemmas about `Eval`: which
    combinators restore the cursor and which do not, which error is
    reported, and what a capture receives.
- **Caller variables.** The variables a nom writes through pointers live in a
  `Variables.Store`. It holds maps from variable names to bools, byte slices
  and states, plus a log of calls to caller-supplied callbacks.
- **States.** A state is a 64-bit two's-complement word (`bv64`); its signed
  reading is written out in `StateBits.ToInt`.
- **Hex formatter.** The hex dump of the error formatter is modelled as
  functions and methods that return strings and lists of lines.
- **The library's own test.** The key/value rule of `rule_test.go` is proved
  to succeed on its input, and to capture the name and the value.

## Model

| member | source | states |
|---|---|---|
| Bynom.NextByte | bynom.go:5-10 | the byte at the position and one step forward iff a byte is left; io.EOF without moving otherwise |
| Bynom.PeekByte | bynom.go:12-15 | never moves; returns exactly the byte and error NextByte would |
| Bynom.ByteSlice | byte_plate.go:43-55 | succeeds iff 0 <= start < len and start <= end <= len, and then returns exactly buf[start..end); end < start gives errStartLessEnd, every other refusal errPositionOufOfBound |
| Bynom.SeekPosition | byte_plate.go:63-69 | succeeds iff 0 <= target < len and then sets the position to target; a refused seek reports errPositionOufOfBound and leaves the position alone |
| Bynom.SeekToEndRefused | byte_plate.go:64 | seeking to len is refused, and so is every seek on an empty buffer |
| Bynom.EmptySliceAtEndRefused | byte_plate.go:47 | an empty slice at start == len is refused although it lies within bounds |
| Bynom.PositionStaysInBounds | byte_plate.go:23-31 | every cursor operation keeps 0 <= pos <= len |
| BytePlates.BytePlate.NewBytePlate | byte_plate.go:16-20 | a new plate holds the bytes and starts at position 0 |
| BytePlates.BytePlate.NextByte | byte_plate.go:23-31 | result and new position are those of the NextByte contract |
| BytePlates.BytePlate.PeekByte | byte_plate.go:34-40 | result is that of the PeekByte contract, position unchanged |
| BytePlates.BytePlate.ByteSlice | byte_plate.go:43-55 | result is that of the ByteSlice contract, position unchanged |
| BytePlates.BytePlate.TellPosition | byte_plate.go:58-60 | returns the position and never fails |
| BytePlates.BytePlate.SeekPosition | byte_plate.go:63-69 | error and new position are those of the SeekPosition contract |
| DishBytes.Bytes.NewBytes | dish/bytes.go:17-21 | a new plate holds the bytes and starts at position 0 |
| DishBytes.Bytes.NextByte | dish/bytes.go:24-32 | result and new position are those of the NextByte contract |
| DishBytes.Bytes.PeekByte | dish/bytes.go:35-41 | result is that of the PeekByte contract, position unchanged |
| DishBytes.Bytes.ByteSlice | dish/bytes.go:44-56 | result is that of the ByteSlice contract, position unchanged |
| DishBytes.Bytes.TellPosition | dish/bytes.go:59-61 | returns the position and never fails |
| DishBytes.Bytes.SeekPosition | dish/bytes.go:64-70 | error and new position are those of the SeekPosition contract |
| DishString.String.NewString | dish/string.go:15-19 | a new plate holds the bytes of the string and starts at position 0 |
| DishString.String.NextByte | dish/string.go:22-30 | result and new position are those of the NextByte contract |
| DishString.String.PeekByte | dish/string.go:33-39 | result is that of the PeekByte contract, position unchanged |
| DishString.String.ByteSlice | dish/string.go:42-54 | result is that of the ByteSlice contract (a copy of the bytes), position unchanged |
| DishString.String.TellPosition | dish/string.go:57-59 | returns the position and never fails |
| DishString.String.SeekPosition | dish/string.go:62-68 | error and new position are those of the SeekPosition contract |
| SpanByte.NewByte | span/byte.go:7-9 | the stored byte is included and is the only byte included |
| SpanByte.ExcludesIsComplement | span/byte.go:12-19 | Excludes(v) iff not Includes(v) |
| SpanSingle.NewSingle | span/single.go:7-9 | the stored byte is included and is the only byte included |
| SpanSingle.ExcludesIsComplement | span/single.go:12-19 | Excludes(v) iff not Includes(v) |
| SpanSet.NewSet | span/set.go:9-13 | Includes(v) iff v is one of the variants |
| SpanSet.Found | span/set.go:16-24 | the early-return scan answers true iff v occurs among the variants |
| SpanSet.Missing | span/set.go:27-35 | the early-return scan answers true iff v occurs nowhere among the variants |
| SpanSet.ExcludesIsComplement | span/set.go:16-35 | Excludes(v) iff not Includes(v) |
| SpanSet.EmptySetIncludesNothing | span/set.go:17-23 | an empty set includes nothing and excludes everything |
| Bynom.RangeExcludesIsComplement | while.go:52-150 | for every Range the quantifiers consult, Excludes(v) holds exactly when Includes(v) does not |
| Bynom.OneByteRangesAgree | span/single.go:7-19 | span.Byte, span.Single and a one-member span.Set of b include b and nothing else, and give the same Excludes answers |
| SpanSet.OnlyMembershipMatters | span/set.go:16-24 | two variant lists with the same members give the same answers, whatever their order and duplicates |
| SpanRange.Range | span/range.go:10-15 | the built range accepts exactly the bytes between its two bounds, at every index |
| SpanRange.IneligibleIsComplement | span/range.go:18-25 | IsIneligible is the negation of IsAcceptable with the same remaining count, at every index |
| SpanRange.InvertedRangeIsEmpty | span/range.go:19 | with from > to no byte is acceptable |
| SpanRange.AcceptedBytesFormAnInterval | span/range.go:18-20 | both bounds are accepted when from <= to, and a byte between two accepted bytes is accepted: the range has no holes |
| SpanRange.BoundsAreTight | span/range.go:18-20 | the byte just below from and the byte just above to are refused |
| SpanSample.Sample | span/sample.go:10-15 | stores the sample with l = len - 1 |
| SpanSample.ByteSample.IsAcceptable | span/sample.go:18-23 | out of range (false, -1); in range (sample[n] == v, len - 1 - n) |
| SpanSample.ByteSample.IsIneligible | span/sample.go:26-31 | out of range (false, -1); in range (sample[n] != v, len - 1 - n) |
| SpanSample.RemainingCountsDown | span/sample.go:22 | the remaining count is 0 exactly at the last index and positive before it |
| SpanSample.InRangeComplement | span/sample.go:22-30 | in range the two answers are negations of each other with the same remaining count |
| SpanSample.OutOfRangeBothFalse | span/sample.go:19-29 | out of range both answers are false, so they are not complements there |
| SpanSample.EmptySampleRejects | span/sample.go:13 | an empty sample answers (false, -1) at every index |
| SpanWord.Word | span/word.go:9-21 | the word accepts (n, v) iff n is in range and sample[n] == v |
| SpanWord.AnswersByRange | span/word.go:16-29 | both answers are false out of range and are complements in range |
| Steps.Scan | noms.go:92-113 | the zero-or-more quantifier stops at the first byte it does not keep: every byte in [pos, q) is kept and buf[q], if any, is not |
| Steps.ScanIsTheLongestRun | noms.go:94-109 | any q with that property is the scan's result, so the scan is the longest run |
| Steps.ScanIsIdempotent | noms.go:92-203 | scanning again from where a scan stopped consumes nothing |
| Steps.ExpectOne | noms.go:7-23 | io.EOF without moving at end of input; otherwise exactly one byte consumed, success iff the byte is kept, failure carrying the expected bytes, Have = the byte (0 for the Not variants) and Not |
| Steps.Expect | noms.go:7-23 | io.EOF without moving at end of input; otherwise one byte consumed, success iff it is r, else ExpectationFailed{[r], the byte, not negated} |
| Steps.ExpectOneOf | noms.go:27-45 | io.EOF without moving at end of input; otherwise one byte consumed, success iff it is in the set, else ExpectationFailed{set, the byte, not negated} |
| Steps.ExpectNot | noms.go:49-65 | io.EOF without moving at end of input; otherwise one byte consumed, success iff it is not r, else ExpectationFailed{[r], Have unset, Not} |
| Steps.ExpectNotOneOf | noms.go:69-87 | io.EOF without moving at end of input; otherwise one byte consumed, success iff it is not in the set, else ExpectationFailed{set, Have unset, Not} |
| Steps.EmptySetExpectations | expect.go:67-85 | ExpectOneOf with no members always fails and ExpectNotOneOf with none always succeeds when a byte is left |
| Steps.AtLeastOne | while.go:13-47 | stops where the scan stops; succeeds iff it consumed a byte; io.ErrUnexpectedEOF at end of input; otherwise ExpectationFailed with the peeked, unconsumed byte |
| Steps.AtLeastOneRefinesScan | while.go:13-166 | on success every consumed byte is kept and at least one was consumed; on failure nothing was consumed |
| Noms.Expect | noms.go:7-23 | the plate moves and the error is returned as ExpectOne says for the byte r |
| Noms.ExpectOneOf | noms.go:27-45 | the plate moves and the error is returned as ExpectOne says for the set |
| Noms.ExpectNot | noms.go:49-65 | the plate moves and the error is returned as ExpectOne says for "not r" |
| Noms.ExpectNotOneOf | noms.go:69-87 | the plate moves and the error is returned as ExpectOne says for "not in set" |
| Noms.While | noms.go:92-113 | never fails and leaves the cursor where Scan stops for the byte r |
| Noms.WhileOneOf | noms.go:118-147 | never fails and leaves the cursor where Scan stops for the set |
| Noms.WhileNot | noms.go:152-173 | never fails and leaves the cursor where Scan stops for "not r" |
| Noms.WhileNotOneOf | noms.go:178-203 | never fails and leaves the cursor at the first member of the set, unconsumed |
| Noms.Any | noms.go:207-218 | never fails and leaves the cursor at the end of input |
| Expects.Expect | expect.go:5-21 | as ExpectOne for the byte r |
| Expects.ExpectOneOf | expect.go:25-43 | as ExpectOne for the set |
| Expects.ExpectNot | expect.go:47-63 | as ExpectOne for "not r" |
| Expects.ExpectNotOneOf | expect.go:67-85 | as ExpectOne for "not in set" |
| NomExpect.Expect | nom/expect.go:7-23 | as ExpectOne for the byte r |
| NomExpect.ExpectOneOf | nom/expect.go:27-45 | as ExpectOne for the set |
| NomExpect.ExpectNot | nom/expect.go:49-65 | as ExpectOne for "not r" |
| NomExpect.ExpectNotOneOf | nom/expect.go:69-87 | as ExpectOne for "not in set" |
| Whiles.While | while.go:13-47 | error and cursor are those of AtLeastOne for the byte r, reporting Single(r) |
| Whiles.WhileInRange | while.go:52-86 | error and cursor are those of AtLeastOne for the bytes r includes |
| Whiles.WhileNot | while.go:91-126 | error and cursor are those of AtLeastOne for "not r", reporting Not |
| Whiles.WhileNotInRange | while.go:131-166 | error and cursor are those of AtLeastOne for the bytes r excludes, reporting Not |
| Misc.Any | misc.go:10-23 | never fails on the plate and leaves the cursor at the end of input |
| NomMisc.Any | nom/misc.go:11-22 | never fails on the plate and leaves the cursor at the end of input |
| Engine.Eval | bynom.go:35-36 | a nom only moves the cursor forward and never past the end of input |
| Engine.EvalTake | takes.go:8-33 | the Convert-taking capture keeps the cursor between its entry and the end of input |
| Engine.EvalSeq | flow.go:42-47 | running children in order keeps the cursor between the entry and the end of input |
| Engine.EvalSwitch | flow.go:12-22 | the Switch loop keeps the cursor between the entry and the end of input |
| Engine.EvalEat | bite.go:21-35 | a failed transaction is back at its entry position; a successful one is the plain run of its noms |
| Engine.Run | bynom.go:35-36 | running a nom on the plate and the store does exactly what Eval says: same error, cursor and variables |
| Engine.RunSwitch | flow.go:5-26 | the Switch loop with its re-seeks does what Eval says |
| Engine.RunWhen | flow.go:30-50 | When does what Eval says |
| Engine.RunOptional | flow.go:55-71 | Optional does what Eval says |
| Engine.RunTake | vars.go:42-67 | Take with a Convert (takes.go) and TakeFunc do what Eval says |
| Engine.RunTakeWrapped | take.go:10-40 | the breadcrumb-wrapping Take does what Eval says |
| Engine.RunTakeInto | vars.go:19-40 | the Take into a byte-slice variable does what Eval says |
| Engine.RunRequireLen | check_length.go:6-35 | RequireLen does what Eval says |
| Bites.Bite.NewBite | bite.go:12-16 | the bite holds the given noms |
| Bites.Bite.Eat | bite.go:21-35 | error, cursor and variables are those of EvalEat over the bite's noms |
| Rules.Rule.NewRule | rule.go:12-16 | the rule holds the given noms |
| Rules.Rule.Eat | rule.go:19-33 | error, cursor and variables are those of EvalEat over the rule's noms |
| EngineFacts.EmptyListsSucceedInPlace | flow.go:7-24 | an empty Switch and an empty Eat succeed without moving or writing |
| EngineFacts.EatRestoresOnlyTheCursor | bite.go:27-32 | Eat reports the first failing nom's error unchanged and keeps its variable writes; only the cursor is restored |
| EngineFacts.WhenFailureRestores | flow.go:37-40 | a failing test returns its error with the cursor back at the entry and runs no child |
| EngineFacts.OptionalNeverFails | flow.go:62-69 | Optional always succeeds; it is back at the entry when a child fails and is the plain run otherwise |
| EngineFacts.SwitchFirstSuccessWins | flow.go:19-21 | a succeeding first alternative is the whole result; later ones are not run |
| EngineFacts.SwitchLoopShifts | flow.go:12-22 | past the first alternative, the Switch loop over alts is the loop over alts[1..] one index behind |
| EngineFacts.SwitchFallsThrough | flow.go:13-17 | when the first alternative fails away from the end of input, Switch is the Switch of the rest from the entry position |
| EngineFacts.SwitchAtEndSkipsTheRest | flow.go:14-16 | at the end of input the re-seek fails, so Switch returns errPositionOufOfBound and runs no further alternative |
| EngineFacts.SwitchDoesNotRestoreOnFailure | flow.go:12-24 | a worked example: Switch(Expect('a')) on "b" fails with the cursor past the b |
| EngineFacts.SwitchOfOne | flow.go:12-22 | a Switch of one alternative behaves exactly as that alternative |
| EngineFacts.SwitchAllFailIsLast | flow.go:12-24 | for every input where all alternatives fail before the end of input, Switch returns exactly the last alternative's result run from the entry: its error, and the cursor where it stopped, with no restore |
| EngineFacts.TagOnlyRewordsFailure | take.go:19-23 | the breadcrumb wrapping changes only the error: same cursor, variables and success; the reported index k is the failing child, as the children before k succeed and noms[k] fails from where they stopped |
| EngineFacts.TakeWrappedNamesTheChild | take.go:19-23 | a failure is reported as WrapBreadcrumb(ExtendBreadcrumb(err, k, start, -1), "Take"), where the children before k succeed, noms[k] fails with err, and the cursor and variables are where noms[k] left them |
| EngineFacts.TakeWrappedCallsConvertOnce | take.go:25-38 | when the children succeed before the end of input, fn is called once with buf[start..end); its error comes back wrapped with "Take", and nil stays nil |
| EngineFacts.TakeWrappedAtEndFails | take.go:30-33 | when the children succeed at the end of input, the ByteSlice refusal comes back wrapped with "Take" and fn is not called |
| EngineFacts.TakeDeliversConsumedBytes | takes.go:36-41 | Take with DstBytes stores exactly the bytes the children consumed |
| EngineFacts.TakeCallsConvertOnce | takes.go:21-31 | a caller's Convert is called once, with the consumed bytes, and its error is Take's |
| EngineFacts.CaptureAtEndFails | vars.go:37 | a capture that starts at the end of input fails with errPositionOufOfBound, and the vars.go Take stores nil |
| EngineFacts.TakeIntoKeepsDestinationOnChildFailure | vars.go:26-30 | a child failure leaves the destination untouched |
| EngineFacts.RequireLenIsExact | check_length.go:24-33 | succeeds iff the children succeed and consumed exactly n bytes; a mismatch gives ErrRequirementNotMet(n, consumed, "invalid length") with no restore |
| EngineFacts.AnyTwice | misc.go:14-21 | Any leaves the cursor at the end; a second Any consumes nothing and still succeeds |
| EngineFacts.SideChannelNomsStayPut | state.go:9 | the state and signal noms never move the cursor |
| Signals.ClearedPointwise | signals.go:7-9 | after ResetSignals every destination is false and every other variable keeps its value |
| Signals.ResetSignals | signals.go:5-12 | clears the destinations, returns nil, leaves every other variable alone |
| Signals.SetSignal | signals.go:16-21 | sets the destination to true, returns nil, leaves every other variable alone |
| Vars.ResetSignals | vars.go:3-10 | clears the destinations, returns nil, leaves every other variable alone |
| Vars.SetSignal | vars.go:12-17 | sets the destination to true, returns nil, leaves every other variable alone |
| Callbacks.FirstFailing | state.go:10-14 | the index of the first modifier that fails on v: none before it fails, and it does |
| Callbacks.StopsAfter | state.go:10-14 | where the modifier loop stops: one past the first failing modifier, or the end |
| Callbacks.ChangeAllStopsAtFirstError | state.go:10-14 | ChangeState returns the first modifier error, calls no modifier after it, and touches only the states and the call log |
| Callbacks.TestAllIff | state.go:23-31 | RequireState succeeds iff every test passes (no tests: success); failure is ErrStateTestFailed{v}; only the call log changes |
| Callbacks.ReflectAllSetsEach | nom/signal.go:23-28 | Signal with ReflectBool reactions never fails and leaves every destination equal to v |
| Callbacks.ReflectKeepsOthers | nom/signal.go:23-28 | ReflectBool reactions write only their own destinations |
| Callbacks.DoConvert | takes.go:31 | calling a Convert on the store has exactly the modelled effect |
| Callbacks.DoMutator | state.go:11 | calling a modifier on the store has exactly the modelled effect |
| Callbacks.DoTester | state.go:24 | calling a test on the store has exactly the modelled effect |
| Callbacks.DoReact | nom/signal.go:14 | calling a React on the store has exactly the modelled effect |
| StateNoms.ChangeState | state.go:8-17 | the modifier loop does what ChangeAll says: error, states and call log |
| StateNoms.RequireState | state.go:21-33 | the test loop does what TestAll says |
| SignalNoms.ChangeState | signal.go:6-15 | the modifier loop does what ChangeAll says |
| SignalNoms.RequireState | signal.go:19-31 | the test loop does what TestAll says |
| NomSignal.Signal | nom/signal.go:11-20 | the React loop does what ReactAll says |
| NomSignal.ReflectBool | nom/signal.go:23-28 | writes v into the destination, returns nil, leaves every other variable alone |
| StateModify.ApplyEffects | state_modify.go:4-31 | Replace yields s; SetStateBits keeps the old bits and adds all of s; ResetStateBits clears all of s; bits outside s are unchanged by both |
| StateModify.ApplyIsIdempotent | state_modify.go:14-31 | applying a modifier twice equals applying it once |
| StateModify.ModifiedPointwise | state_modify.go:6-28 | every destination gets the modifier applied to its old value; every other state is untouched |
| StateModify.ModifyEach | state_modify.go:6-8 | the destination loop writes exactly Modified and nothing else |
| StateModify.ReplaceState | state_modify.go:4-11 | every destination becomes s; returns nil |
| StateModify.SetStateBits | state_modify.go:14-21 | every destination becomes dst or s; returns nil |
| StateModify.ResetStateBits | state_modify.go:24-31 | every destination becomes dst and not s; returns nil |
| StateChecks.StateHasAllBits | state_checks.go:4-14 | true iff every destination has all bits of s set |
| StateChecks.StateHasAnyBits | state_checks.go:17-27 | true iff every destination shares at least one bit with s |
| StateChecks.EdgeCases | state_checks.go:7-12 | no destinations: both true; s = 0: AllBits true and, with a destination, AnyBits false |
| StateBits.ToInt | state/bits.go:51-53 | the signed reading of the word: in [-2^63, 2^63), equal to the word below 2^63 and to the word - 2^64 above |
| StateBits.Bits.NewBits | state/bits.go:8-10 | starts at 0 |
| StateBits.Bits.Replace | state/bits.go:13-16 | the value becomes v; returns nil |
| StateBits.Bits.Set | state/bits.go:19-22 | the value becomes value or v; returns nil |
| StateBits.Bits.Reset | state/bits.go:25-28 | the value becomes value and not v; returns nil |
| StateBits.Bits.AllSet | state/bits.go:31-33 | true iff every bit of v is on, so that Set(v) would change nothing |
| StateBits.Bits.AnySet | state/bits.go:36-38 | true iff the shared bits are non-zero and the sign bit is not one of them (the signed `> 0` test) |
| StateBits.Bits.NothingSet | state/bits.go:41-43 | true iff every bit of v is off, so that Reset(v) would change nothing |
| StateBits.Bits.Equal | state/bits.go:46-48 | true iff the signed readings of the value and of v agree |
| StateBits.Bits.Int | state/bits.go:51-53 | a signed int in [-2^63, 2^63) whose 64-bit two's-complement pattern is the value |
| StateBits.SetAndResetEffects | state/bits.go:19-43 | after Set(v) AllSet(v) holds and the old bits stay; after Reset(v) NothingSet(v) holds and bits outside v stay |
| StateBits.SetResetIdempotent | state/bits.go:19-28 | Set and Reset are idempotent |
| StateBits.AllSetOfZero | state/bits.go:31-33 | AllSet(0) always holds |
| StateBits.AnySetIgnoresSignBit | state/bits.go:36-38 | AnySet holds iff the shared bits are non-zero and do not include the sign bit; a mask sharing only the sign bit is not "any set" |
| HexFormatter.HexFormatter.GetIndent | prettierr/hex_formatter.go:141-146 | never empty: the configured indentation, or DefaultIndent when none is set |
| HexFormatter.HexSlots | prettierr/hex_formatter.go:155-170 | after n slots the hex half is 3n characters long, plus 1 once the gap before slot 8 is written |
| HexFormatter.GutterSlots | prettierr/hex_formatter.go:175-190 | after n slots the gutter is n characters long, plus 1 once the gap before slot 8 is written |
| HexFormatter.HexLine | prettierr/hex_formatter.go:150-193 | a line is 68 characters long whatever the input |
| HexFormatter.MakeHexString | prettierr/hex_formatter.go:150-193 | the two builder loops produce exactly HexLine |
| HexFormatter.HexSlotAt | prettierr/hex_formatter.go:160-169 | hex slot i sits at 3i (+1 from slot 8 on) |
| HexFormatter.GutterSlotAt | prettierr/hex_formatter.go:180-189 | gutter slot i sits at 51 + i (+1 from slot 8 on) |
| HexFormatter.SeparatorAndGaps | prettierr/hex_formatter.go:156-173 | "| " separates the halves and both group gaps are spaces |
| HexFormatter.Unhex | prettierr/hex_formatter.go:148 | reading a digit back inverts indexing hexChars |
| HexFormatter.HexSlotDecodes | prettierr/hex_formatter.go:160-164 | a filled slot is high nibble, low nibble, space, and its two digits read back as the byte |
| HexFormatter.PaddingIsBlank | prettierr/hex_formatter.go:165-169 | slots past the input are three spaces in the hex half and one in the gutter |
| HexFormatter.GutterShowsByte | prettierr/hex_formatter.go:180-186 | the gutter shows bytes below 0x20 as '.' and every other byte, 0x7F and above included, unchanged |
| HexFormatter.OnlyFirst16Rendered | prettierr/hex_formatter.go:155 | only the first 16 bytes of the input are rendered |
| HexFormatter.ChunksAreWindows | prettierr/hex_formatter.go:47-56 | there are ceil(len/16) chunks; chunk k is the non-empty window [16k, min(16k+16, len)) |
| HexFormatter.ChunksJoinBack | prettierr/hex_formatter.go:47-56 | the chunks joined give the input back |
| HexFormatter.DumpLines | prettierr/hex_formatter.go:53 | one line per chunk: the indentation followed by the chunk's hex line |
| HexFormatter.PutHex | prettierr/hex_formatter.go:45-58 | the start/end loop prints the lines of the chunks in order, ceil(len/16) of them, none for an empty input |
| HexFormatter.AtoiItoa | prettierr/hex_formatter.go:106-115 | reading the decimal digits strconv.Itoa writes gives the number back |
| HexFormatter.ItoaDigits | prettierr/hex_formatter.go:106-115 | Itoa writes decimal digits only and no leading zero |
| HexFormatter.Field | prettierr/hex_formatter.go:105-113 | a detail is empty iff its number is negative; otherwise prefix, the number's digits, suffix |
| HexFormatter.FieldReadsBack | prettierr/hex_formatter.go:105-113 | a shown detail reads back as its number |
| HexFormatter.Details | prettierr/hex_formatter.go:104-113 | the details start with the name and are only the name iff index, start and end are all negative |
| HexFormatter.CrumbLineShape | prettierr/hex_formatter.go:115 | a crumb line is the indentation, the crumb's position, ": " and the details |
| HexFormatter.CrumbLineNumbers | prettierr/hex_formatter.go:115 | the number at the head of a crumb line reads back as the crumb's position |
| HexFormatter.Listed | prettierr/hex_formatter.go:99-116 | one line per crumb, from the last crumb down to the first |
| HexFormatter.PutBreadcrumbs | prettierr/hex_formatter.go:95-117 | no crumbs: nothing; otherwise the "Breadcrumbs:" header and the Listed lines |
| RuleScenario.RuleTestScenario | rule_test.go:5-58 | the bracketed key/value rule over "{NameHere} = VALUE" succeeds at the end of input, with curly up, square down, name "NameHere" and value "VALUE" |

## Left out

- `context.Context` arguments are dropped. No operation of the modelled code reads them.
- The engine (`Engine.Run`, `Bite.Eat`, `Rule.Eat`) runs over `BytePlate` only.
  - The model has no interfaces, and the other two plates have the same contract.
  - The modelled plates never fail TellPosition. They never return a NextByte or PeekByte error other than io.EOF.
  - The branches that handle those errors are therefore unreachable in the model. They are kept, but they state nothing.
- Misc.Any and NomMisc.Any: wrapping a non-EOF plate error as "Any" (misc.go:19), or returning it unchanged (nom/misc.go:18), is in the code but cannot happen on the modelled plates.
- Callbacks are caller code.
  - Convert functions, state modifiers and tests, and reactions are pure function values with an identifier.
  - Each call adds an entry to the store's call log.
  - Any other effect they have is not modelled.
- `state.Bits` methods passed as modifiers (the ctx-generation test) are represented by the three state_modify.go modifiers. Those have the same effect on a state variable.
- into/bytes.go and nom/into/bytes.go are represented by `DstBytes`.
- WrapBreadcrumb, ExtendBreadcrumb, ErrStateTestFailed, ErrRequirementNotMet, ErrParseFailed and nom.ErrExpectationFailed are opaque constructors of `Bynom.Error`.
  - errors.go is not part of this model.
  - The two ErrExpectationFailed types share one constructor.
- The diagnostic context window is not part of this model. Its head and tail bytes and read errors are printed by prettierr/hex_formatter.go:67-93.
- The Range interface that while.go:52 and while.go:131 consult is closed over span.Byte, span.Single and span.Set (`Bynom.Range`).
  - A Range supplied by a caller is not modelled.
  - The file declaring the interface is not part of this model.
- SpanSample.ByteSample.IsAcceptable and SpanSample.ByteSample.IsIneligible require the shape `Sample` builds, with l = len(sample) - 1.
  - The zero-value ByteSample has l = 0 and an empty sample.
  - span/sample.go:18-31 indexes the empty sample at n = 0 and panics there; every other index returns (false, -1).
  - The model does not cover that value.
- No multi-byte `WhileAcceptable` quantifier is modelled, because its code is not part of this model.
- The hex formatter's output is not written to an `io.Writer`.
  - The formatter's `Format`, its "Error:" and "Range:" lines, and the threading of the first write error (the `put` closure) are not modelled.
  - prettierr/text_formatter.go, debug.go and errors.go are presentation and output I/O.
- Strings produced by the hex formatter are sequences of characters, one per byte. A gutter byte of 0x80 or above becomes the character with that code, not a raw byte.
- HexFormatter.Itoa covers the non-negative numbers the breadcrumb lines print. Negative fields are never printed.
- Go `int` state values are modelled as 64-bit words. A platform with 32-bit `int` is not modelled.
- The code is followed where it differs from the documented cursor contract:
  - SeekPosition refuses the end position.
  - ByteSlice refuses an empty slice at the end.

  The lemmas `Bynom.SeekToEndRefused`, `Bynom.EmptySliceAtEndRefused` and `EngineFacts.SwitchAtEndSkipsTheRest` state these consequences.
