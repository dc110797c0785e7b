/**
 * The caller's variables that noms write through pointers (signal flags, captured
 * slices, state words), named by the variable they stand for, and a log of the
 * calls made to callbacks supplied by the caller.
 */
module Variables {
  import opened Bynom

  /** The name of a caller variable; equal names are the same variable. */
  type Name = string

  /** One invocation of a caller-supplied callback, identified by the callback's id. */
  datatype Call =
    | Converted(id: nat, data: seq<bv8>)   // a Convert fn received the bytes
    | Modified(id: nat, v: bv64)           // a ModifyState fn received v
    | Tested(id: nat, v: bv64)             // a TestState fn received v
    | Reacted(id: nat, signal: bool)       // a React fn received the signal

  /** The values of the caller's variables and the calls made so far. */
  datatype Env = Env(bools: map<Name, bool>, slices: map<Name, Slice>, states: map<Name, bv64>, calls: seq<Call>)

  /** A bool variable; an unset one holds Go's zero value, false. */
  function GetBool(bools: map<Name, bool>, x: Name): bool {
    if x in bools then bools[x] else false
  }

  /** A []byte variable; an unset one holds nil. */
  function GetSlice(slices: map<Name, Slice>, x: Name): Slice {
    if x in slices then slices[x] else Nil
  }

  /** A state variable; an unset one holds 0. */
  function GetState(states: map<Name, bv64>, x: Name): bv64 {
    if x in states then states[x] else 0
  }

  /** The variables, updated in place by the noms that hold pointers to them. */
  class Store {
    var bools: map<Name, bool>
    var slices: map<Name, Slice>
    var states: map<Name, bv64>
    var calls: seq<Call>

    function Snapshot(): Env
      reads this
    {
      Env(bools, slices, states, calls)
    }
  }
}
