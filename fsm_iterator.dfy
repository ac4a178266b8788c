/**
 * The state-machine iterator of
 * packages/core/src/internal/sagaHelpers/fsmIterator.js, on which the saga
 * helpers are built. A machine is a table of state functions; each returns the
 * next state, the `{ done, value }` to yield, an optional updater to apply to
 * the value fed back next, and an optional state to go to on an error.
 *
 * The variables the state functions share (takeEvery's `action`) are the
 * machine's `memory`; an updater computes the new memory from the old one and
 * the value fed back. Updaters are named in the records and looked up in the
 * machine, so that the iterator's state is a plain value.
 */
module FsmIterators {
  import opened JsValues
  import Is
  import opened Coroutines

  /** A state name, or the end state `qEnd`. */
  datatype StateKey = Named(name: string) | QEnd

  /** `{ nextState, effect, stateUpdater, errorState }`. */
  datatype StateRecord = StateRecord(nextState: StateKey, effect: IterResult,
                                     stateUpdater: Option<string>, errorState: Option<string>)

  /** What calling a state function does. */
  datatype StateOutcome = Returns(record: StateRecord) | Throws(error: Value)

  /** A state function, given the memory and its argument (the error, for an
      error state; `undefined` otherwise). */
  type StateFn = (Value, Value) -> StateOutcome

  /** A state updater: the new memory from the old one and the value fed back. */
  type Updater = (Value, Value) -> Value

  datatype Machine = Machine(states: map<string, StateFn>, updaters: map<string, Updater>)

  /** What calling something that is not a function throws. */
  const TYPE_ERROR: Value := Obj(map["name" := Str("TypeError")])

  /** `done(value)`. */
  function Done(value: Value): IterResult {
    IterResult(true, value)
  }

  /** `safeName(patternOrChannel)`: the name a helper's iterator shows for
      what it takes from. A function's `name` property is returned as it is;
      `None` is the TypeError `String(patternOrChannel)` throws. */
  function SafeName(patternOrChannel: Value): (r: Option<Value>)
    ensures Is.Channel(patternOrChannel) ==> r == Some(Str("channel"))
    ensures var f := patternOrChannel;
      !Is.Channel(f) && Is.StringableFunc(f) ==> r == Some(Str(f.ownToString.value))
    ensures var f := patternOrChannel;
      !Is.Channel(f) && !Is.StringableFunc(f) && Is.Func(f) ==> r == Some(Get(f, "name"))
    ensures var f := patternOrChannel;
      !Is.Channel(f) && !Is.StringableFunc(f) && f.Func? && "name" !in f.props ==> r == Some(Str(f.name))
    ensures !Is.Channel(patternOrChannel) && !Is.Func(patternOrChannel) ==>
      r == (var s := ToJsString(patternOrChannel); if s.Some? then Some(Str(s.value)) else None)
  {
    if Is.Channel(patternOrChannel) then Some(Str("channel"))
    else if Is.StringableFunc(patternOrChannel) then Some(Str(ToJsString(patternOrChannel).value))
    else if Is.Func(patternOrChannel) then Some(Get(patternOrChannel, "name"))
    else
      var s := ToJsString(patternOrChannel);
      if s.Some? then Some(Str(s.value)) else None
  }

  /** `safeName` fails exactly for an array (not a channel) that holds a
      symbol at some depth, because `String` joins the elements; a symbol on
      its own is described. */
  lemma SafeNameFails(patternOrChannel: Value)
    ensures SafeName(patternOrChannel).None? <==>
      !Is.Channel(patternOrChannel) && patternOrChannel.Arr? && HoldsSymbol(patternOrChannel.elems)
  {
    if patternOrChannel.Arr? {
      JoinFailsOnSymbols(patternOrChannel.elems);
    }
  }

  /** A string pattern names itself, and an array of string patterns is named
      by its elements joined with commas. */
  lemma SafeNameOfPatterns(s: string, t: string)
    ensures SafeName(Str(s)) == Some(Str(s))
    ensures SafeName(Arr([Str(s), Str(t)])) == Some(Str(s + "," + t))
    ensures SafeName(Sym(s)) == Some(Str("Symbol(" + s + ")"))
  {
    var a := Arr([Str(s), Str(t)]);
    assert !Is.Channel(a) && !Is.Func(a);
    assert [Str(s), Str(t)][1..] == [Str(t)];
    assert JoinElements([Str(t)]) == Some(t);
    assert JoinElements([Str(s), Str(t)]) == Some(s + "," + t);
  }

  /** The iterator's closure variables. */
  datatype FsmState = FsmState(nextState: StateKey, effect: Option<IterResult>, stateUpdater: Option<string>,
                               errorState: Option<string>, memory: Value)

  /** `!errorState` fails: an error state is set and is not ''. */
  predicate HasErrorState(es: Option<string>) {
    es.Some? && es.value != ""
  }

  datatype Stepped = Stepped(st: FsmState, o: StepOutcome)

  /** `next(arg, error)`. Once at `qEnd` every call returns `done(arg)`. An
      error with no error state ends the machine and is rethrown. Otherwise the
      previous record's updater is applied to `arg`, then the error state (for
      an error) or the next state is called and its record becomes current;
      the call yields the record's effect, or `done(arg)` if the record leads
      to `qEnd`. Calling a missing updater or state throws a TypeError. */
  function NextSpec(m: Machine, st: FsmState, arg: Value, error: Value): Stepped {
    if st.nextState.QEnd? then Stepped(st, Normal(Done(arg)))
    else if Truthy(error) && !HasErrorState(st.errorState) then Stepped(st.(nextState := QEnd), Raised(error))
    else if st.stateUpdater.Some? && st.stateUpdater.value !in m.updaters then Stepped(st, Raised(TYPE_ERROR))
    else
      var memory := if st.stateUpdater.Some? then m.updaters[st.stateUpdater.value](st.memory, arg) else st.memory;
      var key := if Truthy(error) then st.errorState.value else st.nextState.name;
      var called := if key in m.states then m.states[key](memory, if Truthy(error) then error else Undefined)
                    else Throws(TYPE_ERROR);
      match called
      case Throws(e) => Stepped(st.(memory := memory), Raised(e))
      case Returns(rec) =>
        Stepped(FsmState(rec.nextState, Some(rec.effect), rec.stateUpdater, rec.errorState, memory),
                Normal(if rec.nextState.QEnd? then Done(arg) else rec.effect))
  }

  /** A call on the iterator: `next(arg)`, or `throw(error)`, which is
      `next(null, error)`. */
  datatype Call = NextCall(arg: Value) | ThrowCall(error: Value)

  function StepCall(m: Machine, st: FsmState, c: Call): Stepped {
    match c
    case NextCall(arg) => NextSpec(m, st, arg, Undefined)
    case ThrowCall(error) => NextSpec(m, st, Null, error)
  }

  /** The value a call passes as `arg`. */
  function ArgOf(c: Call): Value {
    match c
    case NextCall(arg) => arg
    case ThrowCall(_) => Null
  }

  datatype Ran = Ran(st: FsmState, outs: seq<StepOutcome>)

  /** A sequence of calls from a state: the final state and every call's outcome. */
  function RunCalls(m: Machine, st: FsmState, calls: seq<Call>): (r: Ran)
    ensures |r.outs| == |calls|
    decreases |calls|
  {
    if calls == [] then Ran(st, [])
    else
      var s := StepCall(m, st, calls[0]);
      var rest := RunCalls(m, s.st, calls[1..]);
      Ran(rest.st, [s.o] + rest.outs)
  }

  /** Once the machine is at `qEnd` it stays there, and every call, `throw`
      included, returns `done` of its argument. */
  lemma {:induction false} EndedStaysEnded(m: Machine, st: FsmState, calls: seq<Call>)
    requires st.nextState.QEnd?
    ensures RunCalls(m, st, calls).st == st
    ensures forall i :: 0 <= i < |calls| ==> RunCalls(m, st, calls).outs[i] == Normal(Done(ArgOf(calls[i])))
    decreases |calls|
  {
    if calls != [] {
      EndedStaysEnded(m, st, calls[1..]);
      var rest := RunCalls(m, st, calls[1..]);
      assert RunCalls(m, st, calls).outs == [Normal(Done(ArgOf(calls[0])))] + rest.outs;
      forall i | 1 <= i < |calls|
        ensures RunCalls(m, st, calls).outs[i] == Normal(Done(ArgOf(calls[i])))
      {
        assert calls[1..][i - 1] == calls[i];
      }
    }
  }

  /** An error thrown into a machine whose current record has no error state
      is rethrown, and the machine is finished from then on. */
  lemma UnhandledErrorEnds(m: Machine, st: FsmState, error: Value, later: seq<Call>)
    requires !st.nextState.QEnd? && Truthy(error) && !HasErrorState(st.errorState)
    ensures var r := RunCalls(m, st, [ThrowCall(error)] + later);
      && r.outs[0] == Raised(error)
      && r.st.nextState.QEnd?
      && forall i :: 1 <= i < |r.outs| ==> r.outs[i] == Normal(Done(ArgOf(later[i - 1])))
  {
    var calls := [ThrowCall(error)] + later;
    assert calls[1..] == later;
    var s := StepCall(m, st, calls[0]);
    assert s == Stepped(st.(nextState := QEnd), Raised(error));
    EndedStaysEnded(m, s.st, later);
  }

  /** A handled error goes to the error state, which receives it after a
      pending updater has seen `null`; the error state's record becomes
      current, and its effect (or `done(null)`) is returned. */
  lemma HandledErrorGoesToErrorState(m: Machine, st: FsmState, error: Value, rec: StateRecord)
    requires !st.nextState.QEnd? && Truthy(error) && HasErrorState(st.errorState)
    requires st.stateUpdater.Some? ==> st.stateUpdater.value in m.updaters
    requires st.errorState.value in m.states
    requires var mem := if st.stateUpdater.Some? then m.updaters[st.stateUpdater.value](st.memory, Null) else st.memory;
      m.states[st.errorState.value](mem, error) == Returns(rec)
    ensures var mem := if st.stateUpdater.Some? then m.updaters[st.stateUpdater.value](st.memory, Null) else st.memory;
      StepCall(m, st, ThrowCall(error)).st == FsmState(rec.nextState, Some(rec.effect), rec.stateUpdater, rec.errorState, mem)
    ensures StepCall(m, st, ThrowCall(error)).o == Normal(if rec.nextState.QEnd? then Done(Null) else rec.effect)
  {
  }

  /** The iterator `fsmIterator(fsm, startState, name)`. */
  class FsmIterator {
    const machine: Machine
    const name: string
    var nextState: StateKey
    var effect: Option<IterResult>
    var stateUpdater: Option<string>
    var errorState: Option<string>
    var memory: Value

    function Model(): FsmState
      reads this
    {
      FsmState(nextState, effect, stateUpdater, errorState, memory)
    }

    constructor (machine: Machine, startState: string, name: string, memory: Value)
      ensures this.machine == machine && this.name == name
      ensures Model() == FsmState(Named(startState), None, None, None, memory)
    {
      this.machine := machine;
      this.name := name;
      nextState, effect, stateUpdater, errorState := Named(startState), None, None, None;
      this.memory := memory;
    }

    /** `next(arg, error)`. */
    method Next(arg: Value, error: Value) returns (o: StepOutcome)
      modifies this
      ensures Stepped(Model(), o) == NextSpec(machine, old(Model()), arg, error)
    {
      if nextState.QEnd? {
        return Normal(Done(arg));
      }
      if Truthy(error) && !HasErrorState(errorState) {
        nextState := QEnd;
        return Raised(error);
      }
      if stateUpdater.Some? {
        if stateUpdater.value !in machine.updaters {
          return Raised(TYPE_ERROR);
        }
        memory := machine.updaters[stateUpdater.value](memory, arg);
      }
      var key := if Truthy(error) then errorState.value else nextState.name;
      if key !in machine.states {
        return Raised(TYPE_ERROR);
      }
      var called := machine.states[key](memory, if Truthy(error) then error else Undefined);
      match called
      case Throws(e) =>
        o := Raised(e);
      case Returns(rec) =>
        nextState, effect, stateUpdater, errorState := rec.nextState, Some(rec.effect), rec.stateUpdater, rec.errorState;
        o := Normal(if nextState.QEnd? then Done(arg) else rec.effect);
    }

    /** `throw(error)`, which makeIterator builds as `next(null, error)`. */
    method Throw(error: Value) returns (o: StepOutcome)
      modifies this
      ensures Stepped(Model(), o) == NextSpec(machine, old(Model()), Null, error)
    {
      o := Next(Null, error);
    }
  }
}
