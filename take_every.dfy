/**
 * `takeEvery(patternOrChannel, worker, ...args)` of
 * packages/core/src/internal/sagaHelpers/takeEvery.js: a two-state machine on
 * the state-machine iterator. State q1 yields a TAKE effect and registers
 * `setAction`, so the action fed back is stored; state q2 yields a FORK of the
 * worker with the stored action appended to the arguments. The machine's
 * memory is the captured `action`.
 */
module TakeEvery {
  import opened JsValues
  import Is
  import Io
  import opened Coroutines
  import opened FsmIterators

  const SET_ACTION: string := "setAction"

  /** `yTake`: `{ done: false, value: take(patternOrChannel) }`. */
  function YTake(patternOrChannel: Value): IterResult {
    IterResult(false, Io.Take(patternOrChannel, Undefined))
  }

  /** `yFork(ac)`: `{ done: false, value: fork(worker, ...args, ac) }`. */
  function YFork(worker: Value, args: seq<Value>, ac: Value): (r: IterResult)
    requires !Is.Undef(worker)
    ensures !r.done && Io.EffectOfType(r.value, Io.FORK)
    ensures Some(Io.Payload(r.value)) == Io.GetFnCallDescriptor(worker, Arr(args + [ac]))
  {
    IterResult(false, Io.Fork(worker, args + [ac]).value)
  }

  /** The machine `takeEvery` hands to `fsmIterator`. Destructuring an
      undefined fork descriptor throws, so q2 throws for an undefined worker. */
  function TakeEveryMachine(patternOrChannel: Value, worker: Value, args: seq<Value>): Machine {
    Machine(
      map[
        "q1" := (action: Value, _: Value) =>
          Returns(StateRecord(Named("q2"), YTake(patternOrChannel), Some(SET_ACTION), None)),
        "q2" := (action: Value, _: Value) =>
          if Is.Undef(worker) then Throws(TYPE_ERROR)
          else Returns(StateRecord(Named("q1"), YFork(worker, args, action), None, None))
      ],
      map[SET_ACTION := (action: Value, ac: Value) => ac])
  }

  /** The machine behaves as takeEvery's: q1 takes and registers
      `setAction`, q2 forks with the stored action, `setAction` stores. */
  ghost predicate Behaves(m: Machine, patternOrChannel: Value, worker: Value, args: seq<Value>) {
    && !Is.Undef(worker)
    && "q1" in m.states && "q2" in m.states && SET_ACTION in m.updaters
    && (forall action, x :: m.states["q1"](action, x)
          == Returns(StateRecord(Named("q2"), YTake(patternOrChannel), Some(SET_ACTION), None)))
    && (forall action, x :: m.states["q2"](action, x)
          == Returns(StateRecord(Named("q1"), YFork(worker, args, action), None, None)))
    && (forall action, ac :: m.updaters[SET_ACTION](action, ac) == ac)
  }

  lemma MachineBehaves(patternOrChannel: Value, worker: Value, args: seq<Value>)
    requires !Is.Undef(worker)
    ensures Behaves(TakeEveryMachine(patternOrChannel, worker, args), patternOrChannel, worker, args)
  {
  }

  /** The template literal `takeEvery(${safeName(patternOrChannel)}, ${worker.name})`:
      each substitution goes through ToString, so it fails where `safeName`
      throws or where either substitution is a symbol. */
  function TakeEveryName(patternOrChannel: Value, worker: Value): (r: Option<string>)
    ensures r.Some? ==> |r.value| > 12 && r.value[..10] == "takeEvery(" && r.value[|r.value| - 1] == ')'
  {
    var safe := SafeName(patternOrChannel);
    if safe.None? then None
    else
      var pattern := ToStr(safe.value);
      var workerName := ToStr(Get(worker, "name"));
      if pattern.None? || workerName.None? then None
      else Some("takeEvery(" + pattern.value + ", " + workerName.value + ")")
  }

  /** An array pattern holding a symbol at some depth cannot be named, so
      `takeEvery` throws for it whatever the worker. */
  lemma SymbolArrayPatternThrows(elems: seq<Value>, worker: Value)
    requires HoldsSymbol(elems)
    ensures TakeEveryName(Arr(elems), worker).None?
  {
    SafeNameFails(Arr(elems));
  }

  /** A string pattern, and a worker function with no own `name` property and
      a name, give the name `takeEvery(<pattern>, <function name>)`. */
  lemma NameOfStringPattern(s: string, worker: Value)
    requires worker.Func? && "name" !in worker.props
    ensures TakeEveryName(Str(s), worker) == Some("takeEvery(" + s + ", " + worker.name + ")")
  {
    SafeNameOfPatterns(s, s);
  }

  /** `takeEvery(patternOrChannel, worker, ...args)`. The name is built before
      the iterator: it throws where the name cannot be built, and reading
      `worker.name` throws for a null or undefined worker. No iterator is made
      then. */
  method NewTakeEvery(patternOrChannel: Value, worker: Value, args: seq<Value>) returns (it: Option<FsmIterator>)
    ensures it.None? <==> Is.Undef(worker) || TakeEveryName(patternOrChannel, worker).None?
    ensures it.Some? ==>
      && fresh(it.value)
      && Behaves(it.value.machine, patternOrChannel, worker, args)
      && it.value.name == TakeEveryName(patternOrChannel, worker).value
      && it.value.Model() == FsmState(Named("q1"), None, None, None, Undefined)
  {
    var name := TakeEveryName(patternOrChannel, worker);
    if Is.Undef(worker) || name.None? {
      return None;
    }
    MachineBehaves(patternOrChannel, worker, args);
    var fsm := new FsmIterator(TakeEveryMachine(patternOrChannel, worker, args), "q1", name.value, Undefined);
    it := Some(fsm);
  }

  /** The machine is about to run q1 (`atQ1`) or q2, with no error state. */
  ghost predicate Phase(st: FsmState, atQ1: bool) {
    && st.errorState.None?
    && (atQ1 ==> st.nextState == Named("q1") && st.stateUpdater.None?)
    && (!atQ1 ==> st.nextState == Named("q2") && st.stateUpdater == Some(SET_ACTION))
  }

  /** One `next(arg)`: q1 yields the take and moves to q2; q2 stores `arg` as
      the action, yields the fork of the worker with it, and moves to q1. */
  lemma StepAlternates(m: Machine, patternOrChannel: Value, worker: Value, args: seq<Value>,
                       st: FsmState, atQ1: bool, arg: Value)
    requires Behaves(m, patternOrChannel, worker, args) && Phase(st, atQ1)
    ensures var s := StepCall(m, st, NextCall(arg));
      && Phase(s.st, !atQ1)
      && s.o == Normal(if atQ1 then YTake(patternOrChannel) else YFork(worker, args, arg))
      && s.st.memory == (if atQ1 then st.memory else arg)
  {
    if atQ1 {
      assert m.states["q1"](st.memory, Undefined)
          == Returns(StateRecord(Named("q2"), YTake(patternOrChannel), Some(SET_ACTION), None));
    } else {
      assert m.updaters[SET_ACTION](st.memory, arg) == arg;
      assert m.states["q2"](arg, Undefined)
          == Returns(StateRecord(Named("q1"), YFork(worker, args, arg), None, None));
    }
  }

  /** What takeEvery yields for the `i`-th of a run of calls begun in q1
      (`atQ1`) or in q2. */
  function Expected(patternOrChannel: Value, worker: Value, args: seq<Value>, atQ1: bool, i: nat, c: Call): StepOutcome
    requires !Is.Undef(worker)
  {
    Normal(if (i % 2 == 0) == atQ1 then YTake(patternOrChannel) else YFork(worker, args, ArgOf(c)))
  }

  /** Fed only values, takeEvery keeps alternating between q1 and q2: it
      never ends and never reaches an error state. */
  lemma {:induction false} RunStaysInPhase(m: Machine, patternOrChannel: Value, worker: Value, args: seq<Value>,
                                           st: FsmState, atQ1: bool, calls: seq<Call>)
    requires Behaves(m, patternOrChannel, worker, args) && Phase(st, atQ1)
    requires forall i :: 0 <= i < |calls| ==> calls[i].NextCall?
    ensures Phase(RunCalls(m, st, calls).st, (|calls| % 2 == 0) == atQ1)
    decreases |calls|
  {
    if calls != [] {
      var s := StepCall(m, st, calls[0]);
      StepAlternates(m, patternOrChannel, worker, args, st, atQ1, calls[0].arg);
      assert calls[0] == NextCall(calls[0].arg);
      RunStaysInPhase(m, patternOrChannel, worker, args, s.st, !atQ1, calls[1..]);
      ParityFlips(|calls|);
    }
  }

  /** Fed only values, takeEvery strictly alternates take and fork, forking
      each time with the value fed right after the take. */
  lemma {:induction false} RunAlternates(m: Machine, patternOrChannel: Value, worker: Value, args: seq<Value>,
                                         st: FsmState, atQ1: bool, calls: seq<Call>)
    requires Behaves(m, patternOrChannel, worker, args) && Phase(st, atQ1)
    requires forall i :: 0 <= i < |calls| ==> calls[i].NextCall?
    ensures forall i :: 0 <= i < |calls| ==>
      RunCalls(m, st, calls).outs[i] == Expected(patternOrChannel, worker, args, atQ1, i, calls[i])
    decreases |calls|
  {
    if calls != [] {
      var s := StepCall(m, st, calls[0]);
      StepAlternates(m, patternOrChannel, worker, args, st, atQ1, calls[0].arg);
      assert calls[0] == NextCall(calls[0].arg);
      RunAlternates(m, patternOrChannel, worker, args, s.st, !atQ1, calls[1..]);
      var rest := RunCalls(m, s.st, calls[1..]);
      assert RunCalls(m, st, calls).outs == [s.o] + rest.outs;
      ShiftExpected(patternOrChannel, worker, args, atQ1, calls, s.o, rest.outs);
    }
  }

  lemma ParityFlips(n: nat)
    requires n > 0
    ensures ((n - 1) % 2 == 0) == !(n % 2 == 0)
  {
  }

  lemma ShiftExpected(patternOrChannel: Value, worker: Value, args: seq<Value>, atQ1: bool,
                      calls: seq<Call>, first: StepOutcome, rest: seq<StepOutcome>)
    requires !Is.Undef(worker) && |calls| == |rest| + 1
    requires first == Expected(patternOrChannel, worker, args, atQ1, 0, calls[0])
    requires forall i :: 0 <= i < |rest| ==> rest[i] == Expected(patternOrChannel, worker, args, !atQ1, i, calls[1..][i])
    ensures forall i :: 0 <= i < |calls| ==> ([first] + rest)[i] == Expected(patternOrChannel, worker, args, atQ1, i, calls[i])
  {
    forall i | 1 <= i < |calls|
      ensures ([first] + rest)[i] == Expected(patternOrChannel, worker, args, atQ1, i, calls[i])
    {
      assert calls[1..][i - 1] == calls[i];
      assert ([first] + rest)[i] == rest[i - 1];
      ParityFlips(i);
    }
  }

  /** An error thrown into takeEvery is rethrown and ends it: it has no error
      state. */
  lemma ErrorEndsTakeEvery(m: Machine, patternOrChannel: Value, worker: Value, args: seq<Value>,
                           st: FsmState, atQ1: bool, error: Value)
    requires Behaves(m, patternOrChannel, worker, args) && Phase(st, atQ1) && Truthy(error)
    ensures StepCall(m, st, ThrowCall(error)) == Stepped(st.(nextState := QEnd), Raised(error))
  {
  }
}
