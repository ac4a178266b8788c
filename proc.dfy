/**
 * The generator driver of packages/core/src/internal/proc.js: `next` resumes
 * the generator with the outcome of the effect it last yielded (or with the
 * TASK_CANCEL / TERMINATE signals), and `digestEffect` hands each yielded value
 * to whatever settles it, behind a latch that lets either the completion
 * callback or the cancellation fire, once.
 *
 * Everything the driver calls but does not own is recorded, in order, in
 * `calls`: the main task's continuation, `resolvePromise`, a child `proc`, the
 * effect runners, callbacks other than `next`, and the cancellation a runner
 * attached to its callback.
 */
module Procs {
  import opened JsValues
  import Is
  import opened Coroutines
  import opened SagaErrors
  import opened Tasks
  import opened ForkQueues

  /** The callback an effect settles into: the driver `next` itself, or a
      callback an effect runner handed to `digestEffect` for a child effect. */
  datatype Callback = NextCb | RunnerCb(id: nat)

  /** `effectSettled` of one dispatch, with how it was settled. */
  datatype Latch = Open | Completed(res: Value, isErr: bool) | Withdrawn

  datatype EffectRecord = EffectRecord(effect: Value, cb: Callback, latch: Latch)

  datatype ProcCall =
    | MainCont(value: Value, isErr: bool)                    // mainTask.cont(value, isErr)
    | AdoptPromise(effectId: nat, promise: Value)            // resolvePromise(promise, currCb)
    | RunChild(effectId: nat, child: Value)                  // proc(env, child, task.context, effectId, meta, false, currCb)
    | RunEffect(effectId: nat, kind: Value, payload: Value)  // effectRunnerMap[kind](env, payload, currCb, executingContext)
    | CallBack(cb: Callback, res: Value, isErr: bool)        // cb(res, isErr) for a callback other than `next`
    | CancelRunner(effectId: nat)                            // currCb.cancel(), as the runner set it up

  /** An argument owed to `next`. */
  datatype Feed = Feed(arg: Value, isErr: bool)

  /** Everything the driver reads and writes: the main task's status, the
      generator's resumptions, the dispatched effects by id, the live
      `cb.cancel` of each callback, the next effect id, the outgoing calls,
      and the shared error stack. */
  datatype ProcState = ProcState(
    status: Status,
    log: seq<Resumption>,
    effects: map<nat, EffectRecord>,
    cancelOf: map<Callback, nat>,
    nextId: nat,
    calls: seq<ProcCall>,
    frames: seq<Frame>,
    crashed: Option<Value>)

  /** The state after a callback or a dispatch, and the argument owed to
      `next` when it is `next` that was called back. */
  datatype Moved = Moved(ps: ProcState, feed: Option<Feed>)

  // ---------------------------------------------------------------------
  // Resuming the generator

  /** How `next` resumes the generator for an argument: through one of its
      methods, or, when it has no `return`, with a made-up final result. */
  datatype Route = Resumes(r: Resumption) | Synthesizes(result: IterResult)

  function RouteOf(arg: Value, isErr: bool, hasReturn: bool): (rt: Route)
    ensures rt.Resumes? && rt.r.Return? ==> hasReturn
  {
    if isErr then Resumes(Throw(arg))
    else if arg == TASK_CANCEL then
      if hasReturn then Resumes(Return(Some(TASK_CANCEL))) else Synthesizes(IterResult(true, TASK_CANCEL))
    else if arg == TERMINATE then
      if hasReturn then Resumes(Return(None)) else Synthesizes(IterResult(true, Undefined))
    else Resumes(Next(arg))
  }

  /** Only an ordinary value reaches the generator's `next`; an error is thrown
      into it, and both signals end it, through `return` when it has one. */
  lemma SignalsFinish(arg: Value, isErr: bool, hasReturn: bool)
    ensures var rt := RouteOf(arg, isErr, hasReturn);
      && (rt == Resumes(Next(arg)) <==> !isErr && arg != TASK_CANCEL && arg != TERMINATE)
      && (isErr <==> rt == Resumes(Throw(arg)))
      && (!isErr && (arg == TASK_CANCEL || arg == TERMINATE) <==>
            (if hasReturn then rt.Resumes? && rt.r.Return? else rt.Synthesizes? && rt.result.done))
  {
  }

  function OutcomeOf(rt: Route, react: (seq<Resumption>, Resumption) -> StepOutcome, log: seq<Resumption>): StepOutcome {
    match rt
    case Resumes(r) => react(log, r)
    case Synthesizes(result) => Normal(result)
  }

  /** What `next` does once the generator has answered. */
  datatype Resolution = Digest(effect: Value) | Finished(status: Status, value: Value, isErr: bool) | Rethrow(error: Value)

  function Resolve(status: Status, o: StepOutcome): (res: Resolution)
    ensures res.Finished? ==> res.status != Running
    ensures res.Rethrow? <==> o.Raised? && status == Cancelled
    ensures res.Digest? <==> o.Normal? && !o.result.done
  {
    match o
    case Normal(result) =>
      if !result.done then Digest(result.value)
      else Finished(if status == Cancelled then Cancelled else Done, result.value, false)
    case Raised(e) =>
      if status == Cancelled then Rethrow(e) else Finished(Aborted, e, true)
  }

  /** A generator that returns ends its main task as DONE, or keeps it
      CANCELLED, and reports the value; one that throws aborts it and reports
      the error, unless it was cancelled, when the error escapes `next`. */
  lemma ResolveOutcomes(status: Status, o: StepOutcome)
    ensures o.Normal? && o.result.done ==>
      Resolve(status, o) == Finished(if status == Cancelled then Cancelled else Done, o.result.value, false)
    ensures o.Raised? && status != Cancelled ==> Resolve(status, o) == Finished(Aborted, o.error, true)
    ensures status == Cancelled ==> !(Resolve(status, o).Finished? && Resolve(status, o).status != Cancelled)
  {
  }

  // ---------------------------------------------------------------------
  // Dispatching effects

  /** How `runEffect` settles a yielded value, tested in this order. */
  datatype Dispatch = Adopt | Child | Runner(kind: Value, payload: Value) | AsIs

  function Classify(effect: Value): (d: Dispatch)
    ensures d.Adopt? <==> Is.Promise(effect)
    ensures d.Child? <==> !Is.Promise(effect) && Is.Iterator(effect)
    ensures d.Runner? <==> !Is.Promise(effect) && !Is.Iterator(effect) && Is.Effect(effect)
    ensures d.Runner? ==> d == Runner(Get(effect, "type"), Get(effect, "payload"))
    ensures d.AsIs? ==> !Is.Promise(effect) && !Is.Iterator(effect) && !Is.Effect(effect)
  {
    if Is.Promise(effect) then Adopt
    else if Is.Iterator(effect) then Child
    else if Truthy(effect) && Truthy(Get(effect, IO)) then Runner(Get(effect, "type"), Get(effect, "payload"))
    else AsIs
  }

  /** Values that are not objects are never run: the generator gets them back. */
  lemma PrimitivesAsIs(v: Value)
    requires !(v.Obj? || v.Func? || v.Arr?)
    ensures Classify(v) == AsIs
  {
  }

  /** An effect description `{ [IO]: true, type, payload }` without `then`,
      `next` or `throw` goes to the runner for its type, with its payload. */
  lemma DescriptionsRun(kind: string, payload: Value)
    ensures Classify(Obj(map[IO := Bool(true), "combinator" := Bool(false), "type" := Str(kind), "payload" := payload]))
         == Runner(Str(kind), payload)
  {
    var e := Obj(map[IO := Bool(true), "combinator" := Bool(false), "type" := Str(kind), "payload" := payload]);
    assert Get(e, "then") == Undefined && Get(e, "next") == Undefined;
  }

  /** `currCb(res, isErr)` of effect `id`: the first call settles the effect,
      drops the callback's cancellation, records a failing effect as the one
      that crashed, and calls the callback; later calls do nothing. */
  function SettleSpec(ps: ProcState, id: nat, res: Value, isErr: bool): Moved
    requires id in ps.effects
  {
    var r := ps.effects[id];
    if !r.latch.Open? then Moved(ps, None)
    else
      var ps1 := ps.(effects := ps.effects[id := r.(latch := Completed(res, isErr))],
                     cancelOf := ps.cancelOf - {r.cb},
                     crashed := if isErr then Some(r.effect) else ps.crashed);
      if r.cb == NextCb then Moved(ps1, Some(Feed(res, isErr)))
      else Moved(ps1.(calls := ps1.calls + [CallBack(r.cb, res, isErr)]), None)
  }

  /** `cb.cancel()`: when the effect the callback waits for is still open,
      settle it as cancelled and propagate to the runner; otherwise nothing. */
  function WithdrawSpec(ps: ProcState, cb: Callback): ProcState {
    if cb !in ps.cancelOf || ps.cancelOf[cb] !in ps.effects then ps
    else
      var id := ps.cancelOf[cb];
      var r := ps.effects[id];
      if !r.latch.Open? then ps
      else ps.(effects := ps.effects[id := r.(latch := Withdrawn)], calls := ps.calls + [CancelRunner(id)])
  }

  /** `digestEffect(effect, cb)`: take a fresh id, open its latch, make
      `cb.cancel` withdraw it, then run it; a plain value settles at once. */
  function DigestSpec(ps: ProcState, effect: Value, cb: Callback): Moved {
    var id := ps.nextId;
    var ps1 := ps.(effects := ps.effects[id := EffectRecord(effect, cb, Open)],
                   cancelOf := ps.cancelOf[cb := id],
                   nextId := id + 1);
    match Classify(effect)
    case Adopt => Moved(ps1.(calls := ps1.calls + [AdoptPromise(id, effect)]), None)
    case Child => Moved(ps1.(calls := ps1.calls + [RunChild(id, effect)]), None)
    case Runner(kind, payload) => Moved(ps1.(calls := ps1.calls + [RunEffect(id, kind, payload)]), None)
    case AsIs => SettleSpec(ps1, id, effect, false)
  }

  /** Completion and cancellation of one effect exclude each other, and each
      takes effect at most once. */
  lemma LatchExclusive(ps: ProcState, id: nat, cb: Callback, res: Value, isErr: bool, res': Value, isErr': bool)
    requires id in ps.effects && cb in ps.cancelOf && ps.cancelOf[cb] == id
    ensures var settled := SettleSpec(ps, id, res, isErr).ps;
      && WithdrawSpec(settled, cb) == settled
      && SettleSpec(settled, id, res', isErr') == Moved(settled, None)
    ensures var withdrawn := WithdrawSpec(ps, cb);
      && SettleSpec(withdrawn, id, res, isErr) == Moved(withdrawn, None)
      && WithdrawSpec(withdrawn, cb) == withdrawn
  {
  }

  /** A plain value yielded to `next` comes straight back to it. */
  lemma AsIsComesBack(ps: ProcState, v: Value)
    requires Classify(v) == AsIs
    ensures var m := DigestSpec(ps, v, NextCb);
      && m.feed == Some(Feed(v, false))
      && m.ps.nextId == ps.nextId + 1
      && m.ps.effects == ps.effects[ps.nextId := EffectRecord(v, NextCb, Completed(v, false))]
      && m.ps.calls == ps.calls
  {
  }

  // ---------------------------------------------------------------------
  // One step of `next`, and `next` run to the point where it waits

  /** `next(arg, isErr)` up to the resumption it owes itself when the yielded
      value settles at once; `ends` when the generator finished or threw. */
  datatype StepResult = StepResult(ps: ProcState, thrown: Option<Value>, feed: Option<Feed>, ends: bool)

  /** The generator's answer, and the state once it has answered. */
  datatype Prepared = Prepared(ps: ProcState, o: StepOutcome)

  /** The first half of `next`: on TASK_CANCEL mark the main task CANCELLED
      and withdraw the effect it waits on; resume the generator; if it handled
      an error thrown into it, clear the error stack. */
  function PrepareSpec(ps: ProcState, react: (seq<Resumption>, Resumption) -> StepOutcome, hasReturn: bool,
                       arg: Value, isErr: bool): Prepared
  {
    var rt := RouteOf(arg, isErr, hasReturn);
    var o := OutcomeOf(rt, react, ps.log);
    var ps0 := if !isErr && arg == TASK_CANCEL then WithdrawSpec(ps.(status := Cancelled), NextCb) else ps;
    var ps1 := ps0.(log := ps.log + (if rt.Resumes? then [rt.r] else []));
    Prepared(if isErr && o.Normal? then ps1.(frames := [], crashed := None) else ps1, o)
  }

  /** The second half of `next`: digest what the generator yielded, or end
      the main task, or let the exception escape. */
  function ResolveSpec(ps: ProcState, o: StepOutcome): StepResult {
    match Resolve(ps.status, o)
    case Digest(v) =>
      var m := DigestSpec(ps, v, NextCb);
      StepResult(m.ps, None, m.feed, false)
    case Finished(st, v, e) =>
      StepResult(ps.(status := st, calls := ps.calls + [MainCont(v, e)]), None, None, true)
    case Rethrow(e) =>
      StepResult(ps, Some(e), None, true)
  }

  function StepSpec(ps: ProcState, react: (seq<Resumption>, Resumption) -> StepOutcome, hasReturn: bool,
                    arg: Value, isErr: bool): StepResult
  {
    var p := PrepareSpec(ps, react, hasReturn, arg, isErr);
    ResolveSpec(p.ps, p.o)
  }

  /** Where `next` leaves things after one step: if it owes itself a
      resumption, it takes it, up to `fuel` more times. */
  function Continue(s: StepResult, react: (seq<Resumption>, Resumption) -> StepOutcome, hasReturn: bool,
                    fuel: nat): StepResult
    decreases fuel, 0
  {
    if s.thrown.Some? || s.feed.None? || fuel == 0 then s
    else DriveSpec(s.ps, react, hasReturn, s.feed.value.arg, s.feed.value.isErr, fuel - 1)
  }

  /** `next(arg, isErr)`, including the nested calls to `next` made by values
      that settle at once; an error rethrown by a nested call escapes every
      enclosing one, as the main task is then CANCELLED for all of them. */
  function DriveSpec(ps: ProcState, react: (seq<Resumption>, Resumption) -> StepOutcome, hasReturn: bool,
                     arg: Value, isErr: bool, fuel: nat): StepResult
    decreases fuel, 1
  {
    Continue(StepSpec(ps, react, hasReturn, arg, isErr), react, hasReturn, fuel)
  }

  /** Once the main task is CANCELLED, or `next` gets TASK_CANCEL, it stays
      CANCELLED: it is never marked DONE or ABORTED. */
  lemma {:induction false} CancellationSticks(ps: ProcState, react: (seq<Resumption>, Resumption) -> StepOutcome,
                                              hasReturn: bool, arg: Value, isErr: bool, fuel: nat)
    requires ps.status == Cancelled || (!isErr && arg == TASK_CANCEL)
    ensures DriveSpec(ps, react, hasReturn, arg, isErr, fuel).ps.status == Cancelled
    decreases fuel
  {
    var s := StepSpec(ps, react, hasReturn, arg, isErr);
    if !(s.thrown.Some? || s.feed.None? || fuel == 0) {
      CancellationSticks(s.ps, react, hasReturn, s.feed.value.arg, s.feed.value.isErr, fuel - 1);
    }
  }

  /** An exception leaves `next` only when the main task is CANCELLED. */
  lemma {:induction false} RethrowsOnlyCancelled(ps: ProcState, react: (seq<Resumption>, Resumption) -> StepOutcome,
                                                 hasReturn: bool, arg: Value, isErr: bool, fuel: nat)
    ensures var s := DriveSpec(ps, react, hasReturn, arg, isErr, fuel);
      s.thrown.Some? ==> s.ps.status == Cancelled && s.ends
    decreases fuel
  {
    var s := StepSpec(ps, react, hasReturn, arg, isErr);
    if !(s.thrown.Some? || s.feed.None? || fuel == 0) {
      RethrowsOnlyCancelled(s.ps, react, hasReturn, s.feed.value.arg, s.feed.value.isErr, fuel - 1);
    }
  }

  /** Calls are only ever appended. */
  lemma {:induction false} CallsGrow(ps: ProcState, react: (seq<Resumption>, Resumption) -> StepOutcome,
                                     hasReturn: bool, arg: Value, isErr: bool, fuel: nat)
    ensures ps.calls <= DriveSpec(ps, react, hasReturn, arg, isErr, fuel).ps.calls
    decreases fuel
  {
    var s := StepSpec(ps, react, hasReturn, arg, isErr);
    StepCallsGrow(ps, react, hasReturn, arg, isErr);
    if !(s.thrown.Some? || s.feed.None? || fuel == 0) {
      CallsGrow(s.ps, react, hasReturn, s.feed.value.arg, s.feed.value.isErr, fuel - 1);
    }
  }

  lemma StepCallsGrow(ps: ProcState, react: (seq<Resumption>, Resumption) -> StepOutcome,
                      hasReturn: bool, arg: Value, isErr: bool)
    ensures ps.calls <= StepSpec(ps, react, hasReturn, arg, isErr).ps.calls
  {
  }

  /** TASK_CANCEL first cancels the effect the generator is waiting on, before
      the generator runs its cleanup. */
  lemma CancelReachesPendingEffect(ps: ProcState, react: (seq<Resumption>, Resumption) -> StepOutcome,
                                   hasReturn: bool, fuel: nat)
    requires NextCb in ps.cancelOf && ps.cancelOf[NextCb] in ps.effects
    requires ps.effects[ps.cancelOf[NextCb]].latch.Open?
    ensures var s := DriveSpec(ps, react, hasReturn, TASK_CANCEL, false, fuel);
      |s.ps.calls| > |ps.calls| && s.ps.calls[|ps.calls|] == CancelRunner(ps.cancelOf[NextCb])
  {
    var s1 := StepSpec(ps, react, hasReturn, TASK_CANCEL, false);
    var w := WithdrawSpec(ps.(status := Cancelled), NextCb);
    assert w.calls == ps.calls + [CancelRunner(ps.cancelOf[NextCb])];
    assert w.calls <= s1.ps.calls;
    var s1f := Continue(s1, react, hasReturn, fuel);
    if !(s1.thrown.Some? || s1.feed.None? || fuel == 0) {
      CallsGrow(s1.ps, react, hasReturn, s1.feed.value.arg, s1.feed.value.isErr, fuel - 1);
    }
    assert w.calls <= s1f.ps.calls;
  }

  // ---------------------------------------------------------------------
  // The invariant of a driver

  function MainConts(calls: seq<ProcCall>): nat {
    if calls == [] then 0
    else MainConts(calls[..|calls| - 1]) + (if calls[|calls| - 1].MainCont? then 1 else 0)
  }

  lemma MainContsSnoc(calls: seq<ProcCall>, c: ProcCall)
    ensures MainConts(calls + [c]) == MainConts(calls) + (if c.MainCont? then 1 else 0)
  {
    assert (calls + [c])[..|calls|] == calls;
  }

  ghost predicate WellFormed(ps: ProcState) {
    && (forall id :: id in ps.effects ==> id < ps.nextId)
    && (forall cb :: cb in ps.cancelOf ==> ps.cancelOf[cb] in ps.effects)
  }

  /** No effect is waiting to resume `next`. */
  ghost predicate NoOpenNext(ps: ProcState) {
    forall id :: id in ps.effects && ps.effects[id].cb == NextCb ==> !ps.effects[id].latch.Open?
  }

  /** The only effect that can resume `next` is the one `next.cancel` withdraws. */
  ghost predicate OpenNextIsCurrent(ps: ProcState) {
    forall id :: id in ps.effects && ps.effects[id].cb == NextCb && ps.effects[id].latch.Open? ==>
      NextCb in ps.cancelOf && ps.cancelOf[NextCb] == id
  }

  /** `over` says the generator finished or threw. The main continuation is
      called at most once, and only then; after that the main task is no
      longer RUNNING and nothing can resume the generator. */
  ghost predicate Inv(ps: ProcState, over: bool) {
    && WellFormed(ps)
    && OpenNextIsCurrent(ps)
    && MainConts(ps.calls) <= (if over then 1 else 0)
    && (over ==> ps.status != Running && NoOpenNext(ps))
  }

  lemma SettleKeeps(ps: ProcState, over: bool, id: nat, res: Value, isErr: bool)
    requires Inv(ps, over) && id in ps.effects
    ensures var m := SettleSpec(ps, id, res, isErr);
      && Inv(m.ps, over)
      && (m.feed.Some? ==> !over && NoOpenNext(m.ps))
  {
    var r := ps.effects[id];
    if r.latch.Open? {
      var ps1 := ps.(effects := ps.effects[id := r.(latch := Completed(res, isErr))],
                     cancelOf := ps.cancelOf - {r.cb},
                     crashed := if isErr then Some(r.effect) else ps.crashed);
      assert WellFormed(ps1);
      if r.cb == NextCb {
        assert NoOpenNext(ps1) by {
          forall j | j in ps1.effects && ps1.effects[j].cb == NextCb
            ensures !ps1.effects[j].latch.Open?
          {
            if j != id {
              assert ps1.effects[j] == ps.effects[j];
            }
          }
        }
      } else {
        assert OpenNextIsCurrent(ps1) by {
          forall j | j in ps1.effects && ps1.effects[j].cb == NextCb && ps1.effects[j].latch.Open?
            ensures NextCb in ps1.cancelOf && ps1.cancelOf[NextCb] == j
          {
            assert j != id && ps1.effects[j] == ps.effects[j];
          }
        }
        MainContsSnoc(ps.calls, CallBack(r.cb, res, isErr));
      }
    }
  }

  lemma WithdrawKeeps(ps: ProcState, over: bool, cb: Callback)
    requires Inv(ps, over)
    ensures Inv(WithdrawSpec(ps, cb), over)
    ensures cb == NextCb ==> NoOpenNext(WithdrawSpec(ps, cb))
  {
    if cb in ps.cancelOf && ps.cancelOf[cb] in ps.effects && ps.effects[ps.cancelOf[cb]].latch.Open? {
      MainContsSnoc(ps.calls, CancelRunner(ps.cancelOf[cb]));
    }
  }

  lemma DigestKeeps(ps: ProcState, over: bool, effect: Value, cb: Callback)
    requires Inv(ps, over)
    requires cb == NextCb ==> !over && NoOpenNext(ps)
    ensures var m := DigestSpec(ps, effect, cb);
      && Inv(m.ps, over)
      && (m.feed.Some? ==> cb == NextCb && NoOpenNext(m.ps))
  {
    var id := ps.nextId;
    var ps1 := ps.(effects := ps.effects[id := EffectRecord(effect, cb, Open)],
                   cancelOf := ps.cancelOf[cb := id],
                   nextId := id + 1);
    assert Inv(ps1, over);
    match Classify(effect)
    case Adopt => MainContsSnoc(ps1.calls, AdoptPromise(id, effect));
    case Child => MainContsSnoc(ps1.calls, RunChild(id, effect));
    case Runner(kind, payload) => MainContsSnoc(ps1.calls, RunEffect(id, kind, payload));
    case AsIs => SettleKeeps(ps1, over, id, effect, false);
  }

  /** The first half of a step leaves a live generator that nothing else can
      resume. */
  lemma PrepareKeeps(ps: ProcState, react: (seq<Resumption>, Resumption) -> StepOutcome, hasReturn: bool,
                     arg: Value, isErr: bool)
    requires Inv(ps, false)
    requires (!isErr && arg == TASK_CANCEL) || NoOpenNext(ps)
    ensures var p := PrepareSpec(ps, react, hasReturn, arg, isErr);
      Inv(p.ps, false) && NoOpenNext(p.ps)
  {
    if !isErr && arg == TASK_CANCEL {
      WithdrawKeeps(ps.(status := Cancelled), false, NextCb);
    }
  }

  /** The second half of a step keeps the invariant, with `ends` set when the
      generator finished or threw. */
  lemma ResolveKeeps(ps: ProcState, o: StepOutcome)
    requires Inv(ps, false) && NoOpenNext(ps)
    ensures var s := ResolveSpec(ps, o);
      && Inv(s.ps, s.ends)
      && (s.feed.Some? ==> !s.ends && NoOpenNext(s.ps))
  {
    match Resolve(ps.status, o)
    case Digest(v) => DigestKeeps(ps, false, v, NextCb);
    case Finished(st, v, e) => MainContsSnoc(ps.calls, MainCont(v, e));
    case Rethrow(e) =>
  }

  /** One step of `next` from a live generator keeps the invariant; a
      resumption it owes itself leaves nothing else able to resume it. */
  lemma StepKeeps(ps: ProcState, react: (seq<Resumption>, Resumption) -> StepOutcome, hasReturn: bool,
                  arg: Value, isErr: bool)
    requires Inv(ps, false)
    requires (!isErr && arg == TASK_CANCEL) || NoOpenNext(ps)
    ensures var s := StepSpec(ps, react, hasReturn, arg, isErr);
      && Inv(s.ps, s.ends)
      && (s.feed.Some? ==> !s.ends && NoOpenNext(s.ps))
  {
    PrepareKeeps(ps, react, hasReturn, arg, isErr);
    var p := PrepareSpec(ps, react, hasReturn, arg, isErr);
    ResolveKeeps(p.ps, p.o);
  }

  lemma {:induction false} DriveKeeps(ps: ProcState, react: (seq<Resumption>, Resumption) -> StepOutcome,
                                      hasReturn: bool, arg: Value, isErr: bool, fuel: nat)
    requires Inv(ps, false)
    requires (!isErr && arg == TASK_CANCEL) || NoOpenNext(ps)
    ensures var s := DriveSpec(ps, react, hasReturn, arg, isErr, fuel);
      && Inv(s.ps, s.ends)
      && (s.feed.Some? ==> !s.ends && NoOpenNext(s.ps))
    decreases fuel
  {
    var s := StepSpec(ps, react, hasReturn, arg, isErr);
    StepKeeps(ps, react, hasReturn, arg, isErr);
    if !(s.thrown.Some? || s.feed.None? || fuel == 0) {
      DriveKeeps(s.ps, react, hasReturn, s.feed.value.arg, s.feed.value.isErr, fuel - 1);
    }
  }

  /** However the generator behaves, a driver started on a fresh generator
      calls the main continuation at most once, and only with the main task
      no longer RUNNING. */
  lemma MainContAtMostOnce(ps: ProcState, react: (seq<Resumption>, Resumption) -> StepOutcome,
                           hasReturn: bool, arg: Value, isErr: bool, fuel: nat)
    requires Inv(ps, false) && NoOpenNext(ps)
    ensures var s := DriveSpec(ps, react, hasReturn, arg, isErr, fuel);
      && MainConts(s.ps.calls) <= 1
      && (MainConts(s.ps.calls) == 1 ==> s.ps.status != Running)
  {
    DriveKeeps(ps, react, hasReturn, arg, isErr, fuel);
  }

  // ---------------------------------------------------------------------
  // The driver

  class Proc {
    const gen: Coroutine
    const mainTask: MainTask
    const stack: SagaStack
    var effects: map<nat, EffectRecord>
    var cancelOf: map<Callback, nat>
    var nextId: nat
    var calls: seq<ProcCall>
    /** The generator finished or threw. */
    ghost var over: bool

    function Model(): ProcState
      reads this, mainTask, gen, stack
    {
      ProcState(mainTask.status, gen.log, effects, cancelOf, nextId, calls, stack.frames, stack.crashedEffect)
    }

    ghost predicate Valid()
      reads this, mainTask, gen, stack
    {
      Inv(Model(), over)
    }

    /** `proc(...)` up to kicking off the generator: `next.cancel = noop` and
        a RUNNING main task. */
    constructor (gen: Coroutine, ref: TaskRef, stack: SagaStack)
      requires gen.log == []
      ensures this.gen == gen && this.stack == stack && fresh(mainTask) && mainTask.ref == ref
      ensures Model() == ProcState(Running, [], map[], map[], 0, [], stack.frames, stack.crashedEffect)
      ensures Valid() && !over && NoOpenNext(Model())
    {
      this.gen := gen;
      this.stack := stack;
      mainTask := new MainTask(ref);
      effects, cancelOf, nextId, calls := map[], map[], 0, [];
      over := false;
    }

    /** `currCb(res, isErr)` of effect `id`; the argument owed to `next`, when
        `next` is the callback, is returned rather than fed. */
    method Settle(id: nat, res: Value, isErr: bool) returns (feed: Option<Feed>)
      requires id in effects
      modifies this, stack
      ensures Moved(Model(), feed) == SettleSpec(old(Model()), id, res, isErr)
      ensures over == old(over)
    {
      var r := effects[id];
      feed := None;
      if r.latch.Open? {
        effects := effects[id := r.(latch := Completed(res, isErr))];
        cancelOf := cancelOf - {r.cb};
        if isErr {
          stack.SetCrashedEffect(r.effect);
        }
        if r.cb == NextCb {
          feed := Some(Feed(res, isErr));
        } else {
          calls := calls + [CallBack(r.cb, res, isErr)];
        }
      }
    }

    /** `cb.cancel()`, as a parent calls it to cancel what `cb` waits for. */
    method Withdraw(cb: Callback)
      requires Valid()
      modifies this
      ensures Model() == WithdrawSpec(old(Model()), cb)
      ensures over == old(over) && Valid()
    {
      WithdrawKeeps(Model(), over, cb);
      if cb in cancelOf && cancelOf[cb] in effects {
        var id := cancelOf[cb];
        var r := effects[id];
        if r.latch.Open? {
          effects := effects[id := r.(latch := Withdrawn)];
          calls := calls + [CancelRunner(id)];
        }
      }
    }

    /** `digestEffect(effect, parentEffectId, cb)`. */
    method Digest(effect: Value, cb: Callback) returns (feed: Option<Feed>)
      modifies this, stack
      ensures Moved(Model(), feed) == DigestSpec(old(Model()), effect, cb)
      ensures over == old(over)
    {
      var id := nextId;
      nextId := nextId + 1;
      effects := effects[id := EffectRecord(effect, cb, Open)];
      cancelOf := cancelOf[cb := id];
      feed := None;
      match Classify(effect)
      case Adopt => calls := calls + [AdoptPromise(id, effect)];
      case Child => calls := calls + [RunChild(id, effect)];
      case Runner(kind, payload) => calls := calls + [RunEffect(id, kind, payload)];
      case AsIs => feed := Settle(id, effect, false);
    }

    /** The `digestEffect` an effect runner reaches through the executing
        context, for a child effect settled into the runner's own callback. */
    method DigestForRunner(effect: Value, cb: Callback)
      requires Valid() && cb.RunnerCb?
      modifies this, stack
      ensures Model() == DigestSpec(old(Model()), effect, cb).ps
      ensures over == old(over) && Valid()
    {
      DigestKeeps(Model(), over, effect, cb);
      var feed := Digest(effect, cb);
    }

    /** The first half of `next(arg, isErr)`. */
    method Prepare(arg: Value, isErr: bool) returns (o: StepOutcome)
      requires Valid() && !over
      modifies this, mainTask, gen, stack
      ensures Prepared(Model(), o) == PrepareSpec(old(Model()), gen.react, gen.hasReturn, arg, isErr)
      ensures over == old(over)
    {
      var rt := RouteOf(arg, isErr, gen.hasReturn);
      if !isErr && arg == TASK_CANCEL {
        mainTask.status := Cancelled;
        Withdraw(NextCb);
      }
      match rt {
        case Resumes(r) => o := gen.Resume(r);
        case Synthesizes(result) => o := Normal(result);
      }
      if isErr && o.Normal? {
        stack.Clear();
      }
    }

    /** The second half of `next(arg, isErr)`. */
    method Conclude(o: StepOutcome) returns (thrown: Option<Value>, feed: Option<Feed>)
      modifies this, mainTask, stack
      ensures StepResult(Model(), thrown, feed, over) == ResolveSpec(old(Model()), o)
    {
      thrown, feed := None, None;
      match Resolve(mainTask.status, o)
      case Digest(v) =>
        feed := Digest(v, NextCb);
        over := false;
      case Finished(st, v, e) =>
        mainTask.status := st;
        calls := calls + [MainCont(v, e)];
        over := true;
      case Rethrow(e) =>
        thrown := Some(e);
        over := true;
    }

    /** One step of `next(arg, isErr)`. */
    method Step(arg: Value, isErr: bool) returns (thrown: Option<Value>, feed: Option<Feed>)
      requires Valid() && !over
      requires (!isErr && arg == TASK_CANCEL) || NoOpenNext(Model())
      modifies this, mainTask, gen, stack
      ensures StepResult(Model(), thrown, feed, over)
           == StepSpec(old(Model()), gen.react, gen.hasReturn, arg, isErr)
      ensures Valid() && (feed.Some? ==> !over && NoOpenNext(Model()))
    {
      StepKeeps(Model(), gen.react, gen.hasReturn, arg, isErr);
      var o := Prepare(arg, isErr);
      thrown, feed := Conclude(o);
    }

    /** `next(arg, isErr)`: step until the generator waits on an effect,
        finishes or throws. A value that settles at once makes `next` call
        itself; at most `fuel` such calls are made, and a resumption still owed
        after them is returned as `pending`. */
    method Next(arg: Value, isErr: bool, fuel: nat) returns (thrown: Option<Value>, pending: Option<Feed>)
      requires Valid() && !over
      requires (!isErr && arg == TASK_CANCEL) || NoOpenNext(Model())
      modifies this, mainTask, gen, stack
      ensures StepResult(Model(), thrown, pending, over)
           == DriveSpec(old(Model()), gen.react, gen.hasReturn, arg, isErr, fuel)
      ensures Valid() && (pending.Some? ==> !over && NoOpenNext(Model()))
      decreases fuel
    {
      thrown, pending := Step(arg, isErr);
      if thrown.None? && pending.Some? && fuel > 0 {
        thrown, pending := Next(pending.value.arg, pending.value.isErr, fuel - 1);
      }
    }

    /** `next()`, which `proc` calls once to start the generator. */
    method Start(fuel: nat) returns (thrown: Option<Value>, pending: Option<Feed>)
      requires Valid() && !over && NoOpenNext(Model())
      modifies this, mainTask, gen, stack
      ensures StepResult(Model(), thrown, pending, over)
           == DriveSpec(old(Model()), gen.react, gen.hasReturn, Undefined, false, fuel)
      ensures Valid()
    {
      thrown, pending := Next(Undefined, false, fuel);
    }

    /** `cancelMain()`: a RUNNING main task becomes CANCELLED and the generator
        is resumed with TASK_CANCEL; otherwise nothing happens. */
    method CancelMain(fuel: nat) returns (thrown: Option<Value>, pending: Option<Feed>)
      requires Valid()
      modifies this, mainTask, gen, stack
      ensures old(mainTask.status) == Running ==>
        StepResult(Model(), thrown, pending, over)
          == DriveSpec(old(Model()).(status := Cancelled), gen.react, gen.hasReturn, TASK_CANCEL, false, fuel)
      ensures old(mainTask.status) != Running ==>
        Model() == old(Model()) && over == old(over) && thrown == None && pending == None
      ensures Valid()
    {
      thrown, pending := None, None;
      if mainTask.status == Running {
        mainTask.status := Cancelled;
        thrown, pending := Next(TASK_CANCEL, false, fuel);
      }
    }

    /** An effect runner calls `currCb(res, isErr)` of effect `id`; if that
        resumes `next`, the driver runs on. */
    method Callback(id: nat, res: Value, isErr: bool, fuel: nat) returns (thrown: Option<Value>, pending: Option<Feed>)
      requires Valid() && id in effects
      modifies this, mainTask, gen, stack
      ensures var m := SettleSpec(old(Model()), id, res, isErr);
        && (m.feed.None? ==> Model() == m.ps && over == old(over) && thrown == None && pending == None)
        && (m.feed.Some? ==>
              StepResult(Model(), thrown, pending, over)
                == DriveSpec(m.ps, gen.react, gen.hasReturn, m.feed.value.arg, m.feed.value.isErr, fuel))
      ensures Valid()
    {
      SettleKeeps(Model(), over, id, res, isErr);
      var feed := Settle(id, res, isErr);
      thrown, pending := None, None;
      if feed.Some? {
        thrown, pending := Next(feed.value.arg, feed.value.isErr, fuel);
      }
    }
  }
}
