/**
 * The task descriptor of packages/core/src/internal/newTask.js: the status
 * machine RUNNING -> CANCELLED / ABORTED / DONE of one running saga, its result
 * or error, the promise handed out by `toPromise`, the joiners waiting for it,
 * its own context layer, and the fork queue of its main flow and forks.
 *
 * The task's calls to code it does not own (its continuation `task.cont`, each
 * joiner's callback, the `cancel` of each sub-task, `env.onError`) are recorded,
 * in order, in `calls`.
 */
module Tasks {
  import opened JsValues
  import opened ForkQueues
  import opened SagaErrors

  datatype Status = Running | Cancelled | Aborted | Done

  /** The state of a promise; settling a settled promise changes nothing. */
  datatype PromiseState = Pending | Resolved(value: Value) | Rejected(error: Value)

  function Settle(p: PromiseState, outcome: PromiseState): PromiseState {
    if p.Pending? then outcome else p
  }

  /** A task waiting in `join` for this one. */
  datatype Joiner = Joiner(id: nat)

  datatype TaskCall =
    | ContCall(result: Value, isErr: bool)                 // task.cont(result, isErr)
    | JoinerCall(joiner: Joiner, result: Value, isErr: bool) // joiner.cb(result, isErr)
    | CancelSub(task: TaskRef)                             // a sub-task's cancel()
    | ReportError(error: Value, sagaStack: seq<Frame>)     // env.onError(error, { sagaStack })

  /** The main flow of a generator, as seen by its task and by `proc`. */
  class MainTask {
    const ref: TaskRef
    var status: Status

    constructor (ref: TaskRef)
      ensures this.ref == ref && status == Running
    {
      this.ref := ref;
      status := Running;
    }
  }

  /** The outcome `toPromise` gives a task in a given state. */
  function PromiseOf(status: Status, result: Value, error: Value): (p: PromiseState)
    ensures p.Pending? <==> status == Running
    ensures p.Rejected? <==> status == Aborted
    ensures status == Aborted ==> p == Rejected(error)
    ensures status != Running && status != Aborted ==> p == Resolved(result)
  {
    match status
    case Running => Pending
    case Aborted => Rejected(error)
    case _ => Resolved(result)
  }

  /** `isCancelled()`: a task reports cancellation when it was cancelled, or
      while it runs and its main flow was cancelled. */
  predicate IsCancelledOf(status: Status, mainStatus: Status) {
    status == Cancelled || (status == Running && mainStatus == Cancelled)
  }

  /** A task aborted by an error whose abort cancelled the main flow reports
      aborted, not cancelled; after its main flow finishes, a running task
      reports cancelled only once the task itself is. */
  lemma AbortedIsNotCancelled(mainStatus: Status)
    ensures !IsCancelledOf(Aborted, mainStatus)
    ensures !IsCancelledOf(Done, mainStatus)
    ensures IsCancelledOf(Running, mainStatus) <==> mainStatus == Cancelled
  {
  }

  /** Everything `end`, `cancel` and the queue's hooks read and write. */
  datatype TaskState = TaskState(
    status: Status,
    result: Value,
    error: Value,
    deferred: Option<PromiseState>,
    joiners: Option<seq<Joiner>>,
    cancelledDueToError: seq<string>,
    frames: seq<Frame>,
    calls: seq<TaskCall>)

  /** The names of tasks, in order. */
  function Names(ts: seq<TaskRef>): (r: seq<string>)
    ensures |r| == |ts| && forall i :: 0 <= i < |ts| ==> r[i] == ts[i].name
  {
    if ts == [] then [] else [ts[0].name] + Names(ts[1..])
  }

  /** One callback per joiner, in list order, with the same arguments. */
  function JoinerCalls(js: seq<Joiner>, result: Value, isErr: bool): (r: seq<TaskCall>)
    ensures |r| == |js| && forall i :: 0 <= i < |js| ==> r[i] == JoinerCall(js[i], result, isErr)
  {
    if js == [] then [] else [JoinerCall(js[0], result, isErr)] + JoinerCalls(js[1..], result, isErr)
  }

  /** The first half of `end(result, isErr)`: record the outcome. A normal
      result sets DONE unless the task was cancelled (TASK_CANCEL always sets
      CANCELLED) and resolves the promise; an error sets ABORTED, pushes the
      task's frame, reports and clears the stack at the root, and rejects the
      promise. */
  function Record(s: TaskState, name: string, isRoot: bool, result: Value, isErr: bool): TaskState {
    if !isErr then
      s.(status := if result == TASK_CANCEL then Cancelled else if s.status != Cancelled then Done else s.status,
         result := result,
         deferred := if s.deferred.Some? then Some(Settle(s.deferred.value, Resolved(result))) else None)
    else
      var frames := s.frames + [Frame(name, s.cancelledDueToError)];
      s.(status := Aborted,
         frames := if isRoot then [] else frames,
         calls := if isRoot then s.calls + [ReportError(result, frames)] else s.calls,
         error := result,
         deferred := if s.deferred.Some? then Some(Settle(s.deferred.value, Rejected(result))) else None)
  }

  /** `end(result, isErr)`: record the outcome, then call the continuation,
      then every joiner, and drop the joiner list. */
  function EndSpec(s: TaskState, name: string, isRoot: bool, result: Value, isErr: bool): TaskState
    requires s.joiners.Some?
  {
    var s1 := Record(s, name, isRoot, result, isErr);
    s1.(calls := s1.calls + [ContCall(result, isErr)] + JoinerCalls(s.joiners.value, result, isErr),
        joiners := None)
  }

  /** The task's reaction to the calls its fork queue makes: `onAbort` records
      the names of the tasks still live, a sub-task's `cancel` is passed on,
      and the owner's continuation is `end`. */
  function Deliver(s: TaskState, name: string, isRoot: bool, qcalls: seq<QueueCall>): TaskState
    requires OwnerCalls(qcalls) <= 1 && (OwnerCalls(qcalls) == 1 ==> s.joiners.Some?)
    decreases qcalls
  {
    if qcalls == [] then s
    else
      var s' :=
        match qcalls[0]
        case OnAbort(live) => s.(cancelledDueToError := s.cancelledDueToError + Names(live))
        case CancelTask(t) => s.(calls := s.calls + [CancelSub(t)])
        case OwnerCont(v, e) => EndSpec(s, name, isRoot, v, e);
      Deliver(s', name, isRoot, qcalls[1..])
  }

  /** `cancel()` given the tasks live in the queue. */
  function CancelSpec(s: TaskState, name: string, isRoot: bool, live: seq<TaskRef>): TaskState
    requires s.status == Running ==> s.joiners.Some?
  {
    if s.status != Running then s
    else
      var cancelled := s.(status := Cancelled, calls := s.calls + Cancels(live));
      EndSpec(cancelled, name, isRoot, TASK_CANCEL, false)
  }

  function Cancels(live: seq<TaskRef>): (r: seq<TaskCall>)
    ensures |r| == |live| && forall i :: 0 <= i < |live| ==> r[i] == CancelSub(live[i])
  {
    if live == [] then [] else [CancelSub(live[0])] + Cancels(live[1..])
  }

  /** `toPromise()`: the promise handed out and the new state. */
  function ToPromiseSpec(s: TaskState): (PromiseState, TaskState) {
    if s.deferred.Some? then (s.deferred.value, s)
    else
      var p := PromiseOf(s.status, s.result, s.error);
      (p, s.(deferred := Some(p)))
  }

  /** The number of calls to the task's continuation. */
  function ContCalls(calls: seq<TaskCall>): nat {
    if calls == [] then 0 else (if calls[0].ContCall? then 1 else 0) + ContCalls(calls[1..])
  }

  lemma {:induction false} ContCallsAppend(a: seq<TaskCall>, b: seq<TaskCall>)
    ensures ContCalls(a + b) == ContCalls(a) + ContCalls(b)
    decreases a
  {
    if a == [] {
      assert a + b == b;
    } else {
      assert (a + b)[1..] == a[1..] + b;
      ContCallsAppend(a[1..], b);
    }
  }

  lemma {:induction false} NoContInJoiners(js: seq<Joiner>, result: Value, isErr: bool)
    ensures ContCalls(JoinerCalls(js, result, isErr)) == 0
    decreases js
  {
    if js != [] {
      NoContInJoiners(js[1..], result, isErr);
    }
  }

  lemma {:induction false} NoContInCancels(live: seq<TaskRef>)
    ensures ContCalls(Cancels(live)) == 0
    decreases live
  {
    if live != [] {
      NoContInCancels(live[1..]);
    }
  }

  /** The consistency a task keeps between its status, its joiners, its
      continuation and its promise: while running nobody has been told
      anything; once ended, the continuation was called exactly once, the
      joiner list is gone, and the promise (if asked for) carries the outcome. */
  ghost predicate Consistent(s: TaskState) {
    && (s.status == Running <==> s.joiners.Some?)
    && ContCalls(s.calls) == (if s.status == Running then 0 else 1)
    && (s.deferred.Some? ==> s.deferred.value == PromiseOf(s.status, s.result, s.error))
  }

  /** A task `end` may still be called on: running, or cancelled by `cancel`
      just before it ends itself. */
  ghost predicate Unended(s: TaskState) {
    && (s.status == Running || s.status == Cancelled)
    && s.joiners.Some?
    && ContCalls(s.calls) == 0
    && (s.deferred.Some? ==> s.deferred.value == Pending)
  }

  /** `end` finishes a task for good: it calls the continuation once, then
      every joiner in order with the same arguments, and the promise from
      `toPromise` settles with the same outcome. TASK_CANCEL always means
      CANCELLED, and a cancellation is never overwritten by a normal result. */
  lemma {:induction false} EndFinishes(s: TaskState, name: string, isRoot: bool, result: Value, isErr: bool)
    requires Unended(s)
    ensures var e := EndSpec(s, name, isRoot, result, isErr);
      && Consistent(e)
      && e.status == (if isErr then Aborted
                      else if result == TASK_CANCEL || s.status == Cancelled then Cancelled
                      else Done)
      && (isErr ==> e.error == result) && (!isErr ==> e.result == result)
      && exists pre :: e.calls == pre + [ContCall(result, isErr)] + JoinerCalls(s.joiners.value, result, isErr)
  {
    var e := EndSpec(s, name, isRoot, result, isErr);
    var pre := if isErr && isRoot then s.calls + [ReportError(result, s.frames + [Frame(name, s.cancelledDueToError)])] else s.calls;
    assert e.calls == pre + [ContCall(result, isErr)] + JoinerCalls(s.joiners.value, result, isErr);
    ContCallsAppend(s.calls, [ReportError(result, s.frames + [Frame(name, s.cancelledDueToError)])]);
    ContCallsAppend(pre, [ContCall(result, isErr)]);
    NoContInJoiners(s.joiners.value, result, isErr);
    ContCallsAppend(pre + [ContCall(result, isErr)], JoinerCalls(s.joiners.value, result, isErr));
  }

  /** An error `end` of a root task reports the error with the frames pushed so
      far plus its own, and leaves the shared stack empty; a non-root task
      leaves its frame for its parent. */
  lemma ErrorFrames(s: TaskState, name: string, isRoot: bool, err: Value)
    requires s.joiners.Some?
    ensures var e := EndSpec(s, name, isRoot, err, true);
      var stack := s.frames + [Frame(name, s.cancelledDueToError)];
      && (isRoot ==> e.frames == [] && ReportError(err, stack) in e.calls)
      && (!isRoot ==> e.frames == stack && forall c :: c in e.calls ==> !c.ReportError? || c in s.calls)
  {
  }

  /** Asking for the promise before or after `end` gives the same promise. */
  lemma {:induction false} PromiseCommutesWithEnd(s: TaskState, name: string, isRoot: bool, result: Value, isErr: bool)
    requires Consistent(s) && s.status == Running
    ensures var before := ToPromiseSpec(s).1;
      EndSpec(before, name, isRoot, result, isErr).deferred
        == ToPromiseSpec(EndSpec(s, name, isRoot, result, isErr)).1.deferred
  {
    EndFinishes(s, name, isRoot, result, isErr);
  }

  /** `toPromise` asked twice returns the same promise and changes nothing the
      second time. */
  lemma ToPromiseIdempotent(s: TaskState)
    ensures var (p, s1) := ToPromiseSpec(s);
      ToPromiseSpec(s1) == (p, s1)
  {
  }

  /** Delivering the queue's calls to a consistent task keeps it consistent;
      the task ends exactly when the queue calls its owner. */
  lemma {:induction false} DeliverConsistent(s: TaskState, name: string, isRoot: bool, qcalls: seq<QueueCall>)
    requires OwnerCalls(qcalls) <= 1
    requires Consistent(s) && (OwnerCalls(qcalls) == 1 ==> s.status == Running)
    ensures var d := Deliver(s, name, isRoot, qcalls);
      && Consistent(d)
      && (OwnerCalls(qcalls) == 0 ==> d.status == s.status)
      && (OwnerCalls(qcalls) == 1 ==> d.status != Running)
    decreases qcalls
  {
    if qcalls != [] {
      var c := qcalls[0];
      match c
      case OnAbort(live) =>
        DeliverConsistent(s.(cancelledDueToError := s.cancelledDueToError + Names(live)), name, isRoot, qcalls[1..]);
      case CancelTask(t) =>
        ContCallsAppend(s.calls, [CancelSub(t)]);
        DeliverConsistent(s.(calls := s.calls + [CancelSub(t)]), name, isRoot, qcalls[1..]);
      case OwnerCont(v, e) =>
        EndFinishes(s, name, isRoot, v, e);
        DeliverConsistent(EndSpec(s, name, isRoot, v, e), name, isRoot, qcalls[1..]);
    }
  }

  /** The completion hook of a sub-task keeps a consistent task in step with
      its queue: the task is still running exactly while the queue has not
      completed. */
  lemma HookKeepsAgreement(q: QueueState, s: TaskState, t: TaskRef, res: Value, isErr: bool, name: string, isRoot: bool)
    requires Consistent(s) && (s.status == Running <==> !q.completed)
    ensures var h := HookStep(q, t, res, isErr);
      && OwnerCalls(h.calls) <= 1 && (OwnerCalls(h.calls) == 1 ==> s.joiners.Some?)
      && var d := Deliver(s, name, isRoot, h.calls);
         Consistent(d) && (d.status == Running <==> !h.next.completed)
  {
    HookCompletes(q, t, res, isErr);
    DeliverConsistent(s, name, isRoot, HookStep(q, t, res, isErr).calls);
  }

  /** The task after the completion hook of sub-task `t` runs on its queue. */
  function AfterHook(q: QueueState, s: TaskState, t: TaskRef, res: Value, isErr: bool, name: string, isRoot: bool): TaskState
    requires Consistent(s) && (s.status == Running <==> !q.completed)
  {
    HookKeepsAgreement(q, s, t, res, isErr, name, isRoot);
    Deliver(s, name, isRoot, HookStep(q, t, res, isErr).calls)
  }

  /** A context layer: the task's own properties over its parent's layer.
      Reads fall through to the parent, writes stay in the layer. */
  class ContextLayer {
    var own: map<string, Value>
    const parent: ContextLayer?
    ghost const ancestors: set<ContextLayer>
    ghost const depth: nat

    ghost predicate Valid()
      reads this, ancestors
      decreases depth
    {
      && this !in ancestors
      && (parent == null ==> ancestors == {})
      && (parent != null ==>
            && parent in ancestors && ancestors == {parent} + parent.ancestors
            && parent.depth < depth && parent.Valid())
    }

    /** `Object.create(parent)`: an empty layer over the parent. */
    constructor (parent: ContextLayer?)
      requires parent != null ==> parent.Valid()
      ensures Valid() && own == map[] && this.parent == parent
    {
      own := map[];
      this.parent := parent;
      ancestors := if parent == null then {} else {parent} + parent.ancestors;
      depth := if parent == null then 0 else parent.depth + 1;
    }

    /** `context[key]`: the nearest layer that has the key. */
    function Lookup(key: string): (v: Value)
      requires Valid()
      reads this, ancestors
      ensures key in own ==> v == own[key]
      ensures key !in own && parent == null ==> v == Undefined
      decreases depth
    {
      if key in own then own[key]
      else if parent == null then Undefined
      else parent.Lookup(key)
    }

    /** `assignWithSymbols(context, props)`: copy the properties into this layer. */
    method Assign(props: map<string, Value>)
      modifies this`own
      ensures own == old(own) + props
    {
      own := own + props;
    }
  }

  /** A key the layer does not hold reads as the parent's, so writes made to
      the parent after the layer was created are visible through it. */
  lemma InheritsParent(c: ContextLayer, key: string)
    requires c.Valid() && c.parent != null && key !in c.own
    ensures c.Lookup(key) == c.parent.Lookup(key)
  {
  }

  class Task {
    const mainTask: MainTask
    const queue: ForkQueue
    const context: ContextLayer
    const stack: SagaStack
    const name: string
    const isRoot: bool
    var status: Status
    var taskResult: Value
    var taskError: Value
    var deferredEnd: Option<PromiseState>
    var joiners: Option<seq<Joiner>>
    var cancelledDueToErrorTasks: seq<string>
    var calls: seq<TaskCall>

    function Model(): TaskState
      reads this, stack
    {
      TaskState(status, taskResult, taskError, deferredEnd, joiners, cancelledDueToErrorTasks, stack.frames, calls)
    }

    /** The task and its queue agree: the task runs exactly while its queue
        has not completed. */
    ghost predicate Valid()
      reads this, stack, queue
    {
      && queue.main == mainTask.ref
      && Consistent(Model())
      && (status == Running <==> !queue.completed)
    }

    /** `newTask(env, mainTask, parentContext, parentEffectId, meta, isRoot, cont)`. */
    constructor (mainTask: MainTask, parentContext: ContextLayer?, name: string, isRoot: bool, stack: SagaStack)
      requires parentContext != null ==> parentContext.Valid()
      ensures Valid() && fresh(queue) && fresh(context)
      ensures this.mainTask == mainTask && this.stack == stack && this.name == name && this.isRoot == isRoot
      ensures status == Running && joiners == Some([]) && deferredEnd == None
      ensures calls == [] && cancelledDueToErrorTasks == []
      ensures queue.Model() == Init(mainTask.ref)
      ensures context.Valid() && context.parent == parentContext && context.own == map[]
    {
      this.mainTask := mainTask;
      this.stack := stack;
      this.name := name;
      this.isRoot := isRoot;
      status := Running;
      taskResult, taskError := Undefined, Undefined;
      deferredEnd := None;
      joiners := Some([]);
      cancelledDueToErrorTasks := [];
      calls := [];
      queue := new ForkQueue(mainTask.ref);
      context := new ContextLayer(parentContext);
    }

    /** Records the outcome (see `Record`). */
    method RecordOutcome(result: Value, isErr: bool)
      modifies this, stack
      ensures Model() == Record(old(Model()), name, isRoot, result, isErr)
    {
      if !isErr {
        if result == TASK_CANCEL {
          status := Cancelled;
        } else if status != Cancelled {
          status := Done;
        }
        taskResult := result;
        if deferredEnd.Some? {
          deferredEnd := Some(Settle(deferredEnd.value, Resolved(result)));
        }
      } else {
        status := Aborted;
        stack.AddFrame(name, cancelledDueToErrorTasks);
        if isRoot {
          var sagaStack := stack.frames;
          stack.Clear();
          calls := calls + [ReportError(result, sagaStack)];
        }
        taskError := result;
        if deferredEnd.Some? {
          deferredEnd := Some(Settle(deferredEnd.value, Rejected(result)));
        }
      }
    }

    /** `end(result, isErr)`; the queue is its only caller, once. */
    method End(result: Value, isErr: bool)
      requires joiners.Some?
      modifies this, stack
      ensures Model() == EndSpec(old(Model()), name, isRoot, result, isErr)
    {
      var js := joiners.value;
      ghost var before := Model();
      RecordOutcome(result, isErr);
      ghost var recorded := Model();
      var notified := NotifyJoiners(js, result, isErr);
      calls := calls + [ContCall(result, isErr)] + notified;
      joiners := None;
      EndAfterRecord(before, recorded, name, isRoot, result, isErr);
    }

    /** Hands the queue's calls to the task in order (see `Deliver`). */
    method Dispatch(qcalls: seq<QueueCall>)
      requires OwnerCalls(qcalls) <= 1 && (OwnerCalls(qcalls) == 1 ==> joiners.Some?)
      modifies this, stack
      ensures Model() == Deliver(old(Model()), name, isRoot, qcalls)
    {
      var i := 0;
      while i < |qcalls|
        invariant 0 <= i <= |qcalls|
        invariant OwnerCalls(qcalls[i..]) <= 1 && (OwnerCalls(qcalls[i..]) == 1 ==> joiners.Some?)
        invariant Deliver(old(Model()), name, isRoot, qcalls) == Deliver(Model(), name, isRoot, qcalls[i..])
      {
        assert qcalls[i..][0] == qcalls[i] && qcalls[i..][1..] == qcalls[i + 1..];
        match qcalls[i] {
          case OnAbort(live) =>
            cancelledDueToErrorTasks := cancelledDueToErrorTasks + Names(live);
          case CancelTask(t) =>
            calls := calls + [CancelSub(t)];
          case OwnerCont(v, e) =>
            End(v, e);
        }
        i := i + 1;
      }
    }

    /** `cancel()`: only a running task is cancelled: it becomes CANCELLED,
        cancels every live sub-task through its queue, and ends with
        TASK_CANCEL as a normal result. */
    method Cancel()
      requires Valid()
      modifies this, queue, stack
      ensures Valid()
      ensures queue.Model() == if old(status) == Running then CancelAllStep(old(queue.Model())).next else old(queue.Model())
      ensures Model() == CancelSpec(old(Model()), name, isRoot, old(queue.tasks))
    {
      if status == Running {
        var live := queue.tasks;
        status := Cancelled;
        var qcalls := queue.CancelAll();
        PassOnCancels(live, qcalls);
        ghost var s := Model();
        NoContInCancels(live);
        ContCallsAppend(old(calls), Cancels(live));
        End(TASK_CANCEL, false);
        EndFinishes(s, name, isRoot, TASK_CANCEL, false);
      }
    }

    /** Passes the queue's `cancel()` calls for the live tasks on, in order. */
    method PassOnCancels(ghost live: seq<TaskRef>, qcalls: seq<QueueCall>)
      requires qcalls == CancelCalls(live)
      modifies this`calls
      ensures calls == old(calls) + Cancels(live)
    {
      var i := 0;
      while i < |qcalls|
        invariant 0 <= i <= |qcalls|
        invariant calls == old(calls) + Cancels(live[..i])
      {
        assert live[..i + 1] == live[..i] + [live[i]];
        CancelsAppend(live[..i], [live[i]]);
        calls := calls + [CancelSub(qcalls[i].task)];
        i := i + 1;
      }
      assert live[..i] == live;
    }

    /** The completion hook the queue installed on sub-task `t`, invoked as
        `t.cont(res, isErr)`. */
    method SubtaskCont(t: TaskRef, res: Value, isErr: bool)
      requires Valid()
      modifies this, queue, stack
      ensures Valid()
      ensures queue.Model() == HookStep(old(queue.Model()), t, res, isErr).next
      ensures Model() == AfterHook(old(queue.Model()), old(Model()), t, res, isErr, name, isRoot)
    {
      ghost var q, s := queue.Model(), Model();
      HookKeepsAgreement(q, s, t, res, isErr, name, isRoot);
      var qcalls := queue.Complete(t, res, isErr);
      assert Model() == s;
      Dispatch(qcalls);
    }

    /** `setContext(props)`: write into the task's own layer only. */
    method SetContext(props: Value)
      modifies context`own
      ensures context.own == old(context.own) + Spread(props)
    {
      context.Assign(Spread(props));
    }

    /** `toPromise()`. */
    method ToPromise() returns (p: PromiseState)
      modifies this`deferredEnd
      ensures (p, Model()) == ToPromiseSpec(old(Model()))
    {
      if deferredEnd.Some? {
        return deferredEnd.value;
      }
      p := PromiseOf(status, taskResult, taskError);
      deferredEnd := Some(p);
    }

    /** `isRunning()`: exactly while the promise `toPromise` would give is
        still pending. */
    function IsRunning(): (r: bool)
      reads this
      ensures r <==> status == Running
      ensures r <==> PromiseOf(status, taskResult, taskError).Pending?
    {
      status == Running
    }

    function IsCancelled(): (r: bool)
      reads this, mainTask
      ensures r == IsCancelledOf(status, mainTask.status)
    {
      status == Cancelled || (status == Running && mainTask.status == Cancelled)
    }

    /** `isAborted()`: exactly when the promise `toPromise` would give is
        rejected. */
    function IsAborted(): (r: bool)
      reads this
      ensures r <==> status == Aborted
      ensures r <==> PromiseOf(status, taskResult, taskError).Rejected?
    {
      status == Aborted
    }
  }

  /** On a task that agrees with its queue, `isRunning()` holds exactly while
      the queue has not completed, the continuation has not been called and
      joiners are still accepted; `isAborted()` means the continuation was
      called, and a promise already handed out is rejected exactly then. */
  lemma StatusQueries(t: Task)
    requires t.Valid()
    ensures t.IsRunning() <==> !t.queue.completed
    ensures t.IsRunning() <==> t.joiners.Some?
    ensures t.IsRunning() <==> ContCalls(t.calls) == 0
    ensures t.IsAborted() ==> t.queue.completed && ContCalls(t.calls) == 1
    ensures t.deferredEnd.Some? ==> (t.IsAborted() <==> t.deferredEnd.value.Rejected?)
    ensures t.deferredEnd.Some? ==> (t.IsRunning() <==> t.deferredEnd.value.Pending?)
  {
  }

  /** `task.joiners.forEach(joiner => joiner.cb(result, isErr))`. */
  method NotifyJoiners(js: seq<Joiner>, result: Value, isErr: bool) returns (notified: seq<TaskCall>)
    ensures notified == JoinerCalls(js, result, isErr)
  {
    notified := [];
    var i := 0;
    while i < |js|
      invariant 0 <= i <= |js|
      invariant notified == JoinerCalls(js[..i], result, isErr)
    {
      assert js[..i + 1] == js[..i] + [js[i]];
      JoinerCallsAppend(js[..i], [js[i]], result, isErr);
      notified := notified + [JoinerCall(js[i], result, isErr)];
      i := i + 1;
    }
    assert js[..i] == js;
  }

  /** `end` is its recording half followed by the notifications. */
  lemma EndAfterRecord(s: TaskState, recorded: TaskState, name: string, isRoot: bool, result: Value, isErr: bool)
    requires s.joiners.Some? && recorded == Record(s, name, isRoot, result, isErr)
    ensures EndSpec(s, name, isRoot, result, isErr)
         == recorded.(calls := recorded.calls + [ContCall(result, isErr)] + JoinerCalls(s.joiners.value, result, isErr),
                      joiners := None)
  {
  }

  lemma {:induction false} JoinerCallsAppend(a: seq<Joiner>, b: seq<Joiner>, result: Value, isErr: bool)
    ensures JoinerCalls(a + b, result, isErr) == JoinerCalls(a, result, isErr) + JoinerCalls(b, result, isErr)
    decreases a
  {
    if a == [] {
      assert a + b == b;
    } else {
      assert (a + b)[1..] == a[1..] + b;
      JoinerCallsAppend(a[1..], b, result, isErr);
    }
  }

  lemma {:induction false} CancelsAppend(a: seq<TaskRef>, b: seq<TaskRef>)
    ensures Cancels(a + b) == Cancels(a) + Cancels(b)
    decreases a
  {
    if a == [] {
      assert a + b == b;
    } else {
      assert (a + b)[1..] == a[1..] + b;
      CancelsAppend(a[1..], b);
    }
  }
}
