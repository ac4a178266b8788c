/**
 * The fork queue of packages/core/src/internal/forkQueue.js: the live sub-tasks
 * of one task (its main flow and its attached forks), the main flow's result,
 * and a `completed` flag.
 *
 * Sub-tasks are references. The queue's calls to its collaborators (the owner's
 * `onAbort` hook, each sub-task's `cancel`, the owner's continuation `cont`) are
 * returned, in the order they are made, as `QueueCall`s. Installing the
 * completion hook on a sub-task (`task.cont = ...`) and resetting it to `noop`
 * is tracked by the set `hooked` of sub-tasks whose `cont` is this queue's hook.
 */
module ForkQueues {
  import opened JsValues

  /** A sub-task: its identity and its `meta.name`. */
  datatype TaskRef = TaskRef(id: nat, name: string)

  /** A call from the queue to a collaborator. */
  datatype QueueCall =
    | OnAbort(live: seq<TaskRef>)           // the owner's onAbort(), seeing these live tasks
    | CancelTask(task: TaskRef)             // task.cancel()
    | OwnerCont(value: Value, isErr: bool)  // the owner's cont(value, isErr)

  datatype QueueState = QueueState(
    main: TaskRef,
    tasks: seq<TaskRef>,
    hooked: set<TaskRef>,
    result: Value,
    completed: bool)

  /** The state after an operation and the calls it made. */
  datatype Transition = Transition(next: QueueState, calls: seq<QueueCall>)

  function Elems(s: seq<TaskRef>): set<TaskRef> { set t | t in s }

  /** `remove(array, item)`: drop the first occurrence, if any. */
  function RemoveFirst(s: seq<TaskRef>, t: TaskRef): (r: seq<TaskRef>)
    ensures t !in s ==> r == s
    ensures t in s ==> |r| == |s| - 1
    ensures multiset(r) == multiset(s) - multiset{t}
  {
    if s == [] then []
    else if s[0] == t then (assert s == [s[0]] + s[1..]; s[1..])
    else
      assert s == [s[0]] + s[1..];
      [s[0]] + RemoveFirst(s[1..], t)
  }

  /** `remove` splices out the first occurrence, at the index `indexOf` finds,
      and keeps the other tasks in their order. */
  lemma {:induction false} RemoveFirstOrder(s: seq<TaskRef>, t: TaskRef) returns (i: nat)
    requires t in s
    ensures i < |s| && s[i] == t && t !in s[..i]
    ensures RemoveFirst(s, t) == s[..i] + s[i + 1..]
    decreases |s|
  {
    if s[0] == t {
      i := 0;
      assert s[..0] + s[1..] == s[1..];
    } else {
      var j := RemoveFirstOrder(s[1..], t);
      i := j + 1;
      SpliceAfterHead(s, j);
    }
  }

  /** Cutting position `j + 1` out of `s` keeps the head and cuts position
      `j` out of the tail. */
  lemma SpliceAfterHead(s: seq<TaskRef>, j: nat)
    requires j + 1 < |s|
    ensures s[..j + 1] == [s[0]] + s[1..][..j]
    ensures s[..j + 1] + s[j + 2..] == [s[0]] + (s[1..][..j] + s[1..][j + 1..])
  {
    assert s[j + 2..] == s[1..][j + 1..];
  }

  /** One `cancel()` per task, in order. */
  function CancelCalls(tasks: seq<TaskRef>): (r: seq<QueueCall>)
    ensures |r| == |tasks| && forall i :: 0 <= i < |tasks| ==> r[i] == CancelTask(tasks[i])
  {
    if tasks == [] then [] else [CancelTask(tasks[0])] + CancelCalls(tasks[1..])
  }

  /** `addTask(task)`: append to the live set and install the completion hook. */
  function WithTask(s: QueueState, t: TaskRef): QueueState {
    s.(tasks := s.tasks + [t], hooked := s.hooked + {t})
  }

  /** `forkQueue(mainTask, onAbort, cont)`: the main task is the first live task. */
  function Init(main: TaskRef): QueueState {
    WithTask(QueueState(main, [], {}, Undefined, false), main)
  }

  /** `cancelAll()`. */
  function CancelAllStep(s: QueueState): Transition {
    if s.completed then Transition(s, [])
    else Transition(s.(completed := true, hooked := s.hooked - Elems(s.tasks), tasks := []), CancelCalls(s.tasks))
  }

  /** `abort(err)`: onAbort, then cancelAll, then the owner's `cont(err, true)`. */
  function AbortStep(s: QueueState, err: Value): Transition {
    var c := CancelAllStep(s);
    Transition(c.next, [OnAbort(s.tasks)] + c.calls + [OwnerCont(err, true)])
  }

  /** Invoking `t.cont(res, isErr)`: a no-op unless `t.cont` is this queue's hook;
      the hook is a no-op once the queue has completed. */
  function HookStep(s: QueueState, t: TaskRef, res: Value, isErr: bool): Transition {
    if t !in s.hooked || s.completed then Transition(s, [])
    else
      var s1 := s.(tasks := RemoveFirst(s.tasks, t), hooked := s.hooked - {t});
      if isErr then AbortStep(s1, res)
      else
        var s2 := if t == s.main then s1.(result := res) else s1;
        if s2.tasks == [] then Transition(s2.(completed := true), [OwnerCont(s2.result, false)])
        else Transition(s2, [])
  }

  /** The number of calls to the owner's continuation. */
  function OwnerCalls(calls: seq<QueueCall>): nat {
    if calls == [] then 0
    else (if calls[0].OwnerCont? then 1 else 0) + OwnerCalls(calls[1..])
  }

  lemma {:induction false} OwnerCallsAppend(a: seq<QueueCall>, b: seq<QueueCall>)
    ensures OwnerCalls(a + b) == OwnerCalls(a) + OwnerCalls(b)
    decreases a
  {
    if a == [] {
      assert a + b == b;
    } else {
      assert (a + b)[1..] == a[1..] + b;
      OwnerCallsAppend(a[1..], b);
    }
  }

  lemma {:induction false} NoOwnerInCancels(tasks: seq<TaskRef>)
    ensures OwnerCalls(CancelCalls(tasks)) == 0
    decreases tasks
  {
    if tasks != [] {
      NoOwnerInCancels(tasks[1..]);
    }
  }

  // ---------------------------------------------------------------------------
  // Runs: what the queue does over any sequence of outside events.

  datatype QueueEvent =
    | Add(task: TaskRef)                            // addTask(task)
    | Signal(task: TaskRef, res: Value, isErr: bool) // task.cont(res, isErr)
    | CancelAllEvent                                // cancelAll()
    | AbortEvent(err: Value)                        // abort(err)

  function Step(s: QueueState, e: QueueEvent): Transition {
    match e
    case Add(t) => Transition(WithTask(s, t), [])
    case Signal(t, res, isErr) => HookStep(s, t, res, isErr)
    case CancelAllEvent => CancelAllStep(s)
    case AbortEvent(err) => AbortStep(s, err)
  }

  /** The state after a sequence of events and every call made on the way. */
  function Run(s: QueueState, events: seq<QueueEvent>): Transition
    decreases |events|
  {
    if events == [] then Transition(s, [])
    else
      var before := Run(s, events[..|events| - 1]);
      var last := Step(before.next, events[|events| - 1]);
      Transition(last.next, before.calls + last.calls)
  }

  /** One step calls the owner at most once, only when it completes the queue,
      and, apart from `abort`, never once the queue has completed; completion
      is never undone. */
  lemma StepOwnerCalls(s: QueueState, e: QueueEvent)
    ensures var t := Step(s, e);
      && (s.completed ==> t.next.completed)
      && (s.completed && !e.AbortEvent? ==> OwnerCalls(t.calls) == 0)
      && OwnerCalls(t.calls) <= 1
      && (OwnerCalls(t.calls) == 1 ==> t.next.completed)
  {
    match e
    case Add(t) =>
    case CancelAllEvent =>
      NoOwnerInCancels(s.tasks);
    case AbortEvent(err) =>
      AbortCallsOwnerOnce(s, err);
    case Signal(t, res, isErr) =>
      if t in s.hooked && !s.completed && isErr {
        var s1 := s.(tasks := RemoveFirst(s.tasks, t), hooked := s.hooked - {t});
        NoOwnerInCancels(s1.tasks);
        OwnerCallsAppend([OnAbort(s1.tasks)], CancelCalls(s1.tasks));
        OwnerCallsAppend([OnAbort(s1.tasks)] + CancelCalls(s1.tasks), [OwnerCont(res, true)]);
      }
  }

  /** `abort` calls the owner exactly once, whether or not the queue has
      completed: on a completed queue it calls `cont` a second time. */
  lemma AbortCallsOwnerOnce(s: QueueState, err: Value)
    ensures OwnerCalls(AbortStep(s, err).calls) == 1
    ensures AbortStep(s, err).next.completed
  {
    var c := CancelAllStep(s);
    if s.completed {
      assert c.calls == [];
    } else {
      NoOwnerInCancels(s.tasks);
    }
    OwnerCallsAppend([OnAbort(s.tasks)], c.calls);
    OwnerCallsAppend([OnAbort(s.tasks)] + c.calls, [OwnerCont(err, true)]);
  }

  /** Every `abort` in a run reaches a queue that has not completed yet, as
      the owner's own use of `abort` ensures. */
  ghost predicate AbortsOnlyLive(s: QueueState, events: seq<QueueEvent>) {
    forall i :: 0 <= i < |events| && events[i].AbortEvent? ==> !Run(s, events[..i]).next.completed
  }

  /** Over any run that aborts only a live queue, the owner's continuation is
      called at most once, and not at all if the queue had already completed. */
  lemma {:induction false} OwnerCalledAtMostOnce(s: QueueState, events: seq<QueueEvent>)
    requires AbortsOnlyLive(s, events)
    ensures var r := Run(s, events);
      && OwnerCalls(r.calls) <= (if s.completed then 0 else 1)
      && (s.completed ==> r.next.completed)
      && (OwnerCalls(r.calls) == 1 ==> r.next.completed)
    decreases |events|
  {
    if events != [] {
      var n := |events| - 1;
      var prefix := events[..n];
      forall i | 0 <= i < |prefix| && prefix[i].AbortEvent?
        ensures !Run(s, prefix[..i]).next.completed
      {
        assert prefix[..i] == events[..i];
        assert prefix[i] == events[i];
      }
      var before := Run(s, prefix);
      OwnerCalledAtMostOnce(s, prefix);
      var last := Step(before.next, events[n]);
      StepOwnerCalls(before.next, events[n]);
      OwnerCallsAppend(before.calls, last.calls);
    }
  }

  lemma {:induction false} RunKeepsMain(s: QueueState, events: seq<QueueEvent>)
    ensures Run(s, events).next.main == s.main
    decreases |events|
  {
    if events != [] {
      RunKeepsMain(s, events[..|events| - 1]);
    }
  }

  /** The task delivered a normal completion among the events. */
  predicate SignalledNormally(events: seq<QueueEvent>, t: TaskRef) {
    exists i :: 0 <= i < |events| && events[i].Signal? && events[i].task == t && !events[i].isErr
  }

  /** While the queue runs, a task that left the live set left it by completing
      normally, and the captured result is the main task's own value. */
  ghost predicate Accounted(s: QueueState, events: seq<QueueEvent>) {
    s.completed || Tracked(s, events)
  }

  ghost predicate Tracked(s: QueueState, events: seq<QueueEvent>) {
    && (s.main !in s.tasks ==> Signal(s.main, s.result, false) in events)
    && forall t :: (t == s.main || Add(t) in events) && t !in s.tasks ==> SignalledNormally(events, t)
  }

  lemma RemoveFirstKeeps(s: seq<TaskRef>, t: TaskRef, u: TaskRef)
    requires u != t && u in s
    ensures u in RemoveFirst(s, t)
  {
    assert u in multiset(s);
  }

  /** While the queue runs, a step removes a live task only when that task
      completes normally, and changes the captured result only when the main
      task does. */
  lemma StepWhileRunning(s: QueueState, e: QueueEvent)
    requires !Step(s, e).next.completed
    ensures var s' := Step(s, e).next;
      && !s.completed && s'.main == s.main
      && (forall t :: t in s.tasks && t !in s'.tasks ==> e.Signal? && e.task == t && !e.isErr)
      && (s'.result != s.result ==> e == Signal(s.main, s'.result, false))
      && (e.Add? ==> e.task in s'.tasks)
  {
    var s' := Step(s, e).next;
    forall t | t in s.tasks && t !in s'.tasks
      ensures e.Signal? && e.task == t && !e.isErr
    {
      if e.Signal? && e.task != t {
        RemoveFirstKeeps(s.tasks, e.task, t);
      }
    }
  }

  lemma {:induction false} AccountedStep(s: QueueState, events: seq<QueueEvent>, e: QueueEvent)
    requires Accounted(s, events)
    ensures Accounted(Step(s, e).next, events + [e])
  {
    var evs := events + [e];
    var s' := Step(s, e).next;
    if !s'.completed {
      StepWhileRunning(s, e);
      assert evs[|evs| - 1] == e;
      forall t | (t == s'.main || Add(t) in evs) && t !in s'.tasks
        ensures SignalledNormally(evs, t)
      {
        if t !in s.tasks {
          assert t == s.main || Add(t) in events;
          var i :| 0 <= i < |events| && events[i].Signal? && events[i].task == t && !events[i].isErr;
          assert evs[i] == events[i];
        }
      }
      if s'.main !in s'.tasks && s'.result == s.result && s.main !in s.tasks {
        assert Signal(s.main, s.result, false) in events;
      }
    }
  }

  lemma {:induction false} AccountedRun(main: TaskRef, events: seq<QueueEvent>)
    ensures Accounted(Run(Init(main), events).next, events)
    decreases |events|
  {
    if events == [] {
      assert Run(Init(main), events).next == Init(main);
    } else {
      var prefix := events[..|events| - 1];
      AccountedRun(main, prefix);
      AccountedStep(Run(Init(main), prefix).next, prefix, events[|events| - 1]);
      assert prefix + [events[|events| - 1]] == events;
    }
  }

  lemma OnlyCancels(tasks: seq<TaskRef>)
    ensures forall c :: c in CancelCalls(tasks) ==> c.CancelTask?
  {
  }

  /** An abort reports only the error to the owner. */
  lemma AbortReportsError(s: QueueState, err: Value)
    ensures forall c :: c in AbortStep(s, err).calls && c.OwnerCont? ==> c == OwnerCont(err, true)
  {
    var c := CancelAllStep(s);
    OnlyCancels(s.tasks);
    assert forall x :: x in c.calls ==> x.CancelTask?;
    var calls := [OnAbort(s.tasks)] + c.calls + [OwnerCont(err, true)];
    forall x | x in calls && x.OwnerCont?
      ensures x == OwnerCont(err, true)
    {
      assert x !in [OnAbort(s.tasks)] && x !in c.calls;
    }
  }

  /** The only step that reports normal completion is a normal completion of
      a hooked task that empties the live set. */
  lemma NotifyingStep(s: QueueState, e: QueueEvent, v: Value)
    requires OwnerCont(v, false) in Step(s, e).calls
    ensures e.Signal? && !e.isErr && e.task in s.hooked && !s.completed
    ensures RemoveFirst(s.tasks, e.task) == []
    ensures v == (if e.task == s.main then e.res else s.result)
  {
    match e
    case Add(_) =>
    case CancelAllEvent =>
      OnlyCancels(s.tasks);
    case AbortEvent(err) =>
      AbortReportsError(s, err);
    case Signal(t, res, isErr) =>
      if isErr {
        AbortReportsError(s.(tasks := RemoveFirst(s.tasks, t), hooked := s.hooked - {t}), res);
      } else {
        NormalHookNotifies(s, t, res, v);
      }
  }

  /** A normal completion notifies the owner only when it empties the live
      set, and then with the main task's value. */
  lemma NormalHookNotifies(s: QueueState, t: TaskRef, res: Value, v: Value)
    requires OwnerCont(v, false) in HookStep(s, t, res, false).calls
    ensures t in s.hooked && !s.completed && RemoveFirst(s.tasks, t) == []
    ensures v == (if t == s.main then res else s.result)
  {
    var rest := RemoveFirst(s.tasks, t);
    var s2 := s.(tasks := rest, hooked := s.hooked - {t});
    var s3 := if t == s.main then s2.(result := res) else s2;
    assert rest == [] && HookStep(s, t, res, false).calls == [OwnerCont(s3.result, false)];
  }

  /** Conversely, the normal completion of a hooked task that empties the
      live set completes the queue and notifies the owner once, with the main
      task's value. */
  lemma LastNormalCompletionNotifies(s: QueueState, t: TaskRef, res: Value)
    requires t in s.hooked && !s.completed && RemoveFirst(s.tasks, t) == []
    ensures HookStep(s, t, res, false).next.completed
    ensures HookStep(s, t, res, false).calls == [OwnerCont(if t == s.main then res else s.result, false)]
  {
  }

  /** The step that reports normal completion to the owner reports a value the
      main task delivered, and every task added before it has completed
      normally (a cancelled task completes normally with TASK_CANCEL). */
  lemma {:induction false} NormalCompletionStep(s: QueueState, events: seq<QueueEvent>, e: QueueEvent, v: Value)
    requires Accounted(s, events)
    requires OwnerCont(v, false) in Step(s, e).calls
    ensures Signal(s.main, v, false) in events + [e]
    ensures forall t :: (t == s.main || Add(t) in events) ==> SignalledNormally(events + [e], t)
  {
    NotifyingStep(s, e, v);
    var evs := events + [e];
    assert evs[|evs| - 1] == e;
    assert Tracked(s, events);
    forall t | t == s.main || Add(t) in events
      ensures SignalledNormally(evs, t)
    {
      if t in s.tasks {
        if t != e.task { RemoveFirstKeeps(s.tasks, e.task, t); }
      } else {
        var i :| 0 <= i < |events| && events[i].Signal? && events[i].task == t && !events[i].isErr;
        assert evs[i] == events[i];
      }
    }
    if e.task != s.main {
      if s.main in s.tasks { RemoveFirstKeeps(s.tasks, e.task, s.main); }
      assert Signal(s.main, v, false) in events;
    }
  }

  /** A queue started on a main task reports normal completion only with the
      value the main task delivered, once every task added before that point
      has completed normally. */
  lemma {:induction false} NormalCompletionResult(main: TaskRef, events: seq<QueueEvent>, e: QueueEvent, v: Value)
    requires OwnerCont(v, false) in Step(Run(Init(main), events).next, e).calls
    ensures Signal(main, v, false) in events + [e]
    ensures forall t :: Add(t) in events ==> SignalledNormally(events + [e], t)
  {
    AccountedRun(main, events);
    RunKeepsMain(Init(main), events);
    NormalCompletionStep(Run(Init(main), events).next, events, e, v);
  }

  /** A completion hook completes the queue exactly when it calls the owner,
      and then calls it once. */
  lemma HookCompletes(s: QueueState, t: TaskRef, res: Value, isErr: bool)
    ensures var h := HookStep(s, t, res, isErr);
      && OwnerCalls(h.calls) <= 1
      && (s.completed ==> OwnerCalls(h.calls) == 0)
      && (h.next.completed <==> s.completed || OwnerCalls(h.calls) == 1)
  {
    StepOwnerCalls(s, Signal(t, res, isErr));
    if t in s.hooked && !s.completed {
      var rest := RemoveFirst(s.tasks, t);
      if isErr {
        NoOwnerInCancels(rest);
        OwnerCallsAppend([OnAbort(rest)], CancelCalls(rest));
        OwnerCallsAppend([OnAbort(rest)] + CancelCalls(rest), [OwnerCont(res, true)]);
      } else {
        var h := HookStep(s, t, res, isErr);
        assert !h.next.completed ==> h.calls == [];
      }
    }
  }

  /** After a normal completion, any later completion signal is ignored. */
  lemma CompletedIgnoresSignals(s: QueueState, t: TaskRef, res: Value, isErr: bool)
    requires s.completed
    ensures HookStep(s, t, res, isErr) == Transition(s, [])
  {
  }

  /** `cancelAll` cancels every live task once, in order, unhooking each, and a
      second `cancelAll` does nothing. */
  lemma CancelAllOnce(s: QueueState)
    requires !s.completed
    ensures var c := CancelAllStep(s);
      && c.calls == CancelCalls(s.tasks) && c.next.completed && c.next.tasks == []
      && (forall t :: t in s.tasks ==> t !in c.next.hooked)
      && CancelAllStep(c.next) == Transition(c.next, [])
  {
  }

  /** An error from a live task aborts the queue: the owner's onAbort sees the
      remaining tasks, each is cancelled, and the owner receives the error. */
  lemma ErrorAborts(s: QueueState, t: TaskRef, err: Value)
    requires t in s.hooked && !s.completed
    ensures var rest := RemoveFirst(s.tasks, t);
      var c := HookStep(s, t, err, true);
      && c.calls == [OnAbort(rest)] + CancelCalls(rest) + [OwnerCont(err, true)]
      && c.next.completed && c.next.tasks == []
  {
  }

  // ---------------------------------------------------------------------------
  // The queue object: its state in fields, each operation returning the calls
  // it made.

  class ForkQueue {
    const main: TaskRef
    var tasks: seq<TaskRef>
    var hooked: set<TaskRef>
    var result: Value
    var completed: bool

    function Model(): QueueState
      reads this
    {
      QueueState(main, tasks, hooked, result, completed)
    }

    /** `forkQueue(mainTask, onAbort, cont)`. */
    constructor (mainTask: TaskRef)
      ensures Model() == Init(mainTask)
    {
      main := mainTask;
      tasks, hooked, result, completed := [], {}, Undefined, false;
      new;
      AddTask(mainTask);
    }

    /** `addTask(task)`. */
    method AddTask(t: TaskRef)
      modifies this
      ensures Model() == WithTask(old(Model()), t)
    {
      tasks := tasks + [t];
      hooked := hooked + {t};
    }

    /** `getTasks()`. */
    function GetTasks(): seq<TaskRef>
      reads this
    {
      tasks
    }

    /** `cancelAll()`. */
    method CancelAll() returns (calls: seq<QueueCall>)
      modifies this
      ensures Transition(Model(), calls) == CancelAllStep(old(Model()))
    {
      calls := [];
      if completed {
        return;
      }
      completed := true;
      var i := 0;
      while i < |tasks|
        invariant 0 <= i <= |tasks| && tasks == old(tasks) && completed
        invariant hooked == old(hooked) - Elems(tasks[..i])
        invariant calls == CancelCalls(tasks[..i])
        invariant result == old(result)
      {
        assert tasks[..i + 1] == tasks[..i] + [tasks[i]];
        hooked := hooked - {tasks[i]};
        calls := calls + [CancelTask(tasks[i])];
        i := i + 1;
      }
      assert tasks[..i] == tasks;
      tasks := [];
    }

    /** `abort(err)`. */
    method Abort(err: Value) returns (calls: seq<QueueCall>)
      modifies this
      ensures Transition(Model(), calls) == AbortStep(old(Model()), err)
    {
      var live := tasks;
      var cancels := CancelAll();
      calls := [OnAbort(live)] + cancels + [OwnerCont(err, true)];
    }

    /** The completion hook installed on `t`, invoked as `t.cont(res, isErr)`. */
    method Complete(t: TaskRef, res: Value, isErr: bool) returns (calls: seq<QueueCall>)
      modifies this
      ensures Transition(Model(), calls) == HookStep(old(Model()), t, res, isErr)
    {
      calls := [];
      if t !in hooked || completed {
        return;
      }
      tasks := RemoveFirst(tasks, t);
      hooked := hooked - {t};
      if isErr {
        calls := Abort(res);
      } else {
        if t == main {
          result := res;
        }
        if |tasks| == 0 {
          completed := true;
          calls := [OwnerCont(result, false)];
        }
      }
    }
  }
}
