/**
 * The scheduler of packages/core/src/internal/scheduler.js: a FIFO queue of
 * deferred tasks and a counting semaphore (zero = released, positive = suspended).
 *
 * A task is an abstract action. Running it schedules, in order, the tasks of its
 * `spawns` list through `asap`, then returns `value`, or throws when `throws` is
 * set. The scheduler records the order in which tasks ran in `log`.
 */
module Scheduling {

  datatype Job = Job(id: nat, value: int, spawns: seq<Job>, throws: bool)

  /** The number of task runs a queue can still cause: every queued task once,
      plus everything it schedules. */
  function Weight(q: seq<Job>): nat
    decreases q
  {
    if q == [] then 0 else 1 + Weight(q[0].spawns) + Weight(q[1..])
  }

  lemma {:induction false} WeightAppend(a: seq<Job>, b: seq<Job>)
    ensures Weight(a + b) == Weight(a) + Weight(b)
    decreases a
  {
    if a != [] {
      assert (a + b)[0] == a[0];
      assert (a + b)[1..] == a[1..] + b;
      WeightAppend(a[1..], b);
    } else {
      assert a + b == b;
    }
  }

  /** What draining a released queue does: the ids of the tasks run, in order,
      the queue left behind, and whether a task threw (which stops the drain). */
  datatype Drained = Drained(ran: seq<nat>, rest: seq<Job>, threw: bool)

  /** The drain of `flush` when the semaphore is zero: run the head, which
      appends what it schedules to the tail, until the queue is empty or a task
      throws. */
  function Drain(q: seq<Job>): Drained
    decreases Weight(q)
  {
    if q == [] then Drained([], [], false)
    else
      var next := q[1..] + q[0].spawns;
      WeightAppend(q[1..], q[0].spawns);
      if q[0].throws then Drained([q[0].id], next, true)
      else
        var d := Drain(next);
        Drained([q[0].id] + d.ran, d.rest, d.threw)
  }

  /** The ids of a list of tasks. */
  function Ids(q: seq<Job>): (r: seq<nat>)
    ensures |r| == |q| && forall i :: 0 <= i < |q| ==> r[i] == q[i].id
  {
    if q == [] then [] else [q[0].id] + Ids(q[1..])
  }

  lemma IdsAppend(a: seq<Job>, b: seq<Job>)
    ensures Ids(a + b) == Ids(a) + Ids(b)
  {
  }

  /** A drain that no task interrupts leaves the queue empty. */
  lemma {:induction false} DrainEmptiesQueue(q: seq<Job>)
    ensures !Drain(q).threw ==> Drain(q).rest == []
    decreases Weight(q)
  {
    if q != [] && !q[0].throws {
      WeightAppend(q[1..], q[0].spawns);
      DrainEmptiesQueue(q[1..] + q[0].spawns);
    }
  }

  /** FIFO order: the tasks already queued run first, in queue order, before
      anything they schedule (unless one of them throws first). */
  lemma {:induction false} QueuedRunFirst(q: seq<Job>)
    ensures !Drain(q).threw ==> Ids(q) <= Drain(q).ran
    decreases Weight(q)
  {
    if q != [] && !q[0].throws {
      var next := q[1..] + q[0].spawns;
      WeightAppend(q[1..], q[0].spawns);
      QueuedRunFirst(next);
      IdsAppend(q[1..], q[0].spawns);
      assert Ids(q) == [q[0].id] + Ids(q[1..]);
    }
  }

  /** The tasks a task schedules run right after the tasks that were queued
      before it ran, in the order they were requested. */
  lemma {:induction false} SpawnsRunAfterQueued(q: seq<Job>)
    requires q != [] && !Drain(q).threw
    ensures [q[0].id] + Ids(q[1..]) + Ids(q[0].spawns) <= Drain(q).ran
  {
    var next := q[1..] + q[0].spawns;
    DrainUnfolds(q);
    QueuedRunFirst(next);
    IdsAppend(q[1..], q[0].spawns);
    PrefixCons(q[0].id, Ids(q[1..]), Ids(q[0].spawns), Drain(next).ran, Drain(q).ran);
  }

  /** A drain whose head does not throw runs the head, then drains the rest
      with the head's spawns appended. */
  lemma DrainUnfolds(q: seq<Job>)
    requires q != [] && !Drain(q).threw
    ensures !q[0].throws
    ensures Drain(q).ran == [q[0].id] + Drain(q[1..] + q[0].spawns).ran
    ensures !Drain(q[1..] + q[0].spawns).threw
  {
  }

  /** One task of a drain, seen from the tasks already run: the head runs
      next, and either throws or is followed by the drain of the rest with its
      spawns appended. */
  lemma DrainStep(q: seq<Job>, ran: seq<nat>)
    requires q != []
    ensures var next := q[1..] + q[0].spawns;
      Drained(ran + Drain(q).ran, Drain(q).rest, Drain(q).threw)
        == if q[0].throws then Drained(ran + [q[0].id], next, true)
           else Drained(ran + [q[0].id] + Drain(next).ran, Drain(next).rest, Drain(next).threw)
  {
    var next := q[1..] + q[0].spawns;
    assert ran + ([q[0].id] + Drain(next).ran) == ran + [q[0].id] + Drain(next).ran;
  }

  lemma PrefixCons(x: nat, a: seq<nat>, b: seq<nat>, r: seq<nat>, full: seq<nat>)
    requires a + b <= r && full == [x] + r
    ensures [x] + a + b <= full
  {
    assert [x] + a + b == [x] + (a + b);
  }

  /** The outcome of `immediately`: the task's return value or an exception. */
  datatype Outcome = Returned(value: int) | Threw

  class Scheduler {
    var queue: seq<Job>
    var semaphore: nat
    /** The ids of the tasks run so far, in order. */
    var log: seq<nat>

    constructor ()
      ensures queue == [] && semaphore == 0 && log == []
    {
      queue, semaphore, log := [], 0, [];
    }

    /** `suspend()`: add a lock. */
    method Suspend()
      modifies this`semaphore
      ensures semaphore == old(semaphore) + 1
    {
      semaphore := semaphore + 1;
    }

    /** `release()`: drop a lock. */
    method Release()
      requires semaphore > 0
      modifies this`semaphore
      ensures semaphore == old(semaphore) - 1
    {
      semaphore := semaphore - 1;
    }

    /** Runs the body of a task: it calls `asap` for each task it schedules
        (the scheduler is suspended, so each is only queued), then returns or
        throws. */
    method RunBody(job: Job) returns (threw: bool)
      requires semaphore > 0
      modifies this
      ensures queue == old(queue) + job.spawns
      ensures semaphore == old(semaphore) && log == old(log) + [job.id]
      ensures threw == job.throws
      decreases 1
    {
      log := log + [job.id];
      var i := 0;
      while i < |job.spawns|
        invariant 0 <= i <= |job.spawns|
        invariant queue == old(queue) + job.spawns[..i]
        invariant semaphore == old(semaphore) && log == old(log) + [job.id]
      {
        var _ := Asap(job.spawns[i]);
        i := i + 1;
      }
      assert job.spawns[..i] == job.spawns;
      threw := job.throws;
    }

    /** `exec(task)`: run the task under a lock, releasing it even if the task
        throws. The net effect on the semaphore is zero. */
    method Exec(job: Job) returns (threw: bool)
      modifies this
      ensures semaphore == old(semaphore)
      ensures queue == old(queue) + job.spawns
      ensures log == old(log) + [job.id]
      ensures threw == job.throws
      decreases 2
    {
      Suspend();
      threw := RunBody(job);
      Release();
    }

    /** `flush()`: release one lock, then, while released, run queued tasks one
        at a time from the head; an exception from a task stops the drain and
        propagates. */
    method Flush() returns (threw: bool)
      requires semaphore > 0
      modifies this
      ensures semaphore == old(semaphore) - 1
      ensures old(semaphore) > 1 ==> queue == old(queue) && log == old(log) && !threw
      ensures old(semaphore) == 1 ==>
        var d := Drain(old(queue));
        log == old(log) + d.ran && queue == d.rest && threw == d.threw
      decreases 3
    {
      Release();
      threw := false;
      ghost var ran: seq<nat> := [];
      while semaphore == 0 && queue != []
        invariant semaphore == old(semaphore) - 1
        invariant old(semaphore) > 1 ==> queue == old(queue) && log == old(log)
        invariant old(semaphore) == 1 ==>
          && log == old(log) + ran
          && Drain(old(queue)) == Drained(ran + Drain(queue).ran, Drain(queue).rest, Drain(queue).threw)
        decreases Weight(queue)
      {
        var job := queue[0];
        DrainStep(queue, ran);
        queue := queue[1..];
        WeightAppend(queue, job.spawns);
        threw := Exec(job);
        ran := ran + [job.id];
        if threw {
          return;
        }
      }
    }

    /** `asap(task)`: queue the task at the tail; if the scheduler is released,
        suspend it and flush. While it is suspended nothing runs. */
    method Asap(job: Job) returns (threw: bool)
      modifies this
      ensures old(semaphore) > 0 ==>
        queue == old(queue) + [job] && semaphore == old(semaphore) && log == old(log) && !threw
      ensures old(semaphore) == 0 ==>
        var d := Drain(old(queue) + [job]);
        log == old(log) + d.ran && queue == d.rest && semaphore == 0 && threw == d.threw
      decreases if semaphore == 0 then 4 else 0
    {
      queue := queue + [job];
      threw := false;
      if semaphore == 0 {
        Suspend();
        threw := Flush();
      }
    }

    /** `immediately(task)`: run the task now under a lock and return its value;
        in any case flush afterwards. An exception from the flush replaces the
        task's outcome, as an exception in a `finally` block does. */
    method Immediately(job: Job) returns (out: Outcome)
      modifies this
      ensures semaphore == old(semaphore)
      ensures old(semaphore) > 0 ==>
        && queue == old(queue) + job.spawns && log == old(log) + [job.id]
        && out == (if job.throws then Threw else Returned(job.value))
      ensures old(semaphore) == 0 ==>
        var d := Drain(old(queue) + job.spawns);
        && log == old(log) + [job.id] + d.ran && queue == d.rest
        && out == (if job.throws || d.threw then Threw else Returned(job.value))
    {
      Suspend();
      var threw := RunBody(job);
      var flushThrew := Flush();
      out := if threw || flushThrew then Threw else Returned(job.value);
    }
  }

  /** Starting released, an `asap` that returns without an exception leaves the
      scheduler released with an empty queue. */
  lemma AsapLeavesReleased(q: seq<Job>, job: Job)
    requires !Drain(q + [job]).threw
    ensures Drain(q + [job]).rest == []
  {
    DrainEmptiesQueue(q + [job]);
  }
}
