/** The executor's methods as the source writes them, on mutable fields. Each performs steps of the
    pool machine: the state after a call is the one those steps lead to. */
module TaskExecutors {
  import opened Executors

  // The loop of runTaskSteps as steps of the machine: steps are recorded until one fails or none
  // is left. The outcomes of the shell commands are given.
  function RunSteps(x: Execution, outcomes: seq<bool>): Execution
    requires |x.steps| + |outcomes| >= |x.task|
    decreases |outcomes|
  {
    if StepsOver(x) then x else RunSteps(Stepped(x, outcomes[0]), outcomes[1..])
  }

  // What a task run with the given outcomes leaves in the record.
  function Records(task: seq<string>, outcomes: seq<bool>): seq<StepRecord>
    requires |task| == |outcomes|
  {
    if task == [] then []
    else if outcomes[0] then [StepRecord(task[0], true)] + Records(task[1..], outcomes[1..])
    else [StepRecord(task[0], false)]
  }

  lemma {:induction false} RunStepsRecords(x: Execution, outcomes: seq<bool>)
    requires AllOk(x.steps) && |x.steps| + |outcomes| == |x.task|
    ensures RunSteps(x, outcomes) == x.(steps := x.steps + Records(x.task[|x.steps|..], outcomes))
    ensures StepsOver(RunSteps(x, outcomes))
    decreases |outcomes|
  {
    if outcomes != [] {
      var n := |x.steps|;
      var y := Stepped(x, outcomes[0]);
      assert x.task[n..][1..] == x.task[n + 1..];
      if outcomes[0] {
        RunStepsRecords(y, outcomes[1..]);
        var rest := Records(x.task[n + 1..], outcomes[1..]);
        assert x.steps + [StepRecord(x.task[n], true)] + rest == x.steps + ([StepRecord(x.task[n], true)] + rest);
      } else {
        assert !y.steps[n].ok;
      }
    }
  }

  // The record succeeds as a whole exactly when every outcome does.
  lemma {:induction false} RecordsAllOk(task: seq<string>, outcomes: seq<bool>)
    requires |task| == |outcomes|
    ensures AllOk(Records(task, outcomes)) <==> forall i | 0 <= i < |outcomes| :: outcomes[i]
  {
    if task != [] {
      if outcomes[0] {
        RecordsAllOk(task[1..], outcomes[1..]);
        var r := Records(task[1..], outcomes[1..]);
        assert forall i | 0 <= i < |r| :: ([StepRecord(task[0], true)] + r)[i + 1] == r[i];
        assert forall i | 1 <= i < |outcomes| :: outcomes[i] == outcomes[1..][i - 1];
      } else {
        assert !Records(task, outcomes)[0].ok;
      }
    }
  }

  // ----- Schedules: the steps of the machine that a call performs -----

  predicate ValidFrom(s: Pool, evs: seq<Event>)
    decreases |evs|, 0
  {
    evs == []
    || (var p := evs[..|evs| - 1]; ValidFrom(s, p) && Enabled(RunFrom(s, p), evs[|evs| - 1]))
  }

  function RunFrom(s: Pool, evs: seq<Event>): Pool
    requires ValidFrom(s, evs)
    decreases |evs|, 1
  {
    if evs == [] then s else Next(RunFrom(s, evs[..|evs| - 1]), evs[|evs| - 1])
  }

  lemma OneMoreStep(s: Pool, evs: seq<Event>, ev: Event)
    requires ValidFrom(s, evs) && Enabled(RunFrom(s, evs), ev)
    ensures ValidFrom(s, evs + [ev]) && RunFrom(s, evs + [ev]) == Next(RunFrom(s, evs), ev)
  {
    assert (evs + [ev])[..|evs|] == evs;
  }

  // A schedule performed in a reachable state leads to a reachable state.
  lemma {:induction false} SchedulesExtendRuns(maxWorkers: nat, evs: seq<Event>, schedule: seq<Event>)
    requires ValidRun(maxWorkers, evs) && ValidFrom(Run(maxWorkers, evs), schedule)
    ensures ValidRun(maxWorkers, evs + schedule)
    ensures Run(maxWorkers, evs + schedule) == RunFrom(Run(maxWorkers, evs), schedule)
  {
    hide Next, Enabled;
    if schedule == [] {
      assert evs + schedule == evs;
    } else {
      var p := schedule[..|schedule| - 1];
      SchedulesExtendRuns(maxWorkers, evs, p);
      assert (evs + schedule)[..|evs + schedule| - 1] == evs + p;
    }
  }

  // The steps of a task that worker w executes, as far as they are run.
  function StepEvents(w: Wid, outcomes: seq<bool>, n: nat): seq<Event>
    requires n <= |outcomes|
  {
    seq(n, i requires 0 <= i < n => RecordStep(w, outcomes[i]))
  }

  // A whole task: running, n of its steps, the final status.
  function TaskSchedule(w: Wid, outcomes: seq<bool>, n: nat): seq<Event>
    requires n <= |outcomes|
  {
    [Begin(w)] + StepEvents(w, outcomes, n) + [Finalize(w)]
  }

  lemma FirstStep(s: Pool, ev: Event)
    requires Enabled(s, ev)
    ensures ValidFrom(s, [ev]) && RunFrom(s, [ev]) == Next(s, ev)
  {
    assert [] + [ev] == [ev];
    OneMoreStep(s, [], ev);
  }

  lemma StillAllOk(x: Execution, ok: bool)
    requires !StepsOver(x)
    ensures AllOk(Stepped(x, ok).steps) <==> ok
  {
    assert Stepped(x, ok).steps[|x.steps|].ok == ok;
  }

  lemma NothingFailed(x: Execution)
    requires x.steps == []
    ensures AllOk(x.steps)
  {}

  lemma RunStepsByOne(x: Execution, outcomes: seq<bool>, i: nat)
    requires i < |outcomes| && |x.steps| + |outcomes| - i >= |x.task| && !StepsOver(x)
    ensures RunSteps(x, outcomes[i..]) == RunSteps(Stepped(x, outcomes[i]), outcomes[i + 1..])
  {
    assert outcomes[i..][0] == outcomes[i] && outcomes[i..][1..] == outcomes[i + 1..];
  }

  lemma RunStepsDone(x: Execution, outcomes: seq<bool>)
    requires StepsOver(x) && |x.steps| + |outcomes| >= |x.task|
    ensures RunSteps(x, outcomes) == x
  {}

  lemma StepEventsByOne(done: seq<Event>, w: Wid, outcomes: seq<bool>, n: nat)
    requires n < |outcomes|
    ensures done + StepEvents(w, outcomes, n) + [RecordStep(w, outcomes[n])] == done + StepEvents(w, outcomes, n + 1)
  {}

  datatype SubmitResult = Accepted(e: Id) | ErrExecutorShuttingDown | ErrQueueFull | SendOnClosed

  class TaskExecutor {
    const maxWorkers: nat
    var executions: map<Id, Execution>
    var taskQueue: seq<Id>
    var queueClosed: bool
    var ctxCancelled: bool
    ghost var rest: Pool  // the goroutines, the wait group and the history

    ghost function View(): Pool
      reads this
    {
      rest.(maxWorkers := maxWorkers, execs := executions, queue := taskQueue,
            closed := queueClosed, cancelled := ctxCancelled)
    }

    constructor (maxWorkers: nat)
      ensures View() == NewPool(maxWorkers)
    {
      this.maxWorkers := maxWorkers;
      executions, taskQueue, queueClosed, ctxCancelled := map[], [], false, false;
      rest := NewPool(maxWorkers);
    }

    method UpdateExecutionStatus(e: Id, status: Status)
      modifies this`executions
      ensures executions == WithStatus(old(executions), e, status)
    {
      if e in executions {
        executions := executions[e := executions[e].(status := status)];
      }
    }

    method AddStepExecution(e: Id, step: StepRecord)
      modifies this`executions
      ensures executions == if e in old(executions)
        then old(executions)[e := old(executions)[e].(steps := old(executions)[e].steps + [step])]
        else old(executions)
    {
      if e in executions {
        executions := executions[e := executions[e].(steps := executions[e].steps + [step])];
      }
    }

    method SubmitTask(e: Id, task: seq<string>) returns (r: SubmitResult)
      requires e !in executions
      modifies this
      ensures old(ctxCancelled) ==> r == ErrExecutorShuttingDown && View() == old(View())
      ensures !old(ctxCancelled) ==> View() == Next(old(View()), Submit(e, task))
      ensures !old(ctxCancelled) ==>
        r == if old(queueClosed) then SendOnClosed
             else if old(|taskQueue|) < 2 * maxWorkers then Accepted(e) else ErrQueueFull
      ensures r.Accepted? ==> taskQueue == old(taskQueue) + [e]
      ensures !r.Accepted? ==> taskQueue == old(taskQueue)
      ensures !old(ctxCancelled) ==>
        executions == old(executions)[e := Execution(if r == ErrQueueFull then Failed else Queued, task, [])]
    {
      if ctxCancelled {
        return ErrExecutorShuttingDown;
      }
      rest := Next(View(), Submit(e, task));
      executions := executions[e := Execution(Queued, task, [])];
      if queueClosed {
        r := SendOnClosed;
      } else if |taskQueue| < Capacity(maxWorkers) {
        taskQueue := taskQueue + [e];
        r := Accepted(e);
      } else {
        UpdateExecutionStatus(e, Failed);
        r := ErrQueueFull;
      }
    }

    // Runs the steps of e until the first failure. The steps done since start are extended by one
    // RecordStep for every step that is run.
    method RunTaskSteps(ghost w: Wid, e: Id, task: seq<string>, outcomes: seq<bool>,
                        ghost start: Pool, ghost done: seq<Event>) returns (failed: bool, ghost n: nat)
      requires |task| == |outcomes|
      requires w in rest.workers && rest.workers[w] == Executing(e)
      requires e in executions && executions[e].task == task && executions[e].steps == []
      requires ValidFrom(start, done) && View() == RunFrom(start, done)
      modifies this`executions
      ensures e in executions && executions == old(executions)[e := RunSteps(old(executions)[e], outcomes)]
      ensures failed == !AllOk(executions[e].steps) && n == |executions[e].steps| <= |outcomes|
      ensures ValidFrom(start, done + StepEvents(w, outcomes, n))
      ensures View() == RunFrom(start, done + StepEvents(w, outcomes, n))
    {
      hide RunFrom, ValidFrom, Next, Enabled, RunSteps, AllOk;
      ghost var x := executions[e];
      failed := false;
      NothingFailed(x);
      var i := 0;
      assert done + StepEvents(w, outcomes, 0) == done && outcomes[0..] == outcomes;
      while i < |task| && !failed
        invariant 0 <= i <= |task| && e in executions
        invariant executions == old(executions)[e := executions[e]]
        invariant executions[e].task == task && |executions[e].steps| == i
        invariant failed == !AllOk(executions[e].steps)
        invariant RunSteps(executions[e], outcomes[i..]) == RunSteps(x, outcomes)
        invariant ValidFrom(start, done + StepEvents(w, outcomes, i))
        invariant View() == RunFrom(start, done + StepEvents(w, outcomes, i))
      {
        RunStepsByOne(executions[e], outcomes, i);
        failed := RunOneStep(w, e, task[i], outcomes[i]);
        OneMoreStep(start, done + StepEvents(w, outcomes, i), RecordStep(w, outcomes[i]));
        StepEventsByOne(done, w, outcomes, i);
        i := i + 1;
      }
      RunStepsDone(executions[e], outcomes[i..]);
      n := i;
    }

    // One iteration: the step's record, and whether it failed.
    method RunOneStep(ghost w: Wid, e: Id, name: string, ok: bool) returns (failed: bool)
      requires w in rest.workers && rest.workers[w] == Executing(e)
      requires e in executions && !StepsOver(executions[e]) && executions[e].task[|executions[e].steps|] == name
      modifies this`executions
      ensures Enabled(old(View()), RecordStep(w, ok)) && View() == Next(old(View()), RecordStep(w, ok))
      ensures executions == old(executions)[e := Stepped(old(executions)[e], ok)]
      ensures failed == !ok == !AllOk(executions[e].steps)
    {
      ghost var x := executions[e];
      AddStepExecution(e, StepRecord(name, ok));
      failed := !ok;
      assert executions[e] == Stepped(x, ok);
      StillAllOk(x, ok);
    }

    method FinalizeExecution(ghost w: Wid, e: Id, failed: bool) returns (finalStatus: Status)
      requires w in rest.workers && rest.workers[w] == Executing(e) && e in executions
      requires StepsOver(executions[e]) && failed == !AllOk(executions[e].steps)
      modifies this
      ensures View() == Next(old(View()), Finalize(w))
      ensures finalStatus == if failed then Failed else Success
      ensures executions == old(executions)[e := old(executions)[e].(status := finalStatus)]
    {
      rest := Next(View(), Finalize(w));
      finalStatus := if failed then Failed else Success;
      UpdateExecutionStatus(e, finalStatus);
    }

    // executeTask up to the first step.
    method BeginExecution(ghost w: Wid, e: Id)
      requires w in rest.workers && rest.workers[w] == Checked(e) && e in executions
      modifies this
      ensures View() == Next(old(View()), Begin(w)) && w in rest.workers && rest.workers[w] == Executing(e)
      ensures executions == old(executions)[e := old(executions)[e].(status := Running)]
    {
      rest := Next(View(), Begin(w));
      UpdateExecutionStatus(e, Running);
    }

    // A whole task performs the machine's steps for it: running, one record for every step up to the first
    // failure, and the final status, which is success exactly if all steps succeed. Nothing else changes.
    method ExecuteTask(ghost w: Wid, e: Id, task: seq<string>, outcomes: seq<bool>)
        returns (finalStatus: Status, ghost n: nat)
      requires |task| == |outcomes|
      requires w in rest.workers && rest.workers[w] == Checked(e)
      requires e in executions && executions[e].task == task && executions[e].steps == []
      modifies this
      ensures n == |Records(task, outcomes)| <= |outcomes|
      ensures ValidFrom(old(View()), TaskSchedule(w, outcomes, n))
      ensures View() == RunFrom(old(View()), TaskSchedule(w, outcomes, n))
      ensures executions == old(executions)[e := Execution(finalStatus, task, Records(task, outcomes))]
      ensures finalStatus == if forall i | 0 <= i < |outcomes| :: outcomes[i] then Success else Failed
    {
      hide Next, RunFrom, ValidFrom;
      ghost var start := View();
      FirstStep(start, Begin(w));
      BeginExecution(w, e);
      ghost var x := executions[e];
      assert task[0..] == task && [] + Records(task, outcomes) == Records(task, outcomes);
      RunStepsRecords(x, outcomes);
      RecordsAllOk(task, outcomes);
      hide Records, AllOk, RunSteps, StepEvents, StepsOver;
      var failed;
      failed, n := RunTaskSteps(w, e, task, outcomes, start, [Begin(w)]);
      OneMoreStep(start, [Begin(w)] + StepEvents(w, outcomes, n), Finalize(w));
      finalStatus := FinalizeExecution(w, e, failed);
    }

    method CancelQueuedExecution(e: Id)
      modifies this`executions
      ensures executions == WithStatus(old(executions), e, Cancelled)
    {
      UpdateExecutionStatus(e, Cancelled);
    }

    // One iteration of the loop over the closed queue.
    method DrainOne()
      requires rest.shutdown.Draining? && taskQueue != []
      modifies this
      ensures View() == Next(Next(old(View()), DrainTake), DrainCancel) && rest.shutdown.Draining?
      ensures |taskQueue| == old(|taskQueue|) - 1
      ensures ctxCancelled == old(ctxCancelled) && queueClosed == old(queueClosed)
    {
      rest := Next(Next(View(), DrainTake), DrainCancel);
      var e := taskQueue[0];
      taskQueue := taskQueue[1..];
      CancelQueuedExecution(e);
    }

    // The loop. Steps of workers that take requests meanwhile are the machine's business.
    method DrainQueue(ghost start: Pool, ghost done: seq<Event>) returns (ghost schedule: seq<Event>)
      requires rest.shutdown.Draining?
      requires ValidFrom(start, done) && View() == RunFrom(start, done)
      modifies this
      ensures ValidFrom(start, schedule) && View() == RunFrom(start, schedule)
      ensures done <= schedule
      ensures forall i | |done| <= i < |schedule| :: schedule[i].DrainTake? || schedule[i].DrainCancel?
      ensures rest.shutdown.Draining? && taskQueue == []
      ensures ctxCancelled == old(ctxCancelled) && queueClosed == old(queueClosed)
    {
      hide RunFrom, ValidFrom;
      schedule := done;
      while |taskQueue| > 0
        invariant rest.shutdown.Draining?
        invariant ValidFrom(start, schedule) && View() == RunFrom(start, schedule)
        invariant done <= schedule
        invariant forall i | |done| <= i < |schedule| :: schedule[i].DrainTake? || schedule[i].DrainCancel?
        invariant ctxCancelled == old(ctxCancelled) && queueClosed == old(queueClosed)
        decreases |taskQueue|
      {
        OneMoreStep(start, schedule, DrainTake);
        OneMoreStep(start, schedule + [DrainTake], DrainCancel);
        schedule := schedule + [DrainTake] + [DrainCancel];
        DrainOne();
      }
    }

    // Shutdown up to the wait: no more submissions, and everything queued is cancelled.
    method ShutdownQueue() returns (ghost schedule: seq<Event>)
      requires rest.shutdown.NotBegun?
      modifies this
      ensures ValidFrom(old(View()), schedule) && View() == RunFrom(old(View()), schedule)
      ensures [CancelContext, CloseQueue] <= schedule && schedule[|schedule| - 1] == DrainEnd
      ensures forall i | 2 <= i < |schedule| - 1 :: schedule[i].DrainTake? || schedule[i].DrainCancel?
      ensures ctxCancelled && queueClosed && taskQueue == [] && rest.shutdown.Waiting?
    {
      hide RunFrom, ValidFrom;
      ghost var start := View();
      FirstStep(start, CancelContext);
      OneMoreStep(start, [CancelContext], CloseQueue);
      rest := Next(Next(View(), CancelContext), CloseQueue);
      ctxCancelled := true;
      queueClosed := true;
      assert [CancelContext] + [CloseQueue] == [CancelContext, CloseQueue];
      schedule := DrainQueue(start, [CancelContext, CloseQueue]);
      OneMoreStep(start, schedule, DrainEnd);
      schedule := schedule + [DrainEnd];
      rest := Next(View(), DrainEnd);
    }
  }
}
