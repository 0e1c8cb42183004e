/** The task executor: submitters, a bounded queue, a pool of workers that restart after a panic,
    and a shutdown that cancels what is still queued. Every goroutine's critical sections and
    channel operations are separate steps; a run is any interleaving of them. */
module Executors {

  type Id = nat       // execution IDs
  type Wid = nat      // worker goroutines; a restarted worker is a new goroutine

  datatype Status = Queued | Running | Success | Failed | Cancelled {
    predicate Terminal() {
      Success? || Failed? || Cancelled?
    }
  }

  datatype StepRecord = StepRecord(name: string, ok: bool)

  datatype Execution = Execution(status: Status, task: seq<string>, steps: seq<StepRecord>)

  // Received: off the queue, context not yet checked. Checked: the context was not cancelled.
  // Finished: the final status is set, the completion is still being broadcast.
  // Dying: recovered from a panic, its replacement is started, Done not yet called.
  datatype Worker =
    | Idle
    | Received(e: Id) | Checked(e: Id) | Executing(e: Id) | Finished(e: Id)
    | Dying | Exited

  datatype ShutdownPc =
    | NotBegun
    | ContextCancelled
    | Draining
    | Cancelling(e: Id)   // taken off the queue by the drain loop
    | Waiting
    | ReturnedNil
    | TimedOut

  // Where an execution is. The last three are places nobody will take it from: its submitter
  // panicked on the closed queue, its worker panicked, or its status is final.
  datatype Place = Submitting | InQueue | WithWorker(w: Wid) | WithDrain | Lost | Orphaned | Settled

  const QUEUE_BUFFER_MULTIPLIER := 2

  datatype Pool = Pool(
    maxWorkers: nat,
    execs: map<Id, Execution>,
    queue: seq<Id>,
    closed: bool,               // the queue channel is closed
    cancelled: bool,            // the executor's context is cancelled
    workers: map<Wid, Worker>,
    wg: int,                    // counter of workerWg
    admitted: nat,              // SubmitTask calls past the context check, before the record
    submitting: set<Id>,        // SubmitTask calls between the record and the send
    shutdown: ShutdownPc,
    place: map<Id, Place>,      // history
    lateStarts: nat)            // history: executions started after the context was cancelled

  function Capacity(maxWorkers: nat): nat {
    maxWorkers * QUEUE_BUFFER_MULTIPLIER
  }

  // startWorkers.
  function IdleWorkers(n: nat): (ws: map<Wid, Worker>)
    ensures forall w: Wid :: w in ws <==> w < n
    ensures forall w | w in ws :: ws[w] == Idle
  {
    if n == 0 then map[] else IdleWorkers(n - 1)[n - 1 := Idle]
  }

  function NewPool(maxWorkers: nat): Pool {
    Pool(maxWorkers, map[], [], false, false, IdleWorkers(maxWorkers), maxWorkers, 0, {}, NotBegun, map[], 0)
  }

  // updateExecutionStatus: unconditional, and a no-op for an unknown ID.
  function WithStatus(execs: map<Id, Execution>, e: Id, status: Status): map<Id, Execution> {
    if e in execs then execs[e := execs[e].(status := status)] else execs
  }

  predicate AllOk(steps: seq<StepRecord>) {
    forall i | 0 <= i < |steps| :: steps[i].ok
  }

  // runTaskSteps has nothing left to run.
  predicate StepsOver(x: Execution) {
    |x.steps| >= |x.task| || !AllOk(x.steps)
  }

  // addStepExecution after the next step of the task.
  function Stepped(x: Execution, ok: bool): Execution
    requires !StepsOver(x)
  {
    x.(steps := x.steps + [StepRecord(x.task[|x.steps|], ok)])
  }

  predicate Holds(k: Worker, e: Id) {
    (k.Received? || k.Checked? || k.Executing?) && k.e == e
  }

  datatype Event =
    | Submit(e: Id, task: seq<string>)    // all of SubmitTask at once
    | SubmitCheck                         // or: the context check,
    | SubmitRecord(e: Id, task: seq<string>)  // the execution record,
    | SubmitSend(e: Id)                   // and the non-blocking send
    | Receive(w: Wid)
    | Check(w: Wid)
    | Begin(w: Wid)
    | RecordStep(w: Wid, ok: bool)
    | Finalize(w: Wid)
    | Release(w: Wid)
    | Panic(w: Wid, replacement: Wid)
    | Die(w: Wid)
    | Exit(w: Wid)
    | CancelContext
    | CloseQueue
    | DrainTake
    | DrainCancel
    | DrainEnd
    | ReturnNil
    | TimeOut

  predicate Enabled(s: Pool, ev: Event) {
    match ev
    case Submit(e, _) => !s.cancelled && e !in s.execs
    case SubmitCheck => !s.cancelled
    case SubmitRecord(e, _) => s.admitted > 0 && e !in s.execs
    case SubmitSend(e) => e in s.submitting
    case Receive(w) => w in s.workers && s.workers[w].Idle? && s.queue != []
    case Check(w) => w in s.workers && s.workers[w].Received?
    case Begin(w) => w in s.workers && s.workers[w].Checked?
    case RecordStep(w, _) =>
      w in s.workers && s.workers[w].Executing? && s.workers[w].e in s.execs && !StepsOver(s.execs[s.workers[w].e])
    case Finalize(w) =>
      w in s.workers && s.workers[w].Executing? && s.workers[w].e in s.execs && StepsOver(s.execs[s.workers[w].e])
    case Release(w) => w in s.workers && s.workers[w].Finished?
    case Panic(w, r) => w in s.workers && (s.workers[w].Executing? || s.workers[w].Finished?) && r !in s.workers
    case Die(w) => w in s.workers && s.workers[w].Dying?
    case Exit(w) => w in s.workers && s.workers[w].Idle? && (s.cancelled || (s.closed && s.queue == []))
    case CancelContext => s.shutdown.NotBegun?
    case CloseQueue => s.shutdown.ContextCancelled?
    case DrainTake => s.shutdown.Draining? && s.queue != []
    case DrainCancel => s.shutdown.Cancelling?
    case DrainEnd => s.shutdown.Draining? && s.queue == []
    case ReturnNil => s.shutdown.Waiting? && s.wg == 0
    case TimeOut => s.shutdown.Waiting?
  }

  function Recorded(s: Pool, e: Id, task: seq<string>): Pool {
    s.(execs := s.execs[e := Execution(Queued, task, [])], submitting := s.submitting + {e},
       place := s.place[e := Submitting])
  }

  // The send of SubmitTask: a panic on a closed queue, ErrQueueFull on a full one.
  function Sent(s: Pool, e: Id): Pool {
    var t := s.(submitting := s.submitting - {e});
    if s.closed then t.(place := s.place[e := Lost])
    else if |s.queue| < Capacity(s.maxWorkers) then t.(queue := s.queue + [e], place := s.place[e := InQueue])
    else t.(execs := WithStatus(s.execs, e, Failed), place := s.place[e := Settled])
  }

  function SetWorker(s: Pool, w: Wid, k: Worker): Pool {
    s.(workers := s.workers[w := k])
  }

  function Next(s: Pool, ev: Event): Pool
    requires Enabled(s, ev)
  {
    match ev
    case Submit(e, task) => Sent(Recorded(s, e, task), e)
    case SubmitCheck => s.(admitted := s.admitted + 1)
    case SubmitRecord(e, task) => Recorded(s, e, task).(admitted := s.admitted - 1)
    case SubmitSend(e) => Sent(s, e)
    case Receive(w) =>
      var e := s.queue[0];
      SetWorker(s, w, Received(e)).(queue := s.queue[1..], place := s.place[e := WithWorker(w)])
    case Check(w) =>
      var e := s.workers[w].e;
      if s.cancelled
      then SetWorker(s, w, Idle).(execs := WithStatus(s.execs, e, Cancelled), place := s.place[e := Settled])
      else SetWorker(s, w, Checked(e))
    case Begin(w) =>
      var e := s.workers[w].e;
      SetWorker(s, w, Executing(e)).(execs := WithStatus(s.execs, e, Running),
                                     lateStarts := s.lateStarts + (if s.cancelled then 1 else 0))
    case RecordStep(w, ok) =>
      var e := s.workers[w].e;
      s.(execs := s.execs[e := Stepped(s.execs[e], ok)])
    case Finalize(w) =>
      var e := s.workers[w].e;
      SetWorker(s, w, Finished(e)).(
        execs := WithStatus(s.execs, e, if AllOk(s.execs[e].steps) then Success else Failed),
        place := s.place[e := Settled])
    case Release(w) => SetWorker(s, w, Idle)
    case Panic(w, r) =>
      s.(workers := s.workers[w := Dying][r := Idle], wg := s.wg + 1,
         place := if s.workers[w].Executing? then s.place[s.workers[w].e := Orphaned] else s.place)
    case Die(w) => SetWorker(s, w, Exited).(wg := s.wg - 1)
    case Exit(w) => SetWorker(s, w, Exited).(wg := s.wg - 1)
    case CancelContext => s.(cancelled := true, shutdown := ContextCancelled)
    case CloseQueue => s.(closed := true, shutdown := Draining)
    case DrainTake =>
      var e := s.queue[0];
      s.(shutdown := Cancelling(e), queue := s.queue[1..], place := s.place[e := WithDrain])
    case DrainCancel =>
      var e := s.shutdown.e;
      s.(shutdown := Draining, execs := WithStatus(s.execs, e, Cancelled), place := s.place[e := Settled])
    case DrainEnd => s.(shutdown := Waiting)
    case ReturnNil => s.(shutdown := ReturnedNil)
    case TimeOut => s.(shutdown := TimedOut)
  }

  predicate ValidRun(maxWorkers: nat, evs: seq<Event>)
    decreases |evs|, 0
  {
    evs == [] ||
    (var p := evs[..|evs| - 1]; ValidRun(maxWorkers, p) && Enabled(Run(maxWorkers, p), evs[|evs| - 1]))
  }

  function Run(maxWorkers: nat, evs: seq<Event>): Pool
    requires ValidRun(maxWorkers, evs)
    decreases |evs|, 1
  {
    if evs == [] then NewPool(maxWorkers)
    else Next(Run(maxWorkers, evs[..|evs| - 1]), evs[|evs| - 1])
  }

  // ----- Every execution is in the place its history says -----

  ghost predicate QueueOk(s: Pool) {
    && |s.queue| <= Capacity(s.maxWorkers)
    && (forall i, j | 0 <= i < j < |s.queue| :: s.queue[i] != s.queue[j])
    && (forall i | 0 <= i < |s.queue| :: s.queue[i] in s.place && s.place[s.queue[i]] == InQueue)
    && (forall e | e in s.place && s.place[e] == InQueue :: e in s.queue)
  }

  ghost predicate WorkersOk(s: Pool) {
    && (forall w, e | w in s.workers && Holds(s.workers[w], e) :: e in s.place && s.place[e] == WithWorker(w))
    && (forall e | e in s.place && s.place[e].WithWorker? ::
          s.place[e].w in s.workers && Holds(s.workers[s.place[e].w], e))
  }

  ghost predicate DrainOk(s: Pool) {
    && (s.shutdown.Cancelling? ==> s.shutdown.e in s.place && s.place[s.shutdown.e] == WithDrain)
    && (forall e | e in s.place && s.place[e] == WithDrain :: s.shutdown == Cancelling(e))
  }

  ghost predicate SubmitOk(s: Pool) {
    forall e :: e in s.submitting <==> e in s.place && s.place[e] == Submitting
  }

  // Recorded steps follow the task and all but possibly the last succeeded.
  predicate StepsOk(x: Execution) {
    && |x.steps| <= |x.task|
    && (forall i | 0 <= i < |x.steps| :: x.steps[i].name == x.task[i])
    && (forall i | 0 <= i < |x.steps| - 1 :: x.steps[i].ok)
  }

  // A final status agrees with the recorded steps; failed without steps is a full queue.
  predicate FinalOk(x: Execution) {
    match x.status
    case Success => |x.steps| == |x.task| && AllOk(x.steps)
    case Failed => x.steps == [] || !x.steps[|x.steps| - 1].ok
    case Cancelled => x.steps == []
    case _ => true
  }

  // The status an execution has in its place.
  ghost predicate PlaceFits(s: Pool, e: Id)
    requires e in s.execs
  {
    var x := s.execs[e];
    && e in s.place
    && match s.place[e]
       case WithWorker(w) =>
         w in s.workers && x.status == (if s.workers[w].Executing? then Running else Queued)
         && (x.status == Queued ==> x.steps == [])
       case Orphaned => x.status == Running
       case Settled => x.status.Terminal()
       case _ => x.status == Queued && x.steps == []
  }

  ghost predicate PlacesOk(s: Pool) {
    && s.place.Keys == s.execs.Keys
    && (forall e | e in s.execs :: PlaceFits(s, e))
    && (forall e | e in s.execs && s.execs[e].status == Cancelled :: s.cancelled)
  }

  ghost predicate RecordsOk(execs: map<Id, Execution>) {
    forall e | e in execs :: StepsOk(execs[e]) && FinalOk(execs[e])
  }

  predicate ShutdownOk(s: Pool) {
    && (s.shutdown.NotBegun? <==> !s.cancelled)
    && (s.closed <==> !s.shutdown.NotBegun? && !s.shutdown.ContextCancelled?)
    && (s.shutdown.Waiting? || s.shutdown.ReturnedNil? || s.shutdown.TimedOut? ==> s.queue == [])
  }

  ghost predicate Inv(s: Pool) {
    QueueOk(s) && WorkersOk(s) && DrainOk(s) && SubmitOk(s) && PlacesOk(s) && RecordsOk(s.execs) && ShutdownOk(s)
  }

  // Steps that leave the queue alone and move no execution into or out of it.
  lemma QueueSame(s: Pool, t: Pool)
    requires QueueOk(s) && t.queue == s.queue && t.maxWorkers == s.maxWorkers && s.place.Keys <= t.place.Keys
    requires forall e | e in t.place ::
      t.place[e] == InQueue <==> e in s.place && s.place[e] == InQueue
    ensures QueueOk(t)
  {}

  lemma QueueAppend(s: Pool, e: Id)
    requires QueueOk(s) && e in s.place && s.place[e] != InQueue && e in s.execs
    ensures QueueOk(Sent(s, e))
  {
    var t := Sent(s, e);
    if t.queue == s.queue {
      QueueSame(s, t);
    } else {
      assert t.queue == s.queue + [e];
      assert e !in s.queue;
    }
  }

  lemma QueuePop(s: Pool, t: Pool, p: Place)
    requires QueueOk(s) && s.queue != [] && t.queue == s.queue[1..] && t.maxWorkers == s.maxWorkers
    requires t.place == s.place[s.queue[0] := p] && p != InQueue
    ensures QueueOk(t)
  {
    assert s.queue == [s.queue[0]] + s.queue[1..];
  }

  lemma SubmitKeepsQueue(s: Pool, ev: Event)
    requires QueueOk(s) && SubmitOk(s) && s.place.Keys == s.execs.Keys
    requires Enabled(s, ev) && (ev.Submit? || ev.SubmitSend?)
    ensures QueueOk(Next(s, ev))
  {
    if ev.Submit? {
      hide QueueOk, Sent;
      QueueSame(s, Recorded(s, ev.e, ev.task));
      QueueAppend(Recorded(s, ev.e, ev.task), ev.e);
    } else {
      assert s.place[ev.e] == Submitting;
      hide QueueOk, Sent;
      QueueAppend(s, ev.e);
    }
  }

  lemma TakeKeepsQueue(s: Pool, ev: Event)
    requires QueueOk(s) && Enabled(s, ev) && (ev.Receive? || ev.DrainTake?)
    ensures QueueOk(Next(s, ev))
  {
    hide QueueOk;
    QueuePop(s, Next(s, ev), if ev.Receive? then WithWorker(ev.w) else WithDrain);
  }

  lemma QueueKeeps(s: Pool, ev: Event)
    requires QueueOk(s) && WorkersOk(s) && DrainOk(s) && SubmitOk(s) && s.place.Keys == s.execs.Keys && Enabled(s, ev)
    ensures QueueOk(Next(s, ev))
  {
    hide Next, QueueOk, WorkersOk, DrainOk, SubmitOk;
    if ev.Submit? || ev.SubmitSend? {
      SubmitKeepsQueue(s, ev);
    } else if ev.Receive? || ev.DrainTake? {
      TakeKeepsQueue(s, ev);
    } else {
      QueueStays(s, ev);
    }
  }

  // Steps of a worker that has an execution in hand.
  predicate InHand(s: Pool, ev: Event)
    requires Enabled(s, ev)
  {
    ev.Check? || ev.Begin? || ev.Finalize? || (ev.Panic? && s.workers[ev.w].Executing?)
  }

  lemma QueueStays(s: Pool, ev: Event)
    requires QueueOk(s) && WorkersOk(s) && DrainOk(s) && SubmitOk(s) && s.place.Keys == s.execs.Keys && Enabled(s, ev)
    requires !(ev.Submit? || ev.SubmitSend? || ev.Receive? || ev.DrainTake?)
    ensures QueueOk(Next(s, ev))
  {
    if InHand(s, ev) {
      HolderIsUnique(s, ev.w);
      InHandMoves(s, ev);
      QueueSame(s, Next(s, ev));
    } else {
      OthersLeaveQueue(s, ev);
    }
  }

  // Such a step at most moves the execution in hand.
  lemma InHandMoves(s: Pool, ev: Event)
    requires Enabled(s, ev) && InHand(s, ev)
    requires s.workers[ev.w].e in s.place && s.place[s.workers[ev.w].e] == WithWorker(ev.w)
    ensures var t, e := Next(s, ev), s.workers[ev.w].e;
      && t.queue == s.queue && t.maxWorkers == s.maxWorkers && t.shutdown == s.shutdown
      && t.submitting == s.submitting
      && t.place == s.place[e := t.place[e]] && t.place[e] in {WithWorker(ev.w), Settled, Orphaned}
      && (t.place[e] == Orphaned <==> ev.Panic?)
  {}

  lemma OthersLeaveQueue(s: Pool, ev: Event)
    requires QueueOk(s) && DrainOk(s) && SubmitOk(s) && s.place.Keys == s.execs.Keys && Enabled(s, ev)
    requires !(ev.Submit? || ev.SubmitSend? || ev.Receive? || ev.DrainTake? || InHand(s, ev))
    ensures QueueOk(Next(s, ev))
  {
    QueueSame(s, Next(s, ev));
  }

  // Worker w now has state k, and execution e, which nobody else holds, moves to place p.
  lemma WorkerMoves(s: Pool, t: Pool, w: Wid, k: Worker, e: Id, p: Place)
    requires WorkersOk(s) && t.workers == s.workers[w := k] && t.place == s.place[e := p]
    requires w in s.workers ==> s.workers[w] == Idle || Holds(s.workers[w], e)
    requires e in s.place && s.place[e].WithWorker? ==> s.place[e].w == w
    requires (Holds(k, e) && p == WithWorker(w)) || (!p.WithWorker? && forall d :: !Holds(k, d))
    ensures WorkersOk(t)
  {
    forall d | d in t.place && t.place[d].WithWorker?
      ensures t.place[d].w in t.workers && Holds(t.workers[t.place[d].w], d)
    {
      assert d != e ==> Holds(s.workers[s.place[d].w], d);
    }
  }

  // A worker that holds nothing before and after.
  lemma WorkerStays(s: Pool, t: Pool, w: Wid, k: Worker)
    requires WorkersOk(s) && t.workers == s.workers[w := k] && t.place == s.place
    requires w in s.workers ==> forall d :: !Holds(s.workers[w], d)
    requires forall d :: !Holds(k, d)
    ensures WorkersOk(t)
  {
    forall d | d in t.place && t.place[d].WithWorker?
      ensures t.place[d].w in t.workers && Holds(t.workers[t.place[d].w], d)
    {
      assert Holds(s.workers[s.place[d].w], d);
    }
  }

  lemma ReceiveKeepsWorkers(s: Pool, w: Wid)
    requires QueueOk(s) && WorkersOk(s) && Enabled(s, Receive(w))
    ensures WorkersOk(Next(s, Receive(w)))
  {
    var e := s.queue[0];
    assert e in s.place && s.place[e] == InQueue;
    hide QueueOk, WorkersOk;
    WorkerMoves(s, Next(s, Receive(w)), w, Received(e), e, WithWorker(w));
  }

  lemma HeldKeepsWorkers(s: Pool, ev: Event)
    requires WorkersOk(s) && Enabled(s, ev) && (ev.Check? || ev.Begin? || ev.Finalize?)
    ensures WorkersOk(Next(s, ev))
  {
    var t, e := Next(s, ev), s.workers[ev.w].e;
    HolderIsUnique(s, ev.w);
    hide WorkersOk;
    WorkerMoves(s, t, ev.w, t.workers[ev.w], e, t.place[e]);
  }

  lemma UnheldKeepsWorkers(s: Pool, ev: Event)
    requires WorkersOk(s) && Enabled(s, ev) && (ev.Release? || ev.Die? || ev.Exit?)
    ensures WorkersOk(Next(s, ev))
  {
    hide WorkersOk;
    WorkerStays(s, Next(s, ev), ev.w, Next(s, ev).workers[ev.w]);
  }

  lemma WorkersStay(s: Pool, ev: Event)
    requires Enabled(s, ev)
    requires !(ev.Receive? || ev.Check? || ev.Begin? || ev.Finalize? || ev.Panic? || ev.Release? || ev.Die? || ev.Exit?)
    ensures Next(s, ev).workers == s.workers
  {}

  lemma WorkersKeep(s: Pool, ev: Event)
    requires QueueOk(s) && WorkersOk(s) && DrainOk(s) && SubmitOk(s) && s.place.Keys == s.execs.Keys && Enabled(s, ev)
    ensures WorkersOk(Next(s, ev))
  {
    hide Next, QueueOk, WorkersOk, DrainOk, SubmitOk;
    if ev.Receive? {
      ReceiveKeepsWorkers(s, ev.w);
    } else if ev.Check? || ev.Begin? || ev.Finalize? {
      HeldKeepsWorkers(s, ev);
    } else if ev.Panic? {
      PanicKeepsWorkers(s, ev.w, ev.replacement);
    } else if ev.Release? || ev.Die? || ev.Exit? {
      UnheldKeepsWorkers(s, ev);
    } else {
      WorkersStay(s, ev);
      PlaceMoves(s, ev);
    }
  }

  // The other steps at most move an execution that no worker holds.
  lemma UnheldMoves(s: Pool, t: Pool, e: Id)
    requires WorkersOk(s) && t.workers == s.workers && t.place.Keys == s.place.Keys + {e}
    requires (e in s.place ==> !s.place[e].WithWorker?) && !t.place[e].WithWorker?
    requires forall d | d in s.place && d != e :: t.place[d] == s.place[d]
    ensures WorkersOk(t)
  {}

  lemma SubmitMoves(s: Pool, ev: Event)
    requires QueueOk(s) && WorkersOk(s) && SubmitOk(s) && s.place.Keys == s.execs.Keys && Enabled(s, ev)
    requires ev.Submit? || ev.SubmitRecord? || ev.SubmitSend?
    ensures WorkersOk(Next(s, ev))
  {
    assert ev.SubmitSend? ==> s.place[ev.e] == Submitting;
    hide WorkersOk, QueueOk, SubmitOk;
    UnheldMoves(s, Next(s, ev), ev.e);
  }

  lemma PlaceMoves(s: Pool, ev: Event)
    requires QueueOk(s) && WorkersOk(s) && DrainOk(s) && SubmitOk(s) && s.place.Keys == s.execs.Keys && Enabled(s, ev)
    requires Next(s, ev).workers == s.workers
    requires !(ev.Receive? || ev.Check? || ev.Begin? || ev.Finalize? || ev.Panic? || ev.Release? || ev.Die? || ev.Exit?)
    ensures WorkersOk(Next(s, ev))
  {
    var t := Next(s, ev);
    if ev.Submit? || ev.SubmitRecord? || ev.SubmitSend? {
      SubmitMoves(s, ev);
    } else if ev.DrainTake? {
      UnheldMoves(s, t, s.queue[0]);
    } else if ev.DrainCancel? {
      UnheldMoves(s, t, s.shutdown.e);
    } else {
      SamePlaces(s, t);
    }
  }

  lemma SamePlaces(s: Pool, t: Pool)
    requires WorkersOk(s) && t.workers == s.workers && t.place == s.place
    ensures WorkersOk(t)
  {}

  lemma HolderIsUnique(s: Pool, w: Wid)
    requires WorkersOk(s) && w in s.workers
    requires s.workers[w].Received? || s.workers[w].Checked? || s.workers[w].Executing?
    ensures s.workers[w].e in s.place && s.place[s.workers[w].e] == WithWorker(w)
  {
    assert Holds(s.workers[w], s.workers[w].e);
  }

  lemma PanicKeepsWorkers(s: Pool, w: Wid, r: Wid)
    requires WorkersOk(s) && Enabled(s, Panic(w, r))
    ensures WorkersOk(Next(s, Panic(w, r)))
  {
    var t := Next(s, Panic(w, r));
    var half := s.(workers := s.workers[w := Dying], place := t.place);
    if s.workers[w].Executing? {
      HolderIsUnique(s, w);
      WorkerMoves(s, half, w, Dying, s.workers[w].e, Orphaned);
    } else {
      WorkerStays(s, half, w, Dying);
    }
    WorkerStays(half, t, r, Idle);
  }

  lemma DrainStays(s: Pool, t: Pool)
    requires DrainOk(s) && t.shutdown.Cancelling? == s.shutdown.Cancelling?
    requires s.shutdown.Cancelling? ==> t.shutdown == s.shutdown
    requires s.place.Keys <= t.place.Keys
    requires forall e | e in t.place :: t.place[e] == WithDrain <==> e in s.place && s.place[e] == WithDrain
    ensures DrainOk(t)
  {}

  lemma DrainKeeps(s: Pool, ev: Event)
    requires QueueOk(s) && WorkersOk(s) && DrainOk(s) && SubmitOk(s) && s.place.Keys == s.execs.Keys && Enabled(s, ev)
    ensures DrainOk(Next(s, ev))
  {
    hide Next, QueueOk, WorkersOk, SubmitOk;
    if InHand(s, ev) {
      HolderIsUnique(s, ev.w);
      InHandMoves(s, ev);
      DrainStays(s, Next(s, ev));
    } else if ev.Submit? || ev.SubmitRecord? || ev.SubmitSend? {
      SubmitKeepsDrain(s, ev);
    } else if ev.Receive? {
      ReceiveKeepsDrain(s, ev.w);
    } else {
      OthersKeepDrain(s, ev);
    }
  }

  lemma SubmitKeepsDrain(s: Pool, ev: Event)
    requires DrainOk(s) && SubmitOk(s) && s.place.Keys == s.execs.Keys && Enabled(s, ev)
    requires ev.Submit? || ev.SubmitRecord? || ev.SubmitSend?
    ensures DrainOk(Next(s, ev))
  {
    hide DrainOk;
    DrainStays(s, Next(s, ev));
  }

  lemma ReceiveKeepsDrain(s: Pool, w: Wid)
    requires QueueOk(s) && DrainOk(s) && Enabled(s, Receive(w))
    ensures DrainOk(Next(s, Receive(w)))
  {
    assert s.place[s.queue[0]] == InQueue;
    hide QueueOk, DrainOk;
    DrainStays(s, Next(s, Receive(w)));
  }

  lemma OthersKeepDrain(s: Pool, ev: Event)
    requires QueueOk(s) && DrainOk(s) && Enabled(s, ev)
    requires !(InHand(s, ev) || ev.Submit? || ev.SubmitRecord? || ev.SubmitSend? || ev.Receive?)
    ensures DrainOk(Next(s, ev))
  {}

  // Steps that leave the submitters alone and move no execution to or from them.
  lemma SubmittersSame(s: Pool, t: Pool)
    requires SubmitOk(s) && t.submitting == s.submitting && s.place.Keys <= t.place.Keys
    requires forall e | e in t.place :: t.place[e] == Submitting <==> e in s.place && s.place[e] == Submitting
    ensures SubmitOk(t)
  {}

  lemma SubmitKeepsSubmitters(s: Pool, ev: Event)
    requires SubmitOk(s) && s.place.Keys == s.execs.Keys && Enabled(s, ev)
    requires ev.Submit? || ev.SubmitRecord? || ev.SubmitSend?
    ensures SubmitOk(Next(s, ev))
  {}

  lemma SubmittersKeep(s: Pool, ev: Event)
    requires QueueOk(s) && WorkersOk(s) && DrainOk(s) && SubmitOk(s) && s.place.Keys == s.execs.Keys && Enabled(s, ev)
    ensures SubmitOk(Next(s, ev))
  {
    hide Next, QueueOk, WorkersOk, DrainOk, SubmitOk;
    if InHand(s, ev) {
      HolderIsUnique(s, ev.w);
      InHandMoves(s, ev);
      SubmittersSame(s, Next(s, ev));
    } else if ev.Submit? || ev.SubmitRecord? || ev.SubmitSend? {
      SubmitKeepsSubmitters(s, ev);
    } else {
      OthersKeepSubmitters(s, ev);
    }
  }

  lemma OthersKeepSubmitters(s: Pool, ev: Event)
    requires QueueOk(s) && DrainOk(s) && SubmitOk(s) && Enabled(s, ev)
    requires !(InHand(s, ev) || ev.Submit? || ev.SubmitRecord? || ev.SubmitSend?)
    ensures SubmitOk(Next(s, ev))
  {
    SubmittersSame(s, Next(s, ev));
  }

  // What PlaceFits looks at is unchanged for every execution but e.
  ghost predicate OnlyTouches(s: Pool, t: Pool, e: Id) {
    && t.execs.Keys == s.execs.Keys + {e} && t.place.Keys == s.place.Keys + {e}
    && (s.cancelled ==> t.cancelled)
    && (forall d | d in s.execs && d != e :: t.execs[d] == s.execs[d])
    && (forall d | d in s.place && d != e :: t.place[d] == s.place[d])
    && (forall d | d in s.place && d != e && s.place[d].WithWorker? && s.place[d].w in s.workers ::
          s.place[d].w in t.workers && t.workers[s.place[d].w] == s.workers[s.place[d].w])
  }

  lemma OthersFit(s: Pool, t: Pool, e: Id)
    requires PlacesOk(s) && OnlyTouches(s, t, e)
    requires e in t.execs && PlaceFits(t, e) && (t.execs[e].status == Cancelled ==> t.cancelled)
    ensures PlacesOk(t)
  {
    forall d | d in t.execs && d != e ensures PlaceFits(t, d) {
      assert PlaceFits(s, d);
    }
  }

  // A worker step changes only the execution its worker holds or has just received.
  lemma WorkerStepFits(s: Pool, t: Pool, w: Wid, k: Worker, e: Id, p: Place, x: Execution)
    requires PlacesOk(s) && WorkersOk(s) && w in s.workers && e in s.execs
    requires s.workers[w].Idle? || Holds(s.workers[w], e)
    requires t.workers == s.workers[w := k] && t.place == s.place[e := p] && t.execs == s.execs[e := x]
    requires t.cancelled == s.cancelled && PlaceFits(t, e) && (x.status == Cancelled ==> s.cancelled)
    ensures PlacesOk(t)
  {
    forall d | d in s.place && d != e && s.place[d].WithWorker? ensures s.place[d].w != w {
      assert Holds(s.workers[s.place[d].w], d);
    }
    OthersFit(s, t, e);
  }

  lemma ReceiveKeepsPlaces(s: Pool, w: Wid)
    requires PlacesOk(s) && WorkersOk(s) && QueueOk(s) && Enabled(s, Receive(w))
    ensures PlacesOk(Next(s, Receive(w)))
  {
    var e := s.queue[0];
    assert PlaceFits(s, e);
    WorkerStepFits(s, Next(s, Receive(w)), w, Received(e), e, WithWorker(w), s.execs[e]);
  }

  lemma CheckKeepsPlaces(s: Pool, w: Wid)
    requires PlacesOk(s) && WorkersOk(s) && Enabled(s, Check(w))
    ensures PlacesOk(Next(s, Check(w)))
  {
    var t, e := Next(s, Check(w)), s.workers[w].e;
    assert Holds(s.workers[w], e);
    assert PlaceFits(s, e);
    WorkerStepFits(s, t, w, t.workers[w], e, t.place[e], t.execs[e]);
  }

  lemma BeginKeepsPlaces(s: Pool, w: Wid)
    requires PlacesOk(s) && WorkersOk(s) && Enabled(s, Begin(w))
    ensures PlacesOk(Next(s, Begin(w)))
  {
    var t, e := Next(s, Begin(w)), s.workers[w].e;
    assert Holds(s.workers[w], e);
    assert PlaceFits(s, e);
    WorkerStepFits(s, t, w, Executing(e), e, s.place[e], t.execs[e]);
  }

  lemma ExecuteKeepsPlaces(s: Pool, ev: Event)
    requires PlacesOk(s) && WorkersOk(s) && Enabled(s, ev) && (ev.RecordStep? || ev.Finalize?)
    ensures PlacesOk(Next(s, ev))
  {
    var t, w, e := Next(s, ev), ev.w, s.workers[ev.w].e;
    assert Holds(s.workers[w], e);
    assert PlaceFits(s, e);
    assert PlaceFits(t, e);
    WorkerStepFits(s, t, w, t.workers[w], e, t.place[e], t.execs[e]);
  }

  lemma PanicKeepsPlaces(s: Pool, w: Wid, r: Wid)
    requires PlacesOk(s) && WorkersOk(s) && Enabled(s, Panic(w, r)) && s.workers[w].Executing?
    ensures PlacesOk(Next(s, Panic(w, r)))
  {
    var t, e := Next(s, Panic(w, r)), s.workers[w].e;
    HolderIsUnique(s, w);
    assert PlaceFits(s, e);
    OthersElsewhere(s, w, e);
    hide PlacesOk, WorkersOk;
    OthersFit(s, t, e);
  }

  // Worker w holds only e.
  lemma OthersElsewhere(s: Pool, w: Wid, e: Id)
    requires WorkersOk(s) && w in s.workers && Holds(s.workers[w], e)
    ensures forall d | d in s.place && d != e && s.place[d].WithWorker? :: s.place[d].w != w
  {
    forall d | d in s.place && d != e && s.place[d].WithWorker? ensures s.place[d].w != w {
      assert Holds(s.workers[s.place[d].w], d);
    }
  }

  lemma SendKeepsPlaces(s: Pool, e: Id)
    requires PlacesOk(s) && e in s.place && s.place[e] == Submitting
    ensures PlacesOk(Sent(s, e))
  {
    assert PlaceFits(s, e);
    OthersFit(s, Sent(s, e), e);
  }

  lemma RecordKeepsPlaces(s: Pool, e: Id, task: seq<string>)
    requires PlacesOk(s) && e !in s.execs
    ensures PlacesOk(Recorded(s, e, task))
  {
    OthersFit(s, Recorded(s, e, task), e);
  }

  lemma DrainKeepsPlaces(s: Pool, ev: Event)
    requires PlacesOk(s) && QueueOk(s) && DrainOk(s) && ShutdownOk(s) && Enabled(s, ev)
    requires ev.DrainTake? || ev.DrainCancel?
    ensures PlacesOk(Next(s, ev))
  {
    var e := if ev.DrainTake? then s.queue[0] else s.shutdown.e;
    assert PlaceFits(s, e);
    OthersFit(s, Next(s, ev), e);
  }

  // Steps that touch no execution and no worker that holds one.
  lemma QuietKeepsPlaces(s: Pool, t: Pool)
    requires PlacesOk(s) && WorkersOk(s) && t.execs == s.execs && t.place == s.place && (s.cancelled ==> t.cancelled)
    requires forall w, e | w in s.workers && Holds(s.workers[w], e) :: w in t.workers && t.workers[w] == s.workers[w]
    ensures PlacesOk(t)
  {
    forall d | d in t.execs ensures PlaceFits(t, d) {
      assert PlaceFits(s, d);
    }
  }

  // The steps QuietKeepsPlaces is about.
  predicate Quiet(s: Pool, ev: Event)
    requires Enabled(s, ev)
  {
    match ev
    case SubmitCheck => true
    case Release(_) => true
    case Panic(w, _) => !s.workers[w].Executing?
    case Die(_) => true
    case Exit(_) => true
    case CancelContext => true
    case CloseQueue => true
    case DrainEnd => true
    case ReturnNil => true
    case TimeOut => true
    case _ => false
  }

  lemma QuietStepKeepsPlaces(s: Pool, ev: Event)
    requires PlacesOk(s) && WorkersOk(s) && Enabled(s, ev) && Quiet(s, ev)
    ensures PlacesOk(Next(s, ev))
  {
    hide PlacesOk, WorkersOk;
    QuietKeepsPlaces(s, Next(s, ev));
  }

  lemma SubmitKeepsPlaces(s: Pool, ev: Event)
    requires PlacesOk(s) && SubmitOk(s) && Enabled(s, ev) && (ev.Submit? || ev.SubmitRecord? || ev.SubmitSend?)
    ensures PlacesOk(Next(s, ev))
  {
    hide PlacesOk, Sent;
    if ev.SubmitSend? {
      SendKeepsPlaces(s, ev.e);
    } else {
      RecordKeepsPlaces(s, ev.e, ev.task);
      if ev.Submit? {
        SendKeepsPlaces(Recorded(s, ev.e, ev.task), ev.e);
      } else {
        SameForPlaces(Recorded(s, ev.e, ev.task), Next(s, ev));
      }
    }
  }

  lemma SameForPlaces(s: Pool, t: Pool)
    requires PlacesOk(s) && t == s.(admitted := t.admitted)
    ensures PlacesOk(t)
  {
    forall e | e in t.execs ensures PlaceFits(t, e) {
      assert PlaceFits(s, e);
    }
  }

  lemma PlacesKeep(s: Pool, ev: Event)
    requires PlacesOk(s) && WorkersOk(s) && QueueOk(s) && DrainOk(s) && SubmitOk(s) && ShutdownOk(s) && Enabled(s, ev)
    ensures PlacesOk(Next(s, ev))
  {
    hide Next, PlacesOk, WorkersOk, QueueOk, DrainOk, SubmitOk, ShutdownOk;
    if Quiet(s, ev) {
      QuietStepKeepsPlaces(s, ev);
    } else if ev.Submit? || ev.SubmitRecord? || ev.SubmitSend? {
      SubmitKeepsPlaces(s, ev);
    } else if ev.DrainTake? || ev.DrainCancel? {
      DrainKeepsPlaces(s, ev);
    } else {
      WorkerKeepsPlaces(s, ev);
    }
  }

  lemma WorkerKeepsPlaces(s: Pool, ev: Event)
    requires PlacesOk(s) && WorkersOk(s) && QueueOk(s) && Enabled(s, ev)
    requires ev.Panic? || ev.Receive? || ev.Check? || ev.Begin? || ev.RecordStep? || ev.Finalize?
    requires !Quiet(s, ev)
    ensures PlacesOk(Next(s, ev))
  {
    if ev.Panic? {
      PanicKeepsPlaces(s, ev.w, ev.replacement);
    } else if ev.Receive? {
      ReceiveKeepsPlaces(s, ev.w);
    } else if ev.Check? {
      CheckKeepsPlaces(s, ev.w);
    } else if ev.Begin? {
      BeginKeepsPlaces(s, ev.w);
    } else {
      ExecuteKeepsPlaces(s, ev);
    }
  }

  lemma OneRecord(execs: map<Id, Execution>, e: Id, x: Execution)
    requires RecordsOk(execs) && StepsOk(x) && FinalOk(x)
    ensures RecordsOk(execs[e := x])
  {}

  // One more step of a task whose steps so far succeeded.
  lemma RecordedStepOk(x: Execution, ok: bool)
    requires StepsOk(x) && !StepsOver(x) && x.status == Running
    ensures StepsOk(Stepped(x, ok)) && FinalOk(Stepped(x, ok))
  {}

  // The final status: success exactly when the whole task was recorded and all of it succeeded.
  lemma FinalStatusOk(x: Execution)
    requires StepsOk(x) && StepsOver(x)
    ensures var y := x.(status := if AllOk(x.steps) then Success else Failed);
      StepsOk(y) && FinalOk(y)
  {}

  lemma SubmitKeepsRecords(s: Pool, ev: Event)
    requires RecordsOk(s.execs) && PlacesOk(s) && SubmitOk(s) && Enabled(s, ev)
    requires ev.Submit? || ev.SubmitRecord? || ev.SubmitSend?
    ensures RecordsOk(Next(s, ev).execs)
  {
    if ev.SubmitSend? {
      assert PlaceFits(s, ev.e);
    }
    OneRecord(s.execs, ev.e, Next(s, ev).execs[ev.e]);
  }

  lemma FinalizeKeepsRecords(s: Pool, w: Wid)
    requires RecordsOk(s.execs) && Enabled(s, Finalize(w))
    ensures RecordsOk(Next(s, Finalize(w)).execs)
  {
    hide StepsOk, FinalOk, RecordsOk;
    var e := s.workers[w].e;
    RecordOf(s.execs, e);
    FinalStatusOk(s.execs[e]);
    OneRecord(s.execs, e, Next(s, Finalize(w)).execs[e]);
  }

  lemma RecordOf(execs: map<Id, Execution>, e: Id)
    requires RecordsOk(execs) && e in execs
    ensures StepsOk(execs[e]) && FinalOk(execs[e])
  {}

  lemma DrainKeepsRecords(s: Pool)
    requires RecordsOk(s.execs) && PlacesOk(s) && DrainOk(s) && Enabled(s, DrainCancel)
    ensures RecordsOk(Next(s, DrainCancel).execs)
  {
    assert PlaceFits(s, s.shutdown.e);
    OneRecord(s.execs, s.shutdown.e, Next(s, DrainCancel).execs[s.shutdown.e]);
  }

  // Steps that write no execution record.
  lemma OthersWriteNothing(s: Pool, ev: Event)
    requires Enabled(s, ev) && !(ev.Submit? || ev.SubmitRecord? || ev.SubmitSend? || ev.Check? || ev.Begin?)
    requires !(ev.RecordStep? || ev.Finalize? || ev.DrainCancel?)
    ensures Next(s, ev).execs == s.execs
  {}

  lemma RecordsKeep(s: Pool, ev: Event)
    requires RecordsOk(s.execs) && PlacesOk(s) && WorkersOk(s) && DrainOk(s) && SubmitOk(s) && Enabled(s, ev)
    ensures RecordsOk(Next(s, ev).execs)
  {
    hide Next, RecordsOk, PlacesOk, WorkersOk, DrainOk, SubmitOk;
    if ev.Submit? || ev.SubmitRecord? || ev.SubmitSend? {
      SubmitKeepsRecords(s, ev);
    } else if ev.Finalize? {
      FinalizeKeepsRecords(s, ev.w);
    } else if ev.RecordStep? {
      StepKeepsRecords(s, ev.w, ev.ok);
    } else if ev.Check? || ev.Begin? {
      CheckKeepsRecords(s, ev);
    } else if ev.DrainCancel? {
      DrainKeepsRecords(s);
    } else {
      OthersWriteNothing(s, ev);
    }
  }

  lemma StepKeepsRecords(s: Pool, w: Wid, ok: bool)
    requires RecordsOk(s.execs) && PlacesOk(s) && WorkersOk(s) && Enabled(s, RecordStep(w, ok))
    ensures RecordsOk(Next(s, RecordStep(w, ok)).execs)
  {
    var e := s.workers[w].e;
    assert Holds(s.workers[w], e);
    assert PlaceFits(s, e);
    RecordedStepOk(s.execs[e], ok);
    OneRecord(s.execs, e, Next(s, RecordStep(w, ok)).execs[e]);
  }

  lemma CheckKeepsRecords(s: Pool, ev: Event)
    requires RecordsOk(s.execs) && PlacesOk(s) && WorkersOk(s) && Enabled(s, ev) && (ev.Check? || ev.Begin?)
    ensures RecordsOk(Next(s, ev).execs)
  {
    var e := s.workers[ev.w].e;
    assert Holds(s.workers[ev.w], e);
    assert PlaceFits(s, e);
    OneRecord(s.execs, e, Next(s, ev).execs[e]);
  }

  lemma ShutdownKeeps(s: Pool, ev: Event)
    requires ShutdownOk(s) && Enabled(s, ev)
    ensures ShutdownOk(Next(s, ev))
  {}

  lemma NextKeepsInv(s: Pool, ev: Event)
    requires Inv(s) && Enabled(s, ev)
    ensures Inv(Next(s, ev))
  {
    QueueKeeps(s, ev);
    WorkersKeep(s, ev);
    DrainKeeps(s, ev);
    SubmittersKeep(s, ev);
    PlacesKeep(s, ev);
    RecordsKeep(s, ev);
    ShutdownKeeps(s, ev);
  }

  lemma {:induction false} RunKeepsInv(maxWorkers: nat, evs: seq<Event>)
    requires ValidRun(maxWorkers, evs)
    ensures Inv(Run(maxWorkers, evs))
  {
    if evs != [] {
      var p := evs[..|evs| - 1];
      RunKeepsInv(maxWorkers, p);
      NextKeepsInv(Run(maxWorkers, p), evs[|evs| - 1]);
    }
  }
}
