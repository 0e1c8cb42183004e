/** What becomes of every execution: the queue is first in, first out, a status tells what has happened,
    and the pool neither deadlocks nor keeps an execution for ever. */
module ExecutorProgress {
  import opened Executors
  import opened ExecutorRuns

  // ----- The queue is first in, first out -----

  // The event offers execution e to the queue while it is open.
  predicate Offers(s: Pool, ev: Event, e: Id) {
    (ev.Submit? || ev.SubmitSend?) && ev.e == e && !s.closed
  }

  // What the event adds to the queue: the execution offered, if fewer than two per worker are in it.
  function Added(s: Pool, ev: Event): seq<Id> {
    if (ev.Submit? || ev.SubmitSend?) && Offers(s, ev, ev.e) && |s.queue| < 2 * s.maxWorkers then [ev.e] else []
  }

  // The executions whose send found the queue open and with room.
  function Enqueued(maxWorkers: nat, evs: seq<Event>): seq<Id>
    requires ValidRun(maxWorkers, evs)
  {
    if evs == [] then []
    else
      var p := evs[..|evs| - 1];
      Enqueued(maxWorkers, p) + Added(Run(maxWorkers, p), evs[|evs| - 1])
  }

  // What a receive or a drain step has put into the hands of its worker or of the drain loop.
  function HandedOut(t: Pool, ev: Event): seq<Id> {
    if ev.Receive? && ev.w in t.workers && t.workers[ev.w].Received? then [t.workers[ev.w].e]
    else if ev.DrainTake? && t.shutdown.Cancelling? then [t.shutdown.e]
    else []
  }

  function Taken(maxWorkers: nat, evs: seq<Event>): seq<Id>
    requires ValidRun(maxWorkers, evs)
  {
    if evs == [] then [] else Taken(maxWorkers, evs[..|evs| - 1]) + HandedOut(Run(maxWorkers, evs), evs[|evs| - 1])
  }

  lemma SendStep(s: Pool, ev: Event)
    requires Enabled(s, ev) && (ev.Submit? || ev.SubmitSend?)
    ensures Next(s, ev).queue == s.queue + Added(s, ev)
  {
    hide WithStatus;
  }

  lemma TakeStep(s: Pool, ev: Event)
    requires Enabled(s, ev) && (ev.Receive? || ev.DrainTake?)
    ensures HandedOut(Next(s, ev), ev) + Next(s, ev).queue == s.queue
  {
    assert [s.queue[0]] + s.queue[1..] == s.queue;
  }

  lemma OthersKeepQueue(s: Pool, ev: Event)
    requires Enabled(s, ev) && !(ev.Submit? || ev.SubmitSend? || ev.Receive? || ev.DrainTake?)
    ensures Next(s, ev).queue == s.queue
  {
    hide WithStatus, AllOk, StepsOver;
  }

  lemma QueueStep(s: Pool, ev: Event)
    requires Enabled(s, ev)
    ensures HandedOut(Next(s, ev), ev) + Next(s, ev).queue == s.queue + Added(s, ev)
  {
    hide Next, Enabled;
    if ev.Submit? || ev.SubmitSend? {
      SendStep(s, ev);
    } else if ev.Receive? || ev.DrainTake? {
      TakeStep(s, ev);
    } else {
      OthersKeepQueue(s, ev);
    }
  }

  // The executions taken by workers and by the drain loop, and then those in the queue, are the enqueued
  // ones in order.
  lemma {:induction false} QueueIsFifo(maxWorkers: nat, evs: seq<Event>)
    requires ValidRun(maxWorkers, evs)
    ensures Enqueued(maxWorkers, evs) == Taken(maxWorkers, evs) + Run(maxWorkers, evs).queue
  {
    hide Next, Enabled, HandedOut, Added;
    if evs == [] {
      assert NewPool(maxWorkers).queue == [];
    } else {
      var p, ev := evs[..|evs| - 1], evs[|evs| - 1];
      var s, t := Run(maxWorkers, p), Run(maxWorkers, evs);
      QueueIsFifo(maxWorkers, p);
      QueueStep(s, ev);
      var taken, handed := Taken(maxWorkers, p), HandedOut(t, ev);
      assert taken + s.queue + Added(s, ev) == taken + (handed + t.queue);
      assert taken + (handed + t.queue) == taken + handed + t.queue;
    }
  }

  // ----- Statuses can be read off the events -----

  datatype Turn = Rejection | Start | Completion | CallOff

  // The event is e's turn of that kind: its send finds the open queue full, a worker starts it, its worker
  // finishes it, or it is called off because Shutdown has begun.
  predicate Happens(s: Pool, ev: Event, e: Id, turn: Turn) {
    match turn
    case Rejection => Offers(s, ev, e) && |s.queue| == 2 * s.maxWorkers
    case Start => ev.Begin? && ev.w in s.workers && s.workers[ev.w] == Checked(e)
    case Completion => ev.Finalize? && ev.w in s.workers && s.workers[ev.w] == Executing(e)
    case CallOff =>
      (ev.Check? && ev.w in s.workers && s.workers[ev.w] == Received(e) && s.cancelled)
      || (ev.DrainCancel? && s.shutdown == Cancelling(e))
  }

  predicate Happened(maxWorkers: nat, evs: seq<Event>, e: Id, turn: Turn)
    requires ValidRun(maxWorkers, evs)
  {
    evs != []
    && (var p := evs[..|evs| - 1];
        Happened(maxWorkers, p, e, turn) || Happens(Run(maxWorkers, p), evs[|evs| - 1], e, turn))
  }

  // The record shows that the turn has happened.
  predicate Shows(x: Execution, turn: Turn) {
    match turn
    case Rejection => x.status == Failed && x.steps == []
    case Start => x.status == Running || x.status == Success || (x.status == Failed && x.steps != [])
    case Completion => x.status == Success || (x.status == Failed && x.steps != [])
    case CallOff => x.status == Cancelled
  }

  predicate ShownBy(s: Pool, e: Id, turn: Turn) {
    e in s.execs && Shows(s.execs[e], turn)
  }

  // The send of an execution that is queued in name only.
  lemma SendShows(s: Pool, d: Id, e: Id, turn: Turn)
    requires |s.queue| <= 2 * s.maxWorkers && d in s.execs && s.execs[d].status == Queued && s.execs[d].steps == []
    ensures ShownBy(Sent(s, d), e, turn) <==> ShownBy(s, e, turn) || Happens(s, SubmitSend(d), e, turn)
  {}

  lemma RecordShows(s: Pool, d: Id, task: seq<string>, e: Id, turn: Turn)
    requires d !in s.execs
    ensures ShownBy(Recorded(s, d, task), e, turn) <==> ShownBy(s, e, turn)
  {}

  lemma SubmitShows(s: Pool, ev: Event, e: Id, turn: Turn)
    requires QueueOk(s) && SubmitOk(s) && PlacesOk(s) && Enabled(s, ev)
    requires ev.Submit? || ev.SubmitRecord? || ev.SubmitSend?
    ensures ShownBy(Next(s, ev), e, turn) <==> ShownBy(s, e, turn) || Happens(s, ev, e, turn)
  {
    assert |s.queue| <= 2 * s.maxWorkers;
    if ev.SubmitSend? {
      assert PlaceFits(s, ev.e);
      hide PlacesOk, SubmitOk, QueueOk, ShownBy, Sent, Happens;
      SendShows(s, ev.e, e, turn);
    } else {
      hide PlacesOk, SubmitOk, QueueOk, ShownBy, Sent;
      RecordShows(s, ev.e, ev.task, e, turn);
      if ev.Submit? {
        SendShows(Recorded(s, ev.e, ev.task), ev.e, e, turn);
      } else {
        SameRecords(Recorded(s, ev.e, ev.task), Next(s, ev), e, turn);
      }
    }
  }

  lemma HandShows(s: Pool, ev: Event, e: Id, turn: Turn)
    requires WorkersOk(s) && PlacesOk(s) && Enabled(s, ev) && (ev.Check? || ev.Begin?)
    ensures ShownBy(Next(s, ev), e, turn) <==> ShownBy(s, e, turn) || Happens(s, ev, e, turn)
  {
    assert Holds(s.workers[ev.w], s.workers[ev.w].e);
    assert PlaceFits(s, s.workers[ev.w].e);
    hide WorkersOk, PlacesOk;
  }

  // One execution's record has changed, if any, and that as far as is said.
  lemma OnlyOneShows(s: Pool, t: Pool, d: Id, e: Id, turn: Turn, now: bool)
    requires d in s.execs && d in t.execs && t.execs == s.execs[d := t.execs[d]]
    requires Shows(t.execs[d], turn) <==> Shows(s.execs[d], turn) || now
    ensures ShownBy(t, e, turn) <==> ShownBy(s, e, turn) || (now && e == d)
  {}

  lemma RunningShows(x: Execution, y: Execution, turn: Turn)
    requires x.status == Running && y.status == Running
    ensures Shows(y, turn) == Shows(x, turn)
  {}

  lemma FinalShows(x: Execution, turn: Turn)
    requires x.status == Running && StepsOver(x) && |x.steps| <= |x.task|
    ensures var y := x.(status := if AllOk(x.steps) then Success else Failed);
      Shows(y, turn) <==> Shows(x, turn) || turn == Completion
  {}

  lemma StepShows(s: Pool, ev: Event, e: Id, turn: Turn)
    requires WorkersOk(s) && PlacesOk(s) && Enabled(s, ev) && ev.RecordStep?
    ensures ShownBy(Next(s, ev), e, turn) <==> ShownBy(s, e, turn) || Happens(s, ev, e, turn)
  {
    var d := s.workers[ev.w].e;
    HolderIsUnique(s, ev.w);
    assert PlaceFits(s, d);
    hide WorkersOk, PlacesOk, AllOk, StepsOver, Shows, ShownBy;
    RunningShows(s.execs[d], Next(s, ev).execs[d], turn);
    OnlyOneShows(s, Next(s, ev), d, e, turn, false);
  }

  lemma FinalizeShows(s: Pool, ev: Event, e: Id, turn: Turn)
    requires WorkersOk(s) && PlacesOk(s) && RecordsOk(s.execs) && Enabled(s, ev) && ev.Finalize?
    ensures ShownBy(Next(s, ev), e, turn) <==> ShownBy(s, e, turn) || Happens(s, ev, e, turn)
  {
    var d := s.workers[ev.w].e;
    HolderIsUnique(s, ev.w);
    assert PlaceFits(s, d) && StepsOk(s.execs[d]);
    hide WorkersOk, PlacesOk, RecordsOk, AllOk, StepsOver, Shows, ShownBy;
    FinalShows(s.execs[d], turn);
    OnlyOneShows(s, Next(s, ev), d, e, turn, turn == Completion);
  }

  lemma DrainShows(s: Pool, e: Id, turn: Turn)
    requires DrainOk(s) && PlacesOk(s) && Enabled(s, DrainCancel)
    ensures ShownBy(Next(s, DrainCancel), e, turn) <==> ShownBy(s, e, turn) || Happens(s, DrainCancel, e, turn)
  {
    assert PlaceFits(s, s.shutdown.e);
    assert forall d :: s.shutdown == Cancelling(d) <==> d == s.shutdown.e;
    hide DrainOk, PlacesOk;
  }

  lemma NextShows(s: Pool, ev: Event, e: Id, turn: Turn)
    requires Inv(s) && Enabled(s, ev)
    ensures ShownBy(Next(s, ev), e, turn) <==> ShownBy(s, e, turn) || Happens(s, ev, e, turn)
  {
    hide Next, ShownBy, QueueOk, WorkersOk, DrainOk, SubmitOk, PlacesOk, RecordsOk, ShutdownOk;
    if ev.Submit? || ev.SubmitRecord? || ev.SubmitSend? {
      SubmitShows(s, ev, e, turn);
    } else if ev.Check? || ev.Begin? {
      HandShows(s, ev, e, turn);
    } else if ev.RecordStep? {
      StepShows(s, ev, e, turn);
    } else if ev.Finalize? {
      FinalizeShows(s, ev, e, turn);
    } else if ev.DrainCancel? {
      DrainShows(s, e, turn);
    } else {
      OthersWriteNothing(s, ev);
      assert ShownBy(Next(s, ev), e, turn) == ShownBy(s, e, turn) by { SameRecords(s, Next(s, ev), e, turn); }
    }
  }

  lemma SameRecords(s: Pool, t: Pool, e: Id, turn: Turn)
    requires t.execs == s.execs
    ensures ShownBy(t, e, turn) == ShownBy(s, e, turn)
  {}

  lemma {:induction false} TurnsAreShown(maxWorkers: nat, evs: seq<Event>, e: Id, turn: Turn)
    requires ValidRun(maxWorkers, evs)
    ensures ShownBy(Run(maxWorkers, evs), e, turn) <==> Happened(maxWorkers, evs, e, turn)
  {
    hide Next, Enabled, Inv, Happens, Shows;
    if evs != [] {
      var p, ev := evs[..|evs| - 1], evs[|evs| - 1];
      TurnsAreShown(maxWorkers, p, e, turn);
      RunKeepsInv(maxWorkers, p);
      NextShows(Run(maxWorkers, p), ev, e, turn);
    }
  }

  // The status of an execution is what has happened to it: it has failed without starting exactly if its
  // send found two executions per worker queued, it is cancelled exactly if it was called off, queued
  // exactly if nothing has happened, and otherwise it has started, and is running until it is finished.
  lemma StatusesByEvents(maxWorkers: nat, evs: seq<Event>, e: Id)
    requires ValidRun(maxWorkers, evs) && e in Run(maxWorkers, evs).execs
    ensures var x := Run(maxWorkers, evs).execs[e];
      && (x.status == Failed && x.steps == [] <==> Happened(maxWorkers, evs, e, Rejection))
      && (x.status == Cancelled <==> Happened(maxWorkers, evs, e, CallOff))
      && (x.status == Queued <==> forall turn :: !Happened(maxWorkers, evs, e, turn))
      && (x.status == Running
          <==> Happened(maxWorkers, evs, e, Start) && !Happened(maxWorkers, evs, e, Completion))
      && (x.status == Success || (x.status == Failed && x.steps != [])
          <==> Happened(maxWorkers, evs, e, Completion))
      && (Happened(maxWorkers, evs, e, Completion) ==> Happened(maxWorkers, evs, e, Start))
  {
    hide Run, ValidRun, Happened;
    forall turn ensures ShownBy(Run(maxWorkers, evs), e, turn) <==> Happened(maxWorkers, evs, e, turn) {
      TurnsAreShown(maxWorkers, evs, e, turn);
    }
    var x := Run(maxWorkers, evs).execs[e];
    assert ShownBy(Run(maxWorkers, evs), e, Rejection) == Shows(x, Rejection);
    assert ShownBy(Run(maxWorkers, evs), e, Start) == Shows(x, Start);
    assert ShownBy(Run(maxWorkers, evs), e, Completion) == Shows(x, Completion);
    assert ShownBy(Run(maxWorkers, evs), e, CallOff) == Shows(x, CallOff);
    if x.status == Queued {
      forall turn ensures !Happened(maxWorkers, evs, e, turn) {
        TurnsAreShown(maxWorkers, evs, e, turn);
      }
    } else {
      var turn := if Shows(x, Rejection) then Rejection else if Shows(x, CallOff) then CallOff else Start;
      assert Happened(maxWorkers, evs, e, turn);
    }
  }

  // ----- Progress -----

  lemma PanicKeepsStaff(s: Pool, w: Wid, r: Wid)
    requires Enabled(s, Panic(w, r))
    ensures |Active(Next(s, Panic(w, r)))| == |Active(s)|
  {
    PanicMoves(s, Next(s, Panic(w, r)), w, r);
    hide Active, Live, AboutToStart;
  }

  lemma LoopKeepsStaff(s: Pool, ev: Event)
    requires Enabled(s, ev) && (ev.Receive? || ev.Check? || ev.Begin? || ev.Finalize? || ev.Release?)
    ensures Active(Next(s, ev)) == Active(s)
  {
    hide Active, Live, AboutToStart;
    SameLoop(s, Next(s, ev), ev.w, Next(s, ev).workers[ev.w]);
  }

  lemma DyingIsNoStaff(s: Pool, w: Wid)
    requires Enabled(s, Die(w))
    ensures Active(Next(s, Die(w))) == Active(s)
  {
    LeaveMoves(s, Next(s, Die(w)), w);
    assert w !in Active(s);
    hide Active, Live, AboutToStart;
  }

  lemma SameStaff(s: Pool, t: Pool)
    requires t.workers == s.workers
    ensures Active(t) == Active(s)
  {}

  lemma StaffedStep(s: Pool, ev: Event)
    requires Enabled(s, ev) && !ev.Exit?
    ensures |Active(Next(s, ev))| == |Active(s)|
  {
    hide Next, Enabled, Active;
    if ev.Panic? {
      PanicKeepsStaff(s, ev.w, ev.replacement);
    } else if ev.Receive? || ev.Check? || ev.Begin? || ev.Finalize? || ev.Release? {
      LoopKeepsStaff(s, ev);
    } else if ev.Die? {
      DyingIsNoStaff(s, ev.w);
    } else {
      WorkersStay(s, ev);
      SameStaff(s, Next(s, ev));
    }
  }

  lemma ExitOnlyAfterCancel(s: Pool, w: Wid)
    requires ShutdownOk(s) && Enabled(s, Exit(w))
    ensures s.cancelled
  {}

  // Until the context is cancelled the worker loop runs maxWorkers times, panics or not.
  lemma {:induction false} FullyStaffed(maxWorkers: nat, evs: seq<Event>)
    requires ValidRun(maxWorkers, evs) && !Run(maxWorkers, evs).cancelled
    ensures |Active(Run(maxWorkers, evs))| == maxWorkers
  {
    hide Next, Enabled, Active;
    RunKeepsCounts(maxWorkers, evs);
    if evs == [] {
      InitialWorkers(maxWorkers);
      assert Active(NewPool(maxWorkers)) == NewPool(maxWorkers).workers.Keys by { AllActive(maxWorkers); }
    } else {
      var p, ev := evs[..|evs| - 1], evs[|evs| - 1];
      RunKeepsInv(maxWorkers, p);
      RunKeepsCounts(maxWorkers, p);
      StepCancels(Run(maxWorkers, p), ev);
      FullyStaffed(maxWorkers, p);
      if ev.Exit? {
        ExitOnlyAfterCancel(Run(maxWorkers, p), ev.w);
      }
      StaffedStep(Run(maxWorkers, p), ev);
    }
  }

  lemma AllActive(n: nat)
    ensures Active(NewPool(n)) == NewPool(n).workers.Keys == IdleWorkers(n).Keys
  {}

  // Steps of workers and of Shutdown other than panics, exits and the return of Shutdown.
  predicate Productive(ev: Event) {
    ev.Receive? || ev.Check? || ev.Begin? || ev.RecordStep? || ev.Finalize? || ev.Release? || ev.Die?
    || ev.CloseQueue? || ev.DrainTake? || ev.DrainCancel?
  }

  // A worker that runs the loop can go on, unless it is idle and there is nothing to receive.
  lemma WorkerCanAct(s: Pool, w: Wid) returns (ev: Event)
    requires WorkersOk(s) && s.place.Keys == s.execs.Keys && w in Active(s) && (s.workers[w].Idle? ==> s.queue != [])
    ensures Enabled(s, ev) && Productive(ev)
  {
    var k := s.workers[w];
    if k.Executing? {
      HolderIsUnique(s, w);
    }
    hide WorkersOk, AllOk;
    ev := if k.Idle? then Receive(w) else if k.Received? then Check(w) else if k.Checked? then Begin(w)
          else if k.Finished? then Release(w)
          else if StepsOver(s.execs[k.e]) then Finalize(w) else RecordStep(w, true);
  }

  lemma ShutdownCanAct(s: Pool) returns (ev: Event)
    requires ShutdownOk(s) && s.cancelled && s.queue != []
    ensures Enabled(s, ev) && Productive(ev)
  {
    ev := if s.shutdown.ContextCancelled? then CloseQueue
          else if s.shutdown.Draining? then DrainTake else DrainCancel;
  }

  // With a worker at all, a pool in which some execution has been accepted and has not reached its final
  // status always has a step of a worker or of Shutdown to take, except for executions whose worker
  // panicked: no deadlock, at any point of a shutdown.
  lemma NeverStuck(maxWorkers: nat, evs: seq<Event>, e: Id) returns (ev: Event)
    requires maxWorkers > 0 && ValidRun(maxWorkers, evs) && e in Run(maxWorkers, evs).execs
    requires !Run(maxWorkers, evs).execs[e].status.Terminal()
    requires !Unsent(evs, e) && !SentLate(evs, e) && !PanickedOn(maxWorkers, evs, e)
    ensures Enabled(Run(maxWorkers, evs), ev) && Productive(ev)
  {
    hide Run, ValidRun, Unsent, SentLate, PanickedOn, Enabled, Productive;
    var s := Run(maxWorkers, evs);
    RunKeepsInv(maxWorkers, evs);
    StuckByEvents(maxWorkers, evs, e);
    var site := SomeSite(s, e);
    hide QueueOk, WorkersOk, DrainOk, SubmitOk, RecordsOk;
    match site
    case QueueSlot(i) =>
      if s.cancelled {
        ev := ShutdownCanAct(s);
      } else {
        FullyStaffed(maxWorkers, evs);
        hide ShutdownOk, Active;
        var w :| w in Active(s);
        ev := WorkerCanAct(s, w);
      }
    case WorkerSlot(w) =>
      ev := WorkerCanAct(s, w);
    case DrainSlot =>
      ev := DrainCancel;
      assert Enabled(s, ev) && Productive(ev) by { CancellingCanAct(s); }
  }

  lemma CancellingCanAct(s: Pool)
    requires s.shutdown.Cancelling?
    ensures Enabled(s, DrainCancel) && Productive(DrainCancel)
  {}

  // How many steps are left for e at the most.
  function Remaining(s: Pool, e: Id): int
    requires e in s.place && e in s.execs
  {
    var n := |s.execs[e].task|;
    match s.place[e]
    case Submitting => n + 6
    case InQueue => n + 5
    case WithDrain => 1
    case WithWorker(w) =>
      if w !in s.workers then 0
      else if s.workers[w].Received? then n + 4
      else if s.workers[w].Checked? then n + 3
      else n - |s.execs[e].steps| + 2
    case _ => 0
  }

  // The step is one of e's way through the pool.
  predicate Concerns(s: Pool, ev: Event, e: Id) {
    match ev
    case SubmitSend(d) => d == e
    case Receive(_) => s.queue != [] && s.queue[0] == e
    case DrainTake => s.queue != [] && s.queue[0] == e
    case DrainCancel => s.shutdown == Cancelling(e)
    case _ =>
      (ev.Check? || ev.Begin? || ev.RecordStep? || ev.Finalize? || ev.Panic?)
      && ev.w in s.workers && Holds(s.workers[ev.w], e)
  }

  ghost predicate Falls(s: Pool, t: Pool, e: Id, concerns: bool)
    requires e in s.place && e in s.execs
  {
    && e in t.place && e in t.execs && t.execs[e].task == s.execs[e].task
    && Remaining(t, e) <= Remaining(s, e) && (concerns ==> Remaining(t, e) < Remaining(s, e))
  }

  // Nothing that Remaining looks at has changed.
  lemma RemainingStays(s: Pool, t: Pool, e: Id)
    requires e in s.place && e in s.execs && e in t.place && e in t.execs
    requires t.place[e] == s.place[e] && t.execs[e].task == s.execs[e].task
    requires s.place[e].WithWorker? ==>
      && s.place[e].w in s.workers && s.place[e].w in t.workers
      && t.workers[s.place[e].w] == s.workers[s.place[e].w] && t.execs[e].steps == s.execs[e].steps
    ensures Falls(s, t, e, false)
  {}

  lemma HeldGoesOn(s: Pool, ev: Event, e: Id)
    requires Enabled(s, ev) && (InHand(s, ev) || ev.RecordStep?) && s.workers[ev.w].e == e
    requires e in s.place && s.place[e] == WithWorker(ev.w) && e in s.execs && |s.execs[e].steps| <= |s.execs[e].task|
    requires !s.workers[ev.w].Executing? ==> s.execs[e].steps == []
    ensures Falls(s, Next(s, ev), e, true)
  {
    hide AllOk;
  }

  lemma HeldFalls(s: Pool, ev: Event, e: Id)
    requires Inv(s) && Enabled(s, ev) && (InHand(s, ev) || ev.RecordStep?) && s.workers[ev.w].e == e
    ensures e in s.place && e in s.execs && Falls(s, Next(s, ev), e, true)
  {
    hide QueueOk, DrainOk, SubmitOk, Next, Falls;
    HolderIsUnique(s, ev.w);
    assert PlaceFits(s, e) && StepsOk(s.execs[e]);
    hide WorkersOk, PlacesOk, RecordsOk, AllOk, InHand;
    HeldGoesOn(s, ev, e);
  }

  // A step of worker w is nothing to the executions it does not hold.
  lemma OtherHand(s: Pool, ev: Event, e: Id)
    requires Enabled(s, ev) && (InHand(s, ev) || ev.RecordStep?) && s.workers[ev.w].e != e
    requires e in s.place && e in s.execs
    requires s.place[e].WithWorker? ==> s.place[e].w in s.workers && s.place[e].w != ev.w
    requires s.workers[ev.w].e in s.execs
    ensures Falls(s, Next(s, ev), e, false)
  {
    hide Falls, AllOk, StepsOver;
    RemainingStays(s, Next(s, ev), e);
  }

  lemma OthersRemain(s: Pool, ev: Event, e: Id)
    requires Inv(s) && Enabled(s, ev) && (InHand(s, ev) || ev.RecordStep?) && s.workers[ev.w].e != e && e in s.execs
    ensures Falls(s, Next(s, ev), e, false)
  {
    hide Next, Falls, QueueOk, DrainOk, SubmitOk, RecordsOk, ShutdownOk, PlaceFits, AllOk, StepsOver;
    HolderIsUnique(s, ev.w);
    OthersElsewhere(s, ev.w, s.workers[ev.w].e);
    hide InHand;
    OtherHand(s, ev, e);
  }

  lemma OwnTake(s: Pool, ev: Event, e: Id)
    requires Enabled(s, ev) && (ev.Receive? || ev.DrainTake? || ev.DrainCancel?) && Concerns(s, ev, e)
    requires e in s.place && e in s.execs && s.place[e] == if ev.DrainCancel? then WithDrain else InQueue
    ensures Falls(s, Next(s, ev), e, true)
  {}

  lemma OtherTake(s: Pool, ev: Event, e: Id)
    requires Enabled(s, ev) && (ev.Receive? || ev.DrainTake? || ev.DrainCancel?) && !Concerns(s, ev, e)
    requires e in s.place && e in s.execs
    requires s.place[e].WithWorker? ==> s.place[e].w in s.workers && !s.workers[s.place[e].w].Idle?
    ensures Falls(s, Next(s, ev), e, false)
  {
    hide Falls;
    RemainingStays(s, Next(s, ev), e);
  }

  lemma TakeFalls(s: Pool, ev: Event, e: Id)
    requires Inv(s) && Enabled(s, ev) && (ev.Receive? || ev.DrainTake? || ev.DrainCancel?) && e in s.execs
    ensures Falls(s, Next(s, ev), e, Concerns(s, ev, e))
  {
    assert PlaceFits(s, e);
    hide Next, Falls, SubmitOk, PlacesOk, RecordsOk, ShutdownOk, PlaceFits;
    if Concerns(s, ev, e) {
      OwnTake(s, ev, e);
    } else {
      OtherTake(s, ev, e);
    }
  }

  lemma SendFalls(s: Pool, ev: Event, e: Id)
    requires Inv(s) && Enabled(s, ev) && (ev.Submit? || ev.SubmitRecord? || ev.SubmitSend?) && e in s.execs
    ensures Falls(s, Next(s, ev), e, Concerns(s, ev, e))
  {
    assert PlaceFits(s, e);
    hide QueueOk, WorkersOk, DrainOk, PlacesOk, RecordsOk, ShutdownOk, Next, Falls;
    if Concerns(s, ev, e) {
      OwnSend(s, e);
    } else {
      OtherSend(s, ev, e);
    }
  }

  lemma OtherSend(s: Pool, ev: Event, e: Id)
    requires Enabled(s, ev) && (ev.Submit? || ev.SubmitRecord? || ev.SubmitSend?) && !Concerns(s, ev, e)
    requires e in s.place && e in s.execs && (s.place[e].WithWorker? ==> s.place[e].w in s.workers)
    ensures Falls(s, Next(s, ev), e, false)
  {
    hide Falls;
    RemainingStays(s, Next(s, ev), e);
  }

  lemma OwnSend(s: Pool, e: Id)
    requires e in s.place && e in s.execs && s.place[e] == Submitting && Enabled(s, SubmitSend(e))
    ensures Falls(s, Next(s, SubmitSend(e)), e, true)
  {}

  lemma QuietRemains(s: Pool, ev: Event, e: Id)
    requires Enabled(s, ev) && Quiet(s, ev) && e in s.place && e in s.execs
    requires s.place[e].WithWorker? ==> s.place[e].w in s.workers && Holds(s.workers[s.place[e].w], e)
    ensures !Concerns(s, ev, e) && Falls(s, Next(s, ev), e, false)
  {
    hide Falls;
    RemainingStays(s, Next(s, ev), e);
  }

  lemma RestFalls(s: Pool, ev: Event, e: Id)
    requires Inv(s) && Enabled(s, ev) && Quiet(s, ev) && e in s.execs
    ensures Falls(s, Next(s, ev), e, Concerns(s, ev, e))
  {
    hide Next, Enabled, Quiet, Concerns, Falls, QueueOk, DrainOk, SubmitOk, RecordsOk, ShutdownOk, PlaceFits;
    QuietRemains(s, ev, e);
  }

  lemma RemainingFalls(s: Pool, ev: Event, e: Id)
    requires Inv(s) && Enabled(s, ev) && e in s.execs
    ensures Falls(s, Next(s, ev), e, Concerns(s, ev, e))
  {
    hide Next, Falls, QueueOk, WorkersOk, DrainOk, SubmitOk, PlacesOk, RecordsOk, ShutdownOk;
    if Quiet(s, ev) {
      RestFalls(s, ev, e);
    } else if ev.Receive? || ev.DrainTake? || ev.DrainCancel? {
      TakeFalls(s, ev, e);
    } else if ev.Submit? || ev.SubmitRecord? || ev.SubmitSend? {
      SendFalls(s, ev, e);
    } else if s.workers[ev.w].e == e {
      HeldFalls(s, ev, e);
    } else {
      OthersRemain(s, ev, e);
    }
  }

  // The number of steps of a run that concern e.
  function Concerning(maxWorkers: nat, evs: seq<Event>, e: Id): nat
    requires ValidRun(maxWorkers, evs)
  {
    if evs == [] then 0
    else
      var p := evs[..|evs| - 1];
      Concerning(maxWorkers, p, e) + if Concerns(Run(maxWorkers, p), evs[|evs| - 1], e) then 1 else 0
  }

  lemma ConcernedIsKnown(s: Pool, ev: Event, e: Id)
    requires Inv(s) && Enabled(s, ev) && Concerns(s, ev, e)
    ensures e in s.execs
  {
    hide PlaceFits, RecordsOk, ShutdownOk, Next;
  }

  lemma NewlyRecorded(s: Pool, ev: Event, e: Id)
    requires Inv(s) && Enabled(s, ev) && e !in s.execs && e in Next(s, ev).execs
    ensures var t := Next(s, ev); e in t.place && Remaining(t, e) <= |t.execs[e].task| + 6
  {
    hide RecordsOk, ShutdownOk, QueueOk, WorkersOk, DrainOk, PlaceFits, AllOk, StepsOver;
    if !(ev.Submit? || ev.SubmitRecord? || ev.SubmitSend?) {
      hide Next, PlacesOk, SubmitOk;
      OthersMakeNothing(s, ev);
      assert false;
    }
  }

  lemma RemainingIsNatural(s: Pool, e: Id)
    requires Inv(s) && e in s.execs
    ensures e in s.place && Remaining(s, e) >= 0
  {
    assert PlaceFits(s, e) && StepsOk(s.execs[e]);
    hide QueueOk, WorkersOk, DrainOk, SubmitOk, PlacesOk, RecordsOk, ShutdownOk;
  }

  // An execution is settled or stuck after at most one step for each step of its task and six more, in every
  // run, whatever happens to other executions: there is no endless way through the pool.
  lemma {:induction false} FewSteps(maxWorkers: nat, evs: seq<Event>, e: Id)
    requires ValidRun(maxWorkers, evs)
    ensures var s := Run(maxWorkers, evs);
      if e in s.execs then
        e in s.place && 0 <= Remaining(s, e) <= |s.execs[e].task| + 6 - Concerning(maxWorkers, evs, e)
      else Concerning(maxWorkers, evs, e) == 0
  {
    hide Next, Enabled, Inv, Remaining, Concerns;
    if evs != [] {
      var p, ev := evs[..|evs| - 1], evs[|evs| - 1];
      var s, t := Run(maxWorkers, p), Run(maxWorkers, evs);
      FewSteps(maxWorkers, p, e);
      RunKeepsInv(maxWorkers, p);
      RunKeepsInv(maxWorkers, evs);
      if Concerns(s, ev, e) {
        ConcernedIsKnown(s, ev, e);
      }
      if e in s.execs {
        RemainingFalls(s, ev, e);
        RemainingIsNatural(t, e);
      } else if e in t.execs {
        NewlyRecorded(s, ev, e);
        RemainingIsNatural(t, e);
      }
    }
  }
}
