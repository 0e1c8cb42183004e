/** What the executor guarantees over whole runs: one place per execution, the worker and
    wait-group counts, the paths statuses take, and what Shutdown leaves behind. */
module ExecutorRuns {
  import opened Executors

  // ----- Exactly one place -----

  // Every place an execution can be found in, read off the state.
  datatype Site = QueueSlot(i: nat) | WorkerSlot(w: Wid) | DrainSlot | SubmitterSlot | LostSlot | OrphanSlot

  ghost predicate Occupies(s: Pool, e: Id, site: Site) {
    match site
    case QueueSlot(i) => i < |s.queue| && s.queue[i] == e
    case WorkerSlot(w) => w in s.workers && Holds(s.workers[w], e)
    case DrainSlot => s.shutdown == Cancelling(e)
    case SubmitterSlot => e in s.submitting
    case LostSlot => e in s.place && s.place[e] == Lost
    case OrphanSlot => e in s.place && s.place[e] == Orphaned
  }

  // Occupying a site is having the place that goes with it.
  lemma SiteTellsPlace(s: Pool, e: Id, site: Site)
    requires Inv(s) && Occupies(s, e, site)
    ensures e in s.place
    ensures match site
      case QueueSlot(_) => s.place[e] == InQueue
      case WorkerSlot(w) => s.place[e] == WithWorker(w)
      case DrainSlot => s.place[e] == WithDrain
      case SubmitterSlot => s.place[e] == Submitting
      case LostSlot => s.place[e] == Lost
      case OrphanSlot => s.place[e] == Orphaned
  {
    hide PlacesOk, RecordsOk, ShutdownOk;
  }

  lemma OneSite(s: Pool, e: Id, a: Site, b: Site)
    requires Inv(s) && Occupies(s, e, a) && Occupies(s, e, b)
    ensures a == b
  {
    SiteTellsPlace(s, e, a);
    SiteTellsPlace(s, e, b);
    hide PlacesOk, RecordsOk, ShutdownOk, WorkersOk, DrainOk, SubmitOk;
  }

  lemma SomeSite(s: Pool, e: Id) returns (site: Site)
    requires Inv(s) && e in s.execs && !s.execs[e].status.Terminal()
    ensures Occupies(s, e, site)
  {
    assert PlaceFits(s, e);
    hide RecordsOk, ShutdownOk, PlacesOk;
    match s.place[e]
    case InQueue => var i: nat :| i < |s.queue| && s.queue[i] == e; site := QueueSlot(i);
    case WithWorker(w) => site := WorkerSlot(w);
    case WithDrain => site := DrainSlot;
    case Submitting => site := SubmitterSlot;
    case Lost => site := LostSlot;
    case Orphaned => site := OrphanSlot;
  }

  // A non-terminal execution occupies exactly one site, a terminal one none.
  lemma OnePlace(s: Pool, e: Id)
    requires Inv(s) && e in s.execs
    ensures s.execs[e].status.Terminal() ==> forall site :: !Occupies(s, e, site)
    ensures !s.execs[e].status.Terminal() ==> exists site :: Occupies(s, e, site)
    ensures forall a, b | Occupies(s, e, a) && Occupies(s, e, b) :: a == b
  {
    hide Occupies, QueueOk, WorkersOk, DrainOk, SubmitOk, RecordsOk, ShutdownOk;
    if s.execs[e].status.Terminal() {
      assert PlaceFits(s, e);
      forall site ensures !Occupies(s, e, site) {
        if Occupies(s, e, site) { SiteTellsPlace(s, e, site); }
      }
    } else {
      var site := SomeSite(s, e);
    }
    forall a, b | Occupies(s, e, a) && Occupies(s, e, b) ensures a == b {
      OneSite(s, e, a, b);
    }
  }

  // ----- Counting workers -----

  ghost function Live(s: Pool): set<Wid> {
    set w | w in s.workers && !s.workers[w].Exited?
  }

  // Goroutines that run the worker loop.
  ghost function Active(s: Pool): set<Wid> {
    set w | w in s.workers && !s.workers[w].Exited? && !s.workers[w].Dying?
  }

  ghost function AboutToStart(s: Pool): set<Wid> {
    set w | w in s.workers && s.workers[w].Checked?
  }

  ghost predicate Counts(s: Pool) {
    && s.wg == |Live(s)|
    && |Active(s)| <= s.maxWorkers
    && (!s.cancelled ==> s.lateStarts == 0)
    && (s.cancelled ==> s.lateStarts + |AboutToStart(s)| <= s.maxWorkers)
    && (s.shutdown.ReturnedNil? ==> Live(s) == {})
  }

  lemma Subset<T>(a: set<T>, b: set<T>)
    requires a <= b
    ensures |a| <= |b|
  {
    assert b == a + (b - a);
  }

  // Worker w goes from a live state to another without leaving or entering the loop.
  lemma SameLoop(s: Pool, t: Pool, w: Wid, k: Worker)
    requires w in s.workers && t.workers == s.workers[w := k]
    requires !s.workers[w].Exited? && !s.workers[w].Dying? && !k.Exited? && !k.Dying?
    ensures Live(t) == Live(s) && Active(t) == Active(s)
    ensures AboutToStart(t) == AboutToStart(s) - {w} + (if k.Checked? then {w} else {})
  {}

  lemma StepKeepsCounts(s: Pool, ev: Event)
    requires Counts(s) && Enabled(s, ev)
    requires ev.Receive? || ev.Check? || ev.Begin? || ev.Finalize? || ev.Release?
    ensures Counts(Next(s, ev))
  {
    var t, w := Next(s, ev), ev.w;
    SameLoop(s, t, w, t.workers[w]);
    if ev.Begin? {
      assert AboutToStart(s) == AboutToStart(t) + {w};
    } else {
      assert s.cancelled ==> AboutToStart(t) <= AboutToStart(s);
      if s.cancelled { Subset(AboutToStart(t), AboutToStart(s)); }
    }
    assert w in Live(s);
  }

  lemma PanicMoves(s: Pool, t: Pool, w: Wid, r: Wid)
    requires w in s.workers && (s.workers[w].Executing? || s.workers[w].Finished?) && r !in s.workers
    requires t.workers == s.workers[w := Dying][r := Idle]
    ensures Live(t) == Live(s) + {r} && r !in Live(s) && w in Live(s)
    ensures Active(t) == Active(s) - {w} + {r} && w in Active(s) && r !in Active(s)
    ensures AboutToStart(t) == AboutToStart(s)
  {}

  lemma PanicKeepsCounts(s: Pool, w: Wid, r: Wid)
    requires Counts(s) && Enabled(s, Panic(w, r))
    ensures Counts(Next(s, Panic(w, r)))
  {
    PanicMoves(s, Next(s, Panic(w, r)), w, r);
    hide Live, Active, AboutToStart;
  }

  lemma LeaveMoves(s: Pool, t: Pool, w: Wid)
    requires w in s.workers && (s.workers[w].Dying? || s.workers[w].Idle?) && t.workers == s.workers[w := Exited]
    ensures Live(s) == Live(t) + {w} && w !in Live(t)
    ensures Active(t) == Active(s) - {w} && AboutToStart(t) == AboutToStart(s)
  {}

  lemma LeaveKeepsCounts(s: Pool, ev: Event)
    requires Counts(s) && Enabled(s, ev) && (ev.Die? || ev.Exit?)
    ensures Counts(Next(s, ev))
  {
    var t := Next(s, ev);
    LeaveMoves(s, t, ev.w);
    hide Live, Active, AboutToStart;
    Subset(Active(t), Active(s));
  }

  lemma ShutdownKeepsCounts(s: Pool, t: Pool)
    requires Counts(s) && t.workers == s.workers && t.wg == s.wg && t.maxWorkers == s.maxWorkers
    requires t.lateStarts == s.lateStarts && (s.cancelled ==> t.cancelled)
    requires t.shutdown.ReturnedNil? ==> s.shutdown.ReturnedNil? || s.wg == 0
    ensures Counts(t)
  {
    assert Live(t) == Live(s) && Active(t) == Active(s) && AboutToStart(t) == AboutToStart(s);
    Subset(AboutToStart(s), Active(s));
  }

  lemma NextKeepsCounts(s: Pool, ev: Event)
    requires Counts(s) && Enabled(s, ev)
    ensures Counts(Next(s, ev))
  {
    if ev.Panic? {
      PanicKeepsCounts(s, ev.w, ev.replacement);
    } else if ev.Receive? || ev.Check? || ev.Begin? || ev.Finalize? || ev.Release? {
      StepKeepsCounts(s, ev);
    } else if ev.Die? || ev.Exit? {
      LeaveKeepsCounts(s, ev);
    } else {
      ShutdownKeepsCounts(s, Next(s, ev));
    }
  }

  // In every reachable state the wait-group counter is the number of live worker goroutines, even
  // across panic restarts, and at most maxWorkers of them run the worker loop.
  lemma {:induction false} RunKeepsCounts(maxWorkers: nat, evs: seq<Event>)
    requires ValidRun(maxWorkers, evs)
    ensures Counts(Run(maxWorkers, evs)) && Run(maxWorkers, evs).maxWorkers == maxWorkers
  {
    if evs == [] {
      InitialWorkers(maxWorkers);
      assert Live(NewPool(maxWorkers)) == NewPool(maxWorkers).workers.Keys == Active(NewPool(maxWorkers));
    } else {
      var p := evs[..|evs| - 1];
      RunKeepsCounts(maxWorkers, p);
      NextKeepsCounts(Run(maxWorkers, p), evs[|evs| - 1]);
    }
  }

  lemma {:induction false} InitialWorkers(n: nat)
    ensures |IdleWorkers(n).Keys| == n
  {
    if n > 0 {
      InitialWorkers(n - 1);
      assert IdleWorkers(n).Keys == IdleWorkers(n - 1).Keys + {n - 1};
    }
  }

  // ----- Running executions -----

  ghost function RunningExecs(s: Pool): set<Id> {
    set e | e in s.execs && s.execs[e].status == Running
  }

  // Executions whose worker panicked: they stay running for ever.
  ghost function Orphans(s: Pool): set<Id> {
    set e | e in s.place && s.place[e] == Orphaned
  }

  // Distinct executions are held by distinct workers.
  lemma {:induction false} HeldByDistinct(s: Pool, es: set<Id>)
    requires WorkersOk(s) && forall e | e in es :: e in s.place && s.place[e].WithWorker?
    ensures |set e | e in es :: s.place[e].w| == |es|
    decreases |es|
  {
    var ws := set e | e in es :: s.place[e].w;
    if es == {} {
      assert ws == {};
    } else {
      var e :| e in es;
      var rest := es - {e};
      HeldByDistinct(s, rest);
      var w := s.place[e].w;
      assert forall d | d in rest :: s.place[d].w != w by {
        assert Holds(s.workers[w], e);
        assert forall d | d in rest :: Holds(s.workers[s.place[d].w], d);
      }
      assert ws == (set d | d in rest :: s.place[d].w) + {w};
    }
  }

  lemma RunningAreHeld(s: Pool)
    requires PlacesOk(s) && WorkersOk(s)
    ensures Orphans(s) <= RunningExecs(s)
    ensures forall e | e in RunningExecs(s) - Orphans(s) :: e in s.place && s.place[e].WithWorker?
  {
    assert forall e | e in s.execs :: PlaceFits(s, e);
  }

  lemma HoldersAreActive(s: Pool, es: set<Id>)
    requires WorkersOk(s) && forall e | e in es :: e in s.place && s.place[e].WithWorker?
    ensures (set e | e in es :: s.place[e].w) <= Active(s)
  {
    forall e | e in es ensures s.place[e].w in Active(s) {
      assert Holds(s.workers[s.place[e].w], e);
    }
  }

  // At most maxWorkers executions are running, besides those orphaned by a panic.
  lemma RunningBounded(maxWorkers: nat, evs: seq<Event>)
    requires ValidRun(maxWorkers, evs)
    ensures var s := Run(maxWorkers, evs);
      && Orphans(s) <= RunningExecs(s)
      && |RunningExecs(s) - Orphans(s)| <= maxWorkers
  {
    hide Run, ValidRun, PlacesOk, WorkersOk, Active, RunningExecs, Orphans, Holds;
    var s := Run(maxWorkers, evs);
    RunKeepsInv(maxWorkers, evs);
    RunKeepsCounts(maxWorkers, evs);
    RunningAreHeld(s);
    var held := RunningExecs(s) - Orphans(s);
    HeldByDistinct(s, held);
    HoldersAreActive(s, held);
    Subset(set e | e in held :: s.place[e].w, Active(s));
  }

  predicate NoPanics(evs: seq<Event>) {
    forall i | 0 <= i < |evs| :: !evs[i].Panic?
  }

  lemma {:induction false} NoOrphansWithoutPanics(maxWorkers: nat, evs: seq<Event>)
    requires ValidRun(maxWorkers, evs) && NoPanics(evs)
    ensures Orphans(Run(maxWorkers, evs)) == {}
  {
    if evs != [] {
      var p := evs[..|evs| - 1];
      NoOrphansWithoutPanics(maxWorkers, p);
      assert forall e | e in Run(maxWorkers, p).place :: Run(maxWorkers, p).place[e] != Orphaned by {
        assert forall e | e in Run(maxWorkers, p).place && Run(maxWorkers, p).place[e] == Orphaned ::
          e in Orphans(Run(maxWorkers, p));
      }
      NoNewOrphans(Run(maxWorkers, p), evs[|evs| - 1]);
    }
  }

  lemma NoNewOrphans(s: Pool, ev: Event)
    requires Enabled(s, ev) && !ev.Panic? && forall e | e in s.place :: s.place[e] != Orphaned
    ensures forall e | e in Next(s, ev).place :: Next(s, ev).place[e] != Orphaned
  {}

  // Once the context is cancelled at most maxWorkers more executions start: those whose worker
  // had already made its check.
  lemma FewLateStarts(maxWorkers: nat, evs: seq<Event>)
    requires ValidRun(maxWorkers, evs)
    ensures Run(maxWorkers, evs).lateStarts <= maxWorkers
  {
    RunKeepsCounts(maxWorkers, evs);
  }

  // ----- Statuses over a run -----

  predicate LegalChange(a: Status, b: Status) {
    match a
    case Queued => b.Running? || b.Failed? || b.Cancelled?
    case Running => b.Success? || b.Failed?
    case _ => false
  }

  lemma WorkerChangesStatus(s: Pool, ev: Event, e: Id)
    requires PlacesOk(s) && WorkersOk(s) && Enabled(s, ev) && e in s.execs && (ev.Check? || ev.Begin? || ev.Finalize?)
    ensures e in Next(s, ev).execs
    ensures var a, b := s.execs[e].status, Next(s, ev).execs[e].status; a == b || LegalChange(a, b)
  {
    HolderIsUnique(s, ev.w);
    assert PlaceFits(s, s.workers[ev.w].e);
    hide WorkersOk, PlacesOk, AllOk;
  }

  lemma OthersChangeStatus(s: Pool, ev: Event, e: Id)
    requires PlacesOk(s) && DrainOk(s) && SubmitOk(s) && Enabled(s, ev) && e in s.execs
    requires !(ev.Check? || ev.Begin? || ev.Finalize?)
    ensures e in Next(s, ev).execs
    ensures var a, b := s.execs[e].status, Next(s, ev).execs[e].status; a == b || LegalChange(a, b)
  {
    assert PlaceFits(s, e);
    hide PlacesOk, AllOk;
  }

  lemma StatusSteps(s: Pool, ev: Event, e: Id)
    requires Inv(s) && Enabled(s, ev) && e in s.execs
    ensures e in Next(s, ev).execs
    ensures var a, b := s.execs[e].status, Next(s, ev).execs[e].status;
      a == b || LegalChange(a, b)
  {
    hide Next, PlacesOk, QueueOk, WorkersOk, DrainOk, SubmitOk, RecordsOk, ShutdownOk;
    if ev.Check? || ev.Begin? || ev.Finalize? {
      WorkerChangesStatus(s, ev, e);
    } else {
      OthersChangeStatus(s, ev, e);
    }
  }

  // The statuses e has had, without repetitions. SubmitTask records it as queued.
  function Path(maxWorkers: nat, evs: seq<Event>, e: Id): seq<Status>
    requires ValidRun(maxWorkers, evs)
  {
    if evs == [] then []
    else
      var s, t := Run(maxWorkers, evs[..|evs| - 1]), Run(maxWorkers, evs);
      if e !in t.execs then []
      else
        var before := if e in s.execs then Path(maxWorkers, evs[..|evs| - 1], e) else [Queued];
        Grow(before, t.execs[e].status)
  }

  function Grow(p: seq<Status>, now: Status): seq<Status> {
    if p != [] && p[|p| - 1] == now then p else p + [now]
  }

  const LEGAL_PATHS: set<seq<Status>> := {
    [Queued],
    [Queued, Running], [Queued, Running, Success], [Queued, Running, Failed],
    [Queued, Failed],      // queue full
    [Queued, Cancelled]    // shut down before it started
  }

  lemma GrowLegally(p: seq<Status>, st: Status)
    requires p in LEGAL_PATHS && (p[|p| - 1] == st || LegalChange(p[|p| - 1], st))
    ensures Grow(p, st) in LEGAL_PATHS && Grow(p, st)[|Grow(p, st)| - 1] == st
  {
    if p[|p| - 1] != st {
      if |p| == 1 {
        assert p + [st] == [Queued, st];
      } else {
        assert p == [Queued, Running];
        assert p + [st] == [Queued, Running, st];
      }
    }
  }

  lemma SubmitMakesNew(s: Pool, ev: Event, e: Id)
    requires Enabled(s, ev) && SubmitOk(s) && s.place.Keys == s.execs.Keys && e !in s.execs && e in Next(s, ev).execs
    requires ev.Submit? || ev.SubmitRecord? || ev.SubmitSend?
    ensures Next(s, ev).execs[e].status == Queued || Next(s, ev).execs[e].status == Failed
  {}

  lemma OthersMakeNothing(s: Pool, ev: Event)
    requires Enabled(s, ev) && WorkersOk(s) && DrainOk(s) && s.place.Keys == s.execs.Keys
    requires !(ev.Submit? || ev.SubmitRecord? || ev.SubmitSend?)
    ensures Next(s, ev).execs.Keys == s.execs.Keys
  {
    if ev.Check? || ev.Begin? || ev.Finalize? {
      HolderIsUnique(s, ev.w);
    }
    hide WorkersOk, AllOk, StepsOver;
  }

  // A new execution is queued or, if SubmitTask found the queue full in the same step, failed.
  lemma NewExecution(s: Pool, ev: Event, e: Id)
    requires Enabled(s, ev) && Inv(s) && e !in s.execs && e in Next(s, ev).execs
    ensures Next(s, ev).execs[e].status == Queued || Next(s, ev).execs[e].status == Failed
  {
    hide Next, QueueOk, WorkersOk, DrainOk, SubmitOk, RecordsOk, ShutdownOk;
    if ev.Submit? || ev.SubmitRecord? || ev.SubmitSend? {
      SubmitMakesNew(s, ev, e);
    } else {
      OthersMakeNothing(s, ev);
    }
  }

  ghost predicate OnLegalPath(maxWorkers: nat, evs: seq<Event>, e: Id)
    requires ValidRun(maxWorkers, evs)
  {
    e in Run(maxWorkers, evs).execs ==>
      var p := Path(maxWorkers, evs, e);
      p in LEGAL_PATHS && p[|p| - 1] == Run(maxWorkers, evs).execs[e].status
  }

  lemma PathStep(maxWorkers: nat, evs: seq<Event>, e: Id)
    requires evs != [] && ValidRun(maxWorkers, evs) && e in Run(maxWorkers, evs).execs
    requires OnLegalPath(maxWorkers, evs[..|evs| - 1], e)
    requires var s, b := Run(maxWorkers, evs[..|evs| - 1]), Run(maxWorkers, evs).execs[e].status;
      if e in s.execs then s.execs[e].status == b || LegalChange(s.execs[e].status, b) else b == Queued || b == Failed
    ensures OnLegalPath(maxWorkers, evs, e)
  {
    var q := evs[..|evs| - 1];
    var before := if e in Run(maxWorkers, q).execs then Path(maxWorkers, q, e) else [Queued];
    GrowLegally(before, Run(maxWorkers, evs).execs[e].status);
  }

  // Over every run the statuses of an execution follow one of the legal paths and end in its
  // current status; in particular a terminal status never changes.
  lemma {:induction false} StatusesFollowLegalPaths(maxWorkers: nat, evs: seq<Event>, e: Id)
    requires ValidRun(maxWorkers, evs)
    ensures OnLegalPath(maxWorkers, evs, e)
  {
    if evs != [] {
      var q, ev := evs[..|evs| - 1], evs[|evs| - 1];
      var s := Run(maxWorkers, q);
      StatusesFollowLegalPaths(maxWorkers, q, e);
      RunKeepsInv(maxWorkers, q);
      if e in s.execs {
        StatusSteps(s, ev, e);
        PathStep(maxWorkers, evs, e);
      } else if e in Next(s, ev).execs {
        NewExecution(s, ev, e);
        PathStep(maxWorkers, evs, e);
      }
    }
  }

  // ----- Recorded steps -----

  // The recorded steps are a prefix of the task, all but possibly the last succeeded, and they
  // determine the final status of an execution that was started.
  predicate StepsExplain(x: Execution) {
    && |x.steps| <= |x.task|
    && (forall i | 0 <= i < |x.steps| :: x.steps[i].name == x.task[i])
    && (forall i | 0 <= i < |x.steps| - 1 :: x.steps[i].ok)
    && (x.status == Success ==> |x.steps| == |x.task| && AllOk(x.steps))
    && (x.status == Failed && x.steps != [] ==> !x.steps[|x.steps| - 1].ok)
    && (x.status == Cancelled || x.status == Queued ==> x.steps == [])
    && (x.status.Terminal() && x.steps != [] ==> (x.status == Success <==> AllOk(x.steps)))
  }

  lemma RecordExplains(x: Execution)
    requires StepsOk(x) && FinalOk(x) && (x.status == Queued ==> x.steps == [])
    ensures StepsExplain(x)
  {}

  lemma StepsExplainStatus(maxWorkers: nat, evs: seq<Event>, e: Id)
    requires ValidRun(maxWorkers, evs) && e in Run(maxWorkers, evs).execs
    ensures StepsExplain(Run(maxWorkers, evs).execs[e])
  {
    hide Run, ValidRun, StepsExplain, QueueOk, WorkersOk, DrainOk, ShutdownOk;
    RunKeepsInv(maxWorkers, evs);
    var s := Run(maxWorkers, evs);
    assert PlaceFits(s, e) && StepsOk(s.execs[e]) && FinalOk(s.execs[e]);
    RecordExplains(s.execs[e]);
  }

  // Only Shutdown leads to the status cancelled.
  lemma CancelledOnlyByShutdown(maxWorkers: nat, evs: seq<Event>, e: Id)
    requires ValidRun(maxWorkers, evs) && e in Run(maxWorkers, evs).execs
    requires Run(maxWorkers, evs).execs[e].status == Cancelled
    ensures exists i :: 0 <= i < |evs| && evs[i].CancelContext?
  {
    RunKeepsInv(maxWorkers, evs);
    CancelledContext(maxWorkers, evs);
  }

  lemma {:induction false} CancelledContext(maxWorkers: nat, evs: seq<Event>)
    requires ValidRun(maxWorkers, evs)
    ensures Run(maxWorkers, evs).cancelled <==> exists i :: 0 <= i < |evs| && evs[i].CancelContext?
  {
    hide Next, Enabled;
    if evs != [] {
      var p, ev := evs[..|evs| - 1], evs[|evs| - 1];
      CancelledContext(maxWorkers, p);
      assert forall i | 0 <= i < |p| :: evs[i] == p[i];
      StepCancels(Run(maxWorkers, p), ev);
    }
  }

  lemma StepCancels(s: Pool, ev: Event)
    requires Enabled(s, ev)
    ensures Next(s, ev).cancelled <==> s.cancelled || ev.CancelContext?
  {}

  // ----- Shutdown -----

  // What the events of a run say about the three ways to be stuck.

  // The submitter of e has recorded it and not sent it yet.
  predicate Unsent(evs: seq<Event>, e: Id) {
    evs != []
    && (var p, ev := evs[..|evs| - 1], evs[|evs| - 1];
        (ev.SubmitRecord? && ev.e == e) || (Unsent(p, e) && ev != SubmitSend(e)))
  }

  predicate QueueClosed(evs: seq<Event>) {
    exists i :: 0 <= i < |evs| && evs[i].CloseQueue?
  }

  // The submitter of e has sent it after Shutdown had closed the queue, and panicked.
  predicate SentLate(evs: seq<Event>, e: Id) {
    evs != []
    && (var p, ev := evs[..|evs| - 1], evs[|evs| - 1]; SentLate(p, e) || (ev == SubmitSend(e) && QueueClosed(p)))
  }

  // A worker has panicked while executing e.
  predicate PanickedOn(maxWorkers: nat, evs: seq<Event>, e: Id)
    requires ValidRun(maxWorkers, evs)
  {
    evs != []
    && (var p, ev := evs[..|evs| - 1], evs[|evs| - 1];
        PanickedOn(maxWorkers, p, e) || (ev.Panic? && Run(maxWorkers, p).workers[ev.w] == Executing(e)))
  }

  ghost predicate At(s: Pool, e: Id, p: Place) {
    e in s.place && s.place[e] == p
  }

  lemma SubmittingStep(s: Pool, ev: Event, e: Id)
    requires Enabled(s, ev) && (ev.Submit? ==> e !in s.submitting || e != ev.e)
    ensures e in Next(s, ev).submitting
      <==> (ev.SubmitRecord? && ev.e == e) || (e in s.submitting && ev != SubmitSend(e))
  {}

  lemma StuckInHand(s: Pool, ev: Event, e: Id)
    requires WorkersOk(s) && Enabled(s, ev) && InHand(s, ev)
    ensures At(Next(s, ev), e, Lost) <==> At(s, e, Lost)
    ensures At(Next(s, ev), e, Orphaned)
      <==> At(s, e, Orphaned) || (ev.Panic? && s.workers[ev.w] == Executing(e))
  {
    HolderIsUnique(s, ev.w);
    InHandMoves(s, ev);
    hide Next, WorkersOk;
  }

  lemma StuckBySubmit(s: Pool, ev: Event, e: Id)
    requires SubmitOk(s) && ShutdownOk(s) && s.place.Keys == s.execs.Keys && Enabled(s, ev)
    requires ev.Submit? || ev.SubmitRecord? || ev.SubmitSend?
    ensures At(Next(s, ev), e, Lost) <==> At(s, e, Lost) || (ev == SubmitSend(e) && s.closed)
    ensures At(Next(s, ev), e, Orphaned) <==> At(s, e, Orphaned)
  {}

  lemma StuckByOthers(s: Pool, ev: Event, e: Id)
    requires QueueOk(s) && DrainOk(s) && Enabled(s, ev)
    requires !InHand(s, ev) && !ev.Submit? && !ev.SubmitRecord? && !ev.SubmitSend?
    ensures At(Next(s, ev), e, Lost) <==> At(s, e, Lost)
    ensures At(Next(s, ev), e, Orphaned) <==> At(s, e, Orphaned)
  {}

  lemma StuckStep(s: Pool, ev: Event, e: Id)
    requires Inv(s) && Enabled(s, ev)
    ensures At(Next(s, ev), e, Lost) <==> At(s, e, Lost) || (ev == SubmitSend(e) && s.closed)
    ensures At(Next(s, ev), e, Orphaned)
      <==> At(s, e, Orphaned) || (ev.Panic? && s.workers[ev.w] == Executing(e))
  {
    hide Next, At, QueueOk, WorkersOk, DrainOk, SubmitOk, RecordsOk, ShutdownOk;
    if InHand(s, ev) {
      StuckInHand(s, ev, e);
    } else if ev.Submit? || ev.SubmitRecord? || ev.SubmitSend? {
      StuckBySubmit(s, ev, e);
    } else {
      StuckByOthers(s, ev, e);
    }
  }

  lemma StepCloses(s: Pool, ev: Event)
    requires Enabled(s, ev)
    ensures Next(s, ev).closed <==> s.closed || ev.CloseQueue?
  {}

  lemma {:induction false} ClosedQueue(maxWorkers: nat, evs: seq<Event>)
    requires ValidRun(maxWorkers, evs)
    ensures Run(maxWorkers, evs).closed <==> QueueClosed(evs)
  {
    hide Next, Enabled;
    if evs != [] {
      var p, ev := evs[..|evs| - 1], evs[|evs| - 1];
      ClosedQueue(maxWorkers, p);
      assert forall i | 0 <= i < |p| :: evs[i] == p[i];
      StepCloses(Run(maxWorkers, p), ev);
    }
  }

  lemma NewPoolIsEmpty(maxWorkers: nat)
    ensures NewPool(maxWorkers).place == map[] && NewPool(maxWorkers).submitting == {}
  {}

  // The history's labels are what the events say.
  lemma {:induction false} StuckByEvents(maxWorkers: nat, evs: seq<Event>, e: Id)
    requires ValidRun(maxWorkers, evs)
    ensures var s := Run(maxWorkers, evs);
      && (e in s.submitting <==> Unsent(evs, e))
      && (At(s, e, Lost) <==> SentLate(evs, e))
      && (At(s, e, Orphaned) <==> PanickedOn(maxWorkers, evs, e))
  {
    hide Next, NewPool, QueueClosed, QueueOk, WorkersOk, DrainOk, RecordsOk, ShutdownOk;
    if evs == [] {
      NewPoolIsEmpty(maxWorkers);
    } else {
      var p, ev := evs[..|evs| - 1], evs[|evs| - 1];
      var s := Run(maxWorkers, p);
      StuckByEvents(maxWorkers, p, e);
      ClosedQueue(maxWorkers, p);
      RunKeepsInv(maxWorkers, p);
      StuckStep(s, ev, e);
      SubmittingStep(s, ev, e);
    }
  }

  lemma SettledOrStuck(s: Pool, e: Id)
    requires Inv(s) && Counts(s) && s.shutdown.ReturnedNil? && e in s.execs
    ensures s.execs[e].status.Terminal() <==> !(e in s.submitting || At(s, e, Lost) || At(s, e, Orphaned))
    ensures s.execs[e].status == Running <==> At(s, e, Orphaned)
  {
    assert PlaceFits(s, e);
    NobodyHolds(s);
  }

  // When Shutdown has returned nil, an execution is terminal exactly unless its submitter is still
  // between record and send, or has sent it after the queue was closed, or its worker panicked on it; in
  // the last case it stays running, in the others queued.
  lemma ShutdownLeavesExactly(maxWorkers: nat, evs: seq<Event>, e: Id)
    requires ValidRun(maxWorkers, evs) && Run(maxWorkers, evs).shutdown.ReturnedNil?
    requires e in Run(maxWorkers, evs).execs
    ensures var status := Run(maxWorkers, evs).execs[e].status;
      && (status.Terminal() <==> !Unsent(evs, e) && !SentLate(evs, e) && !PanickedOn(maxWorkers, evs, e))
      && (status == Running <==> PanickedOn(maxWorkers, evs, e))
  {
    hide Run, ValidRun, Inv, Counts, At, Unsent, SentLate, PanickedOn;
    RunKeepsInv(maxWorkers, evs);
    RunKeepsCounts(maxWorkers, evs);
    StuckByEvents(maxWorkers, evs, e);
    SettledOrStuck(Run(maxWorkers, evs), e);
  }

  lemma NobodyHolds(s: Pool)
    requires WorkersOk(s) && Counts(s) && s.shutdown.ReturnedNil?
    ensures forall e | e in s.place :: !s.place[e].WithWorker?
  {
    assert forall w | w in s.workers && !s.workers[w].Exited? :: w in Live(s);
    assert forall w, e | w in s.workers :: !Holds(s.workers[w], e);
  }

  // SubmitTask runs as one step.
  predicate AtomicSubmits(evs: seq<Event>) {
    forall i | 0 <= i < |evs| :: !evs[i].SubmitCheck?
  }

  lemma {:induction false} AtomicSubmitsLoseNothing(maxWorkers: nat, evs: seq<Event>)
    requires ValidRun(maxWorkers, evs) && AtomicSubmits(evs)
    ensures var s := Run(maxWorkers, evs);
      s.admitted == 0 && s.submitting == {} && forall e | e in s.place :: s.place[e] != Submitting && s.place[e] != Lost
  {
    if evs != [] {
      var p := evs[..|evs| - 1];
      AtomicSubmitsLoseNothing(maxWorkers, p);
      RunKeepsInv(maxWorkers, p);
      AtomicStep(Run(maxWorkers, p), evs[|evs| - 1]);
    }
  }

  lemma AtomicStep(s: Pool, ev: Event)
    requires Enabled(s, ev) && ShutdownOk(s) && !ev.SubmitCheck? && s.admitted == 0 && s.submitting == {}
    requires forall e | e in s.place :: s.place[e] != Submitting && s.place[e] != Lost
    ensures var t := Next(s, ev);
      t.admitted == 0 && t.submitting == {} && forall e | e in t.place :: t.place[e] != Submitting && t.place[e] != Lost
  {}

  // With SubmitTask in one step and no worker panic, Shutdown returning nil means that every
  // execution has reached a terminal status.
  lemma CleanShutdown(maxWorkers: nat, evs: seq<Event>)
    requires ValidRun(maxWorkers, evs) && AtomicSubmits(evs) && NoPanics(evs)
    requires Run(maxWorkers, evs).shutdown.ReturnedNil?
    ensures var s := Run(maxWorkers, evs); forall e | e in s.execs :: s.execs[e].status.Terminal()
  {
    var s := Run(maxWorkers, evs);
    AtomicSubmitsLoseNothing(maxWorkers, evs);
    NoOrphansWithoutPanics(maxWorkers, evs);
    hide Run, ValidRun, Unsent, SentLate, PanickedOn;
    forall e | e in s.execs ensures s.execs[e].status.Terminal() {
      ShutdownLeavesExactly(maxWorkers, evs, e);
      StuckByEvents(maxWorkers, evs, e);
      assert At(s, e, Orphaned) ==> e in Orphans(s);
    }
  }

  // ----- Why the conditions are needed -----

  // One more step of a run that has led to s.
  lemma Extend(maxWorkers: nat, evs: seq<Event>, s: Pool, ev: Event) returns (more: seq<Event>, t: Pool)
    requires ValidRun(maxWorkers, evs) && Run(maxWorkers, evs) == s && Enabled(s, ev)
    ensures ValidRun(maxWorkers, more) && Run(maxWorkers, more) == t && t == Next(s, ev)
    ensures NoPanics(evs) && !ev.Panic? ==> NoPanics(more)
  {
    more, t := evs + [ev], Next(s, ev);
    assert more[..|evs|] == evs;
  }

  lemma RaceUntilRecorded() returns (evs: seq<Event>, s: Pool)
    ensures ValidRun(1, evs) && NoPanics(evs) && Run(1, evs) == s
    ensures s == Pool(1, map[0 := Execution(Queued, [], [])], [], false, false, map[0 := Idle], 1, 0, {0},
                      NotBegun, map[0 := Submitting], 0)
  {
    s := NewPool(1);
    assert s.workers == map[0 := Idle];
    evs := [];
    assert ValidRun(1, evs) && Run(1, evs) == s && NoPanics(evs);
    hide Run, ValidRun, NoPanics;
    evs, s := Extend(1, evs, s, SubmitCheck);
    evs, s := Extend(1, evs, s, SubmitRecord(0, []));
  }

  lemma RaceUntilDrained() returns (evs: seq<Event>, s: Pool)
    ensures ValidRun(1, evs) && NoPanics(evs) && Run(1, evs) == s
    ensures s == Pool(1, map[0 := Execution(Queued, [], [])], [], true, true, map[0 := Idle], 1, 0, {0},
                      Waiting, map[0 := Submitting], 0)
  {
    hide Run, ValidRun, NoPanics;
    evs, s := RaceUntilRecorded();
    evs, s := Extend(1, evs, s, CancelContext);
    evs, s := Extend(1, evs, s, CloseQueue);
    evs, s := Extend(1, evs, s, DrainEnd);
  }

  // Without panics but with SubmitTask in separate steps, Shutdown can return nil and leave an
  // execution queued for ever: its submitter sends on the closed queue.
  lemma SubmitRacesClose() returns (evs: seq<Event>)
    ensures ValidRun(1, evs) && NoPanics(evs) && Run(1, evs).shutdown.ReturnedNil?
    ensures 0 in Run(1, evs).execs && Run(1, evs).execs[0].status == Queued
  {
    hide Run, ValidRun, NoPanics;
    var s;
    evs, s := RaceUntilDrained();
    evs, s := Extend(1, evs, s, Exit(0));
    evs, s := Extend(1, evs, s, SubmitSend(0));
    evs, s := Extend(1, evs, s, ReturnNil);
  }

  // A panic in the middle of a task leaves its execution running, and no later step of any run
  // changes that: such executions are on top of the maxWorkers that RunningBounded allows.
  lemma PanicOrphans(s: Pool, w: Wid, r: Wid)
    requires Inv(s) && Enabled(s, Panic(w, r)) && s.workers[w].Executing?
    ensures var e := s.workers[w].e;
      e in Orphans(Next(s, Panic(w, r))) && e in RunningExecs(Next(s, Panic(w, r)))
  {
    HolderIsUnique(s, w);
    assert PlaceFits(s, s.workers[w].e);
  }

  lemma OrphansStay(s: Pool, ev: Event, e: Id)
    requires Inv(s) && Enabled(s, ev) && e in Orphans(s)
    ensures e in Orphans(Next(s, ev)) && e in RunningExecs(Next(s, ev))
  {
    StuckStep(s, ev, e);
    NextKeepsInv(s, ev);
    hide Next, QueueOk, WorkersOk, DrainOk, SubmitOk, RecordsOk, ShutdownOk;
    assert PlaceFits(Next(s, ev), e);
  }
}
