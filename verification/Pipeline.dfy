/** One execution's log stream end to end: the task goroutine and the two output readers of each
    step, the execution's buffer with its timer and delivery goroutines, the bounded Broadcast
    channel shared with other executions, and the hub's run loop with its clients.

    Every interleaving is a run. The complete message comes last, after every line that was not
    dropped, on the channel and in every client's queue. */
module Pipelines {
  import Buf = StreamBuffers
  import opened Messages
  import opened LogLevels
  import HS = HubStates
  import opened HubRuns
  import opened HubStreams

  const BROADCAST_CHANNEL_SIZE := 256

  // A goroutine that logs: idle, or between looking the buffer up and handing it the line
  // (Unbuffered: no buffer was found, the line goes to the channel directly), or finished.
  datatype Logger = Idle | Buffered(line: LogData) | Unbuffered(line: LogData) | Ended

  datatype Pc =
    | NotStarted
    | Between(task: Logger)                 // the task goroutine logs, no reader runs
    | InStep(stdout: Logger, stderr: Logger)
    | Removed                               // FlushBuffer has taken the buffer out of the map
    | Stopping                              // the task goroutine is inside StreamBuffer.Stop
    | Completing                            // Stop has returned
    | Done                                  // the complete message is on the channel

  datatype Pipe<C(==)> = Pipe(
    pc: Pc,
    mapped: bool,                     // Broadcaster.buffers has an entry for the execution
    buf: Buf.Sys,
    chan: seq<BroadcastMessage>,      // Hub.Broadcast
    hub: seq<HS.Event<C>>)            // what the hub has done so far

  datatype Setup = Setup(id: string, lim: Buf.Limits, limit: int, status: string)

  datatype Who = Task | Stdout | Stderr

  datatype Event<C> =
    | Start                              // EnableBuffering
    | Lookup(who: Who, line: LogData)    // BroadcastLog: the buffers map is consulted
    | Put(who: Who)                      // ... and the line is added, or sent directly
    | BeginStep
    | Eof(who: Who)                      // a reader has seen the end of its pipe
    | JoinStep                           // wg.Wait in runWithBroadcast
    | Remove                             // BroadcastComplete: FlushBuffer deletes the map entry
    | EnterStop
    | LeaveStop
    | SendComplete
    | Timer
    | Deliver(index: nat)                // a delivery goroutine sends its batch
    | OtherSend(m: BroadcastMessage)     // another execution's message enters the channel
    | HubReceive                         // the run loop takes a message and broadcasts it
    | HubOther(ev: HS.Event<C>)          // anything else that happens to the hub

  function LoggerOf(pc: Pc, who: Who): Logger {
    match who
    case Task => if pc.Between? then pc.task else Ended
    case Stdout => if pc.InStep? then pc.stdout else Ended
    case Stderr => if pc.InStep? then pc.stderr else Ended
  }

  function WithLogger(pc: Pc, who: Who, l: Logger): Pc {
    match who
    case Task => if pc.Between? then pc.(task := l) else pc
    case Stdout => if pc.InStep? then pc.(stdout := l) else pc
    case Stderr => if pc.InStep? then pc.(stderr := l) else pc
  }

  function LineMessage(id: string, l: LogData): BroadcastMessage {
    BroadcastMessage(id, Log(l), if l.level == "" then "info" else l.level)
  }

  function CompleteMessage(setup: Setup): BroadcastMessage {
    BroadcastMessage(setup.id, Complete(setup.status), "")
  }

  predicate Room<C(==)>(s: Pipe<C>) {
    |s.chan| < BROADCAST_CHANNEL_SIZE
  }

  ghost predicate Enabled<C>(setup: Setup, s: Pipe<C>, ev: Event<C>) {
    match ev
    case Start => s.pc == NotStarted
    case Lookup(who, _) => LoggerOf(s.pc, who) == Idle
    case Put(who) =>
      LoggerOf(s.pc, who).Buffered? || (LoggerOf(s.pc, who).Unbuffered? && Room(s))
    case BeginStep => s.pc == Between(Idle)
    case Eof(who) => who != Task && LoggerOf(s.pc, who) == Idle
    case JoinStep => s.pc == InStep(Ended, Ended)
    case Remove => s.pc == Between(Idle)
    case EnterStop => s.pc == Removed
    case LeaveStop => s.pc == Stopping && Buf.Enabled(s.buf, Buf.StopLeave) && (s.buf.final.None? || Room(s))
    case SendComplete => s.pc == Completing && Room(s)
    case Timer => s.pc != NotStarted
    case Deliver(i) => i < |s.buf.inFlight| && Room(s)
    case OtherSend(m) => m.executionId != setup.id && Room(s)
    case HubReceive => s.chan != []
    case HubOther(hev) =>
      !hev.Broadcast? && ValidRun(setup.limit, s.hub) && HS.Enabled(Run(setup.limit, s.hub), hev)
  }

  ghost function Next<C>(setup: Setup, s: Pipe<C>, ev: Event<C>): Pipe<C>
    requires Enabled(setup, s, ev)
  {
    match ev
    case Start => s.(pc := Between(Idle), mapped := true, buf := Buf.Fresh)
    case Lookup(who, l) => s.(pc := WithLogger(s.pc, who, if s.mapped then Buffered(l) else Unbuffered(l)))
    case Put(who) =>
      var t := s.(pc := WithLogger(s.pc, who, Idle));
      var l := LoggerOf(s.pc, who);
      if l.Buffered? then t.(buf := Buf.Next(setup.lim, s.buf, Buf.Add(l.line)))
      else t.(chan := s.chan + [LineMessage(setup.id, l.line)])
    case BeginStep => s.(pc := InStep(Idle, Idle))
    case Eof(who) => s.(pc := WithLogger(s.pc, who, Ended))
    case JoinStep => s.(pc := Between(Idle))
    case Remove => s.(pc := Removed, mapped := false)
    case EnterStop => s.(pc := Stopping, buf := Buf.Next(setup.lim, s.buf, Buf.StopEnter))
    case LeaveStop =>
      s.(pc := Completing, buf := Buf.Next(setup.lim, s.buf, Buf.StopLeave),
         chan := s.chan + (if s.buf.final.Some? then BatchMessages(setup.id, s.buf.final.value) else []))
    case SendComplete => s.(pc := Done, chan := s.chan + [CompleteMessage(setup)])
    case Timer => s.(buf := Buf.Next(setup.lim, s.buf, Buf.TimerTick))
    case Deliver(i) =>
      s.(buf := Buf.Next(setup.lim, s.buf, Buf.Deliver(i)),
         chan := s.chan + BatchMessages(setup.id, s.buf.inFlight[i]))
    case OtherSend(m) => s.(chan := s.chan + [m])
    case HubReceive => s.(chan := s.chan[1..], hub := s.hub + [HS.Broadcast(s.chan[0])])
    case HubOther(hev) => s.(hub := s.hub + [hev])
  }

  ghost predicate PipeRun<C>(setup: Setup, evs: seq<Event<C>>)
    decreases |evs|, 0
  {
    evs == [] ||
    (var p := evs[..|evs| - 1]; PipeRun(setup, p) && Enabled(setup, After(setup, p), evs[|evs| - 1]))
  }

  ghost function After<C>(setup: Setup, evs: seq<Event<C>>): Pipe<C>
    requires PipeRun(setup, evs)
    decreases |evs|, 1
  {
    if evs == [] then Pipe(NotStarted, false, Buf.Fresh, [], [])
    else Next(setup, After(setup, evs[..|evs| - 1]), evs[|evs| - 1])
  }

  // ----- What has been put on the Broadcast channel -----

  function Of(id: string, ms: seq<BroadcastMessage>): seq<BroadcastMessage> {
    if ms == [] then []
    else
      var m := ms[|ms| - 1];
      Of(id, ms[..|ms| - 1]) + (if m.executionId == id then [m] else [])
  }

  function MessagesFor(id: string, bs: seq<Batch>): seq<BroadcastMessage> {
    if bs == [] then [] else MessagesFor(id, bs[..|bs| - 1]) + BatchMessages(id, bs[|bs| - 1])
  }

  function LinesIn(ms: seq<BroadcastMessage>): seq<LogData> {
    if ms == [] then [] else LinesIn(ms[..|ms| - 1]) + LinesOf(ms[|ms| - 1])
  }

  // Everything ever sent to the hub, in order: processed first, then still on the channel.
  ghost function Sent<C>(s: Pipe<C>): seq<BroadcastMessage> {
    Processed(s.hub) + s.chan
  }

  lemma {:induction false} OfConcat(id: string, a: seq<BroadcastMessage>, b: seq<BroadcastMessage>)
    ensures Of(id, a + b) == Of(id, a) + Of(id, b)
    decreases |b|
  {
    if b == [] {
      assert a + b == a;
    } else {
      assert (a + b)[..|a| + |b| - 1] == a + b[..|b| - 1];
      OfConcat(id, a, b[..|b| - 1]);
    }
  }

  lemma OfBatch(id: string, ms: seq<BroadcastMessage>, b: Batch)
    ensures Of(id, ms + BatchMessages(id, b)) == Of(id, ms) + BatchMessages(id, b)
  {
    OfConcat(id, ms, BatchMessages(id, b));
    if b != [] {
      var m := BatchMessages(id, b)[0];
      assert BatchMessages(id, b) == [m] && [m][..0] == [];
    }
  }

  lemma OfOne(id: string, ms: seq<BroadcastMessage>, m: BroadcastMessage)
    ensures Of(id, ms + [m]) == Of(id, ms) + (if m.executionId == id then [m] else [])
  {
    assert (ms + [m])[..|ms|] == ms;
  }

  lemma MessagesForLast(id: string, bs: seq<Batch>, b: Batch)
    ensures MessagesFor(id, bs + [b]) == MessagesFor(id, bs) + BatchMessages(id, b)
  {
    assert (bs + [b])[..|bs|] == bs;
  }

  lemma LinesOfBatch(id: string, ms: seq<BroadcastMessage>, b: Batch)
    ensures LinesIn(ms + BatchMessages(id, b)) == LinesIn(ms) + b
  {
    if b == [] {
      assert ms + BatchMessages(id, b) == ms;
    } else {
      var m := BatchMessages(id, b)[0];
      assert LinesOf(m) == b;
      assert (ms + [m])[..|ms|] == ms;
    }
  }

  // The messages for batches carry exactly the lines of the batches.
  lemma {:induction false} MessagesCarryLines(id: string, bs: seq<Batch>)
    ensures LinesIn(MessagesFor(id, bs)) == Buf.Flatten(bs)
  {
    if bs != [] {
      var p, b := bs[..|bs| - 1], bs[|bs| - 1];
      MessagesCarryLines(id, p);
      LinesOfBatch(id, MessagesFor(id, p), b);
    }
  }

  // They are log messages of the execution.
  lemma {:induction false} MessagesAreLogs(id: string, bs: seq<Batch>)
    ensures forall m <- MessagesFor(id, bs) :: m.executionId == id && !m.payload.Complete?
  {
    if bs != [] {
      MessagesAreLogs(id, bs[..|bs| - 1]);
    }
  }

  // A client's level filter decides about a line that travels alone, a line without a level counting
  // as info; a batch of several lines reaches every subscriber, whatever their levels.
  lemma BatchPassesIff(id: string, b: Batch, c: HS.ClientState)
    requires b != []
    ensures HS.Passes(c, BatchMessages(id, b)[0]) <==>
      |b| > 1 || c.filter.None? || (if b[0].level == "" then "info" else b[0].level) in c.filter.value
    ensures LineMessage(id, b[0]) == BatchMessages(id, [b[0]])[0]
  {}

  // A batch makes one message of its execution with its lines in order, a plain log message for a single
  // line; an empty batch makes none.
  lemma BatchMakes(id: string, b: Batch)
    ensures |BatchMessages(id, b)| == if b == [] then 0 else 1
    ensures b != [] ==>
      var m := BatchMessages(id, b)[0];
      m.executionId == id && LinesOf(m) == b && (m.payload.Log? <==> |b| == 1) && (m.payload.LogBatch? <==> |b| > 1)
  {}

  // No filter holds back the complete message.
  lemma CompletePasses(setup: Setup, c: HS.ClientState)
    ensures HS.Passes(c, CompleteMessage(setup))
    ensures CompleteMessage(setup).executionId == setup.id && CompleteMessage(setup).payload == Complete(setup.status)
  {}

  // ----- The invariant -----

  predicate PhaseFits(pc: Pc, mapped: bool, phase: Buf.StopPhase) {
    match pc
    case NotStarted => !mapped && phase == Buf.NotCalled
    case Between(t) => mapped && phase == Buf.NotCalled && !t.Unbuffered?
    case InStep(o, e) => mapped && phase == Buf.NotCalled && !o.Unbuffered? && !e.Unbuffered?
    case Removed => !mapped && phase == Buf.NotCalled
    case Stopping => !mapped && phase == Buf.Waiting
    case _ => !mapped && phase == Buf.Returned
  }

  // The execution's messages so far are those of the delivered batches, and the complete message.
  ghost predicate Streamed<C>(setup: Setup, s: Pipe<C>) {
    Of(setup.id, Sent(s))
      == MessagesFor(setup.id, s.buf.delivered) + (if s.pc == Done then [CompleteMessage(setup)] else [])
  }

  ghost predicate HubValid<C>(setup: Setup, s: Pipe<C>) {
    ValidRun(setup.limit, s.hub)
  }

  ghost predicate Inv<C>(setup: Setup, s: Pipe<C>) {
    && HubValid(setup, s)
    && Buf.Inv(setup.lim, s.buf)
    && PhaseFits(s.pc, s.mapped, s.buf.phase)
    && Streamed(setup, s)
    && (s.pc == NotStarted ==> s.buf == Buf.Fresh)
  }

  // The step of the buffer that goes with a step of the pipeline, if any.
  function BufferEvent<C(==)>(s: Pipe<C>, ev: Event<C>): seq<Buf.Event> {
    match ev
    case Put(who) => if LoggerOf(s.pc, who).Buffered? then [Buf.Add(LoggerOf(s.pc, who).line)] else []
    case EnterStop => [Buf.StopEnter]
    case LeaveStop => [Buf.StopLeave]
    case Timer => [Buf.TimerTick]
    case Deliver(i) => [Buf.Deliver(i)]
    case _ => []
  }

  lemma BufferFollows<C>(setup: Setup, s: Pipe<C>, ev: Event<C>)
    requires Enabled(setup, s, ev) && (s.pc == NotStarted ==> s.buf == Buf.Fresh)
    ensures var b := BufferEvent(s, ev);
      if b == [] then Next(setup, s, ev).buf == s.buf
      else Buf.Enabled(s.buf, b[0]) && Next(setup, s, ev).buf == Buf.Next(setup.lim, s.buf, b[0])
  {}

  lemma BufferKeeps<C>(setup: Setup, s: Pipe<C>, ev: Event<C>)
    requires setup.lim.Positive() && Buf.Inv(setup.lim, s.buf)
    requires Enabled(setup, s, ev) && (s.pc == NotStarted ==> s.buf == Buf.Fresh)
    ensures Buf.Inv(setup.lim, Next(setup, s, ev).buf)
  {
    BufferFollows(setup, s, ev);
    if BufferEvent(s, ev) != [] {
      Buf.NextKeepsInv(setup.lim, s.buf, BufferEvent(s, ev)[0]);
    }
  }

  // Only deliveries and the end of Stop add to what was delivered; Stop alone changes its phase.
  lemma QuietBuffer(lim: Buf.Limits, b: Buf.Sys, ev: Buf.Event)
    requires Buf.Enabled(b, ev) && !ev.StopLeave? && (b.stopped <==> b.phase != Buf.NotCalled)
    ensures var t := Buf.Next(lim, b, ev);
      && (!ev.Deliver? ==> t.delivered == b.delivered)
      && t.phase == (if ev.StopEnter? && b.phase == Buf.NotCalled then Buf.Waiting else b.phase)
  {}

  lemma PhaseKeeps<C>(setup: Setup, s: Pipe<C>, ev: Event<C>)
    requires Buf.Phases(s.buf) && Enabled(setup, s, ev)
    requires PhaseFits(s.pc, s.mapped, s.buf.phase) && (s.pc == NotStarted ==> s.buf == Buf.Fresh)
    ensures var t := Next(setup, s, ev);
      PhaseFits(t.pc, t.mapped, t.buf.phase) && (t.pc == NotStarted ==> t.buf == Buf.Fresh)
  {
    hide BatchMessages, CompleteMessage, Run, ValidRun;
    BufferFollows(setup, s, ev);
    var b := BufferEvent(s, ev);
    if b != [] && !b[0].StopLeave? {
      QuietBuffer(setup.lim, s.buf, b[0]);
    }
  }

  lemma HubKeeps<C>(setup: Setup, s: Pipe<C>, ev: Event<C>)
    requires HubValid(setup, s) && Enabled(setup, s, ev)
    ensures HubValid(setup, Next(setup, s, ev))
  {
    if ev.HubReceive? {
      RunStep(setup.limit, s.hub, HS.Broadcast(s.chan[0]));
    } else if ev.HubOther? {
      RunStep(setup.limit, s.hub, ev.ev);
    }
  }

  // Exactly one more batch on the channel.
  lemma BatchStreamed(id: string, ms: seq<BroadcastMessage>, bs: seq<Batch>, b: Batch)
    requires Of(id, ms) == MessagesFor(id, bs)
    ensures Of(id, ms + BatchMessages(id, b)) == MessagesFor(id, bs + [b])
  {
    OfBatch(id, ms, b);
    MessagesForLast(id, bs, b);
  }

  lemma DeliverStreams<C>(setup: Setup, s: Pipe<C>, i: nat)
    requires Streamed(setup, s) && s.pc != Done && Enabled(setup, s, Deliver(i))
    ensures Streamed(setup, Next(setup, s, Deliver(i)))
  {
    hide Of, MessagesFor, BatchMessages, Processed;
    var b := s.buf.inFlight[i];
    BatchStreamed(setup.id, Sent(s), s.buf.delivered, b);
    assert Sent(Next(setup, s, Deliver(i))) == Sent(s) + BatchMessages(setup.id, b);
  }

  lemma LeaveStreams<C>(setup: Setup, s: Pipe<C>)
    requires Streamed(setup, s) && Enabled(setup, s, LeaveStop)
    ensures Streamed(setup, Next(setup, s, LeaveStop))
  {
    hide Of, MessagesFor, BatchMessages, Processed;
    var t := Next(setup, s, LeaveStop);
    var d, sent := s.buf.delivered, Sent(s);
    assert Of(setup.id, sent) == MessagesFor(setup.id, d);
    assert t.pc != Done;
    if s.buf.final.Some? {
      var b := s.buf.final.value;
      BatchStreamed(setup.id, sent, d, b);
      assert Sent(t) == sent + BatchMessages(setup.id, b);
      assert t.buf.delivered == d + [b];
    } else {
      assert t.buf.delivered == d;
      assert Sent(t) == sent;
    }
  }

  lemma CompleteStreams<C>(setup: Setup, s: Pipe<C>)
    requires Streamed(setup, s) && Enabled(setup, s, SendComplete)
    ensures Streamed(setup, Next(setup, s, SendComplete))
  {
    hide Of, MessagesFor, Processed;
    OfOne(setup.id, Sent(s), CompleteMessage(setup));
    assert Sent(Next(setup, s, SendComplete)) == Sent(s) + [CompleteMessage(setup)];
  }

  lemma OtherSendStreams<C>(setup: Setup, s: Pipe<C>, m: BroadcastMessage)
    requires Streamed(setup, s) && Enabled(setup, s, OtherSend(m))
    ensures Streamed(setup, Next(setup, s, OtherSend(m)))
  {
    hide Of, MessagesFor, Processed;
    var t := Next(setup, s, OtherSend(m));
    OfOne(setup.id, Sent(s), m);
    assert Sent(t) == Sent(s) + [m];
    assert Of(setup.id, Sent(t)) == Of(setup.id, Sent(s));
    assert t.buf == s.buf && t.pc == s.pc;
  }

  lemma HubStepStreams<C>(setup: Setup, s: Pipe<C>, ev: Event<C>)
    requires Enabled(setup, s, ev) && (ev.HubReceive? || ev.HubOther?)
    ensures Sent(Next(setup, s, ev)) == Sent(s)
  {
    var hev := if ev.HubReceive? then HS.Broadcast(s.chan[0]) else ev.ev;
    assert (s.hub + [hev])[..|s.hub|] == s.hub;
  }

  lemma OthersStream<C>(setup: Setup, s: Pipe<C>, ev: Event<C>)
    requires Streamed(setup, s) && Enabled(setup, s, ev)
    requires s.buf.stopped <==> s.buf.phase != Buf.NotCalled
    requires PhaseFits(s.pc, s.mapped, s.buf.phase) && (s.pc == NotStarted ==> s.buf == Buf.Fresh)
    requires !(ev.Deliver? || ev.LeaveStop? || ev.SendComplete? || ev.OtherSend? || ev.HubReceive? || ev.HubOther?)
    ensures Streamed(setup, Next(setup, s, ev))
  {
    var t := Next(setup, s, ev);
    assert t.chan == s.chan && t.hub == s.hub && (t.pc == Done <==> s.pc == Done);
    BufferFollows(setup, s, ev);
    if BufferEvent(s, ev) != [] {
      QuietBuffer(setup.lim, s.buf, BufferEvent(s, ev)[0]);
    }
  }

  lemma StreamKeeps<C>(setup: Setup, s: Pipe<C>, ev: Event<C>)
    requires Streamed(setup, s) && Enabled(setup, s, ev) && Buf.Phases(s.buf)
    requires PhaseFits(s.pc, s.mapped, s.buf.phase) && (s.pc == NotStarted ==> s.buf == Buf.Fresh)
    ensures Streamed(setup, Next(setup, s, ev))
  {
    match ev
    case Deliver(i) => DeliverStreams(setup, s, i);
    case LeaveStop => LeaveStreams(setup, s);
    case SendComplete => CompleteStreams(setup, s);
    case OtherSend(m) => OtherSendStreams(setup, s, m);
    case HubReceive => HubStepStreams(setup, s, ev);
    case HubOther(_) => HubStepStreams(setup, s, ev);
    case _ => OthersStream(setup, s, ev);
  }

  lemma NextKeepsInv<C>(setup: Setup, s: Pipe<C>, ev: Event<C>)
    requires setup.lim.Positive() && Inv(setup, s) && Enabled(setup, s, ev)
    ensures Inv(setup, Next(setup, s, ev))
  {
    BufferKeeps(setup, s, ev);
    PhaseKeeps(setup, s, ev);
    HubKeeps(setup, s, ev);
    StreamKeeps(setup, s, ev);
  }

  lemma {:induction false} PipeKeepsInv<C>(setup: Setup, evs: seq<Event<C>>)
    requires setup.lim.Positive() && PipeRun(setup, evs)
    ensures Inv(setup, After(setup, evs))
  {
    if evs != [] {
      var p := evs[..|evs| - 1];
      PipeKeepsInv(setup, p);
      NextKeepsInv(setup, After(setup, p), evs[|evs| - 1]);
    }
  }

  // ----- No deadlock -----

  // The task goroutine ends its logging only by completing the execution.
  predicate TaskLogs(pc: Pc) {
    pc.Between? ==> !pc.task.Ended?
  }

  lemma TaskLogsOn<C>(setup: Setup, s: Pipe<C>, ev: Event<C>)
    requires Enabled(setup, s, ev) && TaskLogs(s.pc)
    ensures TaskLogs(Next(setup, s, ev).pc)
  {
    hide ValidRun, Run, HS.Enabled, Buf.Next, BatchMessages;
  }

  lemma {:induction false} TaskKeepsLogging<C>(setup: Setup, evs: seq<Event<C>>)
    requires PipeRun(setup, evs)
    ensures TaskLogs(After(setup, evs).pc)
  {
    hide Enabled, Next;
    if evs != [] {
      var p := evs[..|evs| - 1];
      TaskKeepsLogging(setup, p);
      TaskLogsOn(setup, After(setup, p), evs[|evs| - 1]);
    }
  }

  // The steps that bring an execution nearer to its end: no new line, no timer, nothing from outside.
  predicate Advances<C>(ev: Event<C>) {
    !ev.Lookup? && !ev.BeginStep? && !ev.Timer? && !ev.OtherSend? && !ev.HubOther?
  }

  // Which step it is: the channel, when it is full, is emptied by the hub.
  function Advance<C>(s: Pipe<C>): Event<C> {
    match s.pc
    case NotStarted => Start
    case Between(t) => if t.Buffered? then Put(Task) else Remove
    case InStep(o, e) =>
      if o.Buffered? then Put(Stdout) else if o.Idle? then Eof(Stdout)
      else if e.Buffered? then Put(Stderr) else if e.Idle? then Eof(Stderr)
      else JoinStep
    case Removed => EnterStop
    case Stopping => if !Room(s) then HubReceive else if s.buf.inFlight != [] then Deliver(0) else LeaveStop
    case _ => if Room(s) then SendComplete else HubReceive
  }

  lemma AdvanceIsEnabled<C>(setup: Setup, s: Pipe<C>)
    requires PhaseFits(s.pc, s.mapped, s.buf.phase) && TaskLogs(s.pc) && s.pc != Done
    ensures Enabled(setup, s, Advance(s)) && Advances(Advance(s))
  {
    hide ValidRun, Run, HS.Enabled;
  }

  // In no reachable state is an execution stuck before its complete message is sent: neither a full
  // channel nor the wait for the deliveries blocks it for good.
  lemma NeverBlocked<C>(setup: Setup, evs: seq<Event<C>>) returns (ev: Event<C>)
    requires setup.lim.Positive() && PipeRun(setup, evs) && After(setup, evs).pc != Done
    ensures Enabled(setup, After(setup, evs), ev) && Advances(ev)
  {
    hide PipeRun, After, Enabled, Advances, Buf.Inv, HubValid, Streamed;
    PipeKeepsInv(setup, evs);
    TaskKeepsLogging(setup, evs);
    ev := Advance(After(setup, evs));
    AdvanceIsEnabled(setup, After(setup, evs));
  }

  // ----- No line that is logged gets lost on the way into the buffer -----

  // Every line handed to the broadcaster so far.
  function Logged<C>(evs: seq<Event<C>>): multiset<LogData> {
    if evs == [] then multiset{}
    else
      var ev := evs[|evs| - 1];
      Logged(evs[..|evs| - 1]) + (if ev.Lookup? then multiset{ev.line} else multiset{})
  }

  // Lines that a goroutine has looked the buffer up for and not added yet.
  function Held(l: Logger): multiset<LogData> {
    if l.Buffered? then multiset{l.line} else multiset{}
  }

  function InHand(pc: Pc): multiset<LogData> {
    match pc
    case Between(task) => Held(task)
    case InStep(stdout, stderr) => Held(stdout) + Held(stderr)
    case _ => multiset{}
  }

  // A line that is put is accepted: nobody has stopped the buffer while a goroutine can log.
  lemma PutAccepts<C>(setup: Setup, s: Pipe<C>, who: Who)
    requires Enabled(setup, s, Put(who)) && Buf.Phases(s.buf) && PhaseFits(s.pc, s.mapped, s.buf.phase)
    ensures var t, l := Next(setup, s, Put(who)), LoggerOf(s.pc, who);
      && l.Buffered? && t.buf.accepted == s.buf.accepted + [l.line]
      && InHand(s.pc) == InHand(t.pc) + multiset{l.line}
  {}

  lemma LookupHolds<C>(setup: Setup, s: Pipe<C>, who: Who, line: LogData)
    requires Enabled(setup, s, Lookup(who, line)) && PhaseFits(s.pc, s.mapped, s.buf.phase)
    ensures var t := Next(setup, s, Lookup(who, line));
      t.buf == s.buf && InHand(t.pc) == InHand(s.pc) + multiset{line}
  {}

  lemma OthersAcceptNothing<C>(setup: Setup, s: Pipe<C>, ev: Event<C>)
    requires Enabled(setup, s, ev) && !ev.Put? && (s.pc == NotStarted ==> s.buf == Buf.Fresh)
    ensures Next(setup, s, ev).buf.accepted == s.buf.accepted
  {
    hide Next, Enabled, Buf.Next, Buf.Enabled;
    BufferFollows(setup, s, ev);
    var b := BufferEvent(s, ev);
    if b != [] {
      Buf.OthersDropNothing(setup.lim, s.buf, b[0]);
    }
  }

  lemma EofHolds(pc: Pc, who: Who)
    requires LoggerOf(pc, who) == Idle && who != Task
    ensures InHand(WithLogger(pc, who, Ended)) == InHand(pc)
  {}

  predicate EmptyHands(pc: Pc) {
    match pc
    case Between(task) => task == Idle
    case InStep(stdout, stderr) => !stdout.Buffered? && !stderr.Buffered?
    case _ => true
  }

  lemma NothingInHand(pc: Pc)
    requires EmptyHands(pc)
    ensures InHand(pc) == multiset{}
  {}

  // The readers are joined and the buffer is removed only when nobody holds a line.
  lemma PhasesMoveEmptyHanded<C>(setup: Setup, s: Pipe<C>, ev: Event<C>)
    requires Enabled(setup, s, ev)
    requires !ev.Put? && !ev.Lookup? && !ev.Eof?
    ensures Next(setup, s, ev).pc == s.pc || (EmptyHands(s.pc) && EmptyHands(Next(setup, s, ev).pc))
  {
    hide Buf.Next, BatchMessages, CompleteMessage, ValidRun, Run;
  }

  // No other step takes a line out of a goroutine's hands.
  lemma OthersHold<C>(setup: Setup, s: Pipe<C>, ev: Event<C>)
    requires Enabled(setup, s, ev) && !ev.Put? && !ev.Lookup?
    ensures InHand(Next(setup, s, ev).pc) == InHand(s.pc)
  {
    hide Buf.Next, BatchMessages, CompleteMessage, ValidRun, Run, InHand, EmptyHands, WithLogger, LoggerOf;
    if ev.Eof? {
      EofHolds(s.pc, ev.who);
    } else {
      PhasesMoveEmptyHanded(setup, s, ev);
      if Next(setup, s, ev).pc != s.pc {
        NothingInHand(s.pc);
        NothingInHand(Next(setup, s, ev).pc);
      }
    }
  }

  ghost predicate Accounted<C>(evs: seq<Event<C>>, s: Pipe<C>) {
    Logged(evs) == multiset(s.buf.accepted) + InHand(s.pc)
  }

  lemma LoggedStep<C>(setup: Setup, p: seq<Event<C>>, s: Pipe<C>, ev: Event<C>)
    requires Inv(setup, s) && Enabled(setup, s, ev) && Accounted(p, s)
    ensures Accounted(p + [ev], Next(setup, s, ev))
  {
    hide Next, Enabled, InHand, Buf.Rep, Buf.LinesConserved, Buf.BatchesConserved, Buf.FatesOk;
    hide HubValid, Streamed, PhaseFits, LoggerOf;
    assert (p + [ev])[..|p|] == p;
    if ev.Put? {
      PutAccepts(setup, s, ev.who);
    } else if ev.Lookup? {
      LookupHolds(setup, s, ev.who, ev.line);
    } else {
      OthersAcceptNothing(setup, s, ev);
      OthersHold(setup, s, ev);
    }
  }

  lemma NothingLogged<C>()
    ensures Accounted<C>([], Pipe(NotStarted, false, Buf.Fresh, [], []))
  {}

  // Every line logged is in the buffer's accepted lines or still in a goroutine's hands, in every
  // interleaving.
  lemma {:induction false} LoggedIsAccepted<C>(setup: Setup, evs: seq<Event<C>>)
    requires setup.lim.Positive() && PipeRun(setup, evs)
    ensures Accounted(evs, After(setup, evs))
  {
    hide Next, Enabled, Inv, Accounted;
    if evs == [] {
      NothingLogged<C>();
    } else {
      var p, ev := evs[..|evs| - 1], evs[|evs| - 1];
      LoggedIsAccepted(setup, p);
      PipeKeepsInv(setup, p);
      LoggedStep(setup, p, After(setup, p), ev);
      assert evs == p + [ev];
    }
  }

  // ----- The complete message is last -----

  // A complete message of the execution is followed by no other message of it.
  ghost predicate CompleteLast(id: string, ms: seq<BroadcastMessage>) {
    forall i, j | 0 <= i < j < |ms| && ms[i].executionId == id && ms[i].payload.Complete? ::
      ms[j].executionId != id
  }

  // Log messages of the execution, and the complete message behind all of them.
  ghost predicate Completed(setup: Setup, own: seq<BroadcastMessage>, lines: seq<LogData>) {
    && own != [] && own[|own| - 1] == CompleteMessage(setup)
    && (forall i | 0 <= i < |own| - 1 :: !own[i].payload.Complete?)
    && LinesIn(own) == lines
  }

  lemma LogsThenComplete(setup: Setup, bs: seq<Batch>)
    ensures Completed(setup, MessagesFor(setup.id, bs) + [CompleteMessage(setup)], Buf.Flatten(bs))
  {
    MessagesCarryLines(setup.id, bs);
    MessagesAreLogs(setup.id, bs);
    hide MessagesFor, Buf.Flatten;
    var logs := MessagesFor(setup.id, bs);
    var own := logs + [CompleteMessage(setup)];
    assert own[..|own| - 1] == logs && LinesOf(CompleteMessage(setup)) == [];
    forall i | 0 <= i < |own| - 1 ensures !own[i].payload.Complete? {
      assert own[i] in logs;
    }
  }

  // In every reachable state the messages of the execution on the channel are log messages, and
  // after BroadcastComplete exactly one complete message behind all of them; together they then
  // carry every line logged during the run that was not dropped, each as often as it was logged.
  lemma CompleteIsLast<C>(setup: Setup, evs: seq<Event<C>>)
    requires setup.lim.Positive() && PipeRun(setup, evs)
    ensures var s := After(setup, evs);
      var own := Of(setup.id, Sent(s));
      if s.pc == Done then
        && Completed(setup, own, LinesIn(own))
        && multiset(LinesIn(own)) + multiset(Buf.Drops(s.buf.fates)) == Logged(evs)
      else forall m <- own :: !m.payload.Complete?
  {
    hide Of, MessagesFor, Sent, PipeRun, After, ValidRun, Buf.Inv, Completed, LinesIn, Logged;
    var s := After(setup, evs);
    PipeKeepsInv(setup, evs);
    LoggedIsAccepted(setup, evs);
    if s.pc == Done {
      LogsThenComplete(setup, s.buf.delivered);
      CompletedCarries(setup, Of(setup.id, Sent(s)), Buf.Flatten(s.buf.delivered));
      Buf.DeliveredOnReturn(setup.lim, s.buf);
    } else {
      MessagesAreLogs(setup.id, s.buf.delivered);
      assert Of(setup.id, Sent(s)) == MessagesFor(setup.id, s.buf.delivered);
    }
  }

  lemma CompletedCarries(setup: Setup, own: seq<BroadcastMessage>, lines: seq<LogData>)
    requires Completed(setup, own, lines)
    ensures LinesIn(own) == lines
  {}

  // ----- ... and last for every client -----

  // Two messages of the execution appear among its own messages in the same order.
  lemma {:induction false} OwnBefore(id: string, ms: seq<BroadcastMessage>, i: nat, j: nat)
    requires i < j < |ms| && ms[i].executionId == id == ms[j].executionId
    ensures exists k | 0 <= k < |Of(id, ms)| - 1 :: Of(id, ms)[k] == ms[i]
  {
    hide Of;
    OfOne(id, ms[..i], ms[i]);
    assert ms[..i + 1] == ms[..i] + [ms[i]];
    OfOne(id, ms[..j], ms[j]);
    assert ms[..j + 1] == ms[..j] + [ms[j]];
    OfConcat(id, ms[..i + 1], ms[i + 1..j]);
    assert ms[..j] == ms[..i + 1] + ms[i + 1..j];
    OfConcat(id, ms[..j + 1], ms[j + 1..]);
    assert ms == ms[..j + 1] + ms[j + 1..];
    var k := |Of(id, ms[..i])|;
    assert Of(id, ms)[k] == ms[i];
  }

  lemma SentCompleteLast<C>(setup: Setup, evs: seq<Event<C>>)
    requires setup.lim.Positive() && PipeRun(setup, evs)
    ensures CompleteLast(setup.id, Sent(After(setup, evs)))
  {
    var ms := Sent(After(setup, evs));
    CompleteIsLast(setup, evs);
    forall i, j | 0 <= i < j < |ms| && ms[i].executionId == setup.id && ms[i].payload.Complete?
      ensures ms[j].executionId != setup.id
    {
      if ms[j].executionId == setup.id {
        OwnBefore(setup.id, ms, i, j);
      }
    }
  }

  lemma SameGot<C>(s: HS.HubState<C>, ev: HS.Event<C>, c: C)
    requires Index(s) && HS.Enabled(s, ev) && c in s.cl
    ensures c in HS.Next(s, ev).cl
    ensures var a, b := s.cl[c].got, HS.Next(s, ev).cl[c].got;
      b == a || (ev.Broadcast? && b == a + [ev.m])
  {
    match ev
    case Broadcast(m) => SendsChangeQueuesOnly(s, m); BroadcastEffect(s, m, c);
    case _ =>
  }

  // A client's stream consists of processed messages and keeps the complete message last.
  lemma {:induction false} ClientCompleteLast<C>(limit: int, evs: seq<HS.Event<C>>, id: string, c: C)
    requires ValidRun(limit, evs) && CompleteLast(id, Processed(evs)) && c in Run(limit, evs).cl
    ensures CompleteLast(id, Run(limit, evs).cl[c].got)
    ensures forall m <- Run(limit, evs).cl[c].got :: m in Processed(evs)
  {
    if evs != [] {
      var p, ev := evs[..|evs| - 1], evs[|evs| - 1];
      var s := Run(limit, p);
      assert Processed(p) <= Processed(evs);
      assert CompleteLast(id, Processed(p));
      if c in s.cl {
        ClientCompleteLast(limit, p, id, c);
        SameGot(s, ev, c);
        if ev.Broadcast? {
          AppendCompleteLast(id, Processed(p), s.cl[c].got, ev.m);
        }
      }
    }
  }

  lemma AppendCompleteLast(id: string, all: seq<BroadcastMessage>, got: seq<BroadcastMessage>, m: BroadcastMessage)
    requires CompleteLast(id, all + [m]) && CompleteLast(id, got) && forall x <- got :: x in all
    ensures CompleteLast(id, got + [m])
  {
    forall i | 0 <= i < |got| && got[i].executionId == id && got[i].payload.Complete?
      ensures m.executionId != id
    {
      assert got[i] in all;
      var k :| 0 <= k < |all| && all[k] == got[i];
      assert (all + [m])[k] == all[k] && (all + [m])[|all|] == m;
    }
  }

  // Every client's queue history has the execution's complete message last.
  lemma EveryClientSeesCompleteLast<C>(setup: Setup, evs: seq<Event<C>>, c: C)
    requires setup.lim.Positive() && PipeRun(setup, evs)
    requires ValidRun(setup.limit, After(setup, evs).hub) && c in Run(setup.limit, After(setup, evs).hub).cl
    ensures var x := Run(setup.limit, After(setup, evs).hub).cl[c];
      CompleteLast(setup.id, OnlyBroadcasts(x.taken + x.queue))
  {
    var s := After(setup, evs);
    SentCompleteLast(setup, evs);
    assert forall i | 0 <= i < |Processed(s.hub)| :: Sent(s)[i] == Processed(s.hub)[i];
    ClientCompleteLast(setup.limit, s.hub, setup.id, c);
    SendIsFifo(setup.limit, s.hub, c);
  }

  // The client wants the execution, unfiltered, whenever one of its messages is processed.
  ghost predicate Listens<C>(evs: seq<HS.Event<C>>, c: C, id: string) {
    evs == [] ||
    (var p, ev := evs[..|evs| - 1], evs[|evs| - 1];
     && Listens(p, c, id)
     && (ev.Broadcast? && ev.m.executionId == id ==> id in Asked(p, c).wants && Asked(p, c).filter.None?))
  }

  lemma ListenerStep<C>(p: seq<HS.Event<C>>, ev: HS.Event<C>, c: C, id: string)
    requires Of(id, Asked(p, c).out) == Of(id, Processed(p))
    requires ev.Broadcast? && ev.m.executionId == id ==> id in Asked(p, c).wants && Asked(p, c).filter.None?
    ensures Of(id, Asked(p + [ev], c).out) == Of(id, Processed(p + [ev]))
  {
    hide Of;
    assert (p + [ev])[..|p|] == p;
    if ev.Broadcast? {
      OfOne(id, Asked(p, c).out, ev.m);
      OfOne(id, Processed(p), ev.m);
    } else {
      assert Processed(p + [ev]) == Processed(p);
    }
  }

  lemma {:induction false} ListenerGetsAll<C>(evs: seq<HS.Event<C>>, c: C, id: string)
    requires Listens(evs, c, id)
    ensures Of(id, Asked(evs, c).out) == Of(id, Processed(evs))
  {
    if evs != [] {
      var p, ev := evs[..|evs| - 1], evs[|evs| - 1];
      ListenerGetsAll(p, c, id);
      ListenerStep(p, ev, c, id);
      assert evs == p + [ev];
    }
  }

  // A client that listens throughout and is never unregistered has been sent, once the channel
  // holds nothing of the finished execution, every line that was not dropped, then the complete
  // message.
  lemma ListenerSeesWholeExecution<C>(setup: Setup, evs: seq<Event<C>>, c: C)
    requires setup.lim.Positive() && PipeRun(setup, evs)
    requires After(setup, evs).pc == Done && Of(setup.id, After(setup, evs).chan) == []
    requires ValidRun(setup.limit, After(setup, evs).hub)
    requires c in Run(setup.limit, After(setup, evs).hub).cl
    requires !Run(setup.limit, After(setup, evs).hub).cl[c].unregistered
    requires Listens(After(setup, evs).hub, c, setup.id)
    ensures var s := After(setup, evs);
      var own := Of(setup.id, Run(setup.limit, s.hub).cl[c].got);
      && Completed(setup, own, LinesIn(own))
      && multiset(LinesIn(own)) + multiset(Buf.Drops(s.buf.fates)) == Logged(evs)
  {
    hide Of, LinesIn, MessagesFor, Listens, Asked, Processed, PipeRun, After, ValidRun, Run, Logged;
    var s := After(setup, evs);
    CompleteIsLast(setup, evs);
    assert Run(setup.limit, s.hub).cl[c].got == Asked(s.hub, c).out by {
      FollowsWish(setup.limit, s.hub, c);
    }
    ListenerGetsAll(s.hub, c, setup.id);
    assert Of(setup.id, Sent(s)) == Of(setup.id, Processed(s.hub)) by {
      OfConcat(setup.id, Processed(s.hub), s.chan);
    }
  }

  // ----- A run that comes to its end -----

  lemma Extend<C>(setup: Setup, evs: seq<Event<C>>, s: Pipe<C>, ev: Event<C>) returns (more: seq<Event<C>>, t: Pipe<C>)
    requires PipeRun(setup, evs) && After(setup, evs) == s && Enabled(setup, s, ev)
    ensures PipeRun(setup, more) && After(setup, more) == t && t == Next(setup, s, ev)
  {
    more, t := evs + [ev], Next(setup, s, ev);
    assert more[..|evs|] == evs;
  }

  lemma LineReadBySomeStep<C>(setup: Setup, line: LogData) returns (evs: seq<Event<C>>, s: Pipe<C>)
    ensures PipeRun(setup, evs) && After(setup, evs) == s
    ensures s == Pipe(InStep(Buffered(line), Idle), true, Buf.Fresh, [], [])
  {
    evs, s := [], Pipe(NotStarted, false, Buf.Fresh, [], []);
    assert PipeRun(setup, evs) && After(setup, evs) == s;
    hide PipeRun, After, ValidRun, Run, Buf.Next;
    evs, s := Extend(setup, evs, s, Start);
    evs, s := Extend(setup, evs, s, BeginStep);
    evs, s := Extend(setup, evs, s, Lookup(Stdout, line));
  }

  lemma LineInTheBuffer<C>(setup: Setup, line: LogData) returns (evs: seq<Event<C>>, s: Pipe<C>)
    requires setup.lim.maxLines >= 2 && |line.line| < setup.lim.maxBytes
    ensures PipeRun(setup, evs) && After(setup, evs) == s
    ensures s == Pipe(InStep(Idle, Idle), true, Buf.Fresh.(lines := [line], currentBytes := |line.line|,
                                                          accepted := [line]), [], [])
  {
    evs, s := LineReadBySomeStep(setup, line);
    assert [] + [line] == [line];
    assert Buf.Next(setup.lim, Buf.Fresh, Buf.Add(line))
        == Buf.Fresh.(lines := [line], currentBytes := |line.line|, accepted := [line]);
    hide PipeRun, After, ValidRun, Run, Buf.Next;
    evs, s := Extend(setup, evs, s, Put(Stdout));
  }

  lemma StepJoined<C>(setup: Setup, evs: seq<Event<C>>, s: Pipe<C>) returns (more: seq<Event<C>>, t: Pipe<C>)
    requires PipeRun(setup, evs) && After(setup, evs) == s && s.pc == InStep(Idle, Idle)
    ensures PipeRun(setup, more) && After(setup, more) == t && t == s.(pc := Removed, mapped := false)
  {
    hide PipeRun, After, ValidRun, Run, Buf.Next;
    more, t := Extend(setup, evs, s, Eof(Stdout));
    more, t := Extend(setup, more, t, Eof(Stderr));
    more, t := Extend(setup, more, t, JoinStep);
    more, t := Extend(setup, more, t, Remove);
  }

  // One line that one step writes arrives on the channel as a message of its own with its level, and the
  // complete message behind it.
  lemma OneLineArrives<C>(setup: Setup, line: LogData) returns (evs: seq<Event<C>>)
    requires setup.lim.maxLines >= 2 && |line.line| < setup.lim.maxBytes
    ensures PipeRun(setup, evs) && After(setup, evs).pc == Done
    ensures var level := if line.level == "" then "info" else line.level;
      Sent(After(setup, evs)) == [BroadcastMessage(setup.id, Log(line), level),
                                  BroadcastMessage(setup.id, Complete(setup.status), "")]
  {
    hide PipeRun, After, ValidRun, Run;
    var s;
    evs, s := LineInTheBuffer(setup, line);
    evs, s := StepJoined(setup, evs, s);
    evs, s := Extend(setup, evs, s, EnterStop);
    evs, s := Extend(setup, evs, s, LeaveStop);
    evs, s := Extend(setup, evs, s, SendComplete);
  }
}
