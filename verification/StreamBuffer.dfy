/** The per-execution stream buffer: batching under a line and a byte limit, two overflow
    policies, delivery goroutines, and the draining Stop.

    Sys is the buffer together with its goroutines and the history of every accepted line.
    Next gives the effect of each critical section; the class StreamBuffer performs the same
    steps on mutable fields: every method ends in exactly the state Next (or Run) gives, so the
    theorems about runs are theorems about its calls. */
module StreamBuffers {
  import opened Options

  // Characters stand for bytes, so |line| is Go's len(line.Line).
  datatype LogData = LogData(line: string, level: string)

  type Batch = seq<LogData>

  datatype OverflowMode = DropOldest | Block

  datatype Limits = Limits(maxLines: int, maxBytes: int, mode: OverflowMode) {
    predicate Positive() {
      0 < maxLines && 0 < maxBytes
    }
  }

  const DEFAULT_MAX_LINES := 50
  const DEFAULT_MAX_BYTES := 1024 * 1024

  // The limits a new buffer uses: unset (non-positive) values fall back to the defaults.
  function Configured(maxLines: int, maxBytes: int, mode: OverflowMode): (lim: Limits)
    ensures lim.Positive() && lim.mode == mode
    ensures lim.maxLines == if maxLines > 0 then maxLines else 50
    ensures lim.maxBytes == if maxBytes > 0 then maxBytes else 1_048_576
  {
    Limits(if maxLines <= 0 then DEFAULT_MAX_LINES else maxLines,
           if maxBytes <= 0 then DEFAULT_MAX_BYTES else maxBytes,
           mode)
  }

  // What became of accepted lines that left the buffer, in the order they left it.
  datatype Fate = Dispatched(batch: Batch) | Dropped(line: LogData)

  // Where the first call of Stop is: not made, waiting for the goroutines, or returned.
  datatype StopPhase = NotCalled | Waiting | Returned

  datatype Sys = Sys(
    lines: seq<LogData>,       // buffered lines
    currentBytes: int,
    stopped: bool,
    inFlight: seq<Batch>,      // delivery goroutines that have not finished
    delivered: seq<Batch>,     // completed calls of flushFn, in order
    final: Option<Batch>,      // the batch Stop took out of the buffer, if any
    phase: StopPhase,
    accepted: seq<LogData>,    // history: lines stored by Add
    fates: seq<Fate>)          // history: what left the buffer

  const Fresh: Sys := Sys([], 0, false, [], [], None, NotCalled, [], [])

  // ----- Measures over lines, batches and fates -----

  function Bytes(b: seq<LogData>): nat {
    if b == [] then 0 else |b[0].line| + Bytes(b[1..])
  }

  function Flatten(bs: seq<Batch>): seq<LogData> {
    if bs == [] then [] else Flatten(bs[..|bs| - 1]) + bs[|bs| - 1]
  }

  // The lines that left the buffer, in order, whatever their fate.
  function Outs(fs: seq<Fate>): seq<LogData> {
    if fs == [] then []
    else
      var f := fs[|fs| - 1];
      Outs(fs[..|fs| - 1]) + (match f case Dispatched(b) => b case Dropped(l) => [l])
  }

  function Batches(fs: seq<Fate>): seq<Batch> {
    if fs == [] then []
    else
      var f := fs[|fs| - 1];
      Batches(fs[..|fs| - 1]) + (if f.Dispatched? then [f.batch] else [])
  }

  function Drops(fs: seq<Fate>): seq<LogData> {
    if fs == [] then []
    else
      var f := fs[|fs| - 1];
      Drops(fs[..|fs| - 1]) + (if f.Dropped? then [f.line] else [])
  }

  // ----- The critical sections -----

  function Flushed(s: Sys): Sys {
    if s.lines == [] then s
    else s.(lines := [], currentBytes := 0,
            inFlight := s.inFlight + [s.lines],
            fates := s.fates + [Dispatched(s.lines)])
  }

  function OldestDropped(s: Sys): Sys {
    if s.lines == [] then s
    else s.(lines := s.lines[1..],
            currentBytes := s.currentBytes - |s.lines[0].line|,
            fates := s.fates + [Dropped(s.lines[0])])
  }

  predicate Overflows(lim: Limits, s: Sys, l: LogData) {
    |s.lines| >= lim.maxLines || (s.currentBytes + |l.line| > lim.maxBytes && |s.lines| > 0)
  }

  function MakeRoom(lim: Limits, s: Sys, l: LogData): Sys {
    if !Overflows(lim, s, l) then s
    else if lim.mode == DropOldest then OldestDropped(s)
    else Flushed(s)
  }

  function Store(s: Sys, l: LogData): Sys {
    s.(lines := s.lines + [l], currentBytes := s.currentBytes + |l.line|,
       accepted := s.accepted + [l])
  }

  function Added(lim: Limits, s: Sys, l: LogData): Sys {
    if s.stopped then s
    else
      var t := Store(MakeRoom(lim, s, l), l);
      if |t.lines| >= lim.maxLines || t.currentBytes >= lim.maxBytes then Flushed(t) else t
  }

  // Stop up to the release of the lock.
  function StopEntered(s: Sys): Sys {
    if s.stopped then s
    else if s.lines == [] then s.(stopped := true, phase := Waiting, final := None)
    else s.(stopped := true, phase := Waiting, lines := [], currentBytes := 0,
            final := Some(s.lines), fates := s.fates + [Dispatched(s.lines)])
  }

  // Stop after the wait: the final batch is delivered by the caller itself.
  function StopReturned(s: Sys): Sys {
    s.(phase := Returned,
       delivered := s.delivered + (if s.final.Some? then [s.final.value] else []))
  }

  function RemoveAt<T>(s: seq<T>, i: nat): seq<T>
    requires i < |s|
  {
    s[..i] + s[i + 1..]
  }

  datatype Event =
    | Add(line: LogData)
    | Flush
    | TimerTick
    | Deliver(index: nat)  // the goroutine of inFlight[index] finishes
    | StopEnter            // any call of Stop; only the first has an effect
    | StopLeave            // the first call of Stop returns

  predicate Enabled(s: Sys, ev: Event) {
    match ev
    case Deliver(i) => i < |s.inFlight|
    case StopLeave => s.phase == Waiting && s.inFlight == []
    case _ => true
  }

  function Next(lim: Limits, s: Sys, ev: Event): Sys
    requires Enabled(s, ev)
  {
    match ev
    case Add(l) => Added(lim, s, l)
    case Flush => Flushed(s)
    case TimerTick => if s.stopped then s else Flushed(s)
    case Deliver(i) => s.(inFlight := RemoveAt(s.inFlight, i), delivered := s.delivered + [s.inFlight[i]])
    case StopEnter => StopEntered(s)
    case StopLeave => StopReturned(s)
  }

  // ----- Runs: every interleaving of the above -----

  predicate ValidRun(lim: Limits, s: Sys, evs: seq<Event>)
    decreases |evs|, 0
  {
    evs == [] ||
    (ValidRun(lim, s, evs[..|evs| - 1]) && Enabled(Run(lim, s, evs[..|evs| - 1]), evs[|evs| - 1]))
  }

  function Run(lim: Limits, s: Sys, evs: seq<Event>): Sys
    requires ValidRun(lim, s, evs)
    decreases |evs|, 1
  {
    if evs == [] then s
    else Next(lim, Run(lim, s, evs[..|evs| - 1]), evs[|evs| - 1])
  }

  lemma RunStep(lim: Limits, s: Sys, evs: seq<Event>, ev: Event)
    requires ValidRun(lim, s, evs) && Enabled(Run(lim, s, evs), ev)
    ensures ValidRun(lim, s, evs + [ev])
    ensures Run(lim, s, evs + [ev]) == Next(lim, Run(lim, s, evs), ev)
  {
    assert (evs + [ev])[..|evs|] == evs;
  }

  // ----- The invariant -----

  predicate BatchBounds(lim: Limits, b: Batch) {
    && b != []
    && |b| <= lim.maxLines
    && (lim.mode == Block ==> Bytes(b) <= lim.maxBytes || |b| == 1)
    && (lim.mode == DropOldest ==> Bytes(b) < lim.maxBytes + |b[|b| - 1].line|)
  }

  function Pending(s: Sys): multiset<Batch> {
    if s.final.Some? && s.phase != Returned then multiset{s.final.value} else multiset{}
  }

  // Every dispatched batch is within bounds; nothing is dropped in block mode.
  ghost predicate FatesOk(lim: Limits, fs: seq<Fate>) {
    && (forall b <- Batches(fs) :: BatchBounds(lim, b))
    && (lim.mode == Block ==> Drops(fs) == [])
  }

  // The counters agree with the buffered lines, which are below both limits.
  predicate Rep(lim: Limits, s: Sys) {
    && s.currentBytes == Bytes(s.lines)
    && |s.lines| < lim.maxLines
    && s.currentBytes < lim.maxBytes
  }

  // Every accepted line is in exactly one place, and the order is kept.
  predicate LinesConserved(s: Sys) {
    Outs(s.fates) + s.lines == s.accepted
  }

  // Every dispatched batch is delivered, in flight, or held by Stop.
  predicate BatchesConserved(s: Sys) {
    multiset(s.delivered) + multiset(s.inFlight) + Pending(s) == multiset(Batches(s.fates))
  }

  predicate Phases(s: Sys) {
    && (s.stopped <==> s.phase != NotCalled)
    && (s.stopped ==> s.lines == [])
    && (s.final.Some? ==> s.stopped)
    && (s.phase == Returned ==> s.inFlight == [])
    && (s.phase == Returned && s.final.Some? ==>
          s.delivered != [] && s.delivered[|s.delivered| - 1] == s.final.value)
  }

  ghost predicate Inv(lim: Limits, s: Sys) {
    Rep(lim, s) && LinesConserved(s) && BatchesConserved(s) && FatesOk(lim, s.fates) && Phases(s)
  }

  lemma FreshHolds(lim: Limits)
    requires lim.Positive()
    ensures Inv(lim, Fresh)
  {}

  lemma {:induction false} BytesAppend(b: seq<LogData>, l: LogData)
    ensures Bytes(b + [l]) == Bytes(b) + |l.line|
  {
    if b != [] {
      assert (b + [l])[1..] == b[1..] + [l];
      BytesAppend(b[1..], l);
    } else {
      assert b + [l] == [l];
    }
  }

  lemma FateAppend(fs: seq<Fate>, f: Fate)
    ensures Outs(fs + [f]) == Outs(fs) + (match f case Dispatched(b) => b case Dropped(l) => [l])
    ensures Batches(fs + [f]) == Batches(fs) + (if f.Dispatched? then [f.batch] else [])
    ensures Drops(fs + [f]) == Drops(fs) + (if f.Dropped? then [f.line] else [])
  {
    assert (fs + [f])[..|fs|] == fs;
  }

  lemma FateOkAppend(lim: Limits, fs: seq<Fate>, f: Fate)
    requires FatesOk(lim, fs)
    requires if f.Dispatched? then BatchBounds(lim, f.batch) else lim.mode == DropOldest
    ensures FatesOk(lim, fs + [f])
  {
    FateAppend(fs, f);
  }

  lemma RemoveAtMultiset<T>(s: seq<T>, i: nat)
    requires i < |s|
    ensures multiset(RemoveAt(s, i)) + multiset{s[i]} == multiset(s)
  {
    assert s == s[..i] + [s[i]] + s[i + 1..];
  }

  // Flushing a buffer whose lines form an admissible batch, whatever the counters say.
  lemma FlushKeeps(lim: Limits, s: Sys)
    requires lim.Positive()
    requires LinesConserved(s) && BatchesConserved(s) && FatesOk(lim, s.fates) && Phases(s)
    requires s.lines == [] ==> Rep(lim, s)
    requires s.lines != [] ==> BatchBounds(lim, s.lines) && !s.stopped
    ensures Inv(lim, Flushed(s))
  {
    if s.lines != [] {
      var t := Flushed(s);
      FateAppend(s.fates, Dispatched(s.lines));
      FateOkAppend(lim, s.fates, Dispatched(s.lines));
      assert Pending(t) == Pending(s);
      assert LinesConserved(t);
      assert BatchesConserved(t);
    }
  }

  // The lines between operations always form an admissible batch.
  lemma RepBounds(lim: Limits, s: Sys)
    requires Rep(lim, s) && s.lines != []
    ensures BatchBounds(lim, s.lines)
  {}

  lemma DropKeeps(lim: Limits, s: Sys)
    requires lim.Positive() && Inv(lim, s) && lim.mode == DropOldest && !s.stopped
    ensures Inv(lim, OldestDropped(s))
  {
    hide Batches, Drops, Outs;
    if s.lines != [] {
      var t := OldestDropped(s);
      FateAppend(s.fates, Dropped(s.lines[0]));
      FateOkAppend(lim, s.fates, Dropped(s.lines[0]));
      assert LinesConserved(t) by {
        assert s.lines == [s.lines[0]] + s.lines[1..];
        assert Outs(s.fates) + [s.lines[0]] + s.lines[1..] == Outs(s.fates) + s.lines;
      }
      assert BatchesConserved(t) by {
        assert Pending(t) == Pending(s);
      }
      assert Rep(lim, t) && Phases(t);
    }
  }

  lemma MakeRoomKeeps(lim: Limits, s: Sys, l: LogData)
    requires lim.Positive() && Inv(lim, s) && !s.stopped
    ensures Inv(lim, MakeRoom(lim, s, l))
    ensures !MakeRoom(lim, s, l).stopped
    ensures lim.mode == Block ==> !Overflows(lim, MakeRoom(lim, s, l), l)
  {
    if Overflows(lim, s, l) {
      if lim.mode == DropOldest {
        DropKeeps(lim, s);
      } else {
        FlushedKeeps(lim, s);
      }
    }
  }

  lemma FlushedKeeps(lim: Limits, s: Sys)
    requires lim.Positive() && Inv(lim, s)
    ensures Inv(lim, Flushed(s))
  {
    hide Flushed, Outs, Bytes, Batches, Drops;
    if s.lines != [] {
      RepBounds(lim, s);
    }
    FlushKeeps(lim, s);
  }

  // Storing a line for which there is room leaves an admissible batch, at worst to be flushed at once.
  lemma StoreKeeps(lim: Limits, r: Sys, l: LogData)
    requires lim.Positive() && Inv(lim, r) && !r.stopped && (lim.mode == Block ==> !Overflows(lim, r, l))
    ensures var t := Store(r, l);
      && LinesConserved(t) && BatchesConserved(t) && FatesOk(lim, t.fates) && Phases(t)
      && t.lines != [] && !t.stopped && BatchBounds(lim, t.lines)
      && (|t.lines| < lim.maxLines && t.currentBytes < lim.maxBytes ==> Rep(lim, t))
  {
    hide Outs, Batches, Drops, Bytes;
    BytesAppend(r.lines, l);
    var t := Store(r, l);
    assert Outs(t.fates) + t.lines == (Outs(r.fates) + r.lines) + [l];
    OneLine(l);
    assert Pending(t) == Pending(r);
  }

  lemma OneLine(l: LogData)
    ensures Bytes([]) == 0 && Bytes([] + [l]) == |l.line|
  {
    BytesAppend([], l);
  }

  lemma AddKeeps(lim: Limits, s: Sys, l: LogData)
    requires lim.Positive() && Inv(lim, s)
    ensures Inv(lim, Added(lim, s, l))
  {
    hide MakeRoom, Store, Flushed, Overflows, LinesConserved, BatchesConserved, FatesOk, Phases, BatchBounds, Rep;
    if !s.stopped {
      MakeRoomKeeps(lim, s, l);
      var t := Store(MakeRoom(lim, s, l), l);
      StoreKeeps(lim, MakeRoom(lim, s, l), l);
      if |t.lines| >= lim.maxLines || t.currentBytes >= lim.maxBytes {
        FlushKeeps(lim, t);
      }
    }
  }

  // The lines Stop takes out are one more dispatched batch, and the one it holds.
  lemma StopConserves(s: Sys)
    requires LinesConserved(s) && BatchesConserved(s) && Phases(s) && !s.stopped && s.lines != []
    ensures LinesConserved(StopEntered(s)) && BatchesConserved(StopEntered(s))
  {
    FateAppend(s.fates, Dispatched(s.lines));
    hide Outs, Batches, Drops;
    var t := StopEntered(s);
    assert Outs(t.fates) + t.lines == Outs(s.fates) + s.lines;
    assert Pending(s) == multiset{} && Pending(t) == multiset{s.lines};
  }

  lemma StopKeepsRest(lim: Limits, s: Sys)
    requires lim.Positive() && Rep(lim, s) && FatesOk(lim, s.fates) && Phases(s) && !s.stopped && s.lines != []
    ensures var t := StopEntered(s); Rep(lim, t) && FatesOk(lim, t.fates) && Phases(t)
  {
    RepBounds(lim, s);
    hide BatchBounds, FatesOk;
    FateOkAppend(lim, s.fates, Dispatched(s.lines));
  }

  lemma StopKeeps(lim: Limits, s: Sys)
    requires lim.Positive() && Inv(lim, s)
    ensures Inv(lim, StopEntered(s))
  {
    if !s.stopped && s.lines != [] {
      hide Rep, LinesConserved, BatchesConserved, FatesOk, Phases, StopEntered;
      StopConserves(s);
      StopKeepsRest(lim, s);
    }
  }

  lemma DeliverKeeps(lim: Limits, s: Sys, i: nat)
    requires lim.Positive() && Inv(lim, s) && i < |s.inFlight|
    ensures Inv(lim, Next(lim, s, Deliver(i)))
  {
    var t := Next(lim, s, Deliver(i));
    RemoveAtMultiset(s.inFlight, i);
    assert Pending(t) == Pending(s);
    assert BatchesConserved(t);
  }

  lemma ReturnKeeps(lim: Limits, s: Sys)
    requires Inv(lim, s) && s.phase == Waiting && s.inFlight == []
    ensures Inv(lim, StopReturned(s))
  {
    hide Outs, Batches, Drops, Bytes;
    assert multiset(StopReturned(s).delivered) == multiset(s.delivered) + Pending(s);
  }

  lemma NextKeepsInv(lim: Limits, s: Sys, ev: Event)
    requires lim.Positive() && Inv(lim, s) && Enabled(s, ev)
    ensures Inv(lim, Next(lim, s, ev))
  {
    hide Inv, Added, Flushed, StopEntered, StopReturned;
    match ev
    case Add(l) => AddKeeps(lim, s, l);
    case Flush => FlushedKeeps(lim, s);
    case TimerTick => FlushedKeeps(lim, s);
    case Deliver(i) => DeliverKeeps(lim, s, i);
    case StopEnter => StopKeeps(lim, s);
    case StopLeave => ReturnKeeps(lim, s);
  }

  // Representation, conservation and batch bounds hold in every reachable state.
  lemma {:induction false} RunKeepsInv(lim: Limits, s: Sys, evs: seq<Event>)
    requires lim.Positive() && Inv(lim, s) && ValidRun(lim, s, evs)
    ensures Inv(lim, Run(lim, s, evs))
  {
    if evs != [] {
      RunKeepsInv(lim, s, evs[..|evs| - 1]);
      NextKeepsInv(lim, Run(lim, s, evs[..|evs| - 1]), evs[|evs| - 1]);
    }
  }

  // ----- Exactly-once delivery at Stop -----

  lemma FlattenLast(bs: seq<Batch>, b: Batch)
    ensures Flatten(bs + [b]) == Flatten(bs) + b
  {
    assert (bs + [b])[..|bs|] == bs;
  }

  lemma {:induction false} FlattenRemove(bs: seq<Batch>, i: nat)
    requires i < |bs|
    ensures multiset(Flatten(bs)) == multiset(Flatten(RemoveAt(bs, i))) + multiset(bs[i])
  {
    hide Flatten;
    var n := |bs| - 1;
    FlattenLast(bs[..n], bs[n]);
    assert bs == bs[..n] + [bs[n]];
    if i == n {
      assert RemoveAt(bs, i) == bs[..n];
    } else {
      FlattenRemove(bs[..n], i);
      FlattenLast(RemoveAt(bs[..n], i), bs[n]);
      assert RemoveAt(bs, i) == RemoveAt(bs[..n], i) + [bs[n]];
    }
  }

  // Deliveries in any order deliver the same lines.
  lemma {:induction false} PermutedFlatten(a: seq<Batch>, b: seq<Batch>)
    requires multiset(a) == multiset(b)
    ensures multiset(Flatten(a)) == multiset(Flatten(b))
    decreases |a|
  {
    if a == [] {
      assert |multiset(b)| == 0;
    } else {
      assert a[0] in multiset(b);
      var j: nat :| j < |b| && b[j] == a[0];
      RemoveAtMultiset(a, 0);
      RemoveAtMultiset(b, j);
      assert multiset(RemoveAt(a, 0)) == multiset(a) - multiset{a[0]} == multiset(RemoveAt(b, j));
      PermutedFlatten(RemoveAt(a, 0), RemoveAt(b, j));
      FlattenRemove(a, 0);
      FlattenRemove(b, j);
    }
  }

  ghost predicate Splits(fs: seq<Fate>) {
    multiset(Outs(fs)) == multiset(Flatten(Batches(fs))) + multiset(Drops(fs))
  }

  lemma AddToBoth<T>(all: multiset<T>, part: multiset<T>, rest: multiset<T>, more: multiset<T>)
    requires all == part + rest
    ensures all + more == (part + more) + rest == part + (rest + more)
  {}

  lemma SplitsAppend(fs: seq<Fate>, f: Fate)
    requires Splits(fs)
    ensures Splits(fs + [f])
  {
    FateAppend(fs, f);
    if f.Dispatched? {
      FlattenLast(Batches(fs), f.batch);
      AddToBoth(multiset(Outs(fs)), multiset(Flatten(Batches(fs))), multiset(Drops(fs)), multiset(f.batch));
    } else {
      assert Batches(fs + [f]) == Batches(fs);
      AddToBoth(multiset(Outs(fs)), multiset(Flatten(Batches(fs))), multiset(Drops(fs)), multiset([f.line]));
    }
  }

  lemma NothingSplits()
    ensures Splits([])
  {}

  // The lines that left the buffer are the dispatched ones and the dropped ones.
  lemma {:induction false} OutsSplit(fs: seq<Fate>)
    ensures Splits(fs)
  {
    hide Outs, Batches, Drops, Flatten;
    if fs == [] {
      NothingSplits();
    } else {
      OutsSplit(fs[..|fs| - 1]);
      SplitsAppend(fs[..|fs| - 1], fs[|fs| - 1]);
      assert fs == fs[..|fs| - 1] + [fs[|fs| - 1]];
    }
  }

  lemma {:induction false} OutsWithoutDrops(fs: seq<Fate>)
    requires Drops(fs) == []
    ensures Outs(fs) == Flatten(Batches(fs))
  {
    if fs != [] {
      var p, f := fs[..|fs| - 1], fs[|fs| - 1];
      assert fs == p + [f];
      FateAppend(p, f);
      assert f.Dispatched?;
      OutsWithoutDrops(p);
      FlattenLast(Batches(p), f.batch);
    }
  }

  lemma DeliveredOnReturn(lim: Limits, s: Sys)
    requires Inv(lim, s) && s.phase == Returned
    ensures multiset(Flatten(s.delivered)) + multiset(Drops(s.fates)) == multiset(s.accepted)
  {
    PermutedFlatten(s.delivered, Batches(s.fates));
    OutsSplit(s.fates);
    assert s.accepted == Outs(s.fates);
  }

  // When the first Stop has returned, the delivered lines are the accepted lines that were not
  // dropped, each as often as it was accepted, and the batch Stop itself sent came last.
  lemma ExactlyOnceAtStop(lim: Limits, evs: seq<Event>)
    requires lim.Positive() && ValidRun(lim, Fresh, evs)
    requires Run(lim, Fresh, evs).phase == Returned
    ensures var s := Run(lim, Fresh, evs);
      && multiset(Flatten(s.delivered)) + multiset(Drops(s.fates)) == multiset(s.accepted)
      && s.inFlight == [] && s.lines == []
      && (s.final.Some? ==> s.delivered != [] && s.delivered[|s.delivered| - 1] == s.final.value)
  {
    RunKeepsInv(lim, Fresh, evs);
    DeliveredOnReturn(lim, Run(lim, Fresh, evs));
  }

  lemma ReturnedIsFinal(lim: Limits, s: Sys, ev: Event)
    requires Inv(lim, s) && s.phase == Returned && Enabled(s, ev)
    ensures Next(lim, s, ev) == s
  {}

  lemma {:induction false} ValidPrefix(lim: Limits, s: Sys, evs: seq<Event>, k: nat)
    requires ValidRun(lim, s, evs) && k <= |evs|
    ensures ValidRun(lim, s, evs[..k])
    decreases |evs|
  {
    if k < |evs| {
      assert evs[..|evs| - 1][..k] == evs[..k];
      ValidPrefix(lim, s, evs[..|evs| - 1], k);
    } else {
      assert evs[..k] == evs;
    }
  }

  // Whatever is called after Stop has returned, nothing is delivered any more.
  lemma {:induction false} NothingAfterStop(lim: Limits, evs: seq<Event>, k: nat)
    requires lim.Positive() && ValidRun(lim, Fresh, evs) && k <= |evs|
    requires ValidRun(lim, Fresh, evs[..k]) && Run(lim, Fresh, evs[..k]).phase == Returned
    ensures Run(lim, Fresh, evs) == Run(lim, Fresh, evs[..k])
    decreases |evs|
  {
    if k < |evs| {
      var p := evs[..|evs| - 1];
      assert p[..k] == evs[..k];
      NothingAfterStop(lim, p, k);
      RunKeepsInv(lim, Fresh, p);
      ReturnedIsFinal(lim, Run(lim, Fresh, p), evs[|evs| - 1]);
    } else {
      assert evs[..k] == evs;
    }
  }

  // The wait in Stop terminates: once stopped nothing is dispatched or accepted any more, every
  // delivery makes the in-flight count smaller, and some step is possible until Stop returns.
  lemma StopDrains(lim: Limits, s: Sys, ev: Event)
    requires lim.Positive() && Inv(lim, s) && s.stopped && Enabled(s, ev)
    ensures var t := Next(lim, s, ev);
      && t.stopped && t.fates == s.fates && t.accepted == s.accepted
      && |t.inFlight| == |s.inFlight| - (if ev.Deliver? then 1 else 0)
    ensures s.inFlight != [] ==> Enabled(s, Deliver(0)) && !Enabled(s, StopLeave)
    ensures s.inFlight == [] && s.phase != Returned ==> Enabled(s, StopLeave)
  {}

  lemma StopStep(lim: Limits, s: Sys, ev: Event)
    requires Enabled(s, ev) && (ev.StopEnter? || ev.Deliver? || ev.StopLeave?)
    ensures var t := Next(lim, s, ev);
      s.delivered <= t.delivered && t.accepted == s.accepted && Drops(t.fates) == Drops(s.fates)
  {
    FateAppend(s.fates, Dispatched(s.lines));
  }

  // A call of Stop accepts and drops nothing, delivers at the end of what was delivered before, and
  // leaves the accepted lines delivered or dropped.
  lemma {:induction false} StopDelivers(lim: Limits, s: Sys, schedule: seq<Event>)
    requires lim.Positive() && Inv(lim, s) && ValidRun(lim, s, schedule)
    requires forall ev <- schedule :: ev.StopEnter? || ev.Deliver? || ev.StopLeave?
    ensures var t := Run(lim, s, schedule);
      && s.delivered <= t.delivered && t.accepted == s.accepted && Drops(t.fates) == Drops(s.fates)
      && (t.phase == Returned ==>
            multiset(Flatten(t.delivered)) + multiset(Drops(s.fates)) == multiset(s.accepted))
  {
    hide Next, Enabled, Inv;
    RunKeepsInv(lim, s, schedule);
    if schedule != [] {
      var p, ev := schedule[..|schedule| - 1], schedule[|schedule| - 1];
      assert ev in schedule;
      StopDelivers(lim, s, p);
      StopStep(lim, Run(lim, s, p), ev);
    }
    if Run(lim, s, schedule).phase == Returned {
      DeliveredOnReturn(lim, Run(lim, s, schedule));
    }
  }

  lemma {:induction false} FlattenConcat(a: seq<Batch>, b: seq<Batch>)
    ensures Flatten(a + b) == Flatten(a) + Flatten(b)
    decreases |b|
  {
    hide Flatten;
    if b == [] {
      FlattenNone();
      assert a + b == a;
    } else {
      var p, l := b[..|b| - 1], b[|b| - 1];
      FlattenConcat(a, p);
      FlattenLast(a + p, l);
      FlattenLast(p, l);
      assert a + b == a + p + [l] && b == p + [l];
    }
  }

  lemma FlattenNone()
    ensures Flatten([]) == []
  {}

  lemma FlattenSome(bs: seq<Batch>)
    requires bs != [] && bs[|bs| - 1] != []
    ensures Flatten(bs) != []
  {}

  // Batches that are dispatched and not delivered yet.
  function Outstanding(s: Sys): seq<Batch> {
    s.inFlight + if s.final.Some? && s.phase != Returned then [s.final.value] else []
  }

  lemma OutstandingIsTheRest(s: Sys)
    requires BatchesConserved(s)
    ensures multiset(s.delivered + Outstanding(s)) == multiset(Batches(s.fates))
  {}

  // What a stopped buffer has not delivered is exactly the lines of its outstanding batches.
  lemma StoppedAccount(s: Sys)
    requires BatchesConserved(s) && LinesConserved(s) && s.lines == []
    ensures multiset(s.accepted)
      == multiset(Flatten(s.delivered)) + multiset(Drops(s.fates)) + multiset(Flatten(Outstanding(s)))
  {
    hide Flatten, Drops, Outs, Batches, BatchesConserved, Outstanding;
    OutstandingIsTheRest(s);
    PermutedFlatten(s.delivered + Outstanding(s), Batches(s.fates));
    FlattenConcat(s.delivered, Outstanding(s));
    OutsSplit(s.fates);
  }

  lemma OutstandingNotEmpty(lim: Limits, s: Sys)
    requires BatchesConserved(s) && FatesOk(lim, s.fates) && Outstanding(s) != []
    ensures Flatten(Outstanding(s)) != []
  {
    hide Flatten, Batches, BatchesConserved, Outstanding;
    OutstandingIsTheRest(s);
    var b := Outstanding(s)[|Outstanding(s)| - 1];
    assert b in s.delivered + Outstanding(s);
    assert b in multiset(s.delivered + Outstanding(s)) && b in multiset(Batches(s.fates));
    assert b in Batches(s.fates) && BatchBounds(lim, b);
    FlattenSome(Outstanding(s));
  }

  // Any call of Stop after the first returns at once. Everything accepted and not dropped is delivered
  // then if and only if no goroutine is in flight and the first call holds no final batch.
  lemma RepeatedStopIsDoneIff(lim: Limits, s: Sys)
    requires Inv(lim, s) && s.stopped
    ensures Next(lim, s, StopEnter) == s
    ensures multiset(Flatten(s.delivered)) + multiset(Drops(s.fates)) == multiset(s.accepted)
      <==> s.inFlight == [] && (s.final.None? || s.phase == Returned)
  {
    StoppedAccount(s);
    hide Flatten, Drops, Batches, BatchesConserved, LinesConserved, BatchBounds;
    if Outstanding(s) == [] {
      FlattenNone();
    } else {
      OutstandingNotEmpty(lim, s);
      assert |multiset(Flatten(Outstanding(s)))| > 0;
    }
  }

  // A second call of Stop returns at once, possibly with batches still in flight.
  lemma SecondStopDoesNotDrain(l: LogData)
    ensures exists lim: Limits, evs: seq<Event> ::
      && lim.Positive() && ValidRun(lim, Fresh, evs)
      && |evs| >= 2 && evs[|evs| - 2] == evs[|evs| - 1] == StopEnter
      && Run(lim, Fresh, evs).inFlight == [[l]] && Run(lim, Fresh, evs).delivered == []
  {
    var lim := Limits(1, DEFAULT_MAX_BYTES, Block);
    assert [l] == [] + [l] && [[l]] == [] + [[l]];
    RunStep(lim, Fresh, [], Add(l));
    RunStep(lim, Fresh, [] + [Add(l)], StopEnter);
    RunStep(lim, Fresh, [] + [Add(l)] + [StopEnter], StopEnter);
    var evs := [] + [Add(l)] + [StopEnter] + [StopEnter];
    assert Run(lim, Fresh, evs).inFlight == [[l]];
  }

  // ----- Dropping -----

  lemma FlushDropsNothing(s: Sys)
    ensures Drops(Flushed(s).fates) == Drops(s.fates)
  {
    FateAppend(s.fates, Dispatched(s.lines));
    hide Drops;
  }

  lemma MakeRoomDrops(lim: Limits, s: Sys, l: LogData)
    requires |s.lines| < lim.maxLines
    ensures Drops(MakeRoom(lim, s, l).fates) == Drops(s.fates) +
      (if lim.mode == DropOldest && s.lines != [] && s.currentBytes + |l.line| > lim.maxBytes
       then [s.lines[0]] else [])
  {
    FlushDropsNothing(s);
    if s.lines != [] {
      FateAppend(s.fates, Dropped(s.lines[0]));
    }
    hide Drops, Flushed;
  }

  // Add drops a line exactly when it would exceed the byte limit of a non-empty drop-oldest
  // buffer, and then only the oldest one. The line-count test of Add never fires.
  lemma DropsExactlyWhen(lim: Limits, s: Sys, l: LogData)
    requires lim.Positive() && Inv(lim, s) && !s.stopped
    ensures Drops(Added(lim, s, l).fates) == Drops(s.fates) +
      (if lim.mode == DropOldest && s.lines != [] && s.currentBytes + |l.line| > lim.maxBytes
       then [s.lines[0]] else [])
  {
    assert |s.lines| < lim.maxLines;
    hide Inv, Drops, MakeRoom, Flushed;
    MakeRoomDrops(lim, s, l);
    FlushDropsNothing(Store(MakeRoom(lim, s, l), l));
  }

  // ----- Keeping and dispatching -----

  // The line does not fit into the byte limit beside the lines that wait.
  predicate Crowds(lim: Limits, lines: seq<LogData>, l: LogData) {
    lines != [] && Bytes(lines) + |l.line| > lim.maxBytes
  }

  // The lines the buffer would hold with l: a crowding line pushes out all of them in block mode and the
  // oldest one otherwise.
  function Joined(lim: Limits, lines: seq<LogData>, l: LogData): seq<LogData> {
    if !Crowds(lim, lines, l) then lines + [l]
    else if lim.mode == Block then [l]
    else lines[1..] + [l]
  }

  predicate Full(lim: Limits, lines: seq<LogData>) {
    |lines| >= lim.maxLines || Bytes(lines) >= lim.maxBytes
  }

  // What one Add does with the lines that wait before it stores its own,
  function FatesBefore(lim: Limits, lines: seq<LogData>, l: LogData): seq<Fate> {
    if !Crowds(lim, lines, l) then [] else if lim.mode == Block then [Dispatched(lines)] else [Dropped(lines[0])]
  }

  // and in all.
  function FatesOfAdd(lim: Limits, lines: seq<LogData>, l: LogData): seq<Fate> {
    FatesBefore(lim, lines, l) + if Full(lim, Joined(lim, lines, l)) then [Dispatched(Joined(lim, lines, l))] else []
  }

  lemma MakeRoomExactly(lim: Limits, s: Sys, l: LogData)
    requires Rep(lim, s)
    ensures var r := MakeRoom(lim, s, l);
      && r.lines + [l] == Joined(lim, s.lines, l)
      && r.currentBytes + |l.line| == Bytes(Joined(lim, s.lines, l))
      && r.stopped == s.stopped
  {
    var r := MakeRoom(lim, s, l);
    BytesAppend(r.lines, l);
    assert [] + [l] == [l];
  }

  lemma MakeRoomDispatches(lim: Limits, s: Sys, l: LogData)
    requires Rep(lim, s)
    ensures var r, fates := MakeRoom(lim, s, l), FatesBefore(lim, s.lines, l);
      r.fates == s.fates + fates && r.inFlight == s.inFlight + Batches(fates)
  {
    BatchesOne(Dispatched(s.lines));
    if s.lines != [] {
      BatchesOne(Dropped(s.lines[0]));
    }
    assert s.fates + [] == s.fates && s.inFlight + [] == s.inFlight && Batches([]) == [];
    hide Batches, Bytes;
  }

  lemma BatchesOne(f: Fate)
    ensures Batches([f]) == if f.Dispatched? then [f.batch] else []
  {
    FateAppend([], f);
    assert [] + [f] == [f];
  }

  lemma StoredOrFlushed(lim: Limits, r: Sys, l: LogData, lines: seq<LogData>)
    requires r.lines + [l] == lines && r.currentBytes + |l.line| == Bytes(lines) && !r.stopped
    ensures var t := if Full(lim, lines) then Flushed(Store(r, l)) else Store(r, l);
      && (if |Store(r, l).lines| >= lim.maxLines || Store(r, l).currentBytes >= lim.maxBytes
          then Flushed(Store(r, l)) else Store(r, l)) == t
      && t.lines == (if Full(lim, lines) then [] else lines)
      && t.fates == r.fates + (if Full(lim, lines) then [Dispatched(lines)] else [])
      && t.inFlight == r.inFlight + (if Full(lim, lines) then [lines] else [])
  {
    hide Bytes;
  }

  // Add exactly: which lines it keeps, drops and dispatches is read off the lines that wait and the two
  // limits.
  lemma AddExactly(lim: Limits, s: Sys, l: LogData)
    requires lim.Positive() && Rep(lim, s) && !s.stopped
    ensures var t, lines := Added(lim, s, l), Joined(lim, s.lines, l);
      && t.lines == (if Full(lim, lines) then [] else lines)
      && t.fates == s.fates + FatesOfAdd(lim, s.lines, l)
      && t.inFlight == s.inFlight + Batches(FatesOfAdd(lim, s.lines, l))
  {
    MakeRoomExactly(lim, s, l);
    MakeRoomDispatches(lim, s, l);
    BatchesOfAdd(lim, s.lines, l);
    hide MakeRoom, Joined, FatesBefore, Bytes, Rep, Batches, Full, Flushed;
    StoredOrFlushed(lim, MakeRoom(lim, s, l), l, Joined(lim, s.lines, l));
  }

  lemma BatchesOfAdd(lim: Limits, lines: seq<LogData>, l: LogData)
    ensures Batches(FatesOfAdd(lim, lines, l))
      == Batches(FatesBefore(lim, lines, l))
         + if Full(lim, Joined(lim, lines, l)) then [Joined(lim, lines, l)] else []
  {
    hide Full, Joined, FatesBefore, Batches;
    FateAppend(FatesBefore(lim, lines, l), Dispatched(Joined(lim, lines, l)));
    assert FatesBefore(lim, lines, l) + [] == FatesBefore(lim, lines, l);
  }

  // A line that leaves the buffer below both limits stays in it, and nothing leaves.
  lemma AddKeepsLine(lim: Limits, s: Sys, l: LogData)
    requires lim.Positive() && Inv(lim, s) && !s.stopped
    requires |s.lines| + 1 < lim.maxLines && s.currentBytes + |l.line| < lim.maxBytes
    ensures var t := Added(lim, s, l);
      t.lines == s.lines + [l] && t.fates == s.fates && t.inFlight == s.inFlight && t.accepted == s.accepted + [l]
  {
    AddExactly(lim, s, l);
    AddAccepts(lim, s, l);
    BytesAppend(s.lines, l);
    hide Added, Bytes;
    assert FatesOfAdd(lim, s.lines, l) == [] && s.fates + [] == s.fates && s.inFlight + [] == s.inFlight;
  }

  // Why Add dispatches a batch: it has all the lines or bytes a batch may have, or, in block mode, the line
  // that pushed it out would not have fitted.
  predicate Due(lim: Limits, b: Batch, l: LogData) {
    || |b| == lim.maxLines
    || Bytes(b) >= lim.maxBytes
    || (lim.mode == Block && Bytes(b) + |l.line| > lim.maxBytes)
  }

  // Every batch dispatched by an Add of the run, with the line that was added.
  function DispatchedByAdds(lim: Limits, evs: seq<Event>): seq<(Batch, LogData)>
    requires ValidRun(lim, Fresh, evs)
  {
    if evs == [] then []
    else
      var p, ev := evs[..|evs| - 1], evs[|evs| - 1];
      var s := Run(lim, Fresh, p);
      DispatchedByAdds(lim, p) + if ev.Add? then NewBatches(s, Next(lim, s, ev), ev.line) else []
  }

  // The batches t has put in flight after s.
  function NewBatches(s: Sys, t: Sys, l: LogData): seq<(Batch, LogData)> {
    if |s.inFlight| > |t.inFlight| then []
    else
      var bs := t.inFlight[|s.inFlight|..];
      seq(|bs|, i requires 0 <= i < |bs| => (bs[i], l))
  }

  lemma AllDue(lim: Limits, s: Sys, l: LogData)
    requires lim.Positive() && Rep(lim, s)
    ensures forall b <- Batches(FatesOfAdd(lim, s.lines, l)) :: Due(lim, b, l)
  {
    BatchesOfAdd(lim, s.lines, l);
    JoinedFits(lim, s, l);
    hide Joined, Bytes, Batches, FatesOfAdd;
  }

  lemma NewBatchesOf(s: Sys, t: Sys, l: LogData, bs: seq<Batch>)
    requires t.inFlight == s.inFlight + bs
    ensures forall d <- NewBatches(s, t, l) :: d.1 == l && d.0 in bs
  {
    assert t.inFlight[|s.inFlight|..] == bs;
  }

  lemma NewBatchesAreDue(lim: Limits, s: Sys, l: LogData)
    requires lim.Positive() && Inv(lim, s)
    ensures forall d <- NewBatches(s, Added(lim, s, l), l) :: d.1 == l && Due(lim, d.0, l)
  {
    hide Joined, Bytes, Batches, FatesOfAdd, Due, Full, NewBatches, Added;
    if s.stopped {
      StoppedAddsNothing(lim, s, l);
      assert s.inFlight + [] == s.inFlight;
      NewBatchesOf(s, s, l, []);
    } else {
      AddExactly(lim, s, l);
      AllDue(lim, s, l);
      NewBatchesOf(s, Added(lim, s, l), l, Batches(FatesOfAdd(lim, s.lines, l)));
    }
  }

  lemma JoinedFits(lim: Limits, s: Sys, l: LogData)
    requires lim.Positive() && Rep(lim, s)
    ensures |Joined(lim, s.lines, l)| <= lim.maxLines
  {}

  // Over every run, a batch is dispatched by an Add only when it is due.
  lemma {:induction false} AddsDispatchOnlyWhenDue(lim: Limits, evs: seq<Event>)
    requires lim.Positive() && ValidRun(lim, Fresh, evs)
    ensures forall d <- DispatchedByAdds(lim, evs) :: Due(lim, d.0, d.1)
  {
    if evs != [] {
      var p, ev := evs[..|evs| - 1], evs[|evs| - 1];
      AddsDispatchOnlyWhenDue(lim, p);
      FreshHolds(lim);
      RunKeepsInv(lim, Fresh, p);
      hide Inv, Due, NewBatches, Added;
      if ev.Add? {
        NewBatchesAreDue(lim, Run(lim, Fresh, p), ev.line);
      }
    }
  }

  // A flush, and a tick before Stop, empties the buffer: the lines that waited are one more batch in
  // flight, and with no lines nothing happens.
  lemma FlushEmpties(lim: Limits, s: Sys, ev: Event)
    requires lim.Positive() && Inv(lim, s) && (ev.Flush? || (ev.TimerTick? && !s.stopped))
    ensures var t := Next(lim, s, ev);
      && t.lines == [] && t.currentBytes == 0 && t.accepted == s.accepted
      && t.inFlight == s.inFlight + (if s.lines == [] then [] else [s.lines])
      && Batches(t.fates) == Batches(s.fates) + (if s.lines == [] then [] else [s.lines])
  {
    FateAppend(s.fates, Dispatched(s.lines));
    hide Batches;
  }

  predicate Short(ls: seq<LogData>, max: nat) {
    forall i | 0 <= i < |ls| :: |ls[i].line| <= max
  }

  lemma {:induction false} BytesOfShort(b: seq<LogData>, max: nat)
    requires Short(b, max)
    ensures Bytes(b) <= |b| * max
  {
    if b != [] {
      BytesOfShort(b[1..], max);
      assert |b| * max == (|b| - 1) * max + max;
    }
  }

  lemma OneMore(n: nat, bound: nat, max: nat)
    requires n < bound
    ensures n * max + max <= bound * max
  {
    assert bound * max == (n + 1) * max + (bound - n - 1) * max;
  }

  lemma ShortLinesFit(lim: Limits, s: Sys, l: LogData, max: nat)
    requires lim.Positive() && Rep(lim, s) && Short(s.lines, max) && |l.line| <= max
    requires lim.maxLines * max <= lim.maxBytes
    ensures s.currentBytes + |l.line| <= lim.maxBytes
  {
    BytesOfShort(s.lines, max);
    OneMore(|s.lines|, lim.maxLines, max);
  }

  lemma BufferedAreShort(s: Sys, max: nat)
    requires LinesConserved(s) && Short(s.accepted, max)
    ensures Short(s.lines, max)
  {
    hide Outs;
    assert forall i | 0 <= i < |s.lines| :: s.lines[i] == s.accepted[|Outs(s.fates)| + i];
  }

  lemma AddAccepts(lim: Limits, s: Sys, l: LogData)
    ensures var t := Added(lim, s, l);
      && t.accepted == (if s.stopped then s.accepted else s.accepted + [l])
      && t.phase == s.phase && t.delivered == s.delivered
  {}

  // Only Add drops or accepts lines.
  lemma OthersDropNothing(lim: Limits, s: Sys, ev: Event)
    requires Enabled(s, ev) && !ev.Add?
    ensures Drops(Next(lim, s, ev).fates) == Drops(s.fates) && Next(lim, s, ev).accepted == s.accepted
  {
    FateAppend(s.fates, Dispatched(s.lines));
  }

  // One step with a short line keeps everything short and drops nothing.
  lemma ShortStep(lim: Limits, s: Sys, ev: Event, max: nat)
    requires lim.Positive() && Inv(lim, s) && Enabled(s, ev)
    requires Short(s.accepted, max) && (ev.Add? ==> |ev.line.line| <= max)
    requires lim.maxLines * max <= lim.maxBytes
    ensures Drops(Next(lim, s, ev).fates) == Drops(s.fates)
    ensures Short(Next(lim, s, ev).accepted, max)
  {
    hide Drops, BatchesConserved, FatesOk, Phases, Outs;
    if ev.Add? {
      hide Added;
      BufferedAreShort(s, max);
      AddAccepts(lim, s, ev.line);
      if s.stopped {
        assert Added(lim, s, ev.line) == s by { StoppedAddsNothing(lim, s, ev.line); }
      } else {
        ShortLinesFit(lim, s, ev.line, max);
        DropsExactlyWhen(lim, s, ev.line);
      }
    } else {
      hide Next;
      OthersDropNothing(lim, s, ev);
    }
  }

  lemma StoppedAddsNothing(lim: Limits, s: Sys, l: LogData)
    requires s.stopped
    ensures Added(lim, s, l) == s
  {}

  // Lines of bounded length are never dropped when a full buffer of them fits the byte limit.
  lemma {:induction false} ShortLinesNeverDropped(lim: Limits, evs: seq<Event>, max: nat)
    requires lim.Positive() && ValidRun(lim, Fresh, evs)
    requires lim.maxLines * max <= lim.maxBytes
    requires forall i | 0 <= i < |evs| && evs[i].Add? :: |evs[i].line.line| <= max
    ensures Drops(Run(lim, Fresh, evs).fates) == []
    ensures Short(Run(lim, Fresh, evs).accepted, max)
  {
    if evs != [] {
      var p := evs[..|evs| - 1];
      ShortLinesNeverDropped(lim, p, max);
      RunKeepsInv(lim, Fresh, p);
      ShortStep(lim, Run(lim, Fresh, p), evs[|evs| - 1], max);
    }
  }

  // In block mode the dispatched batches and then the buffer are the accepted lines, in order.
  lemma BlockModeKeepsAll(lim: Limits, evs: seq<Event>)
    requires lim.Positive() && lim.mode == Block && ValidRun(lim, Fresh, evs)
    ensures var s := Run(lim, Fresh, evs);
      Flatten(Batches(s.fates)) + s.lines == s.accepted
  {
    RunKeepsInv(lim, Fresh, evs);
    OutsWithoutDrops(Run(lim, Fresh, evs).fates);
  }

  // The position each dispatched line had among the lines that left the buffer.
  function KeptAt(fs: seq<Fate>): seq<nat> {
    if fs == [] then []
    else
      var p, f := fs[..|fs| - 1], fs[|fs| - 1];
      KeptAt(p) + (if f.Dispatched? then seq(|f.batch|, i requires 0 <= i => |Outs(p)| + i) else [])
  }

  // at lists increasing positions of whole, which hold the lines of part.
  ghost predicate Selects(at: seq<nat>, part: seq<LogData>, whole: seq<LogData>) {
    && |at| == |part|
    && (forall i, j | 0 <= i < j < |at| :: at[i] < at[j])
    && (forall i | 0 <= i < |at| :: at[i] < |whole| && whole[at[i]] == part[i])
  }

  lemma SelectsMore(at: seq<nat>, part: seq<LogData>, whole: seq<LogData>, b: Batch, more: seq<nat>)
    requires Selects(at, part, whole)
    requires |more| == |b| && forall i | 0 <= i < |b| :: more[i] == |whole| + i
    ensures Selects(at + more, part + b, whole + b)
  {}

  lemma SelectsFewer(at: seq<nat>, part: seq<LogData>, whole: seq<LogData>, l: LogData)
    requires Selects(at, part, whole)
    ensures Selects(at, part, whole + [l])
  {}

  lemma {:induction false} KeptInOrder(fs: seq<Fate>)
    ensures Selects(KeptAt(fs), Flatten(Batches(fs)), Outs(fs))
  {
    if fs != [] {
      var p, f := fs[..|fs| - 1], fs[|fs| - 1];
      KeptInOrder(p);
      assert fs == p + [f];
      FateAppend(p, f);
      if f.Dispatched? {
        FlattenLast(Batches(p), f.batch);
        var more := seq(|f.batch|, i requires 0 <= i => |Outs(p)| + i);
        SelectsMore(KeptAt(p), Flatten(Batches(p)), Outs(p), f.batch, more);
        assert KeptAt(fs) == KeptAt(p) + more;
      } else {
        SelectsFewer(KeptAt(p), Flatten(Batches(p)), Outs(p), f.line);
        assert KeptAt(fs) == KeptAt(p) && Batches(fs) == Batches(p);
      }
    }
  }

  lemma SelectsLonger(at: seq<nat>, part: seq<LogData>, whole: seq<LogData>, more: seq<LogData>)
    requires Selects(at, part, whole)
    ensures Selects(at, part, whole + more)
  {}

  // In either mode the dispatched lines are a subsequence of the accepted ones.
  lemma DispatchedIsSubsequence(lim: Limits, evs: seq<Event>)
    requires lim.Positive() && ValidRun(lim, Fresh, evs)
    ensures var s := Run(lim, Fresh, evs);
      Selects(KeptAt(s.fates), Flatten(Batches(s.fates)), s.accepted)
  {
    FreshHolds(lim);
    hide KeptAt, Flatten, Batches, Outs, Selects, Run, ValidRun, Rep, BatchesConserved, FatesOk, Phases;
    var s := Run(lim, Fresh, evs);
    RunKeepsInv(lim, Fresh, evs);
    KeptInOrder(s.fates);
    SelectsLonger(KeptAt(s.fates), Flatten(Batches(s.fates)), Outs(s.fates), s.lines);
  }

  // ----- Order of deliveries -----

  // What has been or will be delivered, if the goroutines finish in the order they started.
  function Schedule(s: Sys): seq<Batch> {
    s.delivered + s.inFlight + (if s.final.Some? && s.phase != Returned then [s.final.value] else [])
  }

  lemma {:induction false} ConstantPrefix(q: seq<Batch>, i: nat, j: nat)
    requires j <= i < |q| && [q[i]] + RemoveAt(q, i) == q
    ensures q[j] == q[i]
  {
    if j == 0 {
      assert q[0] == ([q[i]] + RemoveAt(q, i))[0];
    } else {
      ConstantPrefix(q, i, j - 1);
      assert q[j] == ([q[i]] + RemoveAt(q, i))[j] == q[j - 1];
    }
  }

  lemma MoveToFrontIff(q: seq<Batch>, i: nat)
    requires i < |q|
    ensures [q[i]] + RemoveAt(q, i) == q <==> forall j | 0 <= j < i :: q[j] == q[i]
  {
    if [q[i]] + RemoveAt(q, i) == q {
      forall j | 0 <= j < i ensures q[j] == q[i] { ConstantPrefix(q, i, j); }
    }
  }

  lemma CancelContext(d: seq<Batch>, a: seq<Batch>, b: seq<Batch>, f: seq<Batch>)
    requires |a| == |b| && d + a + f == d + b + f
    ensures a == b
  {
    assert a == (d + a + f)[|d|..|d| + |a|];
    assert b == (d + b + f)[|d|..|d| + |b|];
  }

  // One delivery leaves the schedule as it is exactly when every earlier goroutine in flight carries an
  // equal batch.
  lemma ScheduleStaysIff(lim: Limits, s: Sys, i: nat)
    requires i < |s.inFlight|
    ensures Schedule(Next(lim, s, Deliver(i))) == Schedule(s)
      <==> forall j | 0 <= j < i :: s.inFlight[j] == s.inFlight[i]
  {
    var q, d := s.inFlight, s.delivered;
    var f: seq<Batch> := if s.final.Some? && s.phase != Returned then [s.final.value] else [];
    var moved := [q[i]] + RemoveAt(q, i);
    assert Schedule(Next(lim, s, Deliver(i))) == d + moved + f;
    assert Schedule(s) == d + q + f;
    if d + moved + f == d + q + f { CancelContext(d, moved, q, f); }
    MoveToFrontIff(q, i);
  }

  // Deliveries so far in dispatch order stay so if and only if the next goroutine to finish carries the
  // batch that was dispatched next. The goroutines race, so nothing else keeps the order; that batch is
  // the oldest one in flight if goroutines have finished in starting order so far.
  lemma DeliveryKeepsOrderIff(lim: Limits, s: Sys, i: nat)
    requires BatchesConserved(s) && i < |s.inFlight| && s.delivered <= Batches(s.fates)
    ensures |s.delivered| < |Batches(s.fates)|
    ensures var t := Next(lim, s, Deliver(i));
      t.delivered <= Batches(t.fates) <==> s.inFlight[i] == Batches(s.fates)[|s.delivered|]
    ensures Schedule(s) == Batches(s.fates) ==> Batches(s.fates)[|s.delivered|] == s.inFlight[0]
  {
    hide Batches;
    var all := Batches(s.fates);
    assert |multiset(all)| >= |multiset(s.delivered)| + |multiset(s.inFlight)|;
    var d := s.delivered + [s.inFlight[i]];
    assert d[..|s.delivered|] == s.delivered == all[..|s.delivered|];
    assert d <= all <==> d == all[..|d|];
  }

  lemma FlushSchedules(s: Sys)
    requires Phases(s) && Schedule(s) == Batches(s.fates)
    ensures Schedule(Flushed(s)) == Batches(Flushed(s).fates)
  {
    if s.lines != [] { FateAppend(s.fates, Dispatched(s.lines)); }
  }

  lemma AddSchedules(lim: Limits, s: Sys, l: LogData)
    requires Phases(s) && Schedule(s) == Batches(s.fates)
    ensures Schedule(Added(lim, s, l)) == Batches(Added(lim, s, l).fates)
  {
    if !s.stopped {
      var r := MakeRoom(lim, s, l);
      FlushSchedules(s);
      if s.lines != [] { FateAppend(s.fates, Dropped(s.lines[0])); }
      assert Phases(r) && Schedule(r) == Batches(r.fates);
      var t := Store(r, l);
      assert Schedule(t) == Schedule(r) && Phases(t);
      FlushSchedules(t);
    }
  }

  lemma StopSchedules(s: Sys)
    requires Phases(s) && Schedule(s) == Batches(s.fates)
    ensures Schedule(StopEntered(s)) == Batches(StopEntered(s).fates)
  {
    if s.lines != [] { FateAppend(s.fates, Dispatched(s.lines)); }
  }

  // If goroutines finish in the order they started, batches are delivered in dispatch order.
  lemma {:induction false} OrderedDelivery(lim: Limits, evs: seq<Event>)
    requires lim.Positive() && ValidRun(lim, Fresh, evs)
    requires forall k | 0 <= k < |evs| && evs[k].Deliver? :: evs[k].index == 0
    ensures Schedule(Run(lim, Fresh, evs)) == Batches(Run(lim, Fresh, evs).fates)
  {
    if evs != [] {
      var p, ev := evs[..|evs| - 1], evs[|evs| - 1];
      OrderedDelivery(lim, p);
      RunKeepsInv(lim, Fresh, p);
      OrderedStep(lim, Run(lim, Fresh, p), ev);
    }
  }

  lemma OrderedStep(lim: Limits, s: Sys, ev: Event)
    requires Phases(s) && Enabled(s, ev) && Schedule(s) == Batches(s.fates)
    requires ev.Deliver? ==> ev.index == 0
    ensures Schedule(Next(lim, s, ev)) == Batches(Next(lim, s, ev).fates)
  {
    match ev
    case Deliver(i) => ScheduleStaysIff(lim, s, 0);
    case Add(l) => AddSchedules(lim, s, l);
    case Flush => FlushSchedules(s);
    case TimerTick => FlushSchedules(s);
    case StopEnter => StopSchedules(s);
    case StopLeave =>
  }

  // ----- The buffer as the source writes it: mutable fields -----

  class StreamBuffer {
    const lim: Limits
    var lines: seq<LogData>
    var currentBytes: int
    var stopped: bool
    // The goroutines flushLocked started that have not finished, and the completed flushFn calls.
    var inFlight: seq<Batch>
    var delivered: seq<Batch>
    ghost var final: Option<Batch>
    ghost var phase: StopPhase
    ghost var accepted: seq<LogData>
    ghost var fates: seq<Fate>

    ghost function View(): Sys
      reads this
    {
      Sys(lines, currentBytes, stopped, inFlight, delivered, final, phase, accepted, fates)
    }

    constructor (maxLines: int, maxBytes: int, mode: OverflowMode)
      ensures View() == Fresh
      ensures lim == Configured(maxLines, maxBytes, mode)
    {
      lim := Configured(maxLines, maxBytes, mode);
      lines, currentBytes, stopped := [], 0, false;
      inFlight, delivered := [], [];
      final, phase, accepted, fates := None, NotCalled, [], [];
    }

    method FlushLocked()
      modifies this
      ensures View() == Flushed(old(View()))
    {
      if |lines| == 0 {
        return;
      }
      var batch := lines;
      fates := fates + [Dispatched(batch)];
      lines := [];
      currentBytes := 0;
      inFlight := inFlight + [batch];
    }

    method DropOldestLocked()
      modifies this
      ensures View() == OldestDropped(old(View()))
    {
      if |lines| == 0 {
        return;
      }
      var dropped := lines[0];
      fates := fates + [Dropped(dropped)];
      currentBytes := currentBytes - |dropped.line|;
      lines := lines[1..];
    }

    method Add(line: LogData)
      modifies this
      ensures View() == Next(lim, old(View()), Event.Add(line))
    {
      if stopped {
        return;
      }
      var lineSize := |line.line|;
      if |lines| >= lim.maxLines || (currentBytes + lineSize > lim.maxBytes && |lines| > 0) {
        match lim.mode
        case DropOldest => DropOldestLocked();
        case Block => FlushLocked();
      }
      assert View() == MakeRoom(lim, old(View()), line);
      lines := lines + [line];
      accepted := accepted + [line];
      currentBytes := currentBytes + lineSize;
      assert View() == Store(MakeRoom(lim, old(View()), line), line);
      if |lines| >= lim.maxLines || currentBytes >= lim.maxBytes {
        FlushLocked();
      }
    }

    method Flush()
      modifies this
      ensures View() == Next(lim, old(View()), Event.Flush)
    {
      FlushLocked();
    }

    method TimerFlush()
      modifies this
      ensures View() == Next(lim, old(View()), TimerTick)
    {
      if stopped {
        return;
      }
      FlushLocked();
    }

    // The goroutine of inFlight[i] runs flushFn and finishes.
    method Deliver(i: nat)
      requires i < |inFlight|
      modifies this
      ensures View() == Next(lim, old(View()), Event.Deliver(i))
    {
      delivered := delivered + [inFlight[i]];
      inFlight := RemoveAt(inFlight, i);
    }

    // flushWg.Wait(): the goroutines finish in whatever order the scheduler picks. The steps since
    // start are extended by the deliveries.
    method WaitForFlushes(ghost start: Sys, ghost steps: seq<Event>) returns (ghost schedule: seq<Event>)
      requires ValidRun(lim, start, steps) && View() == Run(lim, start, steps)
      modifies this
      ensures inFlight == []
      ensures ValidRun(lim, start, schedule) && View() == Run(lim, start, schedule)
      ensures View() == old(View()).(inFlight := [], delivered := delivered)
      ensures forall ev <- schedule :: ev in steps || ev.Deliver?
    {
      schedule := steps;
      while |inFlight| > 0
        invariant ValidRun(lim, start, schedule) && View() == Run(lim, start, schedule)
        invariant View() == old(View()).(inFlight := inFlight, delivered := delivered)
        invariant forall ev <- schedule :: ev in steps || ev.Deliver?
        decreases |inFlight|
      {
        var i: nat :| i < |inFlight|;
        RunStep(lim, start, schedule, Event.Deliver(i));
        Deliver(i);
        schedule := schedule + [Event.Deliver(i)];
      }
    }

    // The part of Stop under the lock; taken is nil in the source when the buffer is empty.
    method EnterStop() returns (taken: Batch)
      requires !stopped
      modifies this
      ensures View() == Next(lim, old(View()), StopEnter)
      ensures final == if taken == [] then None else Some(taken)
    {
      stopped := true;
      phase := Waiting;
      taken := [];
      final := None;
      if |lines| > 0 {
        taken := lines;
        final, fates := Some(taken), fates + [Dispatched(taken)];
        lines := [];
        currentBytes := 0;
      }
    }

    // The final batch, if any, is delivered by Stop itself once nothing is in flight.
    method LeaveStop(batch: Batch)
      requires phase == Waiting && inFlight == []
      requires final == if batch == [] then None else Some(batch)
      modifies this
      ensures View() == Next(lim, old(View()), StopLeave)
    {
      phase := Returned;
      if batch != [] {
        delivered := delivered + [batch];
      }
    }

    // Stop performs the steps of schedule: it enters, lets the goroutines finish in whatever order
    // the scheduler picks, and delivers the final batch. A repeated Stop changes nothing.
    method Stop() returns (ghost schedule: seq<Event>)
      modifies this
      ensures old(stopped) ==> View() == old(View())
      ensures !old(stopped) ==>
        && ValidRun(lim, old(View()), schedule)
        && View() == Run(lim, old(View()), schedule)
        && phase == Returned
      ensures forall ev <- schedule :: ev.StopEnter? || ev.Deliver? || ev.StopLeave?
    {
      schedule := [];
      if stopped {
        return;
      }
      var batch := EnterStop();
      RunStep(lim, old(View()), [], StopEnter);
      schedule := WaitForFlushes(old(View()), [] + [StopEnter]);
      RunStep(lim, old(View()), schedule, StopLeave);
      schedule := schedule + [StopLeave];
      LeaveStop(batch);
    }
  }
}
