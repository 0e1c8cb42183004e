/** Streaming a finished execution's log file to a WebSocket: the code that reads, filters and batches in
    one pass against its meaning, filter first and cut into batches afterwards. */
module LogStreams {
  import opened LogFiles
  import opened LogLevels
  import opened Options

  datatype StreamLine = StreamLine(line: string, level: string)

  // What sendLogBatch writes: a batch of one is a plain log message.
  datatype Frame = LogFrame(line: StreamLine) | BatchFrame(executionId: string, lines: seq<StreamLine>)

  function FrameOf(executionId: string, batch: seq<StreamLine>): Frame
    requires batch != []
  {
    if |batch| == 1 then LogFrame(batch[0]) else BatchFrame(executionId, batch)
  }

  function BuildLogFileLineMessage(line: string, lineNum: nat, startLine: int, filter: LevelFilter)
      : Option<StreamLine>
  {
    if lineNum <= startLine || !MatchesFilter(ParseLogLevel(line), filter) then None
    else Some(StreamLine(line, ParseLogLevel(line)))
  }

  // The lines after startLine that pass the filter, lines being numbered from 1.
  function Wanted(lines: seq<string>, startLine: int, filter: LevelFilter): seq<StreamLine> {
    if lines == [] then []
    else
      var m := BuildLogFileLineMessage(lines[|lines| - 1], |lines|, startLine, filter);
      Wanted(lines[..|lines| - 1], startLine, filter) + if m.Some? then [m.value] else []
  }

  // Cut into batches of n, the last one holding what is left.
  function Chunks<T>(l: seq<T>, n: nat): seq<seq<T>>
    requires n >= 1
  {
    if l == [] then [] else if |l| <= n then [l] else [l[..n]] + Chunks(l[n..], n)
  }

  function Concat<T>(parts: seq<seq<T>>): seq<T> {
    if parts == [] then [] else parts[0] + Concat(parts[1..])
  }

  lemma {:induction false} ConcatMore<T>(parts: seq<seq<T>>, part: seq<T>)
    ensures Concat(parts + [part]) == Concat(parts) + part
  {
    if parts == [] {
      assert [part][1..] == [];
    } else {
      assert (parts + [part])[1..] == parts[1..] + [part];
      ConcatMore(parts[1..], part);
    }
  }

  lemma ConcatFront<T>(part: seq<T>, parts: seq<seq<T>>)
    ensures Concat([part] + parts) == part + Concat(parts)
  {
    assert ([part] + parts)[1..] == parts;
  }

  lemma ConcatFew<T>(l: seq<T>)
    ensures Concat<T>([]) == [] && Concat([l]) == l
  {
    assert [l][1..] == [];
  }

  lemma ChunksByOne<T>(l: seq<T>, n: nat)
    requires n >= 1
    ensures Chunks(l, n) == if l == [] then [] else if |l| <= n then [l] else [l[..n]] + Chunks(l[n..], n)
  {}

  // Batches lose, repeat and reorder nothing.
  lemma {:induction false} ChunksConcat<T>(l: seq<T>, n: nat)
    requires n >= 1
    ensures Concat(Chunks(l, n)) == l
  {
    hide Chunks, Concat;
    ChunksByOne(l, n);
    ConcatFew(l);
    if |l| > n {
      ChunksConcat(l[n..], n);
      ConcatFront(l[..n], Chunks(l[n..], n));
    }
  }

  // All batches but the last are full and none is empty.
  lemma {:induction false} ChunksCut<T>(l: seq<T>, n: nat)
    requires n >= 1
    ensures l != [] ==> Chunks(l, n) != []
    ensures forall i | 0 <= i < |Chunks(l, n)| :: 1 <= |Chunks(l, n)[i]| <= n
    ensures forall i | 0 <= i < |Chunks(l, n)| - 1 :: |Chunks(l, n)[i]| == n
  {
    if |l| > n {
      ChunksCut(l[n..], n);
    }
  }

  // Full batches in front are cut off unchanged.
  lemma {:induction false} ChunksAfterFull<T>(full: seq<seq<T>>, rest: seq<T>, n: nat)
    requires n >= 1 && forall i | 0 <= i < |full| :: |full[i]| == n
    ensures Chunks(Concat(full) + rest, n) == full + Chunks(rest, n)
  {
    if full == [] {
      assert Concat(full) + rest == rest;
    } else {
      ChunksAfterFull(full[1..], rest, n);
      FirstChunk(full[0], Concat(full[1..]) + rest, n);
      assert Concat(full) + rest == full[0] + (Concat(full[1..]) + rest);
      assert full + Chunks(rest, n) == [full[0]] + (full[1..] + Chunks(rest, n));
    }
  }

  lemma FirstChunk<T>(first: seq<T>, rest: seq<T>, n: nat)
    requires n >= 1 && |first| == n
    ensures Chunks(first + rest, n) == [first] + Chunks(rest, n)
  {
    var l := first + rest;
    assert l[..n] == first && l[n..] == rest;
    if rest == [] {
      assert l == first;
    }
  }

  function FramesOf(executionId: string, batches: seq<seq<StreamLine>>): seq<Frame>
    requires forall i | 0 <= i < |batches| :: batches[i] != []
  {
    seq(|batches|, i requires 0 <= i < |batches| => FrameOf(executionId, batches[i]))
  }

  // The meaning of a whole stream.
  function Streamed(content: string, executionId: string, startLine: int, n: nat, filter: LevelFilter): seq<Frame>
    requires n >= 1
  {
    var batches := Chunks(Wanted(Pieces(content), startLine, filter), n);
    ChunksCut(Wanted(Pieces(content), startLine, filter), n);
    FramesOf(executionId, batches)
  }

  function FrameLines(f: Frame): seq<StreamLine> {
    match f
    case LogFrame(line) => [line]
    case BatchFrame(_, lines) => lines
  }

  function AllLines(frames: seq<Frame>): seq<StreamLine> {
    if frames == [] then [] else FrameLines(frames[0]) + AllLines(frames[1..])
  }

  lemma FrameKeepsLines(executionId: string, batch: seq<StreamLine>)
    requires batch != []
    ensures FrameLines(FrameOf(executionId, batch)) == batch
  {}

  lemma {:induction false} FramesKeepLines(executionId: string, batches: seq<seq<StreamLine>>)
    requires forall i | 0 <= i < |batches| :: batches[i] != []
    ensures AllLines(FramesOf(executionId, batches)) == Concat(batches)
  {
    hide FrameLines, FrameOf;
    if batches != [] {
      FramesKeepLines(executionId, batches[1..]);
      FrameKeepsLines(executionId, batches[0]);
      assert FramesOf(executionId, batches)[1..] == FramesOf(executionId, batches[1..]);
    }
  }

  // A stream carries exactly the wanted lines in order; every message but the last is full and none
  // is empty.
  lemma StreamCarriesWanted(content: string, executionId: string, startLine: int, n: nat, filter: LevelFilter)
    requires n >= 1
    ensures var frames := Streamed(content, executionId, startLine, n, filter);
      && AllLines(frames) == Wanted(Pieces(content), startLine, filter)
      && (forall i | 0 <= i < |frames| :: 1 <= |FrameLines(frames[i])| <= n)
      && (forall i | 0 <= i < |frames| - 1 :: |FrameLines(frames[i])| == n)
      && (forall i | 0 <= i < |frames| ::
            if |FrameLines(frames[i])| == 1 then frames[i].LogFrame?
            else frames[i].BatchFrame? && frames[i].executionId == executionId)
  {
    var wanted := Wanted(Pieces(content), startLine, filter);
    hide ParseLogLevel;
    ChunksCut(wanted, n);
    ChunksConcat(wanted, n);
    FramesKeepLines(executionId, Chunks(wanted, n));
  }

  // Line i is to be streamed: it comes after startLine lines and its level is one of those chosen.
  predicate Chosen(lines: seq<string>, i: nat, startLine: int, filter: LevelFilter)
    requires i < |lines|
  {
    i >= startLine && (filter.None? || ParseLogLevel(lines[i]) in filter.value)
  }

  lemma WantedStep(lines: seq<string>, startLine: int, filter: LevelFilter)
    requires lines != []
    ensures var i := |lines| - 1;
      Wanted(lines, startLine, filter) == Wanted(lines[..i], startLine, filter)
        + if Chosen(lines, i, startLine, filter) then [StreamLine(lines[i], ParseLogLevel(lines[i]))] else []
  {
    EveryLineHasALevel(lines[|lines| - 1]);
    hide ParseLogLevel;
  }

  // Increasing positions in a sequence of length n.
  predicate Positions(at: seq<nat>, n: nat) {
    (forall j, k | 0 <= j < k < |at| :: at[j] < at[k]) && (forall k | 0 <= k < |at| :: at[k] < n)
  }

  lemma {:induction false} WantedAt(lines: seq<string>, startLine: int, filter: LevelFilter) returns (at: seq<nat>)
    ensures Positions(at, |lines|)
    ensures forall i: nat | i < |lines| :: i in at <==> Chosen(lines, i, startLine, filter)
    ensures |Wanted(lines, startLine, filter)| == |at|
    ensures forall k | 0 <= k < |at| ::
      Wanted(lines, startLine, filter)[k] == StreamLine(lines[at[k]], ParseLogLevel(lines[at[k]]))
  {
    hide ParseLogLevel;
    at := [];
    if lines != [] {
      var i, most := |lines| - 1, lines[..|lines| - 1];
      at := WantedAt(most, startLine, filter);
      WantedStep(lines, startLine, filter);
      assert forall j: nat | j < i :: Chosen(lines, j, startLine, filter) == Chosen(most, j, startLine, filter);
      hide Wanted, Chosen;
      assert i !in at;
      if Chosen(lines, i, startLine, filter) {
        at := at + [i];
      }
    }
  }

  // A stream shows the file's lines that come after startLine lines and have one of the chosen levels:
  // each of them once, in the file's order, with its level.
  lemma StreamShows(content: string, executionId: string, startLine: int, n: nat, filter: LevelFilter)
      returns (at: seq<nat>)
    requires n >= 1
    ensures var pieces, shown := Pieces(content), AllLines(Streamed(content, executionId, startLine, n, filter));
      && Positions(at, |pieces|) && |shown| == |at|
      && (forall i: nat | i < |pieces| ::
            i in at <==> i >= startLine && (filter.None? || ParseLogLevel(pieces[i]) in filter.value))
      && (forall k | 0 <= k < |at| :: shown[k] == StreamLine(pieces[at[k]], ParseLogLevel(pieces[at[k]])))
  {
    hide ParseLogLevel, Streamed, AllLines, Wanted, Pieces;
    StreamCarriesWanted(content, executionId, startLine, n, filter);
    at := WantedAt(Pieces(content), startLine, filter);
    assert forall i: nat | i < |Pieces(content)| :: i in at <==> Chosen(Pieces(content), i, startLine, filter);
  }

  // Skipping k lines is streaming what is left of the file; a negative start skips nothing.
  lemma {:induction false} WantedAfter(lines: seq<string>, k: nat, filter: LevelFilter)
    requires k <= |lines|
    ensures Wanted(lines, k, filter) == Wanted(lines[k..], 0, filter)
  {
    if |lines| == k {
      NothingWanted(lines, k, filter);
    } else {
      WantedAfter(lines[..|lines| - 1], k, filter);
      assert lines[..|lines| - 1][k..] == lines[k..][..|lines| - k - 1];
    }
  }

  lemma {:induction false} NothingWanted(lines: seq<string>, startLine: int, filter: LevelFilter)
    requires |lines| <= startLine
    ensures Wanted(lines, startLine, filter) == []
  {
    if lines != [] {
      NothingWanted(lines[..|lines| - 1], startLine, filter);
    }
  }

  lemma {:induction false} WantedUnfiltered(lines: seq<string>)
    ensures |Wanted(lines, 0, None)| == |lines|
    ensures forall i | 0 <= i < |lines| :: Wanted(lines, 0, None)[i] == StreamLine(lines[i], ParseLogLevel(lines[i]))
  {
    if lines != [] {
      WantedUnfiltered(lines[..|lines| - 1]);
    }
  }

  // A viewer that has the first k lines from segments and streams from startLine k has every line
  // of the file once, with the same level either way.
  lemma SegmentsThenStream(content: string, k: nat)
    requires Scannable(content) && k <= |Lines(content)|
    ensures var shown, streamed := Window(ScannedLines(content), 0, k), Wanted(Pieces(content), k, None);
      && |shown| == k && k + |streamed| == |Lines(content)|
      && (forall i | 0 <= i < k :: shown[i] == DropCR(Lines(content)[i]))
      && (forall i | k <= i < |Lines(content)| ::
            && streamed[i - k].line == Ended(Lines(content)[i], i == |Lines(content)| - 1, Terminated(content))
            && streamed[i - k].level == ParseLogLevel(DropCR(Lines(content)[i])))
  {
    hide ParseLogLevel;
    ScannerAgrees(content);
    PiecesAgree(content);
    var pieces := Pieces(content);
    WantedAfter(pieces, k, None);
    WantedUnfiltered(pieces[k..]);
    var streamed := Wanted(pieces, k, None);
    forall i | k <= i < |pieces|
      ensures streamed[i - k] == StreamLine(pieces[i], ParseLogLevel(DropCR(Lines(content)[i])))
    {
      assert pieces[k..][i - k] == pieces[i];
      LevelsAgree(content, i);
    }
  }

  lemma {:induction false} WantedGrows(lines: seq<string>, k: nat, startLine: int, filter: LevelFilter)
    requires k <= |lines|
    ensures Wanted(lines[..k], startLine, filter) <= Wanted(lines, startLine, filter)
  {
    if k < |lines| {
      var most := lines[..|lines| - 1];
      assert most[..k] == lines[..k];
      WantedGrows(most, k, startLine, filter);
    } else {
      assert lines[..k] == lines;
    }
  }

  // ----- The code -----

  // A connection that breaks after some number of writes.
  class Connection {
    var sent: seq<Frame>
    var room: nat

    method WriteJSON(f: Frame) returns (ok: bool)
      modifies this
      ensures ok <==> old(room) > 0
      ensures sent == old(sent) + (if ok then [f] else [])
      ensures room == old(room) - if ok then 1 else 0
    {
      ok := room > 0;
      if ok {
        sent, room := sent + [f], room - 1;
      }
    }
  }

  class LineReader {
    var rest: string

    constructor (content: string)
      ensures rest == content
    {
      rest := content;
    }

    method ReadString() returns (line: string, eof: bool)
      modifies this
      ensures line + rest == old(rest) && (eof ==> rest == "")
      ensures Pieces(old(rest)) == (if line == "" then [] else [line]) + (if eof then [] else Pieces(rest))
      ensures !eof ==> line != ""
    {
      var n := Cut(rest);
      eof := n == |rest|;
      line := if eof then rest else rest[..n + 1];
      rest := if eof then "" else rest[n + 1..];
    }
  }

  method SendLogBatch(conn: Connection, executionId: string, batch: array<StreamLine>, len: nat) returns (ok: bool)
    requires len <= batch.Length
    modifies conn
    ensures len == 0 ==> ok && conn.sent == old(conn.sent) && conn.room == old(conn.room)
    ensures len > 0 ==> (ok <==> old(conn.room) > 0)
    ensures len > 0 ==> conn.sent == old(conn.sent) + if ok then [FrameOf(executionId, batch[..len])] else []
    ensures len > 0 ==> conn.room == old(conn.room) - if ok then 1 else 0
  {
    if len == 0 {
      return true;
    }
    if len == 1 {
      ok := conn.WriteJSON(LogFrame(batch[0]));
    } else {
      ok := conn.WriteJSON(BatchFrame(executionId, batch[..len]));
    }
  }

  // How far a stream has come: some full batches are sent, and the lines read wait in part in pending.
  ghost predicate Progress(lines: seq<StreamLine>, batches: seq<seq<StreamLine>>, pending: seq<StreamLine>, n: nat) {
    && lines == Concat(batches) + pending && |pending| < n
    && forall i | 0 <= i < |batches| :: |batches[i]| == n
  }

  lemma ProgressKeeps(lines: seq<StreamLine>, batches: seq<seq<StreamLine>>, pending: seq<StreamLine>, n: nat,
                      line: StreamLine)
    requires n >= 1 && Progress(lines, batches, pending, n)
    ensures |pending| + 1 < n ==> Progress(lines + [line], batches, pending + [line], n)
    ensures |pending| + 1 == n ==> Progress(lines + [line], batches + [pending + [line]], [], n)
  {
    assert lines + [line] == Concat(batches) + (pending + [line]);
    if |pending| + 1 == n {
      ConcatMore(batches, pending + [line]);
      assert lines + [line] + [] == lines + [line];
    }
  }

  // The frames of full batches are the first frames of the whole stream.
  lemma StreamedInPart(content: string, executionId: string, startLine: int, n: nat, filter: LevelFilter,
                       batches: seq<seq<StreamLine>>, rest: seq<StreamLine>)
    requires n >= 1 && (forall i | 0 <= i < |batches| :: |batches[i]| == n)
    requires Wanted(Pieces(content), startLine, filter) == Concat(batches) + rest
    ensures forall i | 0 <= i < |Chunks(rest, n)| :: Chunks(rest, n)[i] != []
    ensures Streamed(content, executionId, startLine, n, filter)
         == FramesOf(executionId, batches) + FramesOf(executionId, Chunks(rest, n))
  {
    ChunksAfterFull(batches, rest, n);
    ChunksCut(rest, n);
    FramesOfBoth(executionId, batches, Chunks(rest, n));
  }

  lemma FramesOfBoth(executionId: string, a: seq<seq<StreamLine>>, b: seq<seq<StreamLine>>)
    requires forall i | 0 <= i < |a| :: a[i] != []
    requires forall i | 0 <= i < |b| :: b[i] != []
    ensures FramesOf(executionId, a + b) == FramesOf(executionId, a) + FramesOf(executionId, b)
  {}

  lemma WantedOneMore(read: seq<string>, line: string, startLine: int, filter: LevelFilter)
    ensures var m := BuildLogFileLineMessage(line, |read| + 1, startLine, filter);
      Wanted(read + [line], startLine, filter) == Wanted(read, startLine, filter) + if m.Some? then [m.value] else []
  {
    assert (read + [line])[..|read|] == read;
  }

  // Some of the file's lines are read and the reader holds the rest.
  ghost predicate ReadSoFar(content: string, read: seq<string>, rest: string, eof: bool) {
    Pieces(content) == read + if eof then [] else Pieces(rest)
  }

  lemma ReadOn(content: string, read: seq<string>, from: string, line: string, rest: string, eof: bool)
    requires ReadSoFar(content, read, from, false)
    requires Pieces(from) == (if line == "" then [] else [line]) + (if eof then [] else Pieces(rest))
    ensures ReadSoFar(content, if line == "" then read else read + [line], rest, eof)
  {
    hide Pieces;
  }

  // A write that fails on a full batch leaves the frames of the batches before it.
  lemma StreamBreaks(content: string, executionId: string, startLine: int, n: nat, filter: LevelFilter,
                     read: seq<string>, line: string, rest: string, eof: bool,
                     batches: seq<seq<StreamLine>>, pending: seq<StreamLine>)
    requires n >= 1 && |pending| + 1 == n && Progress(Wanted(read, startLine, filter), batches, pending, n)
    requires ReadSoFar(content, read + [line], rest, eof)
    requires BuildLogFileLineMessage(line, |read| + 1, startLine, filter).Some?
    ensures var all := Streamed(content, executionId, startLine, n, filter);
      |all| > |batches| && all[..|batches|] == FramesOf(executionId, batches)
  {
    hide ParseLogLevel, Streamed, Chunks, Concat, Pieces, FrameOf;
    var wanted := Wanted(Pieces(content), startLine, filter);
    WantedGoesOn(Pieces(content), read, line, startLine, filter);
    var left := LeftOver(wanted, Wanted(read + [line], startLine, filter), Concat(batches));
    StreamedInPart(content, executionId, startLine, n, filter, batches, left);
    ChunksCut(left, n);
  }

  lemma LeftOver<T>(all: seq<T>, part: seq<T>, first: seq<T>) returns (left: seq<T>)
    requires part <= all && first <= part
    ensures all == first + left && |left| >= |part| - |first|
  {
    left := all[|first|..];
  }

  lemma WantedGoesOn(lines: seq<string>, read: seq<string>, line: string, startLine: int, filter: LevelFilter)
    requires read + [line] <= lines
    ensures Wanted(read + [line], startLine, filter) <= Wanted(lines, startLine, filter)
    ensures var m := BuildLogFileLineMessage(line, |read| + 1, startLine, filter);
      Wanted(read + [line], startLine, filter) == Wanted(read, startLine, filter) + if m.Some? then [m.value] else []
  {
    hide ParseLogLevel;
    var now := read + [line];
    assert lines[..|now|] == now;
    WantedGrows(lines, |now|, startLine, filter);
    WantedOneMore(read, line, startLine, filter);
  }

  // A batch of capacity zero grows for its first line and is sent with it.
  function BatchLimit(batchSize: nat): (n: nat)
    ensures n >= 1
  {
    if batchSize == 0 then 1 else batchSize
  }

  // The batch slice and its flush closure.
  class PendingBatch {
    const conn: Connection
    const executionId: string
    const batch: array<StreamLine>
    var len: nat

    constructor (conn: Connection, executionId: string, batchSize: nat)
      ensures Valid() && Lines() == [] && batch.Length == BatchLimit(batchSize) && fresh(batch)
      ensures this.conn == conn && this.executionId == executionId
    {
      this.conn, this.executionId := conn, executionId;
      batch := new StreamLine[BatchLimit(batchSize)](_ => StreamLine("", ""));
      len := 0;
    }

    ghost predicate Valid()
      reads this
    {
      len < batch.Length
    }

    function Lines(): seq<StreamLine>
      requires len <= batch.Length
      reads this, batch
    {
      batch[..len]
    }

    method Flush() returns (ok: bool)
      requires len <= batch.Length
      modifies this, conn
      ensures len == 0
      ensures old(len) == 0 ==> ok && conn.sent == old(conn.sent) && conn.room == old(conn.room)
      ensures old(len) > 0 ==> (ok <==> old(conn.room) > 0)
      ensures old(len) > 0 ==>
        conn.sent == old(conn.sent) + if ok then [FrameOf(executionId, old(Lines()))] else []
      ensures old(len) > 0 ==> conn.room == old(conn.room) - if ok then 1 else 0
    {
      ok := SendLogBatch(conn, executionId, batch, len);
      len := 0;
    }

    method Append(line: StreamLine) returns (ok: bool)
      requires Valid()
      modifies this, batch, conn
      ensures Valid() && (ok <==> old(len) + 1 < batch.Length || old(conn.room) > 0)
      ensures old(len) + 1 < batch.Length ==>
        Lines() == old(Lines()) + [line] && conn.sent == old(conn.sent) && conn.room == old(conn.room)
      ensures old(len) + 1 == batch.Length ==>
        && len == 0 && conn.room == old(conn.room) - (if ok then 1 else 0)
        && conn.sent == old(conn.sent) + if ok then [FrameOf(executionId, old(Lines()) + [line])] else []
    {
      batch[len] := line;
      len := len + 1;
      assert Lines() == old(Lines()) + [line];
      ok := true;
      if len >= batch.Length {
        ok := Flush();
      }
    }
  }

  lemma FramesOneMore(executionId: string, batches: seq<seq<StreamLine>>, batch: seq<StreamLine>)
    requires batch != [] && forall i | 0 <= i < |batches| :: batches[i] != []
    ensures FramesOf(executionId, batches + [batch]) == FramesOf(executionId, batches) + [FrameOf(executionId, batch)]
  {}

  // Of the lines wanted so far, the flushed batches are on the connection and the rest is pending.
  ghost predicate Holds(batch: PendingBatch, lines: seq<StreamLine>, flushed: seq<seq<StreamLine>>,
                        sent: seq<Frame>, room: int)
    reads batch, batch.batch, batch.conn
  {
    && batch.Valid() && Progress(lines, flushed, batch.Lines(), batch.batch.Length)
    && batch.conn.sent == sent + FramesOf(batch.executionId, flushed) && batch.conn.room == room - |flushed|
  }

  method AddLine(batch: PendingBatch, line: StreamLine, ghost lines: seq<StreamLine>,
                     ghost flushed: seq<seq<StreamLine>>, ghost sent: seq<Frame>, ghost room: int)
      returns (ok: bool, ghost now: seq<seq<StreamLine>>)
    requires Holds(batch, lines, flushed, sent, room)
    modifies batch, batch.batch, batch.conn
    ensures ok ==> Holds(batch, lines + [line], now, sent, room)
    ensures !ok ==>
      && Progress(lines, flushed, old(batch.Lines()), batch.batch.Length)
      && |old(batch.Lines())| + 1 == batch.batch.Length
      && batch.conn.sent == sent + FramesOf(batch.executionId, flushed) && batch.conn.room == 0 == room - |flushed|
  {
    ghost var pending := batch.Lines();
    ProgressKeeps(lines, flushed, pending, batch.batch.Length, line);
    FramesOneMore(batch.executionId, flushed, pending + [line]);
    ok := batch.Append(line);
    now := if |pending| + 1 == batch.batch.Length then flushed + [pending + [line]] else flushed;
  }

  // The frames of a whole file are those flushed on the way and one more if lines are left.
  lemma StreamEnds(content: string, executionId: string, startLine: int, n: nat, filter: LevelFilter,
                   read: seq<string>, rest: string, batches: seq<seq<StreamLine>>, pending: seq<StreamLine>)
    requires n >= 1 && ReadSoFar(content, read, rest, true)
    requires Progress(Wanted(read, startLine, filter), batches, pending, n)
    ensures Streamed(content, executionId, startLine, n, filter)
         == FramesOf(executionId, batches) + if pending == [] then [] else [FrameOf(executionId, pending)]
  {
    hide ParseLogLevel;
    assert read + [] == read;
    StreamedInPart(content, executionId, startLine, n, filter, batches, pending);
  }

  lemma NothingRead(content: string, startLine: int, filter: LevelFilter, n: nat)
    requires n >= 1
    ensures ReadSoFar(content, [], content, false) && Progress(Wanted([], startLine, filter), [], [], n)
  {
    assert [] + Pieces(content) == Pieces(content);
  }

  method StreamLogFileLines(conn: Connection, content: string, executionId: string, startLine: int, batchSize: nat,
                            filter: LevelFilter) returns (ok: bool)
    modifies conn
    ensures var all := Streamed(content, executionId, startLine, BatchLimit(batchSize), filter);
      && (ok <==> |all| <= old(conn.room))
      && conn.sent == old(conn.sent) + (if ok then all else all[..old(conn.room)])
      && conn.room == old(conn.room) - (if ok then |all| else old(conn.room))
  {
    hide ParseLogLevel, MatchesFilter, BuildLogFileLineMessage, Wanted, Pieces;
    hide Streamed, Chunks, Concat, FrameOf, ReadSoFar;
    ghost var limit := BatchLimit(batchSize);
    var reader := new LineReader(content);
    var lineNum := 0;
    var batch := new PendingBatch(conn, executionId, batchSize);
    ghost var read: seq<string> := [];
    ghost var flushed: seq<seq<StreamLine>> := [];
    var eof := false;
    NothingRead(content, startLine, filter, limit);
    while !eof
      invariant batch.conn == conn && batch.executionId == executionId && batch.batch.Length == limit
      invariant fresh(batch) && fresh(batch.batch) && fresh(reader) && |read| == lineNum
      invariant ReadSoFar(content, read, reader.rest, eof)
      invariant Holds(batch, Wanted(read, startLine, filter), flushed, old(conn.sent), old(conn.room))
      decreases |reader.rest|, !eof
    {
      ghost var from := reader.rest;
      var line, readErr := reader.ReadString();
      ReadOn(content, read, from, line, reader.rest, readErr);
      if line != "" {
        lineNum := lineNum + 1;
        var m := BuildLogFileLineMessage(line, lineNum, startLine, filter);
        WantedOneMore(read, line, startLine, filter);
        if m.Some? {
          ghost var pending := batch.Lines();
          var sent;
          ghost var before := flushed;
          sent, flushed := AddLine(batch, m.value, Wanted(read, startLine, filter), before,
                                   old(conn.sent), old(conn.room));
          if !sent {
            StreamBreaks(content, executionId, startLine, limit, filter, read, line, reader.rest, readErr,
                         before, pending);
            return false;
          }
        }
        read := read + [line];
      }
      eof := readErr;
    }
    StreamEnds(content, executionId, startLine, limit, filter, read, reader.rest, flushed, batch.Lines());
    ok := batch.Flush();
  }
}
