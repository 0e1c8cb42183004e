/** Reading an execution's log file: three line splitters that agree, segments and tails of the file,
    and the pages a viewer sees. A file is its bytes as a string, or None when it cannot be opened. */
module LogFiles {
  import opened LogLevels
  import opened Options
  import opened Text

  const SCANNER_MAX_LINE_SIZE := 1024 * 1024
  const DEFAULT_SEGMENT_COUNT := 500
  const MAX_SEGMENT_COUNT := 5000

  // ----- Three splitters -----

  // TailLogFile's: split at line feeds and drop one empty last part.
  function Lines(s: string): seq<string> {
    WithoutEmptyLast(Split(s, '\n'))
  }

  function WithoutEmptyLast(parts: seq<string>): seq<string>
    requires parts != []
  {
    if parts[|parts| - 1] == "" then parts[..|parts| - 1] else parts
  }

  // The length of the first line, its line feed not counted.
  function Cut(s: string): (n: nat)
    ensures n <= |s|
  {
    IndexOf(s, '\n')
  }

  function AfterCut(s: string): string {
    if Cut(s) < |s| then s[Cut(s) + 1..] else ""
  }

  function DropCR(line: string): string {
    if line != "" && line[|line| - 1] == '\r' then line[..|line| - 1] else line
  }

  // bufio.Scanner with ScanLines: a line that fills the whole buffer stops it.
  function ScannedLines(s: string): seq<string>
    decreases |s|
  {
    if s == "" || Cut(s) >= SCANNER_MAX_LINE_SIZE then [] else [DropCR(s[..Cut(s)])] + ScannedLines(AfterCut(s))
  }

  predicate Scannable(s: string)
    decreases |s|
  {
    s == "" || (Cut(s) < SCANNER_MAX_LINE_SIZE && Scannable(AfterCut(s)))
  }

  // bufio.Reader's ReadString('\n') until the end of the file.
  function Pieces(s: string): seq<string>
    decreases |s|
  {
    if s == "" then []
    else if Cut(s) < |s| then [s[..Cut(s) + 1]] + Pieces(AfterCut(s))
    else [s]
  }

  lemma {:induction false} SplitAtCut(s: string)
    ensures Split(s, '\n') == [s[..Cut(s)]] + (if Cut(s) < |s| then Split(AfterCut(s), '\n') else [])
  {
    if s != "" && s[0] != '\n' {
      var t := s[1..];
      SplitAtCut(t);
      assert s[..Cut(s)] == [s[0]] + t[..Cut(t)];
      assert Cut(s) < |s| ==> AfterCut(s) == AfterCut(t);
    }
  }

  lemma WithoutEmptyLastOfMore(part: string, parts: seq<string>)
    requires parts != []
    ensures WithoutEmptyLast([part] + parts) == [part] + WithoutEmptyLast(parts)
  {}

  lemma LinesByCut(s: string)
    requires s != ""
    ensures Lines(s) == [s[..Cut(s)]] + Lines(AfterCut(s))
  {
    SplitAtCut(s);
    if Cut(s) < |s| {
      WithoutEmptyLastOfMore(s[..Cut(s)], Split(AfterCut(s), '\n'));
    } else {
      assert s[..Cut(s)] == s;
      assert Lines(AfterCut(s)) == [];
      assert Split(s, '\n') == [s];
    }
  }

  // What a scanner gives of a file's lines, and whether it came to the end.
  ghost predicate ScanOf(scanned: seq<string>, lines: seq<string>, toTheEnd: bool) {
    && |scanned| <= |lines|
    && (forall i | 0 <= i < |scanned| :: scanned[i] == DropCR(lines[i]) && |lines[i]| < SCANNER_MAX_LINE_SIZE)
    && (toTheEnd <==> |scanned| == |lines|)
    && (|scanned| < |lines| ==> |lines[|scanned|]| >= SCANNER_MAX_LINE_SIZE)
  }

  lemma ScanOfMore(scanned: seq<string>, lines: seq<string>, toTheEnd: bool, line: string)
    requires ScanOf(scanned, lines, toTheEnd) && |line| < SCANNER_MAX_LINE_SIZE
    ensures ScanOf([DropCR(line)] + scanned, [line] + lines, toTheEnd)
  {}

  // The scanner yields the lines without their trailing carriage return, and stops with an error
  // exactly at the first line that reaches its limit.
  lemma {:induction false} ScannerAgrees(s: string)
    ensures ScanOf(ScannedLines(s), Lines(s), Scannable(s))
    decreases |s|
  {
    if s == "" {
      assert Lines(s) == [];
    } else {
      LinesByCut(s);
      if Cut(s) < SCANNER_MAX_LINE_SIZE {
        ScannerAgrees(AfterCut(s));
        ScanOfMore(ScannedLines(AfterCut(s)), Lines(AfterCut(s)), Scannable(AfterCut(s)), s[..Cut(s)]);
      }
    }
  }

  // Of a carriage return at the end of a line one is taken off, and nothing else.
  lemma ScannerStripsOne(s: string, i: nat)
    requires i < |ScannedLines(s)|
    ensures i < |Lines(s)|
    ensures var line, scanned := Lines(s)[i], ScannedLines(s)[i];
      if line != "" && line[|line| - 1] == '\r' then line == scanned + ['\r'] else scanned == line
  {
    ScannerAgrees(s);
    hide ScannedLines, Lines, Scannable;
  }

  function Flatten(parts: seq<string>): string {
    if parts == [] then "" else parts[0] + Flatten(parts[1..])
  }

  // The lines with their line feeds, which the last one has only if the file is terminated.
  function Ended(line: string, last: bool, terminated: bool): string {
    if last && !terminated then line else line + ['\n']
  }

  ghost predicate PiecesOf(pieces: seq<string>, lines: seq<string>, terminated: bool) {
    && |pieces| == |lines|
    && forall i | 0 <= i < |pieces| :: pieces[i] == Ended(lines[i], i == |pieces| - 1, terminated)
  }

  lemma PiecesOfMore(pieces: seq<string>, lines: seq<string>, terminated: bool, line: string)
    requires PiecesOf(pieces, lines, terminated) && (pieces == [] ==> terminated)
    ensures PiecesOf([line + ['\n']] + pieces, [line] + lines, terminated)
  {}

  predicate Terminated(s: string) {
    s == "" || s[|s| - 1] == '\n'
  }

  lemma NotTerminated(s: string)
    requires s != "" && Cut(s) == |s|
    ensures !Terminated(s)
  {
    IndexOfIsFirst(s, '\n');
    assert s[|s| - 1] == s[..Cut(s)][|s| - 1];
  }

  lemma OneUnterminatedLine(s: string)
    requires s != "" && Cut(s) == |s|
    ensures Pieces(s) == [s] && Lines(s) == [s]
  {
    hide IndexOf, Split;
    SplitAtCut(s);
    assert s[..Cut(s)] == s && [s] + [] == [s];
  }

  lemma FirstPiece(s: string)
    requires s != "" && Cut(s) < |s|
    ensures Pieces(s) == [s[..Cut(s)] + ['\n']] + Pieces(AfterCut(s))
  {
    IndexOfIsFirst(s, '\n');
    hide IndexOf, AfterCut;
    TakeOneMore(s, Cut(s));
  }

  lemma TerminatedRest(s: string)
    requires s != "" && Cut(s) < |s|
    ensures Terminated(s) == Terminated(AfterCut(s)) && (Pieces(AfterCut(s)) == [] ==> Terminated(AfterCut(s)))
  {
    IndexOfIsFirst(s, '\n');
    hide IndexOf;
    var rest := AfterCut(s);
    assert rest != "" ==> rest[|rest| - 1] == s[|s| - 1];
  }

  // Reading to the line feed yields every byte of the file, one piece a line.
  lemma {:induction false} PiecesAgree(s: string)
    ensures PiecesOf(Pieces(s), Lines(s), Terminated(s))
    decreases |s|
  {
    if s == "" {
      assert Lines(s) == [];
    } else if Cut(s) < |s| {
      var rest := AfterCut(s);
      PiecesAgree(rest);
      LinesByCut(s);
      FirstPiece(s);
      TerminatedRest(s);
      PiecesOfMore(Pieces(rest), Lines(rest), Terminated(rest), s[..Cut(s)]);
    } else {
      OneUnterminatedLine(s);
      NotTerminated(s);
    }
  }

  lemma {:induction false} PiecesAreAll(s: string)
    ensures Flatten(Pieces(s)) == s
    decreases |s|
  {
    if s != "" && Cut(s) < |s| {
      var n := Cut(s);
      PiecesAreAll(AfterCut(s));
      hide IndexOf, Pieces, Flatten;
      TakeOneMore(s, n);
      FlattenPieces(s);
    }
  }

  lemma FlattenPieces(s: string)
    requires s != "" && Cut(s) < |s|
    ensures Flatten(Pieces(s)) == s[..Cut(s) + 1] + Flatten(Pieces(AfterCut(s)))
  {
    assert Pieces(s)[1..] == Pieces(AfterCut(s));
  }

  // On every file whose lines stay under the scanner's limit, the three splitters count alike.
  lemma SplittersCountAlike(s: string)
    ensures |Pieces(s)| == |Lines(s)|
    ensures |ScannedLines(s)| == |Lines(s)| <==> forall line <- Lines(s) :: |line| < SCANNER_MAX_LINE_SIZE
  {
    PiecesAgree(s);
    ScannerAgrees(s);
    if |ScannedLines(s)| < |Lines(s)| {
      assert Lines(s)[|ScannedLines(s)|] in Lines(s);
    }
  }

  // ----- The level of a line does not depend on how it was read -----

  lemma PrefixDespiteLast(s: string, c: char, sub: string)
    requires c !in sub
    ensures sub <= s + [c] <==> sub <= s
  {
    if |sub| == |s| + 1 {
      assert sub[|s|] != c;
    }
  }

  lemma {:induction false} ContainsDespiteLast(s: string, c: char, sub: string)
    requires c !in sub && sub != ""
    ensures Contains(s + [c], sub) == Contains(s, sub)
  {
    var t := s + [c];
    PrefixDespiteLast(s, c, sub);
    if sub <= t {
    } else if s == "" {
      assert t[1..] == "";
    } else {
      assert t[1..] == s[1..] + [c];
      ContainsDespiteLast(s[1..], c, sub);
    }
  }

  lemma {:induction false} MatchDespiteLast(s: string, c: char, patterns: seq<(string, string)>)
    requires forall i | 0 <= i < |patterns| :: OnOneLine(patterns[i].0)
    requires c == '\n' || c == '\r'
    ensures FirstMatch(s + [c], patterns) == FirstMatch(s, patterns)
  {
    if patterns != [] {
      ContainsDespiteLast(s, c, patterns[0].0);
      MatchDespiteLast(s, c, patterns[1..]);
    }
  }

  predicate OnOneLine(s: string) {
    s != "" && '\n' !in s && '\r' !in s
  }

  lemma BracketPatterns()
    ensures forall i | 0 <= i < 8 :: OnOneLine(PATTERNS[i].0)
  {}

  lemma WordPatterns()
    ensures forall i | 8 <= i < |PATTERNS| :: OnOneLine(PATTERNS[i].0)
  {}

  lemma LevelDespiteLast(s: string, c: char)
    requires c == '\n' || c == '\r'
    ensures ParseLogLevel(s + [c]) == ParseLogLevel(s)
  {
    assert ToLower(s + [c]) == ToLower(s) + [c];
    BracketPatterns();
    WordPatterns();
    MatchDespiteLast(ToLower(s), c, PATTERNS);
  }

  lemma LevelOfOneLine(line: string, last: bool, terminated: bool)
    ensures ParseLogLevel(Ended(line, last, terminated)) == ParseLogLevel(line) == ParseLogLevel(DropCR(line))
  {
    LevelDespiteLast(line, '\n');
    if line != "" && line[|line| - 1] == '\r' {
      LevelDespiteLast(line[..|line| - 1], '\r');
      assert line == line[..|line| - 1] + ['\r'];
    }
  }

  // The level shown for a streamed line is the level shown for the same line of a segment.
  lemma LevelsAgree(s: string, i: nat)
    requires i < |Pieces(s)|
    ensures i < |Lines(s)|
    ensures ParseLogLevel(Pieces(s)[i]) == ParseLogLevel(DropCR(Lines(s)[i]))
  {
    PiecesAgree(s);
    LevelOfOneLine(Lines(s)[i], i == |Pieces(s)| - 1, Terminated(s));
  }

  // ----- Reading the file -----

  class Scanner {
    var rest: string
    var text: string
    var tooLong: bool

    constructor (content: string)
      ensures rest == content && !tooLong
    {
      rest, text, tooLong := content, "", false;
    }

    method Scan() returns (more: bool)
      modifies this
      ensures more <==> old(rest) != "" && Cut(old(rest)) < SCANNER_MAX_LINE_SIZE
      ensures more ==> text == DropCR(old(rest)[..Cut(old(rest))]) && rest == AfterCut(old(rest))
      ensures !more ==> rest == old(rest) && tooLong == (rest != "")
    {
      more := rest != "" && Cut(rest) < SCANNER_MAX_LINE_SIZE;
      if more {
        text, rest := DropCR(rest[..Cut(rest)]), AfterCut(rest);
      } else {
        tooLong := rest != "";
      }
    }
  }

  datatype ReadError = NoError | CannotOpen | LineTooLong

  // A scan of s has given the lines read and holds text in case of more.
  ghost predicate Reading(s: string, read: seq<string>, text: string, rest: string, more: bool, tooLong: bool) {
    if more then ScannedLines(s) == read + [text] + ScannedLines(rest) && (Scannable(s) <==> Scannable(rest))
    else ScannedLines(s) == read && (Scannable(s) <==> !tooLong)
  }

  lemma ScanByOne(s: string)
    ensures s != "" && Cut(s) < SCANNER_MAX_LINE_SIZE ==>
      ScannedLines(s) == [DropCR(s[..Cut(s)])] + ScannedLines(AfterCut(s)) && (Scannable(s) <==> Scannable(AfterCut(s)))
    ensures s == "" || Cut(s) >= SCANNER_MAX_LINE_SIZE ==> ScannedLines(s) == [] && (Scannable(s) <==> s == "")
  {
    hide Cut, DropCR, AfterCut;
  }

  lemma ReadingStarts(s: string, text: string, rest: string, more: bool, tooLong: bool)
    requires more <==> s != "" && Cut(s) < SCANNER_MAX_LINE_SIZE
    requires if more then text == DropCR(s[..Cut(s)]) && rest == AfterCut(s) else tooLong == (s != "")
    ensures Reading(s, [], text, rest, more, tooLong)
  {
    hide Cut, DropCR, AfterCut, ScannedLines, Scannable;
    ScanByOne(s);
    assert [] + [text] + ScannedLines(rest) == [text] + ScannedLines(rest);
  }

  lemma ReadingGoesOn(s: string, read: seq<string>, text: string, from: string,
                      text': string, rest: string, more: bool, tooLong: bool)
    requires Reading(s, read, text, from, true, false) && Reading(from, [], text', rest, more, tooLong)
    ensures Reading(s, read + [text], text', rest, more, tooLong)
  {
    hide ScannedLines, Scannable;
    if more {
      assert read + [text] + ([] + [text'] + ScannedLines(rest)) == read + [text] + [text'] + ScannedLines(rest);
    } else {
      assert read + [text] + [] == read + [text];
    }
  }

  method CountFileLines(file: Option<string>) returns (count: nat, err: ReadError)
    ensures file.None? ==> count == 0 && err == CannotOpen
    ensures file.Some? ==> count == |ScannedLines(file.value)|
    ensures file.Some? ==> err == if Scannable(file.value) then NoError else LineTooLong
  {
    if file.None? {
      return 0, CannotOpen;
    }
    var scanner := new Scanner(file.value);
    count := 0;
    ghost var read: seq<string> := [];
    var more := scanner.Scan();
    ReadingStarts(file.value, scanner.text, scanner.rest, more, scanner.tooLong);
    while more
      invariant |read| == count && Reading(file.value, read, scanner.text, scanner.rest, more, scanner.tooLong)
      decreases |scanner.rest|, more
    {
      count := count + 1;
      ghost var text, from := scanner.text, scanner.rest;
      more := scanner.Scan();
      ReadingStarts(from, scanner.text, scanner.rest, more, scanner.tooLong);
      ReadingGoesOn(file.value, read, text, from, scanner.text, scanner.rest, more, scanner.tooLong);
      read := read + [text];
    }
    err := if scanner.tooLong then LineTooLong else NoError;
  }

  // l[start..start + n] as far as it exists.
  function Window<T>(l: seq<T>, start: nat, n: nat): seq<T> {
    if |l| <= start then [] else if |l| - start <= n then l[start..] else l[start..start + n]
  }

  lemma WindowGrows<T>(l: seq<T>, x: T, start: nat, n: nat)
    ensures Window(l + [x], start, n)
         == Window(l, start, n) + (if |l| >= start && |Window(l, start, n)| < n then [x] else [])
  {}

  // make([]string, 0, count) requires a count that is not negative.
  method ReadLogSegment(file: Option<string>, startLine: int, count: nat)
      returns (lines: seq<string>, total: nat, err: ReadError)
    ensures file.None? ==> lines == [] && total == 0 && err == CannotOpen
    ensures file.Some? ==>
      && lines == Window(ScannedLines(file.value), if startLine < 0 then 0 else startLine, count)
      && total == |ScannedLines(file.value)|
      && err == (if Scannable(file.value) then NoError else LineTooLong)
  {
    var start := if startLine < 0 then 0 else startLine;
    if file.None? {
      return [], 0, CannotOpen;
    }
    var scanner := new Scanner(file.value);
    lines, total := [], 0;
    ghost var read: seq<string> := [];
    var more := scanner.Scan();
    ReadingStarts(file.value, scanner.text, scanner.rest, more, scanner.tooLong);
    while more
      invariant |read| == total && lines == Window(read, start, count)
      invariant Reading(file.value, read, scanner.text, scanner.rest, more, scanner.tooLong)
      decreases |scanner.rest|, more
    {
      WindowGrows(read, scanner.text, start, count);
      if total >= start && |lines| < count {
        lines := lines + [scanner.text];
      }
      total := total + 1;
      ghost var text, from := scanner.text, scanner.rest;
      more := scanner.Scan();
      ReadingStarts(from, scanner.text, scanner.rest, more, scanner.tooLong);
      ReadingGoesOn(file.value, read, text, from, scanner.text, scanner.rest, more, scanner.tooLong);
      read := read + [text];
    }
    err := if scanner.tooLong then LineTooLong else NoError;
  }

  datatype TailResult = Tail(lines: seq<string>) | CannotRead | Panics

  // The last lines of the file. A negative number, which the logs handler passes on from its query
  // parameter, makes the slice expression panic.
  function TailLogFile(file: Option<string>, lines: int): (r: TailResult)
    ensures r.CannotRead? <==> file.None?
    ensures r.Panics? <==> file.Some? && lines < 0
    ensures r.Tail? ==> |r.lines| == if |Lines(file.value)| <= lines then |Lines(file.value)| else lines
    ensures r.Tail? ==> Lines(file.value) == Lines(file.value)[..|Lines(file.value)| - |r.lines|] + r.lines
  {
    if file.None? then CannotRead
    else
      var all := Lines(file.value);
      if |all| <= lines then Tail(all)
      else if lines < 0 then Panics
      else Tail(all[|all| - lines..])
  }

  // ----- Segments -----

  datatype Entry = Entry(line: string, level: string, number: int)

  datatype Response =
    | Segment(entries: seq<Entry>, total: nat, start: nat, count: nat, hasMore: bool)
    | ServerError

  // parseSegmentParams on the numbers and the mode it finds in the query.
  function ParseSegmentParams(start: int, count: int, mode: string): (r: (nat, nat, string))
    ensures start >= 0 ==> r.0 == start
    ensures start < 0 ==> r.0 == 0
    ensures 1 <= r.1 <= MAX_SEGMENT_COUNT == 5000
    ensures 1 <= count <= 5000 ==> r.1 == count
    ensures count <= 0 ==> r.1 == 500
    ensures count > 5000 ==> r.1 == 5000
    ensures mode != "" ==> r.2 == mode
    ensures mode == "" ==> r.2 == "head"
  {
    var wanted := if count <= 0 then DEFAULT_SEGMENT_COUNT else count;
    (if start < 0 then 0 else start,
     if wanted > MAX_SEGMENT_COUNT then MAX_SEGMENT_COUNT else wanted,
     if mode == "" then "head" else mode)
  }

  function EntryAt(lines: seq<string>, i: nat, start: int): Entry
    requires i < |lines|
  {
    Entry(lines[i], ParseLogLevel(lines[i]), start + i)
  }

  function Entries(lines: seq<string>, start: int): seq<Entry> {
    seq(|lines|, i requires 0 <= i < |lines| => EntryAt(lines, i, start))
  }

  method BuildSegmentLineEntries(lines: seq<string>, start: int) returns (entries: array<Entry>)
    ensures fresh(entries) && entries[..] == Entries(lines, start)
  {
    entries := new Entry[|lines|](_ => Entry("", "", 0));
    for i := 0 to |lines|
      invariant forall k | 0 <= k < i :: entries[k] == EntryAt(lines, k, start)
    {
      entries[i] := Entry(lines[i], ParseLogLevel(lines[i]), start + i);
    }
  }

  function SegmentFrom(all: seq<string>, start: nat, n: nat): Response {
    var lines := Window(all, start, n);
    Segment(Entries(lines, start), |all|, start, |lines|, start + |lines| < |all|)
  }

  function TailStart(total: nat, n: nat): nat {
    if total > n then total - n else 0
  }

  // What the segment endpoint serves of a file, said on the file's lines.
  function Served(file: Option<string>, start: int, count: int, mode: string): Response {
    if file.None? || !Scannable(file.value) then ServerError
    else
      var p, all := ParseSegmentParams(start, count, mode), ScannedLines(file.value);
      SegmentFrom(all, if p.2 == "tail" then TailStart(|all|, p.1) else p.0, p.1)
  }

  // A mode other than tail is served as head, a negative start as 0, and tail mode takes no notice of
  // the start.
  lemma ServedAsHeadOrTail(file: Option<string>, start: int, count: int, mode: string)
    ensures mode != "tail" ==>
      Served(file, start, count, mode) == Served(file, if start < 0 then 0 else start, count, "head")
    ensures Served(file, start, count, "tail") == Served(file, 0, count, "tail")
  {
    hide SegmentFrom, ScannedLines, Scannable, TailStart;
  }

  method SegmentLogs(file: Option<string>, startParam: int, countParam: int, modeParam: string)
      returns (r: Response)
    ensures r == Served(file, startParam, countParam, modeParam)
  {
    var (start, count, mode) := ParseSegmentParams(startParam, countParam, modeParam);
    if mode == "tail" {
      var totalLines, err := CountFileLines(file);
      if err != NoError {
        return ServerError;
      }
      start := TailStart(totalLines, count);
    }
    var lines, totalLines, err := ReadLogSegment(file, start, count);
    if err != NoError {
      return ServerError;
    }
    var entries := BuildSegmentLineEntries(lines, start);
    r := Segment(entries[..], totalLines, start, |lines|, start + |lines| < totalLines);
  }
}
