/** What a viewer makes of a log file's segments: the pages it follows tile the file, and tail mode shows
    what TailLogFile returns. */
module LogPages {
  import opened LogFiles
  import opened LogLevels
  import opened Options

  function PageSize(count: int): (n: nat)
    ensures 1 <= n <= MAX_SEGMENT_COUNT
  {
    ParseSegmentParams(0, count, "").1
  }

  // A page from start, in head mode.
  lemma Page(s: string, start: nat, count: int)
    requires Scannable(s)
    ensures var r := Served(Some(s), start, count, "head");
      var all, n := ScannedLines(s), PageSize(count);
      && r.Segment? && r.start == start && r.total == |all|
      && r.entries == Entries(Window(all, start, n), start)
      && r.count == |r.entries| == (if |all| <= start then 0 else if |all| - start <= n then |all| - start else n)
      && (r.hasMore <==> start + n < |all|)
      && (r.hasMore ==> r.count == n)
  {}

  // The responses of a viewer that asks for the following lines until has_more is false.
  ghost function Follow(s: string, count: int, start: nat): seq<Response>
    requires Scannable(s)
    decreases if |ScannedLines(s)| < start then 0 else |ScannedLines(s)| - start
  {
    Page(s, start, count);
    var r := Served(Some(s), start, count, "head");
    if r.hasMore then [r] + Follow(s, count, start + r.count) else [r]
  }

  lemma FollowUnfolds(s: string, count: int, start: nat)
    requires Scannable(s)
    ensures var page, n := Served(Some(s), start, count, "head"), PageSize(count);
      && page.Segment? && page.start == start
      && Follow(s, count, start)
           == (if start + n < |ScannedLines(s)| then [page] + Follow(s, count, start + n) else [page])
  {
    Page(s, start, count);
  }

  ghost function Shown(pages: seq<Response>): seq<Entry> {
    if pages == [] then []
    else (if pages[0].Segment? then pages[0].entries else []) + Shown(pages[1..])
  }

  lemma EntriesTile(lines: seq<string>, start: nat, n: nat)
    requires start + n <= |lines|
    ensures Entries(lines[start..], start)
         == Entries(lines[start..start + n], start) + Entries(lines[start + n..], start + n)
  {}

  lemma ShownMore(page: Response, more: seq<Response>)
    requires page.Segment?
    ensures Shown([page] + more) == page.entries + Shown(more)
  {
    assert ([page] + more)[1..] == more;
  }

  lemma PageEntries(s: string, start: nat, count: int)
    requires Scannable(s) && start <= |ScannedLines(s)|
    ensures var page, all, n := Served(Some(s), start, count, "head"), ScannedLines(s), PageSize(count);
      page.Segment? && page.entries
        == if start + n < |all| then Entries(all[start..start + n], start) else Entries(all[start..], start)
  {
    hide ParseLogLevel, Entries;
    Page(s, start, count);
    assert start == |ScannedLines(s)| ==> ScannedLines(s)[start..] == [];
  }

  lemma {:induction false} FollowShowsTheRest(s: string, count: int, start: nat)
    requires Scannable(s) && start <= |ScannedLines(s)|
    ensures Shown(Follow(s, count, start)) == Entries(ScannedLines(s)[start..], start)
    decreases |ScannedLines(s)| - start
  {
    hide Served, Entries, ScannedLines, Scannable, Follow, Shown, PageSize;
    FollowUnfolds(s, count, start);
    PageEntries(s, start, count);
    var page, all, n := Served(Some(s), start, count, "head"), ScannedLines(s), PageSize(count);
    if start + n < |all| {
      FollowShowsTheRest(s, count, start + n);
      EntriesTile(all, start, n);
      ShownMore(page, Follow(s, count, start + n));
    } else {
      ShownMore(page, []);
      NothingShown();
      assert [page] + [] == [page];
    }
  }

  lemma NothingShown()
    ensures Shown([]) == []
  {}

  // Page i starts i page sizes on, and the last page is the first one to reach the end.
  ghost predicate Paged(pages: seq<Response>, start: nat, n: nat, total: nat) {
    && |pages| >= 1
    && (forall i | 0 <= i < |pages| :: pages[i].Segment? && pages[i].start == start + i * n)
    && total <= start + |pages| * n
    && (|pages| > 1 ==> start + (|pages| - 1) * n < total)
  }

  lemma PagedMore(page: Response, more: seq<Response>, start: nat, n: nat, total: nat)
    requires Paged(more, start + n, n, total) && start + n < total && page.Segment? && page.start == start
    ensures Paged([page] + more, start, n, total)
  {
    var pages := [page] + more;
    forall i | 0 <= i < |pages| ensures pages[i].Segment? && pages[i].start == start + i * n {
      if i > 0 {
        assert pages[i] == more[i - 1] && (i - 1) * n + n == i * n;
      }
    }
    assert |pages| * n == |more| * n + n;
    assert (|pages| - 1) * n == (|more| - 1) * n + n;
  }

  lemma PagedOne(page: Response, start: nat, n: nat, total: nat)
    requires total <= start + n && page.Segment? && page.start == start
    ensures Paged([page], start, n, total)
  {}

  lemma {:induction false} FollowStops(s: string, count: int, start: nat)
    requires Scannable(s)
    ensures Paged(Follow(s, count, start), start, PageSize(count), |ScannedLines(s)|)
    decreases if |ScannedLines(s)| < start then 0 else |ScannedLines(s)| - start
  {
    hide Served, Follow, Paged, PageSize, ScannedLines, Scannable;
    FollowUnfolds(s, count, start);
    var page, n, total := Served(Some(s), start, count, "head"), PageSize(count), |ScannedLines(s)|;
    if start + n < total {
      FollowStops(s, count, start + n);
      PagedMore(page, Follow(s, count, start + n), start, n, total);
    } else {
      PagedOne(page, start, n, total);
    }
  }

  // Entries that show lines without their trailing carriage returns, numbered from first.
  ghost predicate ShowsLines(entries: seq<Entry>, lines: seq<string>, first: int) {
    && |entries| == |lines|
    && forall i | 0 <= i < |lines| ::
         entries[i] == Entry(DropCR(lines[i]), ParseLogLevel(DropCR(lines[i])), first + i)
  }

  lemma EntriesShow(scanned: seq<string>, lines: seq<string>, first: int)
    requires |scanned| == |lines| && forall i | 0 <= i < |lines| :: scanned[i] == DropCR(lines[i])
    ensures ShowsLines(Entries(scanned, first), lines, first)
  {}

  // total lines need this many pages of n, and an empty file needs one.
  predicate PagesNeeded(pages: nat, n: nat, total: nat) {
    total <= pages * n && (if total == 0 then pages == 1 else (pages - 1) * n < total)
  }

  lemma PagedIsNeeded(pages: seq<Response>, n: nat, total: nat)
    requires n >= 1 && Paged(pages, 0, n, total)
    ensures PagesNeeded(|pages|, n, total)
  {}

  // Following has_more from the start shows every line of the file once, in order and numbered from 0,
  // in as few requests as the page size allows.
  lemma PaginationTilesTheFile(s: string, count: int)
    requires Scannable(s)
    ensures ShowsLines(Shown(Follow(s, count, 0)), Lines(s), 0)
    ensures PagesNeeded(|Follow(s, count, 0)|, PageSize(count), |Lines(s)|)
  {
    FollowShowsAll(s, count);
    FollowStops(s, count, 0);
    PagedIsNeeded(Follow(s, count, 0), PageSize(count), |ScannedLines(s)|);
    ScannerAgrees(s);
  }

  lemma FollowShowsAll(s: string, count: int)
    requires Scannable(s)
    ensures ShowsLines(Shown(Follow(s, count, 0)), Lines(s), 0)
  {
    FollowShowsTheRest(s, count, 0);
    assert ScannedLines(s)[0..] == ScannedLines(s);
    ScannerAgrees(s);
    EntriesShow(ScannedLines(s), Lines(s), 0);
  }

  function Last<T>(l: seq<T>, n: nat): seq<T> {
    if |l| <= n then l else l[|l| - n..]
  }

  lemma TailPage(s: string, start: int, count: int)
    requires Scannable(s)
    ensures var r, t := Served(Some(s), start, count, "tail"), Last(ScannedLines(s), PageSize(count));
      && r.Segment? && !r.hasMore && r.start == |ScannedLines(s)| - |t| && r.entries == Entries(t, r.start)
  {
    var n, all := PageSize(count), ScannedLines(s);
    var first := if |all| > n then |all| - n else 0;
    assert Window(all, first, n) == Last(all, n);
  }

  lemma LastAt<T>(l: seq<T>, n: nat, i: nat)
    requires i < |Last(l, n)|
    ensures |l| - |Last(l, n)| + i < |l| && Last(l, n)[i] == l[|l| - |Last(l, n)| + i]
  {}

  lemma ScanAt(scanned: seq<string>, lines: seq<string>, i: nat)
    requires ScanOf(scanned, lines, true) && i < |lines|
    ensures |scanned| == |lines| && scanned[i] == DropCR(lines[i])
  {}

  lemma LastLength<T>(l: seq<T>, n: nat)
    ensures |Last(l, n)| == if |l| <= n then |l| else n
  {}

  lemma LastOfScan(scanned: seq<string>, lines: seq<string>, n: nat)
    requires ScanOf(scanned, lines, true)
    ensures |Last(scanned, n)| == |Last(lines, n)|
    ensures forall i | 0 <= i < |Last(lines, n)| :: Last(scanned, n)[i] == DropCR(Last(lines, n)[i])
  {
    assert |scanned| == |lines|;
    hide Last, DropCR, ScanOf;
    LastLength(scanned, n);
    LastLength(lines, n);
    forall i | 0 <= i < |Last(lines, n)| ensures Last(scanned, n)[i] == DropCR(Last(lines, n)[i]) {
      LastAt(scanned, n, i);
      LastAt(lines, n, i);
      ScanAt(scanned, lines, |lines| - |Last(lines, n)| + i);
    }
  }

  lemma TailIsLast(s: string, n: nat)
    ensures TailLogFile(Some(s), n) == Tail(Last(Lines(s), n))
  {}

  // Tail mode shows the lines TailLogFile returns, up to a trailing carriage return, with their numbers
  // in the file, and nothing follows them.
  lemma TailModeIsTail(s: string, start: int, count: int)
    requires Scannable(s)
    ensures var r, t := Served(Some(s), start, count, "tail"), TailLogFile(Some(s), PageSize(count));
      && r.Segment? && t.Tail? && !r.hasMore
      && r.start == |Lines(s)| - |t.lines| && ShowsLines(r.entries, t.lines, r.start)
  {
    hide ParseLogLevel;
    var n, scanned, lines := PageSize(count), ScannedLines(s), Lines(s);
    TailPage(s, start, count);
    TailIsLast(s, n);
    ScannerAgrees(s);
    LastOfScan(scanned, lines, n);
    EntriesShow(Last(scanned, n), Last(lines, n), |lines| - |Last(lines, n)|);
  }
}
