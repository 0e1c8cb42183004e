/** Log levels: detection in a line, filters, and the parser of filter parameters. */
module LogLevels {
  import opened Options
  import opened Text

  // nil in the source is None: no filtering.
  type LevelFilter = Option<set<string>>

  const VALID_LEVELS := {"debug", "info", "warn", "error"}

  predicate MatchesFilter(level: string, filter: LevelFilter) {
    filter.None? || (if level == "" then "info" else level) in filter.value
  }

  function LowerChar(c: char): (l: char)
    ensures 'A' <= c <= 'Z' ==> 'a' <= l <= 'z' && l as int - 'a' as int == c as int - 'A' as int
    ensures !('A' <= c <= 'Z') ==> l == c
  {
    if 'A' <= c <= 'Z' then c - 'A' + 'a' else c
  }

  function ToLower(s: string): string {
    seq(|s|, i requires 0 <= i < |s| => LowerChar(s[i]))
  }

  predicate Contains(s: string, sub: string) {
    sub <= s || (s != "" && Contains(s[1..], sub))
  }

  // The patterns of ParseLogLevel in the order they are tried.
  const PATTERNS: seq<(string, string)> := [
    ("[error]", "error"), ("[err]", "error"), ("[fatal]", "error"),
    ("[warn]", "warn"), ("[warning]", "warn"),
    ("[info]", "info"), ("[debug]", "debug"), ("[trace]", "debug"),
    ("level=error", "error"), ("level=fatal", "error"),
    ("level=warn", "warn"), ("level=warning", "warn"),
    ("level=info", "info"), ("level=debug", "debug"),
    (" error ", "error"), (" fatal ", "error"), (" warn ", "warn"), (" warning ", "warn")]

  function FirstMatch(lower: string, patterns: seq<(string, string)>): string {
    if patterns == [] then "info"
    else if Contains(lower, patterns[0].0) then patterns[0].1
    else FirstMatch(lower, patterns[1..])
  }

  function ParseLogLevel(line: string): string {
    FirstMatch(ToLower(line), PATTERNS)
  }

  predicate IsSpace(c: char): (space: bool)
    ensures space <==> c as int in {9, 10, 11, 12, 13, 32}
  {
    c == ' ' || '\t' <= c <= '\r'
  }

  function TrimLeft(s: string): string {
    if s != "" && IsSpace(s[0]) then TrimLeft(s[1..]) else s
  }

  function TrimRight(s: string): string {
    if s != "" && IsSpace(s[|s| - 1]) then TrimRight(s[..|s| - 1]) else s
  }

  function TrimSpace(s: string): string {
    TrimRight(TrimLeft(s))
  }

  // The filter a query parameter asks for: the recognised levels among the comma-separated parts,
  // and no filtering when there is none or the whole parameter is "all".
  function Requested(filter: string): set<string> {
    var f := TrimSpace(ToLower(filter));
    set p | p in Split(f, ',') && TrimSpace(p) in VALID_LEVELS :: TrimSpace(p)
  }

  // The filter a query parameter stands for.
  function FilterOf(filter: string): LevelFilter {
    if TrimSpace(ToLower(filter)) == "all" || Requested(filter) == {} then None else Some(Requested(filter))
  }

  // The level is one of the parts of the parameter, up to case and surrounding space.
  predicate Listed(filter: string, level: string) {
    exists part :: part in Split(TrimSpace(ToLower(filter)), ',') && TrimSpace(part) == level
  }

  // A parameter filters by exactly the recognised levels it lists, and not at all if it lists none.
  lemma FilterIsListed(filter: string)
    ensures FilterOf(filter).None? <==>
      TrimSpace(ToLower(filter)) == "all" || forall level <- VALID_LEVELS :: !Listed(filter, level)
    ensures FilterOf(filter).Some? ==>
      forall level :: level in FilterOf(filter).value <==> level in VALID_LEVELS && Listed(filter, level)
  {
    hide TrimSpace, ToLower, Split;
    forall level ensures level in Requested(filter) <==> level in VALID_LEVELS && Listed(filter, level) {
      if Listed(filter, level) && level in VALID_LEVELS {
        var part :| part in Split(TrimSpace(ToLower(filter)), ',') && TrimSpace(part) == level;
      }
    }
    if Requested(filter) != {} {
      var level :| level in Requested(filter);
    }
  }

  method ParseLevelFilter(filter: string) returns (levels: LevelFilter)
    ensures levels.None? <==> TrimSpace(ToLower(filter)) == "all" || Requested(filter) == {}
    ensures levels.Some? ==> levels.value == Requested(filter)
    ensures levels == FilterOf(filter)
  {
    var f := TrimSpace(ToLower(filter));
    if f == "" || f == "all" {
      if f == "" {
        assert Split(f, ',') == [""] && TrimSpace("") == "";
        assert Requested(filter) == {};
      }
      return None;
    }
    var parts := Split(f, ',');
    var found: set<string> := {};
    for i := 0 to |parts|
      invariant found == set p | p in parts[..i] && TrimSpace(p) in VALID_LEVELS :: TrimSpace(p)
    {
      var part := TrimSpace(parts[i]);
      assert parts[..i + 1] == parts[..i] + [parts[i]];
      if part in VALID_LEVELS {
        found := found + {part};
      }
    }
    assert parts[..|parts|] == parts;
    levels := if found == {} then None else Some(found);
  }

  lemma {:induction false} FirstMatchIsListed(lower: string, patterns: seq<(string, string)>)
    ensures FirstMatch(lower, patterns) == "info" || exists p <- patterns :: FirstMatch(lower, patterns) == p.1
  {
    if patterns != [] && !Contains(lower, patterns[0].0) {
      FirstMatchIsListed(lower, patterns[1..]);
    }
  }

  // Every line has one of the four recognised levels, so a filter naming all four hides nothing.
  lemma EveryLineHasALevel(line: string)
    ensures ParseLogLevel(line) in VALID_LEVELS
    ensures MatchesFilter(ParseLogLevel(line), Some(VALID_LEVELS))
  {
    FirstMatchIsListed(ToLower(line), PATTERNS);
    assert forall p <- PATTERNS :: p.1 in VALID_LEVELS;
  }

  // ----- What the text functions find -----

  predicate OccursAt(s: string, sub: string, i: nat) {
    i + |sub| <= |s| && s[i..i + |sub|] == sub
  }

  lemma OccursLater(s: string, sub: string, i: nat)
    requires s != ""
    ensures OccursAt(s, sub, i + 1) <==> OccursAt(s[1..], sub, i)
  {
    if i + 1 + |sub| <= |s| {
      assert s[1..][i..i + |sub|] == s[i + 1..i + 1 + |sub|];
    }
  }

  // Contains finds exactly the texts that occur somewhere.
  lemma {:induction false} ContainsIff(s: string, sub: string)
    ensures Contains(s, sub) <==> exists i: nat :: OccursAt(s, sub, i)
  {
    if sub <= s {
      assert OccursAt(s, sub, 0);
    } else if s != "" {
      ContainsIff(s[1..], sub);
      if i: nat :| OccursAt(s[1..], sub, i) {
        OccursLater(s, sub, i);
      }
      if i: nat :| OccursAt(s, sub, i) {
        assert i > 0;
        OccursLater(s, sub, i - 1);
      }
    }
  }

  predicate AllSpace(s: string) {
    forall c <- s :: IsSpace(c)
  }

  lemma {:induction false} TrimLeftTakes(s: string) returns (left: string)
    ensures s == left + TrimLeft(s) && AllSpace(left) && (TrimLeft(s) == "" || !IsSpace(TrimLeft(s)[0]))
  {
    left := "";
    if s != "" && IsSpace(s[0]) {
      var more := TrimLeftTakes(s[1..]);
      left := [s[0]] + more;
      assert s == [s[0]] + s[1..];
    }
  }

  lemma {:induction false} TrimRightTakes(s: string) returns (right: string)
    ensures s == TrimRight(s) + right && AllSpace(right)
    ensures TrimRight(s) == "" || !IsSpace(TrimRight(s)[|TrimRight(s)| - 1])
  {
    right := "";
    if s != "" && IsSpace(s[|s| - 1]) {
      var more := TrimRightTakes(s[..|s| - 1]);
      right := more + [s[|s| - 1]];
      assert s == s[..|s| - 1] + [s[|s| - 1]];
    }
  }

  // TrimSpace takes away space at both ends, all of it and nothing else.
  lemma TrimSpaceTakes(s: string) returns (left: string, right: string)
    ensures s == left + TrimSpace(s) + right && AllSpace(left) && AllSpace(right)
    ensures var t := TrimSpace(s); t == "" || (!IsSpace(t[0]) && !IsSpace(t[|t| - 1]))
  {
    hide TrimLeft, TrimRight, IsSpace, AllSpace;
    left := TrimLeftTakes(s);
    right := TrimRightTakes(TrimLeft(s));
  }

  // ----- What ParseLogLevel finds -----

  // The mark, which is in lower case, stands at position i of the line, in any case.
  predicate StandsAt(line: string, mark: string, i: nat) {
    i + |mark| <= |line| && forall k | 0 <= k < |mark| :: LowerChar(line[i + k]) == mark[k]
  }

  predicate Marked(line: string, mark: string) {
    exists i: nat | i <= |line| :: StandsAt(line, mark, i)
  }

  predicate AnyMark(line: string, marks: seq<string>) {
    exists k :: 0 <= k < |marks| && Marked(line, marks[k])
  }

  lemma StandsIffOccurs(line: string, mark: string, i: nat)
    ensures StandsAt(line, mark, i) <==> OccursAt(ToLower(line), mark, i)
  {
    var lower := ToLower(line);
    if OccursAt(lower, mark, i) {
      forall k | 0 <= k < |mark| ensures LowerChar(line[i + k]) == mark[k] {
        assert lower[i..i + |mark|][k] == lower[i + k];
      }
    }
  }

  lemma MarkedIffContains(line: string, mark: string)
    ensures Marked(line, mark) <==> Contains(ToLower(line), mark)
  {
    ContainsIff(ToLower(line), mark);
    hide Contains, OccursAt;
    if i: nat :| StandsAt(line, mark, i) {
      StandsIffOccurs(line, mark, i);
    }
    if i: nat :| OccursAt(ToLower(line), mark, i) {
      StandsIffOccurs(line, mark, i);
    }
  }

  // Patterns a to b of a list are marks of one level.
  predicate Group(patterns: seq<(string, string)>, a: nat, marks: seq<string>, level: string) {
    a + |marks| <= |patterns| && forall k | 0 <= k < |marks| :: patterns[a + k] == (marks[k], level)
  }

  lemma {:induction false} GroupDecides(line: string, patterns: seq<(string, string)>, a: nat, marks: seq<string>,
                                        level: string)
    requires Group(patterns, a, marks, level)
    ensures FirstMatch(ToLower(line), patterns[a..])
      == if AnyMark(line, marks) then level else FirstMatch(ToLower(line), patterns[a + |marks|..])
    decreases |marks|
  {
    hide ToLower, Contains, Marked;
    if marks != [] {
      MarkedIffContains(line, marks[0]);
      GroupDecides(line, patterns, a + 1, marks[1..], level);
      assert patterns[a..][0] == (marks[0], level) && patterns[a..][1..] == patterns[a + 1..];
      AnyOfMore(line, marks);
    }
  }

  lemma AnyOfMore(line: string, marks: seq<string>)
    requires marks != []
    ensures AnyMark(line, marks) <==> Marked(line, marks[0]) || AnyMark(line, marks[1..])
  {
    if k :| 0 <= k < |marks| && Marked(line, marks[k]) {
      assert k > 0 ==> marks[1..][k - 1] == marks[k];
    }
    if k :| 0 <= k < |marks[1..]| && Marked(line, marks[1..][k]) {
      assert marks[k + 1] == marks[1..][k];
    }
  }

  function LevelByBrackets(line: string, otherwise: string): string {
    if AnyMark(line, ["[error]", "[err]", "[fatal]"]) then "error"
    else if AnyMark(line, ["[warn]", "[warning]"]) then "warn"
    else if AnyMark(line, ["[info]"]) then "info"
    else if AnyMark(line, ["[debug]", "[trace]"]) then "debug"
    else otherwise
  }

  function LevelByField(line: string, otherwise: string): string {
    if AnyMark(line, ["level=error", "level=fatal"]) then "error"
    else if AnyMark(line, ["level=warn", "level=warning"]) then "warn"
    else if AnyMark(line, ["level=info"]) then "info"
    else if AnyMark(line, ["level=debug"]) then "debug"
    else otherwise
  }

  function LevelByWord(line: string): string {
    if AnyMark(line, [" error ", " fatal "]) then "error"
    else if AnyMark(line, [" warn ", " warning "]) then "warn"
    else "info"
  }

  lemma BracketGroups()
    ensures Group(PATTERNS, 0, ["[error]", "[err]", "[fatal]"], "error")
    ensures Group(PATTERNS, 3, ["[warn]", "[warning]"], "warn")
    ensures Group(PATTERNS, 5, ["[info]"], "info") && Group(PATTERNS, 6, ["[debug]", "[trace]"], "debug")
  {}

  lemma FieldGroups()
    ensures Group(PATTERNS, 8, ["level=error", "level=fatal"], "error")
    ensures Group(PATTERNS, 10, ["level=warn", "level=warning"], "warn")
    ensures Group(PATTERNS, 12, ["level=info"], "info") && Group(PATTERNS, 13, ["level=debug"], "debug")
  {}

  lemma WordGroups()
    ensures Group(PATTERNS, 14, [" error ", " fatal "], "error")
    ensures Group(PATTERNS, 16, [" warn ", " warning "], "warn") && |PATTERNS| == 18
  {}

  lemma BracketsDecide(line: string)
    ensures FirstMatch(ToLower(line), PATTERNS[0..])
      == LevelByBrackets(line, FirstMatch(ToLower(line), PATTERNS[8..]))
  {
    hide FirstMatch, AnyMark, ToLower, Group;
    BracketGroups();
    GroupDecides(line, PATTERNS, 0, ["[error]", "[err]", "[fatal]"], "error");
    GroupDecides(line, PATTERNS, 3, ["[warn]", "[warning]"], "warn");
    GroupDecides(line, PATTERNS, 5, ["[info]"], "info");
    GroupDecides(line, PATTERNS, 6, ["[debug]", "[trace]"], "debug");
  }

  lemma FieldsDecide(line: string)
    ensures FirstMatch(ToLower(line), PATTERNS[8..])
      == LevelByField(line, FirstMatch(ToLower(line), PATTERNS[14..]))
  {
    hide FirstMatch, AnyMark, ToLower, Group;
    FieldGroups();
    GroupDecides(line, PATTERNS, 8, ["level=error", "level=fatal"], "error");
    GroupDecides(line, PATTERNS, 10, ["level=warn", "level=warning"], "warn");
    GroupDecides(line, PATTERNS, 12, ["level=info"], "info");
    GroupDecides(line, PATTERNS, 13, ["level=debug"], "debug");
  }

  lemma WordsDecide(line: string)
    ensures FirstMatch(ToLower(line), PATTERNS[14..]) == LevelByWord(line)
  {
    hide AnyMark, ToLower, Group;
    WordGroups();
    GroupDecides(line, PATTERNS, 14, [" error ", " fatal "], "error");
    GroupDecides(line, PATTERNS, 16, [" warn ", " warning "], "warn");
    assert PATTERNS[18..] == [];
  }

  // The level of a line: by a bracketed mark, in any case and at any position, the most severe kind first;
  // failing that by a level field; failing that by a word between spaces; and info otherwise.
  lemma LevelByMarks(line: string)
    ensures ParseLogLevel(line) == LevelByBrackets(line, LevelByField(line, LevelByWord(line)))
  {
    hide FirstMatch, ToLower, LevelByBrackets, LevelByField, LevelByWord;
    BracketsDecide(line);
    FieldsDecide(line);
    WordsDecide(line);
    assert PATTERNS[0..] == PATTERNS;
  }
}
