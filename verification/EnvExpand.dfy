/** Environment expansion of configuration strings: the two regular-expression passes, and what they mean
    on a template of literals and references. */
module EnvExpansion {
  import opened Options
  import opened Text

  type Env = map<string, string>

  // os.Getenv: an unset variable reads as empty.
  function Getenv(env: Env, name: string): string {
    if name in env then env[name] else ""
  }

  predicate IsWord(c: char) {
    'A' <= c <= 'Z' || 'a' <= c <= 'z' || '0' <= c <= '9' || c == '_'
  }

  // How far [A-Za-z0-9_]* reaches.
  function WordLength(s: string): (n: nat)
    ensures n <= |s|
  {
    if s == "" || !IsWord(s[0]) then 0 else 1 + WordLength(s[1..])
  }

  lemma {:induction false} WordLengthIsLongest(s: string)
    ensures var n := WordLength(s); (forall i | 0 <= i < n :: IsWord(s[i])) && (n < |s| ==> !IsWord(s[n]))
  {
    if s != "" && IsWord(s[0]) {
      WordLengthIsLongest(s[1..]);
      assert forall i | 1 <= i < |s| :: s[i] == s[1..][i - 1];
    }
  }

  predicate IsName(s: string) {
    s != "" && forall c <- s :: IsWord(c)
  }

  // ----- The two passes -----

  datatype Match = Match(name: string, defaultValue: string, rest: string)

  // ${NAME} or ${NAME:-default} at the front of s, the default reaching to the first closing brace.
  function MatchBraced(s: string): (m: Option<Match>)
    ensures m.Some? ==> |m.value.rest| < |s|
  {
    if |s| < 2 || s[0] != '$' || s[1] != '{' then None
    else
      var n := WordLength(s[2..]);
      var after := s[2 + n..];
      if n == 0 || after == "" then None
      else if after[0] == '}' then Some(Match(s[2..2 + n], "", after[1..]))
      else if |after| < 2 || after[0] != ':' || after[1] != '-' then None
      else
        var k := IndexOf(after[2..], '}');
        if k < |after| - 2 then Some(Match(s[2..2 + n], after[2..2 + k], after[3 + k..])) else None
  }

  function BracedValue(env: Env, name: string, defaultValue: string): string {
    if Getenv(env, name) == "" then defaultValue else Getenv(env, name)
  }

  function BracedPass(env: Env, s: string): string
    decreases |s|
  {
    if s == "" then ""
    else match MatchBraced(s)
      case Some(m) => BracedValue(env, m.name, m.defaultValue) + BracedPass(env, m.rest)
      case None => [s[0]] + BracedPass(env, s[1..])
  }

  // $NAME keeps its text when the variable is unset or empty.
  function SimpleValue(env: Env, name: string): string {
    if Getenv(env, name) == "" then ['$'] + name else Getenv(env, name)
  }

  function SimplePass(env: Env, s: string): string
    decreases |s|
  {
    if s == "" then ""
    else if s[0] == '$' && WordLength(s[1..]) > 0 then
      var n := WordLength(s[1..]);
      SimpleValue(env, s[1..1 + n]) + SimplePass(env, s[1 + n..])
    else [s[0]] + SimplePass(env, s[1..])
  }

  function ExpandString(env: Env, s: string): string {
    SimplePass(env, BracedPass(env, s))
  }

  // ----- Templates -----

  datatype Token =
    | Literal(text: string)
    | Braced(name: string, defaultValue: Option<string>)
    | Simple(name: string)

  // No dollar sign of the text starts a reference, whatever follows the text.
  predicate Inert(s: string) {
    forall i | 0 <= i < |s| && s[i] == '$' :: i + 1 < |s| && s[i + 1] != '{' && !IsWord(s[i + 1])
  }

  predicate WellFormed(t: Token) {
    match t
    case Literal(text) => Inert(text)
    case Braced(name, d) => IsName(name) && (d.Some? ==> '}' !in d.value)
    case Simple(name) => IsName(name)
  }

  function TokenText(t: Token): string {
    match t
    case Literal(text) => text
    case Braced(name, None) => ['$', '{'] + name + ['}']
    case Braced(name, Some(d)) => ['$', '{'] + name + [':', '-'] + d + ['}']
    case Simple(name) => ['$'] + name
  }

  function TextOf(ts: seq<Token>): string {
    if ts == [] then "" else TokenText(ts[0]) + TextOf(ts[1..])
  }

  // What a token stands for: a variable that is unset or empty gives way to the default, to nothing
  // without one, and to the text of a simple reference.
  function TokenValue(env: Env, t: Token): string {
    match t
    case Literal(text) => text
    case Braced(name, None) => if name in env then env[name] else ""
    case Braced(name, Some(d)) => if name in env && env[name] != "" then env[name] else d
    case Simple(name) => if name in env && env[name] != "" then env[name] else ['$'] + name
  }

  function ValueOf(env: Env, ts: seq<Token>): string {
    if ts == [] then "" else TokenValue(env, ts[0]) + ValueOf(env, ts[1..])
  }

  // The text between the passes: braced references replaced, simple ones not yet.
  function HalfToken(env: Env, t: Token): string {
    if t.Simple? then TokenText(t) else TokenValue(env, t)
  }

  function HalfText(env: Env, ts: seq<Token>): string {
    if ts == [] then "" else HalfToken(env, ts[0]) + HalfText(env, ts[1..])
  }

  // ----- The first pass -----

  lemma {:induction false} WordThen(name: string, rest: string)
    requires forall c <- name :: IsWord(c)
    requires rest == "" || !IsWord(rest[0])
    ensures WordLength(name + rest) == |name|
  {
    if name == "" {
      assert name + rest == rest;
    } else {
      assert (name + rest)[1..] == name[1..] + rest;
      assert name[0] in name;
      WordThen(name[1..], rest);
    }
  }

  lemma {:induction false} IndexAfter(s: string, c: char, rest: string)
    requires c !in s
    ensures IndexOf(s + [c] + rest, c) == |s|
  {
    var t := s + [c] + rest;
    if s != "" {
      assert s[0] in s && t[1..] == s[1..] + [c] + rest;
      IndexAfter(s[1..], c, rest);
    }
  }

  lemma BracedPassCopies(env: Env, c: char, rest: string)
    requires c != '$'
    ensures BracedPass(env, [c] + rest) == [c] + BracedPass(env, rest)
  {
    assert ([c] + rest)[1..] == rest;
  }

  lemma BracedPassSkipsDollar(env: Env, rest: string)
    requires rest != "" && rest[0] != '{'
    ensures BracedPass(env, ['$'] + rest) == ['$'] + BracedPass(env, rest)
  {
    HeadAndRest('$', rest);
    assert (['$'] + rest)[1] == rest[0];
  }

  lemma InertRest(s: string)
    requires Inert(s) && s != ""
    ensures Inert(s[1..]) && (s[0] == '$' ==> |s| > 1 && s[1] != '{' && !IsWord(s[1]))
  {
    forall i | 0 <= i < |s| - 1 && s[1..][i] == '$' ensures i + 2 < |s| && s[i + 2] != '{' && !IsWord(s[i + 2]) {
      assert s[i + 1] == '$';
    }
  }

  // Text that starts no reference goes through the first pass unchanged.
  lemma {:induction false} PlainThroughBraced(env: Env, s: string, rest: string)
    requires Inert(s)
    ensures BracedPass(env, s + rest) == s + BracedPass(env, rest)
  {
    hide BracedPass, Inert;
    if s == "" {
      assert s + rest == rest;
    } else {
      InertRest(s);
      PlainThroughBraced(env, s[1..], rest);
      if s[0] == '$' {
        BracedPassSkipsDollar(env, s[1..] + rest);
      } else {
        BracedPassCopies(env, s[0], s[1..] + rest);
      }
      assert s + rest == [s[0]] + (s[1..] + rest);
      assert s + BracedPass(env, rest) == [s[0]] + (s[1..] + BracedPass(env, rest));
    }
  }

  lemma NamesAreInert(name: string)
    requires IsName(name)
    ensures Inert(name)
  {
    forall i | 0 <= i < |name| ensures IsWord(name[i]) {
      assert name[i] in name;
    }
  }

  lemma SimpleThroughBraced(env: Env, name: string, rest: string)
    requires IsName(name)
    ensures BracedPass(env, ['$'] + name + rest) == ['$'] + name + BracedPass(env, rest)
  {
    hide BracedPass;
    assert name[0] in name && (name + rest)[0] == name[0];
    BracedPassSkipsDollar(env, name + rest);
    NamesAreInert(name);
    PlainThroughBraced(env, name, rest);
    Reassociate(['$'], name, rest);
    Reassociate(['$'], name, BracedPass(env, rest));
  }

  lemma MatchesBare(name: string, rest: string)
    requires IsName(name)
    ensures MatchBraced(['$', '{'] + name + ['}'] + rest) == Some(Match(name, "", rest))
  {
    hide IndexOf;
    var s := ['$', '{'] + name + ['}'] + rest;
    assert s[2..] == name + (['}'] + rest);
    WordThen(name, ['}'] + rest);
    assert s[2..2 + |name|] == name && s[2 + |name|..] == ['}'] + rest;
    assert (['}'] + rest)[1..] == rest;
  }

  lemma MatchesDefault(name: string, d: string, rest: string)
    requires IsName(name) && '}' !in d
    ensures MatchBraced(['$', '{'] + name + [':', '-'] + d + ['}'] + rest) == Some(Match(name, d, rest))
  {
    hide IndexOf, WordLength;
    var s := ['$', '{'] + name + [':', '-'] + d + ['}'] + rest;
    var after := [':', '-'] + d + ['}'] + rest;
    assert s[2..] == name + after;
    WordThen(name, after);
    assert s[2..2 + |name|] == name && s[2 + |name|..] == after;
    assert after[2..] == d + ['}'] + rest;
    IndexAfter(d, '}', rest);
    assert after[2..2 + |d|] == d && after[3 + |d|..] == rest;
  }

  lemma BracedThroughBraced(env: Env, t: Token, rest: string)
    requires WellFormed(t) && t.Braced?
    ensures BracedPass(env, TokenText(t) + rest) == TokenValue(env, t) + BracedPass(env, rest)
  {
    hide WordLength, IndexOf, MatchBraced;
    if t.defaultValue.None? {
      MatchesBare(t.name, rest);
      assert TokenText(t) + rest == ['$', '{'] + t.name + ['}'] + rest;
    } else {
      MatchesDefault(t.name, t.defaultValue.value, rest);
      assert TokenText(t) + rest == ['$', '{'] + t.name + [':', '-'] + t.defaultValue.value + ['}'] + rest;
    }
  }

  // The first pass replaces exactly the braced references, whatever their values and defaults contain.
  lemma {:induction false} BracedPassIsHalf(env: Env, ts: seq<Token>)
    requires forall t <- ts :: WellFormed(t)
    ensures BracedPass(env, TextOf(ts)) == HalfText(env, ts)
  {
    hide BracedPass;
    if ts == [] {
      EmptyPass(env);
    } else {
      var t, rest := ts[0], TextOf(ts[1..]);
      assert WellFormed(t);
      BracedPassIsHalf(env, ts[1..]);
      if t.Literal? {
        PlainThroughBraced(env, t.text, rest);
      } else if t.Braced? {
        BracedThroughBraced(env, t, rest);
      } else {
        SimpleThroughBraced(env, t.name, rest);
      }
    }
  }

  lemma EmptyPass(env: Env)
    ensures BracedPass(env, "") == ""
  {}

  // ----- The second pass -----

  // The text ends in a dollar sign and name characters, so that what follows may belong to a name.
  predicate Open(s: string) {
    s != "" && ((s[0] == '$' && WordLength(s[1..]) == |s| - 1) || Open(s[1..]))
  }

  lemma {:induction false} OpenEnd(s: string, k: nat)
    requires k <= |s| && Open(s[k..])
    ensures Open(s)
  {
    if k == 0 {
      assert s[0..] == s;
    } else {
      assert s[1..][k - 1..] == s[k..];
      OpenEnd(s[1..], k - 1);
    }
  }

  predicate Separate(s: string, rest: string) {
    rest == "" || !IsWord(rest[0]) || !Open(s)
  }

  lemma {:induction false} WordStops(s: string, rest: string)
    requires WordLength(s) < |s| || rest == "" || !IsWord(rest[0])
    ensures WordLength(s + rest) == WordLength(s)
  {
    if s == "" {
      assert s + rest == rest;
    } else if IsWord(s[0]) {
      assert (s + rest)[1..] == s[1..] + rest;
      WordStops(s[1..], rest);
    }
  }

  lemma SimplePassReplaces(env: Env, s: string, n: nat)
    requires s != "" && s[0] == '$' && WordLength(s[1..]) == n > 0
    ensures n + 1 <= |s|
    ensures SimplePass(env, s) == SimpleValue(env, s[1..1 + n]) + SimplePass(env, s[1 + n..])
  {}

  lemma SimplePassCopies(env: Env, s: string)
    requires s != "" && (s[0] != '$' || WordLength(s[1..]) == 0)
    ensures SimplePass(env, s) == [s[0]] + SimplePass(env, s[1..])
  {}

  // One step over s, when the text behind it splits.
  lemma SplitAfterReference(env: Env, s: string, rest: string, n: nat)
    requires s != "" && s[0] == '$' && WordLength(s[1..]) == n > 0 && WordLength(s[1..] + rest) == n
    requires SimplePass(env, s[1 + n..] + rest) == SimplePass(env, s[1 + n..]) + SimplePass(env, rest)
    ensures SimplePass(env, s + rest) == SimplePass(env, s) + SimplePass(env, rest)
  {
    hide SimplePass, SimpleValue, WordLength;
    SliceOfSum(s, rest, 1, 1);
    SliceOfSum(s, rest, 1, 1 + n);
    SimplePassReplaces(env, s, n);
    SimplePassReplaces(env, s + rest, n);
    Reassociate(SimpleValue(env, s[1..1 + n]), SimplePass(env, s[1 + n..]), SimplePass(env, rest));
  }

  lemma SplitAfterCopy(env: Env, s: string, rest: string)
    requires s != "" && (s[0] != '$' || (WordLength(s[1..]) == 0 && WordLength(s[1..] + rest) == 0))
    requires SimplePass(env, s[1..] + rest) == SimplePass(env, s[1..]) + SimplePass(env, rest)
    ensures SimplePass(env, s + rest) == SimplePass(env, s) + SimplePass(env, rest)
  {
    hide SimplePass, WordLength;
    SliceOfSum(s, rest, 1, 1);
    SimplePassCopies(env, s);
    SimplePassCopies(env, s + rest);
    Reassociate([s[0]], SimplePass(env, s[1..]), SimplePass(env, rest));
  }

  // Where no name can run across the border, the second pass treats the two parts on their own.
  lemma {:induction false} SimplePassSplits(env: Env, s: string, rest: string)
    requires Separate(s, rest)
    ensures SimplePass(env, s + rest) == SimplePass(env, s) + SimplePass(env, rest)
    decreases |s|
  {
    hide SimplePass, WordLength, Separate;
    if s == "" {
      assert s + rest == rest;
      EmptySimplePass(env);
    } else {
      var n := WordLength(s[1..]);
      if s[0] == '$' {
        SeparateWord(s, rest);
        WordStops(s[1..], rest);
      }
      if s[0] == '$' && n > 0 {
        SeparateEnd(s, rest, 1 + n);
        SimplePassSplits(env, s[1 + n..], rest);
        SplitAfterReference(env, s, rest, n);
      } else {
        SeparateEnd(s, rest, 1);
        SimplePassSplits(env, s[1..], rest);
        SplitAfterCopy(env, s, rest);
      }
    }
  }

  lemma EmptySimplePass(env: Env)
    ensures SimplePass(env, "") == ""
  {}

  lemma SeparateWord(s: string, rest: string)
    requires s != "" && s[0] == '$' && Separate(s, rest)
    ensures WordLength(s[1..]) < |s| - 1 || rest == "" || !IsWord(rest[0])
  {}

  lemma SeparateEnd(s: string, rest: string, k: nat)
    requires Separate(s, rest) && k <= |s|
    ensures Separate(s[k..], rest)
  {
    if Open(s[k..]) {
      OpenEnd(s, k);
    }
  }

  lemma {:induction false} PlainThroughSimple(env: Env, s: string)
    requires Inert(s)
    ensures SimplePass(env, s) == s && !Open(s)
  {
    hide Inert, SimplePass;
    EmptySimplePass(env);
    if s != "" {
      InertRest(s);
      PlainThroughSimple(env, s[1..]);
      SimplePassCopies(env, s);
      assert s == [s[0]] + s[1..];
    }
  }

  lemma OneSimple(env: Env, name: string)
    requires IsName(name)
    ensures SimplePass(env, ['$'] + name) == SimpleValue(env, name)
  {
    var s := ['$'] + name;
    assert name + "" == name;
    WordThen(name, "");
    assert s[1..] == name && s[1..1 + |name|] == name && s[1 + |name|..] == "";
  }

  // ----- Both passes -----

  // No name runs from one token's part of the text between the passes into the next one's.
  predicate Apart(env: Env, ts: seq<Token>) {
    ts == [] || (Separate(HalfToken(env, ts[0]), HalfText(env, ts[1..])) && Apart(env, ts[1..]))
  }

  // The tokens' values with the second pass run over each: what a dollar sign in a value turns into.
  function RescannedText(env: Env, ts: seq<Token>): string {
    if ts == [] then "" else SimplePass(env, HalfToken(env, ts[0])) + RescannedText(env, ts[1..])
  }

  lemma {:induction false} SimplePassByToken(env: Env, ts: seq<Token>)
    requires Apart(env, ts)
    ensures SimplePass(env, HalfText(env, ts)) == RescannedText(env, ts)
  {
    hide SimplePass, HalfToken;
    if ts == [] {
      EmptySimplePass(env);
    } else {
      SimplePassSplits(env, HalfToken(env, ts[0]), HalfText(env, ts[1..]));
      SimplePassByToken(env, ts[1..]);
    }
  }

  // On every template whose names stay apart, expansion is each token's value scanned once more.
  lemma ExpandRescans(env: Env, ts: seq<Token>)
    requires (forall t <- ts :: WellFormed(t)) && Apart(env, ts)
    ensures ExpandString(env, TextOf(ts)) == RescannedText(env, ts)
  {
    BracedPassIsHalf(env, ts);
    SimplePassByToken(env, ts);
  }

  // What a template author has to look after: a simple reference is followed by something that, once
  // the braced references are replaced, does not continue its name.
  predicate NamesEnd(env: Env, ts: seq<Token>) {
    ts == []
    || (var rest := HalfText(env, ts[1..]);
        (ts[0].Simple? ==> rest == "" || !IsWord(rest[0])) && NamesEnd(env, ts[1..]))
  }

  // Values and defaults without a dollar sign.
  predicate PlainValue(env: Env, t: Token) {
    t.Braced? ==> '$' !in TokenValue(env, t)
  }

  lemma TokenRescanned(env: Env, t: Token)
    requires WellFormed(t) && PlainValue(env, t)
    ensures SimplePass(env, HalfToken(env, t)) == TokenValue(env, t)
    ensures !t.Simple? ==> !Open(HalfToken(env, t))
  {
    if t.Simple? {
      OneSimple(env, t.name);
    } else {
      PlainThroughSimple(env, TokenValue(env, t));
    }
  }

  lemma {:induction false} PlainIsApart(env: Env, ts: seq<Token>)
    requires (forall t <- ts :: WellFormed(t) && PlainValue(env, t)) && NamesEnd(env, ts)
    ensures Apart(env, ts) && RescannedText(env, ts) == ValueOf(env, ts)
  {
    hide HalfToken, TokenValue, SimplePass, Open;
    if ts != [] {
      assert WellFormed(ts[0]) && PlainValue(env, ts[0]);
      TokenRescanned(env, ts[0]);
      PlainIsApart(env, ts[1..]);
    }
  }

  // The two passes together replace every reference of a template by its value and nothing else.
  lemma TemplatesExpand(env: Env, ts: seq<Token>)
    requires (forall t <- ts :: WellFormed(t) && PlainValue(env, t)) && NamesEnd(env, ts)
    ensures ExpandString(env, TextOf(ts)) == ValueOf(env, ts)
  {
    PlainIsApart(env, ts);
    ExpandRescans(env, ts);
  }

  // A reference on its own: the variable's value, or what stands for a variable that is unset or empty.
  lemma ReferencesExpand(env: Env, name: string, d: string)
    requires IsName(name) && '$' !in d && '}' !in d
    ensures var given := name in env && env[name] != "";
      && (given ==> ExpandString(env, "$" + name) == env[name])
      && (!given ==> ExpandString(env, "$" + name) == "$" + name)
      && (given && '$' !in env[name] ==>
            ExpandString(env, "${" + name + ":-" + d + "}") == env[name] == ExpandString(env, "${" + name + "}"))
      && (!given ==>
            ExpandString(env, "${" + name + ":-" + d + "}") == d && ExpandString(env, "${" + name + "}") == "")
  {
    hide ExpandString;
    OneToken(env, Simple(name));
    if name in env ==> '$' !in env[name] {
      OneToken(env, Braced(name, None));
      OneToken(env, Braced(name, Some(d)));
    }
  }

  lemma OneToken(env: Env, t: Token)
    requires WellFormed(t) && PlainValue(env, t)
    ensures ExpandString(env, TokenText(t)) == TokenValue(env, t)
  {
    hide TokenText, TokenValue, HalfToken, WellFormed, PlainValue, ExpandString;
    var ts := [t];
    assert ts[1..] == [];
    assert TextOf(ts[1..]) == "" && ValueOf(env, ts[1..]) == "";
    assert TextOf(ts) == TokenText(t) + "" && ValueOf(env, ts) == TokenValue(env, t) + "";
    assert TokenText(t) + "" == TokenText(t) && TokenValue(env, t) + "" == TokenValue(env, t);
    assert NamesEnd(env, []) && HalfText(env, ts[1..]) == "";
    assert NamesEnd(env, ts);
    TemplatesExpand(env, ts);
  }

  lemma NameInFront(s: string)
    requires MatchBraced(s).Some?
    ensures var n := WordLength(s[2..]);
      && MatchBraced(s).value.name == s[2..2 + n] && IsName(s[2..2 + n])
      && s == ['$', '{'] + s[2..2 + n] + s[2 + n..]
  {
    WordLengthIsLongest(s[2..]);
    hide WordLength, IndexOf;
  }

  lemma DefaultInFront(after: string, k: nat)
    requires k < |after| - 2 && after[0] == ':' && after[1] == '-' && after[2 + k] == '}'
    ensures after == [':', '-'] + after[2..2 + k] + ['}'] + after[3 + k..]
  {}

  // The first pattern matches nothing but the texts of braced references.
  lemma MatchIsBraced(s: string)
    requires MatchBraced(s).Some?
    ensures var m := MatchBraced(s).value;
      IsName(m.name)
      && ((m.defaultValue == "" && s == ['$', '{'] + m.name + (['}'] + m.rest))
          || ('}' !in m.defaultValue && s == ['$', '{'] + m.name + ([':', '-'] + m.defaultValue + ['}'] + m.rest)))
  {
    NameInFront(s);
    hide WordLength, IndexOf, IsName;
    var after := s[2 + WordLength(s[2..])..];
    if after[0] == '}' {
      assert after == ['}'] + after[1..];
    } else {
      IndexOfIsFirst(after[2..], '}');
      DefaultInFront(after, IndexOf(after[2..], '}'));
    }
  }

  // Text in which no reference starts is kept as it is.
  lemma InertTextIsKept(env: Env, s: string)
    requires Inert(s)
    ensures ExpandString(env, s) == s && ExpandString(env, s + "$") == s + "$"
  {
    hide BracedPass, SimplePass;
    EmptyPass(env);
    PlainThroughBraced(env, s, "");
    assert s + "" == s;
    PlainThroughSimple(env, s);
    PlainThroughBraced(env, s, "$");
    LoneDollar(env);
    SimplePassSplits(env, s, "$");
  }

  lemma LoneDollar(env: Env)
    ensures BracedPass(env, "$") == "$" == SimplePass(env, "$")
  {}

  lemma NameThenText(env: Env, name: string, more: string)
    requires IsName(name)
    ensures var n := WordLength(more);
      SimplePass(env, ['$'] + name + more) == SimpleValue(env, name + more[..n]) + SimplePass(env, more[n..])
  {
    WordLengthIsLongest(more);
    hide SimplePass, SimpleValue, WordLength;
    var n := WordLength(more);
    var s, longer := ['$'] + name + more, name + more[..n];
    assert s[1..] == longer + more[n..];
    WordThen(longer, more[n..]);
    SimplePassReplaces(env, s, |longer|);
    assert s[1..1 + |longer|] == longer && s[1 + |longer|..] == more[n..];
  }

  // A simple reference takes every name character that follows once braced references are replaced.
  lemma SimpleTakesMore(env: Env, name: string, ts: seq<Token>)
    requires IsName(name) && forall t <- ts :: WellFormed(t)
    ensures var more := HalfText(env, ts);
      var n := WordLength(more);
      ExpandString(env, TextOf([Simple(name)] + ts)) == SimpleValue(env, name + more[..n]) + SimplePass(env, more[n..])
  {
    hide BracedPass, SimplePass, SimpleValue;
    var all := [Simple(name)] + ts;
    assert all[1..] == ts;
    assert forall t <- all :: WellFormed(t);
    BracedPassIsHalf(env, all);
    NameThenText(env, name, HalfText(env, ts));
  }

  // A value that contains a reference is expanded a second time.
  lemma ValuesAreRescanned()
    ensures var env := map["A" := "$B", "B" := "x"];
      && TextOf([Braced("A", None)]) == "${A}" && ValueOf(env, [Braced("A", None)]) == "$B"
      && ExpandString(env, "${A}") == "x"
  {
    hide BracedPass, SimplePass;
    var env, ts := map["A" := "$B", "B" := "x"], [Braced("A", None)];
    assert TextOf(ts) == TokenText(ts[0]) + "";
    BracedPassIsHalf(env, ts);
    assert HalfText(env, ts) == "$B" + "";
    OneSimple(env, "B");
    assert "$B" == ['$'] + "B";
  }

  // A name grows into the value that follows it.
  lemma NamesRunOn()
    ensures var env, ts := map["A" := "x", "B" := "y"], [Simple("A"), Braced("B", None)];
      TextOf(ts) == "$A${B}" && ValueOf(env, ts) == "xy" && ExpandString(env, "$A${B}") == "$Ay"
  {
    hide BracedPass, SimplePass;
    var env, ts := map["A" := "x", "B" := "y"], [Simple("A"), Braced("B", None)];
    var more := [Braced("B", None)];
    assert ts[1..] == more && ts == [Simple("A")] + more && more[1..] == [];
    assert TextOf(more) == "${B}" && HalfText(env, more) == "y";
    SimpleTakesMore(env, "A", more);
    assert WordLength("y") == 1 && "A" + "y"[..1] == "Ay";
    EmptySimplePass(env);
  }

  // ----- The configuration -----

  datatype StepConfig = StepConfig(name: string, command: string)

  datatype TaskConfig = TaskConfig(
    name: string, description: string, tags: seq<string>, timeout: int, workingDirectory: string,
    environment: Option<map<string, string>>, steps: seq<StepConfig>)

  class Config {
    var port: int
    var logDirectory: string
    var jwtSecret: string
    var users: map<string, string>
    const tasks: array<TaskConfig>

    constructor (port: int, logDirectory: string, jwtSecret: string, users: map<string, string>,
                 tasks: array<TaskConfig>)
      ensures this.port == port && this.logDirectory == logDirectory && this.jwtSecret == jwtSecret
      ensures this.users == users && this.tasks == tasks
    {
      this.port, this.logDirectory, this.jwtSecret := port, logDirectory, jwtSecret;
      this.users, this.tasks := users, tasks;
    }
  }

  function ExpandedStep(env: Env, step: StepConfig): StepConfig {
    StepConfig(ExpandString(env, step.name), ExpandString(env, step.command))
  }

  function ExpandedTask(env: Env, task: TaskConfig): TaskConfig {
    task.(name := ExpandString(env, task.name),
          description := ExpandString(env, task.description),
          workingDirectory := ExpandString(env, task.workingDirectory),
          environment :=
            if task.environment.None? then None
            else Some(map k | k in task.environment.value :: ExpandString(env, task.environment.value[k])),
          steps := seq(|task.steps|, i requires 0 <= i < |task.steps| => ExpandedStep(env, task.steps[i])))
  }

  method ExpandEnvironment(env: Env, environment: map<string, string>) returns (expanded: map<string, string>)
    ensures expanded == map k | k in environment :: ExpandString(env, environment[k])
  {
    hide ExpandString;
    expanded := map[];
    var keys := environment.Keys;
    while keys != {}
      invariant keys <= environment.Keys
      invariant expanded.Keys == environment.Keys - keys
      invariant forall k | k in expanded :: expanded[k] == ExpandString(env, environment[k])
      decreases |keys|
    {
      var k :| k in keys;
      expanded := expanded[k := ExpandString(env, environment[k])];
      keys := keys - {k};
    }
  }

  method ExpandTask(env: Env, original: TaskConfig) returns (task: TaskConfig)
    ensures task == ExpandedTask(env, original)
    ensures task.name == ExpandString(env, original.name)
    ensures task.description == ExpandString(env, original.description)
    ensures task.workingDirectory == ExpandString(env, original.workingDirectory)
    ensures task.tags == original.tags && task.timeout == original.timeout
    ensures task.environment.Some? <==> original.environment.Some?
    ensures task.environment.Some? ==>
      && task.environment.value.Keys == original.environment.value.Keys
      && forall k | k in task.environment.value ::
           task.environment.value[k] == ExpandString(env, original.environment.value[k])
    ensures |task.steps| == |original.steps|
    ensures forall i | 0 <= i < |task.steps| ::
      && task.steps[i].name == ExpandString(env, original.steps[i].name)
      && task.steps[i].command == ExpandString(env, original.steps[i].command)
  {
    hide ExpandString;
    task := original.(name := ExpandString(env, original.name),
                      description := ExpandString(env, original.description),
                      workingDirectory := ExpandString(env, original.workingDirectory));
    if task.environment.Some? {
      var expanded := ExpandEnvironment(env, task.environment.value);
      task := task.(environment := Some(expanded));
    }
    var steps := task.steps;
    for j := 0 to |steps|
      invariant |steps| == |original.steps|
      invariant forall i | 0 <= i < j :: steps[i] == ExpandedStep(env, original.steps[i])
      invariant forall i | j <= i < |steps| :: steps[i] == original.steps[i]
    {
      steps := steps[j := StepConfig(ExpandString(env, steps[j].name), ExpandString(env, steps[j].command))];
    }
    task := task.(steps := steps);
  }

  // Only the listed fields change: ports, users, tags and timeouts keep their values, and the keys of
  // an environment are kept.
  method ExpandEnvVars(env: Env, config: Config)
    modifies config`logDirectory, config`jwtSecret, config.tasks
    ensures config.logDirectory == ExpandString(env, old(config.logDirectory))
    ensures config.jwtSecret == ExpandString(env, old(config.jwtSecret))
    ensures forall i | 0 <= i < config.tasks.Length :: config.tasks[i] == ExpandedTask(env, old(config.tasks[i]))
  {
    hide ExpandString;
    config.logDirectory := ExpandString(env, config.logDirectory);
    config.jwtSecret := ExpandString(env, config.jwtSecret);
    for i := 0 to config.tasks.Length
      invariant config.logDirectory == ExpandString(env, old(config.logDirectory))
      invariant config.jwtSecret == ExpandString(env, old(config.jwtSecret))
      invariant forall k | 0 <= k < i :: config.tasks[k] == ExpandedTask(env, old(config.tasks[k]))
      invariant forall k | i <= k < config.tasks.Length :: config.tasks[k] == old(config.tasks[k])
    {
      config.tasks[i] := ExpandTask(env, config.tasks[i]);
    }
  }
}
