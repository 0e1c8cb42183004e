/** Splitting text at a separator and finding a character in it. */
module Text {

  // strings.Split for a one-character separator: always at least one part.
  function Split(s: string, sep: char): (parts: seq<string>)
    ensures |parts| >= 1
    ensures Join(parts, sep) == s
    ensures forall p <- parts :: sep !in p
  {
    if s == "" then [""]
    else
      var rest := Split(s[1..], sep);
      if s[0] == sep then [""] + rest else [[s[0]] + rest[0]] + rest[1..]
  }

  function Join(parts: seq<string>, sep: char): string
    requires parts != []
  {
    if |parts| == 1 then parts[0] else parts[0] + [sep] + Join(parts[1..], sep)
  }

  // Splitting is the only way to write a text as separator-free parts.
  lemma {:induction false} SplitJoin(parts: seq<string>, sep: char)
    requires parts != [] && forall p <- parts :: sep !in p
    ensures Split(Join(parts, sep), sep) == parts
    decreases |parts|, |parts[0]|
  {
    var p, rest := parts[0], parts[1..];
    var s := Join(parts, sep);
    if p == "" {
      if rest != [] {
        assert s == [sep] + Join(rest, sep);
        SplitJoin(rest, sep);
      }
    } else {
      var shorter := [p[1..]] + rest;
      assert p in parts && p == [p[0]] + p[1..] && shorter[1..] == rest;
      assert forall q <- shorter :: q == p[1..] || q in parts;
      assert s == [p[0]] + Join(shorter, sep);
      SplitJoin(shorter, sep);
    }
  }

  // strings.IndexByte, with the length of s when c is not in it.
  function IndexOf(s: string, c: char): (n: nat)
    ensures n <= |s|
  {
    if s == "" || s[0] == c then 0 else 1 + IndexOf(s[1..], c)
  }

  lemma {:induction false} IndexOfIsFirst(s: string, c: char)
    ensures var n := IndexOf(s, c); c !in s[..n] && (n < |s| ==> s[n] == c)
  {
    if s != "" && s[0] != c {
      IndexOfIsFirst(s[1..], c);
      assert s[..IndexOf(s, c)] == [s[0]] + s[1..][..IndexOf(s[1..], c)];
    }
  }

  // ----- Slices of sums, as equations the other proofs name -----

  lemma SliceOfSum(s: string, rest: string, i: nat, j: nat)
    requires i <= j <= |s|
    ensures (s + rest)[i..j] == s[i..j]
    ensures (s + rest)[j..] == s[j..] + rest
  {}

  lemma TakeOneMore(s: string, n: nat)
    requires n < |s|
    ensures s[..n + 1] == s[..n] + [s[n]]
    ensures s == s[..n] + [s[n]] + s[n + 1..]
  {}

  lemma Reassociate(a: string, b: string, c: string)
    ensures a + b + c == a + (b + c)
  {}

  lemma HeadAndRest(c: char, s: string)
    ensures ([c] + s)[0] == c && ([c] + s)[1..] == s
  {}
}
