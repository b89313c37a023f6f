/** The System.String operations the services rely on. */
module Strings {
  import opened Wrappers

  /** `char.IsWhiteSpace`: the Unicode space separators, line and paragraph separators, and U+0009..U+000D, U+0085. */
  predicate IsWhiteSpace(c: char) {
    || '\t' <= c <= '\r' || c == ' ' || c == '\U{85}' || c == '\U{A0}' || c == '\U{1680}'
    || '\U{2000}' <= c <= '\U{200A}' || c == '\U{2028}' || c == '\U{2029}' || c == '\U{202F}'
    || c == '\U{205F}' || c == '\U{3000}'
  }

  /** `string.IsNullOrWhiteSpace`; a C# null string is `None`. */
  predicate IsNullOrWhiteSpace(s: Option<string>) {
    s.None? || forall i :: 0 <= i < |s.value| ==> IsWhiteSpace(s.value[i])
  }

  /** Every character of `s` except the occurrences of `sep`. */
  function Without(s: string, sep: char): (r: string)
    ensures sep !in r
  {
    if s == [] then [] else (if s[0] == sep then [] else [s[0]]) + Without(s[1..], sep)
  }

  function Concat(pieces: seq<string>): string {
    if pieces == [] then [] else pieces[0] + Concat(pieces[1..])
  }

  /**
   * `s.Split(sep, StringSplitOptions.RemoveEmptyEntries)`, scanning left to right:
   * `current` holds the characters read since the last separator.
   */
  function SplitFrom(s: string, sep: char, current: string): (pieces: seq<string>)
    requires sep !in current
    ensures forall i :: 0 <= i < |pieces| ==> pieces[i] != [] && sep !in pieces[i]
  {
    if s == [] then
      (if current == [] then [] else [current])
    else if s[0] == sep then
      (if current == [] then [] else [current]) + SplitFrom(s[1..], sep, [])
    else
      SplitFrom(s[1..], sep, current + [s[0]])
  }

  function SplitNonEmpty(s: string, sep: char): (pieces: seq<string>) {
    SplitFrom(s, sep, [])
  }

  /** `string.Join(sep, pieces)`: the pieces with one separator between neighbours. */
  function Join(pieces: seq<string>, sep: char): string {
    if pieces == [] then []
    else if |pieces| == 1 then pieces[0]
    else pieces[0] + [sep] + Join(pieces[1..], sep)
  }

  /** A separator-free word is read into the current piece. */
  lemma {:induction false} SplitFromWord(w: string, rest: string, sep: char, current: string)
    requires sep !in current && sep !in w
    ensures SplitFrom(w + rest, sep, current) == SplitFrom(rest, sep, current + w)
  {
    if w == [] {
      assert w + rest == rest && current + w == current;
    } else {
      assert (w + rest)[0] == w[0] && (w + rest)[1..] == w[1..] + rest;
      SplitFromWord(w[1..], rest, sep, current + [w[0]]);
      assert current + [w[0]] + w[1..] == current + w;
    }
  }

  /** Splitting undoes joining, for non-empty pieces that hold no separator. */
  lemma {:induction false} SplitJoin(pieces: seq<string>, sep: char)
    requires forall i :: 0 <= i < |pieces| ==> pieces[i] != [] && sep !in pieces[i]
    ensures SplitNonEmpty(Join(pieces, sep), sep) == pieces
  {
    if |pieces| == 1 {
      SplitFromWord(pieces[0], [], sep, []);
      assert pieces[0] + [] == pieces[0] && [] + pieces[0] == pieces[0];
    } else if |pieces| > 1 {
      var rest := [sep] + Join(pieces[1..], sep);
      assert Join(pieces, sep) == pieces[0] + rest;
      SplitFromWord(pieces[0], rest, sep, []);
      assert [] + pieces[0] == pieces[0];
      assert rest[0] == sep && rest[1..] == Join(pieces[1..], sep);
      SplitJoin(pieces[1..], sep);
      assert pieces == [pieces[0]] + pieces[1..];
    }
  }

  /** A separator at the end of the text adds no piece. */
  lemma {:induction false} SplitFromTrailing(s: string, sep: char, current: string)
    requires sep !in current
    ensures SplitFrom(s + [sep], sep, current) == SplitFrom(s, sep, current)
  {
    if s == [] {
      assert s + [sep] == [sep];
    } else {
      assert (s + [sep])[0] == s[0] && (s + [sep])[1..] == s[1..] + [sep];
      if s[0] == sep {
        SplitFromTrailing(s[1..], sep, []);
      } else {
        SplitFromTrailing(s[1..], sep, current + [s[0]]);
      }
    }
  }

  /** Lines each ending in the separator split as they would without the last one. */
  lemma SplitJoinTerminated(pieces: seq<string>, sep: char)
    requires forall i :: 0 <= i < |pieces| ==> pieces[i] != [] && sep !in pieces[i]
    ensures SplitNonEmpty(Join(pieces, sep) + [sep], sep) == pieces
  {
    SplitFromTrailing(Join(pieces, sep), sep, []);
    SplitJoin(pieces, sep);
  }

  lemma {:induction false} ConcatAppend(a: seq<string>, b: seq<string>)
    ensures Concat(a + b) == Concat(a) + Concat(b)
  {
    if a == [] {
      assert a + b == b;
    } else {
      assert (a + b)[1..] == a[1..] + b;
      ConcatAppend(a[1..], b);
    }
  }

  lemma {:induction false} SplitFromKeepsText(s: string, sep: char, current: string)
    requires sep !in current
    ensures Concat(SplitFrom(s, sep, current)) == current + Without(s, sep)
  {
    if s == [] {
    } else if s[0] == sep {
      var head := if current == [] then [] else [current];
      SplitFromKeepsText(s[1..], sep, []);
      ConcatAppend(head, SplitFrom(s[1..], sep, []));
    } else {
      SplitFromKeepsText(s[1..], sep, current + [s[0]]);
    }
  }

  /** Splitting loses nothing but the separators: the pieces put back together are the text without them. */
  lemma SplitNonEmptyKeepsText(s: string, sep: char)
    ensures Concat(SplitNonEmpty(s, sep)) == Without(s, sep)
  {
    SplitFromKeepsText(s, sep, []);
  }
}
