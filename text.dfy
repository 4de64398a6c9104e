/**
 * The .NET string operations the watch-list parser is built from:
 * `Split(' ')`, the `Where(x => x.Length > 0)` filter, `string.Join(" ", ...)`,
 * `TrimStart(c)`, `TrimEnd(c)` and `Trim()`.
 */
module Text {

  /** Pieces of `s` between single spaces, as `s.Split(' ')` returns them: empty pieces included. */
  function Split(s: string): (r: seq<string>)
    ensures |r| >= 1
    ensures forall i :: 0 <= i < |r| ==> ' ' !in r[i]
  {
    if s == [] then [""]
    else if s[0] == ' ' then [""] + Split(s[1..])
    else
      var rest := Split(s[1..]);
      [[s[0]] + rest[0]] + rest[1..]
  }

  /** The `Where(x => x.Length > 0)` filter: drops the empty pieces, keeps the order. */
  function NonEmpty(ps: seq<string>): (r: seq<string>)
    ensures forall i :: 0 <= i < |r| ==> r[i] != [] && r[i] in ps
  {
    if ps == [] then []
    else (if ps[0] == [] then [] else [ps[0]]) + NonEmpty(ps[1..])
  }

  /** The tokens of a command remainder: its maximal runs of non-space characters. */
  function Tokens(s: string): (r: seq<string>)
    ensures forall i :: 0 <= i < |r| ==> r[i] != [] && ' ' !in r[i]
  {
    NonEmpty(Split(s))
  }

  /** `string.Join(" ", ts)`. */
  function Join(ts: seq<string>): string
  {
    if ts == [] then ""
    else if |ts| == 1 then ts[0]
    else ts[0] + " " + Join(ts[1..])
  }

  /** The characters of `s` other than the space, in order. */
  function WithoutSpaces(s: string): string
  {
    if s == [] then [] else (if s[0] == ' ' then [] else [s[0]]) + WithoutSpaces(s[1..])
  }

  /** The concatenation of a sequence of strings. */
  function Concat(ts: seq<string>): string
  {
    if ts == [] then [] else ts[0] + Concat(ts[1..])
  }

  /** Drops the longest prefix of characters satisfying `drop`. */
  function TrimStartBy(s: string, drop: char -> bool): string
  {
    if s != [] && drop(s[0]) then TrimStartBy(s[1..], drop) else s
  }

  /** Drops the longest suffix of characters satisfying `drop`. */
  function TrimEndBy(s: string, drop: char -> bool): string
  {
    if s != [] && drop(s[|s| - 1]) then TrimEndBy(s[..|s| - 1], drop) else s
  }

  /** Trimming the start leaves a suffix that does not start with a dropped character; everything removed was dropped. */
  lemma {:induction false} TrimStartByShape(s: string, drop: char -> bool)
    ensures var r := TrimStartBy(s, drop);
      && |r| <= |s| && r == s[|s| - |r|..]
      && (r == [] || !drop(r[0]))
      && forall i :: 0 <= i < |s| - |r| ==> drop(s[i])
  {
    if s != [] && drop(s[0]) {
      TrimStartByShape(s[1..], drop);
    }
  }

  /** Trimming the end leaves a prefix that does not end with a dropped character; everything removed was dropped. */
  lemma {:induction false} TrimEndByShape(s: string, drop: char -> bool)
    ensures var r := TrimEndBy(s, drop);
      && |r| <= |s| && r == s[..|r|]
      && (r == [] || !drop(r[|r| - 1]))
      && forall i :: |r| <= i < |s| ==> drop(s[i])
  {
    if s != [] && drop(s[|s| - 1]) {
      TrimEndByShape(s[..|s| - 1], drop);
    }
  }

  /** `s.TrimStart(c)`: removes every leading `c`. */
  function TrimStart(s: string, c: char): string
  {
    TrimStartBy(s, x => x == c)
  }

  /** `s.TrimEnd(c)`: removes every trailing `c`. */
  function TrimEnd(s: string, c: char): string
  {
    TrimEndBy(s, x => x == c)
  }

  /** `char.IsWhiteSpace`: the Unicode space, line and paragraph separators, U+0009..U+000D and U+0085. */
  predicate IsWhiteSpace(c: char)
  {
    || c == ' ' || ('\t' <= c <= '\r') || c == '\U{0085}' || c == '\U{00A0}' || c == '\U{1680}'
    || ('\U{2000}' <= c <= '\U{200A}') || c == '\U{2028}' || c == '\U{2029}' || c == '\U{202F}'
    || c == '\U{205F}' || c == '\U{3000}'
  }

  /** `s.Trim()`: removes leading and trailing white space. */
  function Trim(s: string): string
  {
    TrimEndBy(TrimStartBy(s, IsWhiteSpace), IsWhiteSpace)
  }

  /** A word: non-empty and free of spaces, as every token is. */
  predicate IsWord(t: string)
  {
    t != [] && ' ' !in t
  }

  lemma {:induction false} SplitWord(t: string)
    requires ' ' !in t
    ensures Split(t) == [t]
  {
    if t != [] {
      SplitWord(t[1..]);
      assert [t[0]] + t[1..] == t;
    }
  }

  /** A space splits the text into the pieces of what is before it followed by the pieces of what is after it. */
  lemma {:induction false} SplitAtSpace(a: string, b: string)
    ensures Split(a + [' '] + b) == Split(a) + Split(b)
  {
    if a == [] {
      assert a + [' '] + b == [' '] + b;
    } else {
      assert (a + [' '] + b)[1..] == a[1..] + [' '] + b;
      SplitAtSpace(a[1..], b);
    }
  }

  lemma {:induction false} NonEmptyKeepsWords(ts: seq<string>)
    requires forall i :: 0 <= i < |ts| ==> ts[i] != []
    ensures NonEmpty(ts) == ts
  {
    if ts != [] {
      NonEmptyKeepsWords(ts[1..]);
    }
  }

  lemma {:induction false} SplitJoin(ts: seq<string>)
    requires ts != []
    requires forall i :: 0 <= i < |ts| ==> ' ' !in ts[i]
    ensures Split(Join(ts)) == ts
  {
    if |ts| == 1 {
      SplitWord(ts[0]);
    } else {
      SplitJoin(ts[1..]);
      SplitAtSpace(ts[0], Join(ts[1..]));
      SplitWord(ts[0]);
    }
  }

  /** Round trip: tokenising words joined by single spaces gives the words back. */
  lemma TokensOfJoin(ts: seq<string>)
    requires forall i :: 0 <= i < |ts| ==> IsWord(ts[i])
    ensures Tokens(Join(ts)) == ts
  {
    if ts != [] {
      SplitJoin(ts);
      NonEmptyKeepsWords(ts);
    }
  }

  lemma {:induction false} ConcatSplit(s: string)
    ensures Concat(Split(s)) == WithoutSpaces(s)
  {
    if s != [] {
      ConcatSplit(s[1..]);
      var rest := Split(s[1..]);
      if s[0] != ' ' {
        assert Concat(rest) == rest[0] + Concat(rest[1..]);
      }
    }
  }

  lemma {:induction false} ConcatNonEmpty(ps: seq<string>)
    ensures Concat(NonEmpty(ps)) == Concat(ps)
  {
    if ps != [] {
      ConcatNonEmpty(ps[1..]);
      var head := if ps[0] == [] then [] else [ps[0]];
      ConcatAppend(head, NonEmpty(ps[1..]));
    }
  }

  lemma {:induction false} ConcatAppend(a: seq<string>, b: seq<string>)
    ensures Concat(a + b) == Concat(a) + Concat(b)
  {
    if a != [] {
      assert (a + b)[1..] == a[1..] + b;
      ConcatAppend(a[1..], b);
    } else {
      assert a + b == b;
    }
  }

  /** Tokenising loses exactly the spaces: a run of spaces never contributes a token of its own. */
  lemma TokensKeepEveryOtherChar(s: string)
    ensures Concat(Tokens(s)) == WithoutSpaces(s)
  {
    ConcatNonEmpty(Split(s));
    ConcatSplit(s);
  }
}
