/** String operations the core relies on: whitespace trimming as Python's
    `str.strip()` and JavaScript's `String.prototype.trim()` do it, and
    splitting on one separator character as Python's `str.split(sep)` does. */
module Text {

  /** The characters Python's `str.strip()` removes when called without
      arguments (those for which `str.isspace()` holds). */
  const PyWhitespace: set<char> := {
    '\t', '\n', '\U{B}', '\U{C}', '\r', '\U{1C}', '\U{1D}', '\U{1E}', '\U{1F}', ' ',
    '\U{85}', '\U{A0}', '\U{1680}',
    '\U{2000}', '\U{2001}', '\U{2002}', '\U{2003}', '\U{2004}', '\U{2005}',
    '\U{2006}', '\U{2007}', '\U{2008}', '\U{2009}', '\U{200A}',
    '\U{2028}', '\U{2029}', '\U{202F}', '\U{205F}', '\U{3000}'
  }

  /** The characters JavaScript's `trim()` removes: WhiteSpace (including the
      byte-order mark and every space separator) and LineTerminator. */
  const JsWhitespace: set<char> := {
    '\t', '\n', '\U{B}', '\U{C}', '\r', ' ',
    '\U{A0}', '\U{1680}',
    '\U{2000}', '\U{2001}', '\U{2002}', '\U{2003}', '\U{2004}', '\U{2005}',
    '\U{2006}', '\U{2007}', '\U{2008}', '\U{2009}', '\U{200A}',
    '\U{2028}', '\U{2029}', '\U{202F}', '\U{205F}', '\U{3000}', '\U{FEFF}'
  }

  /** Every character of `s` is whitespace (vacuously so for ""). */
  predicate IsBlank(s: string, ws: set<char>) {
    forall i :: 0 <= i < |s| ==> s[i] in ws
  }

  /** `s` neither starts nor ends with whitespace. */
  predicate IsTrimmed(s: string, ws: set<char>) {
    s == [] || (s[0] !in ws && s[|s| - 1] !in ws)
  }

  /** The number of whitespace characters `s` starts with. */
  function LeadingBlanks(s: string, ws: set<char>): (n: nat)
    ensures n <= |s|
    ensures forall i :: 0 <= i < n ==> s[i] in ws
    ensures n == |s| || s[n] !in ws
    decreases |s|
  {
    if |s| > 0 && s[0] in ws then 1 + LeadingBlanks(s[1..], ws) else 0
  }

  /** The number of whitespace characters `s` ends with. */
  function TrailingBlanks(s: string, ws: set<char>): (n: nat)
    ensures n <= |s|
    ensures forall i :: |s| - n <= i < |s| ==> s[i] in ws
    ensures n == |s| || s[|s| - n - 1] !in ws
    decreases |s|
  {
    if |s| > 0 && s[|s| - 1] in ws then 1 + TrailingBlanks(s[..|s| - 1], ws) else 0
  }

  /** Removes whitespace from both ends of `s`: the part of `s` from its
      first to its last non-whitespace character, or "" when there is none. */
  function Trim(s: string, ws: set<char>): (r: string)
    ensures IsTrimmed(r, ws)
    ensures r == [] <==> IsBlank(s, ws)
  {
    var start := LeadingBlanks(s, ws);
    if start == |s| then ""
    else s[start..|s| - TrailingBlanks(s, ws)]
  }

  /** `Trim` is characterised by its result: whenever `s` is a blank prefix,
      a trimmed middle part and a blank suffix, trimming `s` gives exactly
      that middle part. */
  lemma TrimUnique(a: string, m: string, b: string, ws: set<char>)
    requires IsBlank(a, ws) && IsBlank(b, ws) && IsTrimmed(m, ws)
    ensures Trim(a + m + b, ws) == m
  {
    var s := a + m + b;
    var start := LeadingBlanks(s, ws);
    if m == [] {
      assert forall i :: 0 <= i < |s| ==> s[i] in ws by {
        forall i | 0 <= i < |s| ensures s[i] in ws {
          if i < |a| { assert s[i] == a[i]; } else { assert s[i] == b[i - |a|]; }
        }
      }
      assert start == |s|;
    } else {
      assert s[|a|] == m[0];
      assert forall i :: 0 <= i < |a| ==> s[i] == a[i];
      assert start == |a|;
      var end := TrailingBlanks(s, ws);
      assert s[|a| + |m| - 1] == m[|m| - 1];
      assert forall i :: |a| + |m| <= i < |s| ==> s[i] == b[i - |a| - |m|];
      assert end == |b|;
      assert s[|a|..|a| + |m|] == m;
    }
  }

  /** Trimming only removes characters: a character `s` lacks, the result
      lacks too. */
  lemma TrimKeepsOut(s: string, ws: set<char>, c: char)
    requires c !in s
    ensures c !in Trim(s, ws)
  {
  }

  /** The same for every piece of a sequence. */
  lemma TrimAllKeepOut(pieces: seq<string>, ws: set<char>, c: char)
    requires forall i :: 0 <= i < |pieces| ==> c !in pieces[i]
    ensures forall i :: 0 <= i < |pieces| ==> c !in Trim(pieces[i], ws)
  {
  }

  /** Trimming twice is the same as trimming once. */
  lemma TrimIdempotent(s: string, ws: set<char>)
    ensures Trim(Trim(s, ws), ws) == Trim(s, ws)
  {
  }

  /** How many times `c` occurs in `s`. */
  function Occurrences(s: string, c: char): (n: nat)
    ensures n <= |s|
    decreases |s|
  {
    if s == [] then 0 else (if s[0] == c then 1 else 0) + Occurrences(s[1..], c)
  }

  /** The pieces of `s` between occurrences of `sep`, in order, as Python's
      `s.split(sep)` returns them: one more piece than there are separators,
      and "" splits into [""]. */
  function Split(s: string, sep: char): (r: seq<string>)
    ensures |r| == Occurrences(s, sep) + 1
    ensures forall i :: 0 <= i < |r| ==> sep !in r[i]
    decreases |s|
  {
    if s == [] then [""]
    else
      var rest := Split(s[1..], sep);
      if s[0] == sep then [""] + rest
      else [[s[0]] + rest[0]] + rest[1..]
  }

  /** Every character of a piece comes from the split string. */
  lemma {:induction false} SplitKeeps(s: string, sep: char, i: nat, c: char)
    requires i < |Split(s, sep)| && c in Split(s, sep)[i]
    ensures c in s
    decreases |s|
  {
    if s != [] {
      var rest := Split(s[1..], sep);
      if s[0] == sep {
        if i > 0 {
          SplitKeeps(s[1..], sep, i - 1, c);
        }
      } else if i > 0 {
        SplitKeeps(s[1..], sep, i, c);
      } else if c != s[0] {
        assert c in rest[0];
        SplitKeeps(s[1..], sep, 0, c);
      }
    }
  }

  /** The pieces joined with `sep` between neighbours, as Python's
      `sep.join(pieces)`. */
  function Join(pieces: seq<string>, sep: char): string
    decreases |pieces|
  {
    if pieces == [] then ""
    else if |pieces| == 1 then pieces[0]
    else pieces[0] + [sep] + Join(pieces[1..], sep)
  }

  /** Putting a character in front of the first piece puts it in front of
      the joined string. */
  lemma JoinPrepend(c: char, pieces: seq<string>, sep: char)
    requires |pieces| >= 1
    ensures Join([[c] + pieces[0]] + pieces[1..], sep) == [c] + Join(pieces, sep)
  {
  }

  /** Joining the pieces of a split gives back the original string. */
  lemma {:induction false} JoinSplit(s: string, sep: char)
    ensures Join(Split(s, sep), sep) == s
    decreases |s|
  {
    if s != [] {
      var rest := Split(s[1..], sep);
      JoinSplit(s[1..], sep);
      assert s == [s[0]] + s[1..];
      if s[0] == sep {
        var r := [""] + rest;
        assert r[0] == "" && r[1..] == rest;
        assert Join(r, sep) == "" + [sep] + Join(rest, sep);
      } else {
        JoinPrepend(s[0], rest, sep);
      }
    }
  }

  /** A piece free of the separator, followed by the separator, splits off
      as exactly that piece. */
  lemma {:induction false} SplitAfterPiece(p: string, t: string, sep: char)
    requires sep !in p
    ensures Split(p + [sep] + t, sep) == [p] + Split(t, sep)
    decreases |p|
  {
    if p == [] {
      assert p + [sep] + t == [sep] + t;
      assert ([sep] + t)[1..] == t;
    } else {
      var s := p + [sep] + t;
      assert s[1..] == p[1..] + [sep] + t;
      SplitAfterPiece(p[1..], t, sep);
      assert [p[0]] + p[1..] == p;
    }
  }

  /** A string without the separator is its own only piece. */
  lemma {:induction false} SplitWithoutSep(s: string, sep: char)
    requires sep !in s
    ensures Split(s, sep) == [s]
    decreases |s|
  {
    if s != [] {
      SplitWithoutSep(s[1..], sep);
      assert [s[0]] + s[1..] == s;
    }
  }

  /** Splitting a join of separator-free pieces gives back the pieces. */
  lemma {:induction false} SplitJoin(pieces: seq<string>, sep: char)
    requires |pieces| >= 1
    requires forall i :: 0 <= i < |pieces| ==> sep !in pieces[i]
    ensures Split(Join(pieces, sep), sep) == pieces
    decreases |pieces|
  {
    if |pieces| == 1 {
      SplitWithoutSep(pieces[0], sep);
    } else {
      SplitJoin(pieces[1..], sep);
      SplitAfterPiece(pieces[0], Join(pieces[1..], sep), sep);
      assert [pieces[0]] + pieces[1..] == pieces;
    }
  }
}
