/** The JavaScript string operations the report builders rely on:
    `String.prototype.trim`, `s.split(/\n+/)`, `s.split('\n')` and the
    decimal rendering of a non-negative integer inside a template literal. */
module JsText {

  /** The characters `trim` removes from both ends: ECMAScript WhiteSpace
      (tab, vertical tab, form feed, space, no-break space, byte-order mark,
      every space separator) and LineTerminator (line feed, carriage return,
      line and paragraph separators). */
  predicate IsTrimmable(c: char) {
    || c == '\t' || c == '\n' || c == '\U{B}' || c == '\U{C}' || c == '\r'
    || c == ' ' || c == '\U{A0}' || c == '\U{1680}'
    || ('\U{2000}' <= c <= '\U{200A}')
    || c == '\U{2028}' || c == '\U{2029}' || c == '\U{202F}' || c == '\U{205F}'
    || c == '\U{3000}' || c == '\U{FEFF}'
  }

  /** A string with nothing left for `trim` to remove. */
  predicate IsTrimmed(s: string) {
    s == [] || (!IsTrimmable(s[0]) && !IsTrimmable(s[|s| - 1]))
  }

  /** Drops the leading trimmable characters: what is left is a suffix of `s`
      that starts with a character `trim` keeps. */
  function TrimStart(s: string): (r: string)
    ensures |r| <= |s| && r == s[|s| - |r|..]
    ensures forall k :: 0 <= k < |s| - |r| ==> IsTrimmable(s[k])
    ensures r == [] || !IsTrimmable(r[0])
  {
    if s != [] && IsTrimmable(s[0]) then TrimStart(s[1..]) else s
  }

  /** Drops the trailing trimmable characters: what is left is a prefix of `s`
      that ends with a character `trim` keeps. */
  function TrimEnd(s: string): (r: string)
    ensures |r| <= |s| && r == s[..|r|]
    ensures forall k :: |r| <= k < |s| ==> IsTrimmable(s[k])
    ensures r == [] || !IsTrimmable(r[|r| - 1])
  {
    if s != [] && IsTrimmable(s[|s| - 1]) then TrimEnd(s[..|s| - 1]) else s
  }

  /** What trimming the start and then the end leaves: an infix of `s` with
      no trimmable character at either end, and only trimmable characters
      outside it. */
  lemma TrimmedInfix(s: string, t: string, r: string)
    requires |t| <= |s| && t == s[|s| - |t|..]
    requires forall k :: 0 <= k < |s| - |t| ==> IsTrimmable(s[k])
    requires t == [] || !IsTrimmable(t[0])
    requires |r| <= |t| && r == t[..|r|]
    requires forall k :: |r| <= k < |t| ==> IsTrimmable(t[k])
    requires r == [] || !IsTrimmable(r[|r| - 1])
    ensures IsTrimmed(r)
    ensures exists i, j :: 0 <= i <= j <= |s| && r == s[i..j]
                           && (forall k :: 0 <= k < i ==> IsTrimmable(s[k]))
                           && (forall k :: j <= k < |s| ==> IsTrimmable(s[k]))
  {
    var i := |s| - |t|;
    var j := i + |r|;
    assert r != [] ==> r[0] == t[0];
    assert r == s[i..j];
    forall k | j <= k < |s|
      ensures IsTrimmable(s[k])
    {
      assert s[k] == t[k - i];
    }
  }

  /** `s.trim()`: the infix of `s` left after removing trimmable characters
      at both ends; only trimmable characters are removed, and none is left
      at either end. */
  function Trim(s: string): (r: string)
    ensures IsTrimmed(r)
    ensures exists i, j :: 0 <= i <= j <= |s| && r == s[i..j]
                           && (forall k :: 0 <= k < i ==> IsTrimmable(s[k]))
                           && (forall k :: j <= k < |s| ==> IsTrimmable(s[k]))
  {
    var t := TrimStart(s);
    var r := TrimEnd(t);
    TrimmedInfix(s, t, r);
    r
  }

  /** Trimming a string that is already trimmed changes nothing, so `trim` is
      idempotent. */
  lemma TrimOfTrimmed(s: string)
    requires IsTrimmed(s)
    ensures Trim(s) == s
  {
    assert TrimStart(s) == s;
    assert TrimEnd(s) == s;
  }

  lemma TrimIdempotent(s: string)
    ensures Trim(Trim(s)) == Trim(s)
  {
    TrimOfTrimmed(Trim(s));
  }

  // ---------------------------------------------------------------------
  // Splitting and joining

  /** Joins pieces with a single line feed between neighbours
      (`pieces.join('\n')`). */
  function JoinLines(pieces: seq<string>): string
  {
    if |pieces| == 0 then ""
    else if |pieces| == 1 then pieces[0]
    else pieces[0] + "\n" + JoinLines(pieces[1..])
  }

  /** No piece holds a line feed. */
  predicate NewlineFree(pieces: seq<string>) {
    forall k :: 0 <= k < |pieces| ==> '\n' !in pieces[k]
  }

  /** `s.split('\n')`: the pieces between single line feeds, so two adjacent
      line feeds give an empty piece, and the empty string gives `[""]`. */
  function SplitLines(s: string): (r: seq<string>)
    ensures |r| >= 1 && NewlineFree(r)
    decreases |s|
  {
    if s == [] then [""]
    else
      var rest := SplitLines(s[1..]);
      if s[0] == '\n' then [""] + rest
      else [[s[0]] + rest[0]] + rest[1..]
  }

  /** The leading run of line feeds removed. */
  function SkipNewlines(s: string): (r: string)
    ensures |r| <= |s| && r == s[|s| - |r|..]
    ensures forall k :: 0 <= k < |s| - |r| ==> s[k] == '\n'
    ensures r == [] || r[0] != '\n'
  {
    if s != [] && s[0] == '\n' then SkipNewlines(s[1..]) else s
  }

  /** `s.split(/\n+/)`: the pieces between maximal runs of line feeds. No
      piece holds a line feed; a leading or trailing run gives an empty first
      or last piece, and the empty string gives `[""]`. */
  function SplitRuns(s: string): (r: seq<string>)
    ensures |r| >= 1 && NewlineFree(r)
    decreases |s|
  {
    if s == [] then [""]
    else if s[0] == '\n' then [""] + SplitRuns(SkipNewlines(s))
    else
      var rest := SplitRuns(s[1..]);
      [[s[0]] + rest[0]] + rest[1..]
  }

  /** The text with every line feed removed. */
  function DropNewlines(s: string): string
    decreases |s|
  {
    if s == [] then [] else (if s[0] == '\n' then [] else [s[0]]) + DropNewlines(s[1..])
  }

  /** Skipping a leading run of line feeds keeps the other characters. */
  lemma {:induction false} DropSkipped(s: string)
    ensures DropNewlines(SkipNewlines(s)) == DropNewlines(s)
    decreases |s|
  {
    if s != [] && s[0] == '\n' {
      DropSkipped(s[1..]);
    }
  }

  /** Every maximal run of line feeds replaced by one line feed: the other
      characters are kept in order, and no two line feeds are adjacent. */
  function CollapseNewlines(s: string): (r: string)
    ensures |r| <= |s|
    ensures s != [] ==> r != [] && r[0] == s[0]
    ensures forall k :: 0 <= k < |r| - 1 ==> !(r[k] == '\n' && r[k + 1] == '\n')
    ensures DropNewlines(r) == DropNewlines(s)
    decreases |s|
  {
    if s == [] then []
    else if s[0] == '\n' then
      var rest := CollapseNewlines(SkipNewlines(s));
      DropSkipped(s);
      assert ("\n" + rest)[1..] == rest;
      assert forall k :: 1 <= k < |rest| + 1 ==> ("\n" + rest)[k] == rest[k - 1];
      "\n" + rest
    else
      var rest := CollapseNewlines(s[1..]);
      assert forall k :: 1 <= k < |rest| + 1 ==> ([s[0]] + rest)[k] == rest[k - 1];
      assert ([s[0]] + rest)[1..] == rest;
      [s[0]] + rest
  }

  lemma JoinLinesCons(c: char, p: string, q: seq<string>)
    ensures JoinLines([[c] + p] + q) == [c] + JoinLines([p] + q)
  {
    if |q| > 0 {
      assert ([[c] + p] + q)[1..] == q;
      assert ([p] + q)[1..] == q;
    }
  }

  /** Joining the pieces of `split('\n')` gives the string back. */
  lemma {:induction false} JoinSplitLines(s: string)
    ensures JoinLines(SplitLines(s)) == s
    decreases |s|
  {
    if s != [] {
      var rest := SplitLines(s[1..]);
      JoinSplitLines(s[1..]);
      if s[0] == '\n' {
        assert ([""] + rest)[1..] == rest;
      } else {
        JoinLinesCons(s[0], rest[0], rest[1..]);
        assert [rest[0]] + rest[1..] == rest;
      }
    }
  }

  /** A line-feed-free string is one piece. */
  lemma {:induction false} SplitLinesSingle(p: string)
    requires '\n' !in p
    ensures SplitLines(p) == [p]
    decreases |p|
  {
    if p != [] {
      assert '\n' !in p[1..];
      SplitLinesSingle(p[1..]);
      assert [p[0]] + p[1..] == p;
    }
  }

  lemma {:induction false} SplitLinesAppend(p: string, j: string)
    requires '\n' !in p
    ensures SplitLines(p + "\n" + j) == [p] + SplitLines(j)
    decreases |p|
  {
    if p == [] {
      assert p + "\n" + j == "\n" + j;
      assert ("\n" + j)[1..] == j;
    } else {
      assert (p + "\n" + j)[1..] == p[1..] + "\n" + j;
      assert '\n' !in p[1..];
      SplitLinesAppend(p[1..], j);
      assert [p[0]] + p[1..] == p;
    }
  }

  /** Splitting a join of line-feed-free pieces at single line feeds gives the
      pieces back: `split('\n')` and `join('\n')` are inverse. */
  lemma {:induction false} SplitJoinLines(pieces: seq<string>)
    requires |pieces| >= 1 && NewlineFree(pieces)
    ensures SplitLines(JoinLines(pieces)) == pieces
    decreases |pieces|
  {
    if |pieces| == 1 {
      SplitLinesSingle(pieces[0]);
    } else {
      SplitJoinLines(pieces[1..]);
      SplitLinesAppend(pieces[0], JoinLines(pieces[1..]));
      assert [pieces[0]] + pieces[1..] == pieces;
    }
  }

  /** Cutting at maximal runs of line feeds is cutting at single line feeds
      once every run has been collapsed to one. */
  lemma {:induction false} SplitRunsIsSplitOfCollapsed(s: string)
    ensures SplitRuns(s) == SplitLines(CollapseNewlines(s))
    decreases |s|
  {
    if s != [] {
      if s[0] == '\n' {
        var t := SkipNewlines(s);
        SplitRunsIsSplitOfCollapsed(t);
        assert ("\n" + CollapseNewlines(t))[1..] == CollapseNewlines(t);
      } else {
        SplitRunsIsSplitOfCollapsed(s[1..]);
        assert ([s[0]] + CollapseNewlines(s[1..]))[1..] == CollapseNewlines(s[1..]);
      }
    }
  }

  /** Joining the pieces of `split(/\n+/)` with single line feeds gives the
      string with each run of line feeds collapsed to one. */
  lemma JoinSplitRuns(s: string)
    ensures JoinLines(SplitRuns(s)) == CollapseNewlines(s)
  {
    SplitRunsIsSplitOfCollapsed(s);
    JoinSplitLines(CollapseNewlines(s));
  }

  /** A line-feed-free string is one piece. */
  lemma {:induction false} SplitRunsSingle(p: string)
    requires '\n' !in p
    ensures SplitRuns(p) == [p]
    decreases |p|
  {
    if p != [] {
      assert '\n' !in p[1..];
      SplitRunsSingle(p[1..]);
      assert [p[0]] + p[1..] == p;
    }
  }

  lemma {:induction false} SplitRunsAppend(p: string, j: string)
    requires '\n' !in p
    requires j == [] || j[0] != '\n'
    ensures SplitRuns(p + "\n" + j) == [p] + SplitRuns(j)
    decreases |p|
  {
    if p == [] {
      assert p + "\n" + j == "\n" + j;
      SkipOneNewline(j);
    } else {
      assert (p + "\n" + j)[1..] == p[1..] + "\n" + j;
      assert '\n' !in p[1..];
      SplitRunsAppend(p[1..], j);
      assert [p[0]] + p[1..] == p;
    }
  }

  lemma SkipOneNewline(j: string)
    requires j == [] || j[0] != '\n'
    ensures SkipNewlines("\n" + j) == j
  {
    assert ("\n" + j)[1..] == j;
  }

  /** Pieces that `split(/\n+/)` can give back from their join: no line feeds,
      and no empty piece strictly inside the list (an empty inner piece would
      put two line feeds side by side, which one run swallows). */
  predicate RunSplittable(pieces: seq<string>) {
    && |pieces| >= 1
    && NewlineFree(pieces)
    && forall k :: 0 < k < |pieces| - 1 ==> pieces[k] != ""
  }

  /** Splitting the join of such pieces at runs of line feeds gives the pieces
      back. */
  lemma {:induction false} SplitJoinRuns(pieces: seq<string>)
    requires RunSplittable(pieces)
    ensures SplitRuns(JoinLines(pieces)) == pieces
    decreases |pieces|
  {
    if |pieces| == 1 {
      SplitRunsSingle(pieces[0]);
    } else {
      var rest := pieces[1..];
      assert RunSplittable(rest) by {
        forall k | 0 < k < |rest| - 1 ensures rest[k] != "" {
          assert rest[k] == pieces[k + 1];
        }
      }
      SplitJoinRuns(rest);
      var j := JoinLines(rest);
      assert j == [] || j[0] != '\n' by {
        if |rest| > 1 {
          assert rest[0] != "" && '\n' !in rest[0];
          assert j == rest[0] + "\n" + JoinLines(rest[1..]);
          assert j[0] == rest[0][0];
        } else {
          assert j == rest[0];
          assert j != [] ==> j[0] in rest[0];
        }
      }
      SplitRunsAppend(pieces[0], j);
      assert [pieces[0]] + rest == pieces;
    }
  }

  /** The first piece of `split(/\n+/)` is empty exactly when the string is
      empty or starts with a line feed. */
  lemma SplitRunsFirstPiece(s: string)
    ensures SplitRuns(s)[0] != "" <==> s != [] && s[0] != '\n'
  {
  }

  /** When the string does not end with a line feed, no piece after the first
      is empty. */
  lemma {:induction false} SplitRunsLaterPieces(s: string)
    requires s == [] || s[|s| - 1] != '\n'
    ensures forall k :: 1 <= k < |SplitRuns(s)| ==> SplitRuns(s)[k] != ""
    decreases |s|
  {
    if s != [] {
      if s[0] == '\n' {
        var t := SkipNewlines(s);
        assert t != [];
        assert t[|t| - 1] == s[|s| - 1];
        SplitRunsLaterPieces(t);
        SplitRunsFirstPiece(t);
      } else {
        assert s[1..] == [] || s[1..][|s[1..]| - 1] == s[|s| - 1];
        SplitRunsLaterPieces(s[1..]);
      }
    }
  }

  /** `s.trim().split(/\n+/)`: `[""]` when nothing but whitespace is left,
      otherwise a list of non-empty pieces with no line feed. */
  lemma SplitOfTrimmed(s: string)
    ensures var pieces := SplitRuns(Trim(s));
            && NewlineFree(pieces)
            && (Trim(s) == [] ==> pieces == [""])
            && (Trim(s) != [] ==> forall k :: 0 <= k < |pieces| ==> pieces[k] != "")
  {
    var t := Trim(s);
    if t != [] {
      assert IsTrimmable('\n');
      SplitRunsFirstPiece(t);
      SplitRunsLaterPieces(t);
    }
  }

  // ---------------------------------------------------------------------
  // Decimal rendering

  predicate IsDigit(c: char) {
    '0' <= c <= '9'
  }

  /** The value of a string of decimal digits. */
  function DigitsValue(s: string): nat
    requires forall k :: 0 <= k < |s| ==> IsDigit(s[k])
  {
    if s == [] then 0
    else DigitsValue(s[..|s| - 1]) * 10 + DigitValue(s[|s| - 1])
  }

  function DigitValue(c: char): nat
    requires IsDigit(c)
  {
    c as int - '0' as int
  }

  /** `${n}` for a non-negative integer: its shortest decimal numeral, read
      back as `n`. */
  function Decimal(n: nat): (r: string)
    ensures |r| >= 1 && forall k :: 0 <= k < |r| ==> IsDigit(r[k])
    ensures |r| > 1 ==> r[0] != '0'
    ensures DigitsValue(r) == n
  {
    var last := (('0' as int) + n % 10) as char;
    if n < 10 then [last]
    else
      var prefix := Decimal(n / 10);
      assert (prefix + [last])[..|prefix|] == prefix;
      prefix + [last]
  }
}
