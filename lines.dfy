/**
  Splitting chunk text into lines, as `String.split(separator: "\n")` does with
  its default of omitting empty pieces: the result is the sequence of maximal
  runs of characters that contain no line feed, empty runs dropped.

  `Layout` is the reference description of a text in terms of its lines: the
  lines, in order, with runs of line feeds around them (at least one between two
  lines). `SplitLinesCharacterization` proves that `SplitLines` returns exactly
  the lines of that description.
*/
module SseLines {

  /** No character of `s` is a line feed. */
  predicate NewlineFree(s: string) {
    forall i :: 0 <= i < |s| ==> s[i] != '\n'
  }

  /** A piece `split` can produce: non-empty and free of line feeds. */
  predicate IsLine(s: string) {
    s != [] && NewlineFree(s)
  }

  predicate AllLines(lines: seq<string>) {
    forall k :: 0 <= k < |lines| ==> IsLine(lines[k])
  }

  /** The length of the longest prefix of `s` that holds no line feed. */
  function LineEnd(s: string): (n: nat)
    ensures n <= |s|
    ensures NewlineFree(s[..n])
    ensures n < |s| ==> s[n] == '\n'
  {
    if s == [] || s[0] == '\n' then 0
    else
      var m := LineEnd(s[1..]);
      assert s[..m + 1] == [s[0]] + s[1..][..m];
      m + 1
  }

  /** The non-empty, line-feed-free pieces of `s`, in order. */
  function SplitLines(s: string): (lines: seq<string>)
    ensures AllLines(lines)
    decreases |s|
  {
    if s == [] then []
    else if s[0] == '\n' then SplitLines(s[1..])
    else
      var n := LineEnd(s);
      [s[..n]] + SplitLines(s[n..])
  }

  /** `k` line feeds. */
  function Newlines(k: nat): string {
    if k == 0 then [] else ['\n'] + Newlines(k - 1)
  }

  /**
    The text made of `lines` with `gaps[0]` line feeds before the first line,
    `gaps[k]` line feeds between line `k - 1` and line `k`, and `gaps[|lines|]`
    line feeds after the last line.
  */
  function Layout(lines: seq<string>, gaps: seq<nat>): string
    requires |gaps| == |lines| + 1
  {
    if lines == [] then Newlines(gaps[0])
    else Newlines(gaps[0]) + lines[0] + Layout(lines[1..], gaps[1..])
  }

  /** `s` is `lines` laid out with `gaps`, with at least one line feed between two lines. */
  predicate LaidOut(s: string, lines: seq<string>, gaps: seq<nat>) {
    && |gaps| == |lines| + 1
    && (forall k :: 0 < k < |lines| ==> gaps[k] > 0)
    && Layout(lines, gaps) == s
  }

  /** Line feeds in front of a text add no line. */
  lemma {:induction false} SplitSkipsNewlines(k: nat, t: string)
    ensures SplitLines(Newlines(k) + t) == SplitLines(t)
  {
    if k > 0 {
      var s := Newlines(k) + t;
      assert s[0] == '\n';
      assert s[1..] == Newlines(k - 1) + t;
      SplitSkipsNewlines(k - 1, t);
    } else {
      assert Newlines(k) + t == t;
    }
  }

  /** A line-feed-free prefix followed by nothing or by a line feed ends the first piece. */
  lemma {:induction false} LineEndConcat(line: string, rest: string)
    requires NewlineFree(line)
    requires rest == [] || rest[0] == '\n'
    ensures LineEnd(line + rest) == |line|
  {
    if line == [] {
      assert line + rest == rest;
    } else {
      assert (line + rest)[0] == line[0];
      assert (line + rest)[1..] == line[1..] + rest;
      LineEndConcat(line[1..], rest);
    }
  }

  /** A line followed by nothing or by a line feed is the first piece. */
  lemma SplitLinesCons(line: string, rest: string)
    requires IsLine(line)
    requires rest == [] || rest[0] == '\n'
    ensures SplitLines(line + rest) == [line] + SplitLines(rest)
  {
    var s := line + rest;
    assert s[0] == line[0];
    LineEndConcat(line, rest);
    assert s[..|line|] == line;
    assert s[|line|..] == rest;
  }

  /** Splitting recovers the lines of any layout. */
  lemma {:induction false} SplitLayout(lines: seq<string>, gaps: seq<nat>)
    requires AllLines(lines)
    requires |gaps| == |lines| + 1
    requires forall k :: 0 < k < |lines| ==> gaps[k] > 0
    ensures SplitLines(Layout(lines, gaps)) == lines
  {
    if lines == [] {
      SplitSkipsNewlines(gaps[0], []);
      assert Newlines(gaps[0]) + [] == Newlines(gaps[0]);
    } else {
      var rest := Layout(lines[1..], gaps[1..]);
      assert Layout(lines, gaps) == Newlines(gaps[0]) + (lines[0] + rest);
      SplitSkipsNewlines(gaps[0], lines[0] + rest);
      if lines[1..] != [] {
        assert gaps[1] > 0;
        assert rest[0] == Newlines(gaps[1])[0];
      }
      SplitLinesCons(lines[0], rest);
      SplitLayout(lines[1..], gaps[1..]);
      assert [lines[0]] + lines[1..] == lines;
    }
  }

  /** One more line feed in front of the first gap. */
  lemma {:induction false} LayoutBump(lines: seq<string>, gaps: seq<nat>)
    requires |gaps| == |lines| + 1
    ensures Layout(lines, [gaps[0] + 1] + gaps[1..]) == ['\n'] + Layout(lines, gaps)
  {
    var bumped := [gaps[0] + 1] + gaps[1..];
    assert bumped[0] == gaps[0] + 1;
    if lines != [] {
      assert bumped[1..] == gaps[1..];
      var rest := lines[0] + Layout(lines[1..], gaps[1..]);
      assert Layout(lines, bumped) == Newlines(gaps[0] + 1) + rest;
      assert Layout(lines, gaps) == Newlines(gaps[0]) + rest;
    }
  }

  /** A layout of at least one line starts with a line feed exactly when its first gap is not empty. */
  lemma {:induction false} LayoutHead(lines: seq<string>, gaps: seq<nat>)
    requires lines != [] && AllLines(lines)
    requires |gaps| == |lines| + 1
    ensures Layout(lines, gaps) != []
    ensures Layout(lines, gaps)[0] == '\n' <==> gaps[0] > 0
  {
    assert IsLine(lines[0]);
    var t := Newlines(gaps[0]) + lines[0];
    assert Layout(lines, gaps) == t + Layout(lines[1..], gaps[1..]);
    assert t[|t| - 1] == lines[0][|lines[0]| - 1];
    if gaps[0] == 0 {
      assert t[0] == lines[0][0];
    }
  }

  /** Every text is the layout of its split, with suitable gaps. */
  lemma {:induction false} SplitLinesLaidOut(s: string)
    ensures exists gaps :: LaidOut(s, SplitLines(s), gaps)
    decreases |s|
  {
    if s == [] {
      assert Layout([], [0]) == Newlines(0) == s;
      assert LaidOut(s, SplitLines(s), [0]);
    } else if s[0] == '\n' {
      SplitLinesLaidOut(s[1..]);
      var lines := SplitLines(s[1..]);
      var g :| LaidOut(s[1..], lines, g);
      LayoutBump(lines, g);
      assert ['\n'] + s[1..] == s;
      var gaps := [g[0] + 1] + g[1..];
      assert SplitLines(s) == lines;
      assert Layout(lines, gaps) == s;
      assert forall k :: 0 < k < |lines| ==> gaps[k] == g[k];
      assert LaidOut(s, lines, gaps);
    } else {
      var n := LineEnd(s);
      var line, rest := s[..n], s[n..];
      SplitLinesLaidOut(rest);
      var tail := SplitLines(rest);
      var g :| LaidOut(rest, tail, g);
      var lines := [line] + tail;
      var gaps := [0] + g;
      assert lines[1..] == tail && gaps[1..] == g;
      assert Layout(lines, gaps) == Newlines(0) + line + rest;
      assert Newlines(0) + line + rest == s;
      if tail != [] {
        LayoutHead(tail, g);
        assert rest[0] == '\n';
      }
      assert forall k :: 0 < k < |lines| ==> gaps[k] > 0 by {
        forall k | 0 < k < |lines| ensures gaps[k] > 0 {
          if k > 1 {
            assert gaps[k] == g[k - 1];
          }
        }
      }
      assert SplitLines(s) == lines;
      assert LaidOut(s, lines, gaps);
    }
  }

  /** `SplitLines(s)` is exactly the sequence of well-formed lines that `s` is laid out from. */
  lemma SplitLinesCharacterization(s: string, lines: seq<string>)
    ensures SplitLines(s) == lines <==> AllLines(lines) && exists gaps :: LaidOut(s, lines, gaps)
  {
    if SplitLines(s) == lines {
      SplitLinesLaidOut(s);
    }
    if AllLines(lines) && exists gaps :: LaidOut(s, lines, gaps) {
      var gaps :| LaidOut(s, lines, gaps);
      SplitLayout(lines, gaps);
    }
  }

  /** The text of `lines`, each followed by a line feed. */
  function EncodeLines(lines: seq<string>): string {
    if lines == [] then [] else lines[0] + "\n" + EncodeLines(lines[1..])
  }

  /** Splitting undoes `EncodeLines`. */
  lemma {:induction false} SplitEncodeLines(lines: seq<string>)
    requires AllLines(lines)
    ensures SplitLines(EncodeLines(lines)) == lines
  {
    if lines != [] {
      var rest := EncodeLines(lines[1..]);
      assert EncodeLines(lines) == lines[0] + ("\n" + rest);
      SplitLinesCons(lines[0], "\n" + rest);
      assert ("\n" + rest)[0] == '\n' && ("\n" + rest)[1..] == rest;
      SplitEncodeLines(lines[1..]);
      assert [lines[0]] + lines[1..] == lines;
    }
  }
}
