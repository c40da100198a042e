/**
  Selecting the payload candidates of a chunk: of the lines of the chunk text,
  those that start with the field name `data:` and are not exactly the end-of-
  stream sentinel `data: [DONE]`, each with its first five characters dropped
  (any space after the colon stays part of the candidate).
*/
module SseEvents {
  import opened SseLines

  /** The field name a data line starts with. */
  const DataField: string := "data:"

  /** The server's end-of-stream line; it never reaches the decoder. */
  const DoneLine: string := "data: [DONE]"

  /** What is left of `DoneLine` once the field name is dropped. */
  const DonePayload: string := " [DONE]"

  /** `s` starts with `prefix`, as Swift's `hasPrefix`. */
  predicate HasPrefix(s: string, prefix: string) {
    |prefix| <= |s| && s[..|prefix|] == prefix
  }

  /** The selection rule of the chunk loop. */
  predicate IsEventLine(line: string) {
    HasPrefix(line, DataField) && line != DoneLine
  }

  /** `line` without its first five characters, as Swift's `dropFirst(5)` (empty when shorter). */
  function EventPayload(line: string): string {
    if |line| <= |DataField| then [] else line[|DataField|..]
  }

  /** The data line that carries payload `p`; the inverse of `EventPayload` on data lines. */
  function DataLine(p: string): (line: string)
    ensures IsEventLine(line) <==> p != DonePayload
    ensures EventPayload(line) == p
  {
    var line := DataField + p;
    assert line[..|DataField|] == DataField;
    assert line[|DataField|..] == p;
    assert line == DoneLine ==> p == DoneLine[|DataField|..] == DonePayload;
    line
  }

  /** Dropping the field name from a data line and putting it back gives the line again. */
  lemma EventLineStrip(line: string)
    requires IsEventLine(line)
    ensures DataLine(EventPayload(line)) == line
  {
    if |line| == |DataField| {
      assert line == DataField;
      assert DataField + [] == DataField;
    } else {
      assert line == line[..|DataField|] + line[|DataField|..];
    }
  }

  /** The candidates of `lines`, in order. */
  function Candidates(lines: seq<string>): seq<string> {
    if lines == [] then []
    else
      (if IsEventLine(lines[0]) then [EventPayload(lines[0])] else [])
      + Candidates(lines[1..])
  }

  /** The candidates of one decoded chunk of text. */
  function ChunkCandidates(text: string): seq<string> {
    Candidates(SplitLines(text))
  }

  /** Position `i` occurs in `idx`. */
  predicate Listed(idx: seq<nat>, i: nat) {
    i in idx
  }

  /** The positions, from `from` on, of the event lines of `lines`, in increasing order, each one exactly once. */
  function EventLineIndices(lines: seq<string>, from: nat): (idx: seq<nat>)
    requires from <= |lines|
    ensures forall k :: 0 <= k < |idx| ==> from <= idx[k] < |lines| && IsEventLine(lines[idx[k]])
    ensures forall k, j :: 0 <= k < j < |idx| ==> idx[k] < idx[j]
    ensures forall i {:trigger Listed(idx, i)} :: from <= i < |lines| && IsEventLine(lines[i]) ==> Listed(idx, i)
    decreases |lines| - from
  {
    if from == |lines| then []
    else
      var tail := EventLineIndices(lines, from + 1);
      var idx := (if IsEventLine(lines[from]) then [from] else []) + tail;
      assert forall i {:trigger Listed(idx, i)} :: from < i < |lines| && IsEventLine(lines[i]) ==> Listed(idx, i) by {
        forall i | from < i < |lines| && IsEventLine(lines[i]) ensures Listed(idx, i) {
          assert Listed(tail, i);
        }
      }
      idx
  }

  /** Candidate `k` is the payload of the `k`-th event line, and there is one candidate per event line. */
  lemma {:induction false} CandidatesAtIndices(lines: seq<string>, from: nat)
    requires from <= |lines|
    ensures |Candidates(lines[from..])| == |EventLineIndices(lines, from)|
    ensures forall k :: 0 <= k < |Candidates(lines[from..])| ==>
      Candidates(lines[from..])[k] == EventPayload(lines[EventLineIndices(lines, from)[k]])
    decreases |lines| - from
  {
    if from < |lines| {
      CandidatesAtIndices(lines, from + 1);
      assert lines[from..][0] == lines[from];
      assert lines[from..][1..] == lines[from + 1..];
    }
  }

  /** Selection works line by line: the candidates of two runs of lines are concatenated in order. */
  lemma {:induction false} CandidatesAppend(a: seq<string>, b: seq<string>)
    ensures Candidates(a + b) == Candidates(a) + Candidates(b)
  {
    if a == [] {
      assert a + b == b;
    } else {
      assert (a + b)[0] == a[0];
      assert (a + b)[1..] == a[1..] + b;
      CandidatesAppend(a[1..], b);
    }
  }

  /**
    Every candidate of a chunk is free of line feeds, is not the sentinel's remainder,
    and sits behind the field name on a line of the chunk.
  */
  lemma ChunkCandidateShape(text: string)
    ensures forall c :: c in ChunkCandidates(text) ==>
      NewlineFree(c) && c != DonePayload && DataLine(c) in SplitLines(text)
  {
    var lines := SplitLines(text);
    CandidatesAtIndices(lines, 0);
    assert lines[0..] == lines;
    var idx := EventLineIndices(lines, 0);
    forall c | c in ChunkCandidates(text)
      ensures NewlineFree(c) && c != DonePayload && DataLine(c) in lines
    {
      var k :| 0 <= k < |Candidates(lines)| && Candidates(lines)[k] == c;
      var line := lines[idx[k]];
      EventLineStrip(line);
      assert IsLine(line);
      assert c == line[|DataField|..] || c == [];
    }
  }

  /** The sentinel line alone yields no candidate. */
  lemma SentinelExcluded()
    ensures ChunkCandidates(DoneLine) == []
  {
    assert IsLine(DoneLine);
    SplitLinesCons(DoneLine, []);
    assert DoneLine + [] == DoneLine;
  }

  /** The sentinel is matched exactly: without the space after the colon it is an ordinary candidate. */
  lemma BareSentinelPassed()
    ensures ChunkCandidates("data:[DONE]") == ["[DONE]"]
  {
    var bare := "data:[DONE]";
    assert IsLine(bare);
    SplitLinesCons(bare, []);
    assert bare + [] == bare;
    assert bare[..5] == DataField;
  }

  /** The data lines of a sequence of payloads. */
  function DataLines(ps: seq<string>): seq<string> {
    if ps == [] then [] else [DataLine(ps[0])] + DataLines(ps[1..])
  }

  /** Payloads a server can send without being mistaken for line breaks or the sentinel. */
  predicate Sendable(ps: seq<string>) {
    forall k :: 0 <= k < |ps| ==> NewlineFree(ps[k]) && ps[k] != DonePayload
  }

  lemma {:induction false} CandidatesOfDataLines(ps: seq<string>)
    requires Sendable(ps)
    ensures AllLines(DataLines(ps))
    ensures Candidates(DataLines(ps)) == ps
  {
    if ps != [] {
      CandidatesOfDataLines(ps[1..]);
      var line := DataLine(ps[0]);
      assert line[|DataField|..] == ps[0];
      assert forall i :: 0 <= i < |line| ==> line[i] != '\n' by {
        forall i | 0 <= i < |line| ensures line[i] != '\n' {
          if i >= |DataField| {
            assert line[i] == ps[0][i - |DataField|];
          }
        }
      }
      assert DataLines(ps)[1..] == DataLines(ps[1..]);
      assert [ps[0]] + ps[1..] == ps;
    }
  }

  /**
    A stream of data lines, each ended by a line feed and optionally followed by
    the sentinel line, yields exactly its payloads, in order.
  */
  lemma EncodedEventsRoundTrip(ps: seq<string>)
    requires Sendable(ps)
    ensures ChunkCandidates(EncodeLines(DataLines(ps))) == ps
    ensures ChunkCandidates(EncodeLines(DataLines(ps) + [DoneLine])) == ps
  {
    CandidatesOfDataLines(ps);
    SplitEncodeLines(DataLines(ps));
    var withDone := DataLines(ps) + [DoneLine];
    assert IsLine(DoneLine);
    assert AllLines(withDone);
    SplitEncodeLines(withDone);
    CandidatesAppend(DataLines(ps), [DoneLine]);
  }
}
