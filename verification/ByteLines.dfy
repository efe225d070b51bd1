/**
  Newline-terminated text as the buffered line scanner of the Go runtime reads it: lines are cut at
  the newline, one trailing carriage return is dropped, and a line too long for the scanner's buffer is an error.
 */
module ByteLines {
  type byte = bv8

  const NEWLINE: byte := 10
  const CARRIAGE_RETURN: byte := 13

  predicate Terminated(data: seq<byte>) {
    data == [] || data[|data| - 1] == NEWLINE
  }

  /** Where the last line of terminated text starts. */
  function LastLineStart(data: seq<byte>): (start: nat)
    requires data != [] && Terminated(data)
    ensures start < |data| && (start == 0 || data[start - 1] == NEWLINE)
    ensures forall i :: start <= i < |data| - 1 ==> data[i] != NEWLINE
  {
    LineStartFrom(data, |data| - 1)
  }

  function LineStartFrom(data: seq<byte>, end: nat): (start: nat)
    requires end < |data|
    ensures start <= end && (start == 0 || data[start - 1] == NEWLINE)
    ensures forall i :: start <= i < end ==> data[i] != NEWLINE
  {
    if end == 0 || data[end - 1] == NEWLINE then end else LineStartFrom(data, end - 1)
  }

  /** The lines of terminated text, newlines removed and nothing else. */
  function RawLines(data: seq<byte>): (lines: seq<seq<byte>>)
    requires Terminated(data)
  {
    if data == [] then [] else
      var start := LastLineStart(data);
      RawLines(data[..start]) + [data[start..|data| - 1]]
  }

  function DropCarriageReturn(line: seq<byte>): seq<byte> {
    if line != [] && line[|line| - 1] == CARRIAGE_RETURN then line[..|line| - 1] else line
  }

  /** A raw line and its newline fit a scanner buffer of the given size. */
  predicate Fit(lines: seq<seq<byte>>, buffer: nat) {
    forall i :: 0 <= i < |lines| ==> |lines[i]| < buffer
  }

  /** Text whose last line starts at `start` reads as the lines before it and that line. */
  lemma LastLine(d: seq<byte>, start: nat)
    requires d != [] && Terminated(d) && start < |d| && (start == 0 || d[start - 1] == NEWLINE)
    requires forall i :: start <= i < |d| - 1 ==> d[i] != NEWLINE
    ensures Terminated(d[..start])
    ensures RawLines(d) == RawLines(d[..start]) + [d[start..|d| - 1]]
  {
    var found := LastLineStart(d);
    assert found == start;
  }

  /** Writing one more line adds exactly that line to what a reader sees. */
  lemma RawLinesAppend(data: seq<byte>, line: seq<byte>)
    requires Terminated(data) && NEWLINE !in line
    ensures Terminated(data + (line + [NEWLINE]))
    ensures RawLines(data + (line + [NEWLINE])) == RawLines(data) + [line]
  {
    var tail := line + [NEWLINE];
    var d := data + tail;
    assert forall i :: |data| <= i < |d| ==> d[i] == tail[i - |data|];
    assert data != [] ==> d[|data| - 1] == NEWLINE;
    LastLine(d, |data|);
    assert d[..|data|] == data && d[|data|..|d| - 1] == line;
  }

  /** A terminated prefix reads as a prefix of the lines. */
  lemma {:induction false} RawLinesPrefix(data: seq<byte>, k: nat)
    requires k <= |data| && Terminated(data) && (k == 0 || data[k - 1] == NEWLINE)
    ensures Terminated(data[..k]) && RawLines(data[..k]) <= RawLines(data)
    decreases |data|
  {
    if k == |data| {
      assert data[..k] == data;
    } else {
      var start := LastLineStart(data);
      assert k <= start;
      assert data[..start][..k] == data[..k];
      RawLinesPrefix(data[..start], k);
    }
  }
}
