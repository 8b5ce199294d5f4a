/** How a sensor's text buffer is cut into lines: the handlers repeat
    `line, buffer = buffer.split('\n', 1)` while a newline is left. */
module LineBuffer {
  import opened PyText

  /** The lines a buffer yields and the unterminated text it keeps. */
  datatype Extraction = Extraction(lines: seq<string>, rest: string)

  /** Each line followed by its newline, one after the other. */
  function Terminated(lines: seq<string>): string {
    if lines == [] then [] else lines[0] + "\n" + Terminated(lines[1..])
  }

  predicate NoNewline(lines: seq<string>) {
    forall k :: 0 <= k < |lines| ==> '\n' !in lines[k]
  }

  /** The first line of a buffer that holds a newline, and what follows it. */
  function SplitFirstLine(buffer: string): (r: (string, string))
    requires '\n' in buffer
    ensures buffer == r.0 + "\n" + r.1
    ensures '\n' !in r.0
  {
    SplitOnce(buffer, '\n')
  }

  /** One more line in front: its text and its newline come first. */
  lemma TerminatedCons(line: string, lines: seq<string>, rest: string)
    ensures Terminated([line] + lines) + rest == line + "\n" + (Terminated(lines) + rest)
  {
    var all := [line] + lines;
    assert all[0] == line && all[1..] == lines;
    assert Terminated(all) == line + "\n" + Terminated(lines);
  }

  lemma NoNewlineCons(line: string, lines: seq<string>)
    requires '\n' !in line && NoNewline(lines)
    ensures NoNewline([line] + lines)
  {
    var all := [line] + lines;
    forall k | 0 <= k < |all|
      ensures '\n' !in all[k]
    {
      if k > 0 {
        assert all[k] == lines[k - 1];
      }
    }
  }

  /** All the complete lines of a buffer, as the loop removes them one by one. */
  function ExtractLines(buffer: string): (e: Extraction)
    ensures '\n' !in e.rest && NoNewline(e.lines)
    ensures Terminated(e.lines) + e.rest == buffer
    decreases |buffer|
  {
    if '\n' !in buffer then
      assert Terminated([]) + buffer == buffer;
      Extraction([], buffer)
    else
      var (line, rest) := SplitFirstLine(buffer);
      var e := ExtractLines(rest);
      TerminatedCons(line, e.lines, e.rest);
      NoNewlineCons(line, e.lines);
      Extraction([line] + e.lines, e.rest)
  }

  lemma {:induction false} TerminatedAppend(a: seq<string>, b: seq<string>)
    ensures Terminated(a + b) == Terminated(a) + Terminated(b)
    decreases |a|
  {
    if a == [] {
      assert a + b == b;
    } else {
      assert (a + b)[1..] == a[1..] + b;
      TerminatedAppend(a[1..], b);
    }
  }

  /** A buffer has one way of being written as newline-free lines, each with its
      newline, followed by a newline-free rest; `ExtractLines` finds it. */
  lemma {:induction false} ExtractLinesUnique(buffer: string, lines: seq<string>, rest: string)
    requires NoNewline(lines) && '\n' !in rest
    requires buffer == Terminated(lines) + rest
    ensures ExtractLines(buffer) == Extraction(lines, rest)
    decreases |lines|
  {
    if lines == [] {
    } else {
      var tail := Terminated(lines[1..]) + rest;
      assert buffer == lines[0] + "\n" + tail;
      SplitOnceUnique(buffer, '\n', lines[0], tail);
      ExtractLinesUnique(tail, lines[1..], rest);
      assert [lines[0]] + lines[1..] == lines;
    }
  }

  lemma Reassemble(buffer: string, a: string, b: string,
                   lines1: seq<string>, rest1: string, lines2: seq<string>, rest2: string)
    requires buffer + a == Terminated(lines1) + rest1
    requires rest1 + b == Terminated(lines2) + rest2
    ensures buffer + (a + b) == Terminated(lines1 + lines2) + rest2
  {
    TerminatedAppend(lines1, lines2);
    calc {
      buffer + (a + b);
      (buffer + a) + b;
      (Terminated(lines1) + rest1) + b;
      Terminated(lines1) + (rest1 + b);
      Terminated(lines1) + (Terminated(lines2) + rest2);
    }
  }

  /** Chunk boundaries do not matter: appending `a` and draining, then appending
      `b` and draining, yields the lines and the rest that appending `a + b`
      at once yields. */
  lemma ChunkBoundary(buffer: string, a: string, b: string)
    ensures var first := ExtractLines(buffer + a);
            var second := ExtractLines(first.rest + b);
            ExtractLines(buffer + (a + b)) == Extraction(first.lines + second.lines, second.rest)
  {
    var first := ExtractLines(buffer + a);
    var second := ExtractLines(first.rest + b);
    Reassemble(buffer, a, b, first.lines, first.rest, second.lines, second.rest);
    ExtractLinesUnique(buffer + (a + b), first.lines + second.lines, second.rest);
  }
}
