/** Splitting the received bytes into lines (recv), against a reader that takes
    one character at a time. */
module LineSplitter {
  import opened Wrappers

  // ------------------------------------------------- one character at a time

  predicate IsBlank(c: char) {
    c == ' ' || c == '\r' || c == '\n'
  }

  /** What has been read: the complete lines, and the beginning of the next. */
  datatype Reading = Reading(lines: seq<string>, rest: string)

  function Chomp(s: string): string {
    if s != "" && s[|s| - 1] == '\r' then s[..|s| - 1] else s
  }

  /** Blanks in front of a line are skipped; a line feed ends a line, together
      with one carriage return in front of it. */
  function ReadChar(r: Reading, c: char): Reading {
    if r.rest == "" && IsBlank(c) then r
    else if c == '\n' then Reading(r.lines + [Chomp(r.rest)], "")
    else Reading(r.lines, r.rest + [c])
  }

  function Read(r: Reading, s: string): Reading
    decreases |s|
  {
    if s == "" then r else Read(ReadChar(r, s[0]), s[1..])
  }

  lemma {:induction false} ReadConcat(r: Reading, a: string, b: string)
    ensures Read(r, a + b) == Read(Read(r, a), b)
    decreases |a|
  {
    if a == "" {
      assert a + b == b;
    } else {
      ReadConcat(ReadChar(r, a[0]), a[1..], b);
      assert (a + b)[1..] == a[1..] + b;
    }
  }

  /** A rest that recv leaves in its buffer. */
  predicate IsRest(s: string) {
    (s != "" ==> !IsBlank(s[0])) && '\n' !in s
  }

  /** The characters from a non-blank up to a line feed build up a line. */
  lemma {:induction false} ReadPlain(r: Reading, s: string)
    requires '\n' !in s && (s != "" && r.rest == "" ==> !IsBlank(s[0]))
    ensures Read(r, s) == Reading(r.lines, r.rest + s)
    decreases |s|
  {
    if s == "" {
      assert r.rest + s == r.rest;
    } else {
      ReadPlain(ReadChar(r, s[0]), s[1..]);
      assert r.rest + s == r.rest + [s[0]] + s[1..];
    }
  }

  lemma {:induction false} ReadBlanks(lines: seq<string>, s: string)
    requires forall c | c in s :: IsBlank(c)
    ensures Read(Reading(lines, ""), s) == Reading(lines, "")
  {
    if s != "" {
      ReadBlanks(lines, s[1..]);
    }
  }

  /** A buffer that ends in a line feed behind a rest yields one more line. */
  lemma ReadLine(lines: seq<string>, line: string)
    requires IsRest(line) && line != ""
    ensures Read(Reading(lines, ""), line + "\n") == Reading(lines + [Chomp(line)], "")
  {
    ReadConcat(Reading(lines, ""), line, "\n");
    ReadPlain(Reading(lines, ""), line);
    var r := Reading(lines, line);
    assert Read(r, "\n") == Read(ReadChar(r, '\n'), "\n"[1..]);
    assert "" + line == line;
  }

  // ---------------------------------------------------------------- the splitter

  /** find_first_not_of(" \r\n", from) */
  method FindNonBlank(s: string, from: nat) returns (pos: Option<nat>)
    requires from <= |s|
    ensures match pos
      case Some(p) => from <= p < |s| && !IsBlank(s[p]) && forall k | from <= k < p :: IsBlank(s[k])
      case None => forall k | from <= k < |s| :: IsBlank(s[k])
  {
    var i := from;
    while i < |s| && (s[i] == ' ' || s[i] == '\r' || s[i] == '\n')
      invariant from <= i <= |s| && forall k | from <= k < i :: IsBlank(s[k])
    {
      i := i + 1;
    }
    pos := if i < |s| then Some(i) else None;
  }

  /** find("\n", from) */
  method FindLineFeed(s: string, from: nat) returns (pos: Option<nat>)
    requires from <= |s|
    ensures match pos
      case Some(p) => from <= p < |s| && s[p] == '\n' && '\n' !in s[from..p]
      case None => '\n' !in s[from..]
  {
    var i := from;
    while i < |s| && s[i] != '\n'
      invariant from <= i <= |s| && '\n' !in s[from..i]
    {
      i := i + 1;
      assert s[from..i] == s[from..i - 1] + [s[i - 1]];
    }
    if i < |s| { return Some(i); }
    assert s[from..] == s[from..i];
    pos := None;
  }

  class Receiver {
    var buffer: string         // recv_buffer
    var lines: seq<string>     // the lines queued as events so far

    constructor ()
      ensures buffer == "" && lines == []
    {
      buffer, lines := "", [];
    }

    /** recv: queues every complete line of the buffer, and keeps the rest. The
        scan ends because `lineEnd` grows in every round that goes on. */
    method Recv()
      modifies this
      ensures IsRest(buffer)
      ensures Reading(lines, buffer) == Read(Reading(old(lines), ""), old(buffer))
    {
      ghost var start := Reading(lines, "");
      var lineEnd := 0;
      while true
        invariant lineEnd <= |buffer| && buffer == old(buffer)
        invariant Read(Reading(lines, ""), buffer[lineEnd..]) == Read(start, buffer)
        decreases |buffer| - lineEnd
      {
        var begin := FindNonBlank(buffer, lineEnd);
        if begin.None? {
          ReadBlanks(lines, buffer[lineEnd..]);
          buffer := "";
          break;
        }
        var lineBegin := begin.value;
        SkipBlanks(lines, buffer, lineEnd, lineBegin);
        var end := FindLineFeed(buffer, lineBegin);
        if end.None? {
          ReadPlain(Reading(lines, ""), buffer[lineBegin..]);
          assert "" + buffer[lineBegin..] == buffer[lineBegin..];
          buffer := buffer[lineBegin..];
          break;
        }
        lineEnd := end.value;
        EmitLine(lines, buffer, lineBegin, lineEnd);
        if buffer[lineEnd - 1] == '\r' {
          lineEnd := lineEnd - 1;
        }
        lines := lines + [buffer[lineBegin..lineEnd]];
      }
    }

    method Clear()
      modifies `buffer
      ensures buffer == ""
    {
      buffer := "";
    }

    /** A chunk arrives: it is appended, and the buffer is split again. */
    method Receive(chunk: string)
      requires IsRest(buffer)
      modifies this
      ensures IsRest(buffer)
      ensures Reading(lines, buffer) == Read(old(Reading(lines, buffer)), chunk)
    {
      ContinueReading(lines, buffer, chunk);
      buffer := buffer + chunk;
      Recv();
    }
  }

  /** What is left in the buffer reads the same from the beginning. */
  lemma ContinueReading(lines: seq<string>, rest: string, chunk: string)
    requires IsRest(rest)
    ensures Read(Reading(lines, ""), rest + chunk) == Read(Reading(lines, rest), chunk)
  {
    ReadConcat(Reading(lines, ""), rest, chunk);
    ReadPlain(Reading(lines, ""), rest);
    assert "" + rest == rest;
  }

  lemma ChompSlice(s: string, begin: nat, end: nat)
    requires begin < end <= |s|
    ensures Chomp(s[begin..end]) == s[begin..if s[end - 1] == '\r' then end - 1 else end]
  {}

  lemma SkipBlanks(lines: seq<string>, s: string, from: nat, to: nat)
    requires from <= to <= |s| && forall k | from <= k < to :: IsBlank(s[k])
    ensures Read(Reading(lines, ""), s[from..]) == Read(Reading(lines, ""), s[to..])
  {
    assert s[from..] == s[from..to] + s[to..];
    ReadBlanks(lines, s[from..to]);
    ReadConcat(Reading(lines, ""), s[from..to], s[to..]);
  }

  lemma SplitOff(lines: seq<string>, s: string, begin: nat, end: nat)
    requires begin < end < |s| && !IsBlank(s[begin]) && s[end] == '\n' && '\n' !in s[begin..end]
    ensures Read(Reading(lines, ""), s[begin..]) ==
            Read(Reading(lines + [Chomp(s[begin..end])], ""), s[end + 1..])
  {
    assert s[begin..] == (s[begin..end] + "\n") + s[end + 1..];
    ReadLine(lines, s[begin..end]);
    ReadConcat(Reading(lines, ""), s[begin..end] + "\n", s[end + 1..]);
  }

  /** Where the scan goes on after a line, in front of the line's end. */
  lemma EmitLine(lines: seq<string>, s: string, begin: nat, end: nat)
    requires begin < end < |s| && !IsBlank(s[begin]) && s[end] == '\n' && '\n' !in s[begin..end]
    ensures var e := if s[end - 1] == '\r' then end - 1 else end;
      begin < e && Read(Reading(lines, ""), s[begin..]) == Read(Reading(lines + [s[begin..e]], ""), s[e..])
  {
    var e := if s[end - 1] == '\r' then end - 1 else end;
    SplitOff(lines, s, begin, end);
    ChompSlice(s, begin, end);
    SkipBlanks(lines + [s[begin..e]], s, e, end + 1);
  }

  // ------------------------------------------------------------ chunks, and lines

  function Flatten(chunks: seq<string>): string {
    if chunks == [] then "" else chunks[0] + Flatten(chunks[1..])
  }

  /** Reads the chunks one after the other. */
  function ReadChunks(r: Reading, chunks: seq<string>): Reading
    decreases |chunks|
  {
    if chunks == [] then r else ReadChunks(Read(r, chunks[0]), chunks[1..])
  }

  lemma {:induction false} ChunkingIrrelevant(r: Reading, chunks: seq<string>)
    ensures ReadChunks(r, chunks) == Read(r, Flatten(chunks))
    decreases |chunks|
  {
    if chunks != [] {
      ReadConcat(r, chunks[0], Flatten(chunks[1..]));
      ChunkingIrrelevant(Read(r, chunks[0]), chunks[1..]);
    }
  }

  /** Any partition of a byte stream emits the lines, and leaves the rest, that
      the stream gives in one piece. */
  method ReceiveAll(chunks: seq<string>) returns (lines: seq<string>, rest: string)
    ensures Reading(lines, rest) == Read(Reading([], ""), Flatten(chunks))
    ensures IsRest(rest)
  {
    var receiver := new Receiver();
    var i := 0;
    while i < |chunks|
      invariant 0 <= i <= |chunks| && fresh(receiver) && IsRest(receiver.buffer)
      invariant ReadChunks(Reading(receiver.lines, receiver.buffer), chunks[i..]) == ReadChunks(Reading([], ""), chunks)
    {
      assert chunks[i..][1..] == chunks[i + 1..];
      receiver.Receive(chunks[i]);
      i := i + 1;
    }
    lines, rest := receiver.lines, receiver.buffer;
    ChunkingIrrelevant(Reading([], ""), chunks);
  }

  /** A line as it is emitted: something, without a line feed, that does not
      start with a character that would have been skipped. */
  predicate IsLine(line: string) {
    line != "" && '\n' !in line && line[0] != ' ' && line[0] != '\r' && line[0] != '\n'
  }

  ghost predicate AllLines(lines: seq<string>) {
    forall line | line in lines :: IsLine(line)
  }

  lemma {:induction false} ReadKeepsLines(r: Reading, s: string)
    requires AllLines(r.lines) && IsRest(r.rest)
    ensures AllLines(Read(r, s).lines) && IsRest(Read(r, s).rest)
    decreases |s|
  {
    if s != "" {
      var next := ReadChar(r, s[0]);
      assert AllLines(next.lines) && IsRest(next.rest);
      ReadKeepsLines(next, s[1..]);
    }
  }

  /** Every line emitted is something without a line feed that starts with
      neither a space nor a carriage return. */
  lemma EmittedAreLines(chunks: seq<string>, line: string)
    requires line in ReadChunks(Reading([], ""), chunks).lines
    ensures line != "" && '\n' !in line && line[0] != ' ' && line[0] != '\r' && line[0] != '\n'
  {
    ChunkingIrrelevant(Reading([], ""), chunks);
    ReadKeepsLines(Reading([], ""), Flatten(chunks));
  }

  /** Every line ends in CR LF. */
  function Join(lines: seq<string>): string {
    if lines == [] then "" else lines[0] + "\r\n" + Join(lines[1..])
  }

  lemma {:induction false} ReadJoined(sofar: seq<string>, lines: seq<string>)
    requires AllLines(lines)
    ensures Read(Reading(sofar, ""), Join(lines)) == Reading(sofar + lines, "")
    decreases |lines|
  {
    if lines == [] {
      assert sofar + lines == sofar;
    } else {
      var line := lines[0];
      assert IsLine(line);
      assert line + "\r\n" == (line + "\r") + "\n";
      ReadLine(sofar, line + "\r");
      assert Chomp(line + "\r") == line;
      ReadConcat(Reading(sofar, ""), line + "\r\n", Join(lines[1..]));
      ReadJoined(sofar + [line], lines[1..]);
      assert sofar + [line] + lines[1..] == sofar + lines;
    }
  }

  /** Lines joined by CR LF come back, under any chunking and with nothing left
      over, exactly if none is empty, holds a line feed or starts with a space or
      a carriage return. */
  lemma JoinedLinesComeBack(lines: seq<string>, chunks: seq<string>)
    requires Flatten(chunks) == Join(lines)
    ensures ReadChunks(Reading([], ""), chunks) == Reading(lines, "") <==>
            forall line | line in lines ::
              line != "" && '\n' !in line && line[0] != ' ' && line[0] != '\r' && line[0] != '\n'
  {
    ChunkingIrrelevant(Reading([], ""), chunks);
    if AllLines(lines) {
      ReadJoined([], lines);
      assert [] + lines == lines;
    }
    ReadKeepsLines(Reading([], ""), Join(lines));
  }

  /** What is skipped and dropped: blanks in front of a line, and one carriage
      return at its end; no other character is. */
  lemma PlainLine(blanks: string, line: string, ending: string)
    requires forall c | c in blanks :: c == ' ' || c == '\r' || c == '\n'
    requires line != "" && '\n' !in line && line[0] != ' ' && line[0] != '\r'
    requires ending == "\r\n" || (ending == "\n" && line[|line| - 1] != '\r')
    ensures Read(Reading([], ""), blanks + line + ending) == Reading([line], "")
  {
    ReadConcat(Reading([], ""), blanks, line + ending);
    ReadBlanks([], blanks);
    assert blanks + line + ending == blanks + (line + ending);
    if ending == "\r\n" {
      assert line + ending == (line + "\r") + "\n";
      ReadLine([], line + "\r");
      assert Chomp(line + "\r") == line;
    } else {
      ReadLine([], line);
    }
    assert [] + [line] == [line];
  }
}
