/**
 Cutting a byte stream into lines: the read loop of the reactor and the `getline`
 loop that reads the append-only file back.
 */
module Framing {

  /** Position of the first newline, or |s|. */
  function NewlineAt(s: string): (n: nat)
    ensures n <= |s|
    ensures n < |s| ==> s[n] == '\n'
    ensures forall i :: 0 <= i < n ==> s[i] != '\n'
  {
    if s == "" || s[0] == '\n' then 0 else 1 + NewlineAt(s[1..])
  }

  /** The newline-terminated pieces of `s`, without their newlines. */
  function Pieces(s: string): seq<string>
    decreases |s|
  {
    var n := NewlineAt(s);
    if n == |s| then [] else [s[..n]] + Pieces(s[n + 1..])
  }

  /** What follows the last newline. */
  function Remainder(s: string): string
    decreases |s|
  {
    var n := NewlineAt(s);
    if n == |s| then s else Remainder(s[n + 1..])
  }

  function StripCr(line: string): string {
    if line != "" && line[|line| - 1] == '\r' then line[..|line| - 1] else line
  }

  /** The requests a stream carries: its pieces, one trailing CR removed, empty ones left out. */
  function Requests(s: string): seq<string>
    decreases |s|
  {
    var n := NewlineAt(s);
    if n == |s| then []
    else
      var line := StripCr(s[..n]);
      (if line == "" then [] else [line]) + Requests(s[n + 1..])
  }

  predicate OneLine(s: string) {
    forall i :: 0 <= i < |s| ==> s[i] != '\n'
  }

  /** The request a single line stands for, if any. */
  function RequestOf(line: string): seq<string> {
    if StripCr(line) == "" then [] else [StripCr(line)]
  }

  lemma NewlineAfterLine(line: string, rest: string)
    requires OneLine(line)
    ensures var s := line + "\n" + rest;
            NewlineAt(s) == |line| && s[..|line|] == line && s[|line| + 1..] == rest
  {
    var s := line + "\n" + rest;
    assert s[|line|] == '\n';
    assert forall i :: 0 <= i < |line| ==> s[i] == line[i];
  }

  lemma FirstLine(line: string, rest: string)
    requires OneLine(line)
    ensures Requests(line + "\n" + rest) == RequestOf(line) + Requests(rest)
    ensures Remainder(line + "\n" + rest) == Remainder(rest)
    ensures Pieces(line + "\n" + rest) == [line] + Pieces(rest)
  {
    NewlineAfterLine(line, rest);
  }

  /** A line may end in LF or in CR LF; at most one CR is dropped, and an empty line is no request. */
  lemma RequestsOfLine(line: string, rest: string)
    requires OneLine(line)
    ensures Requests(line + "\r\n" + rest) == (if line == "" then [] else [line]) + Requests(rest)
    ensures line == "" || line[|line| - 1] != '\r' ==>
              Requests(line + "\n" + rest) == (if line == "" then [] else [line]) + Requests(rest)
  {
    assert line + "\r\n" + rest == (line + "\r") + "\n" + rest;
    FirstLine(line + "\r", rest);
    FirstLine(line, rest);
    assert (line + "\r")[..|line|] == line;
  }

  /** Either `s` is unfinished or it starts with a whole line. */
  lemma Cut(s: string) returns (line: string, rest: string)
    ensures OneLine(line)
    ensures NewlineAt(s) < |s| ==> s == line + "\n" + rest && |rest| < |s|
    ensures NewlineAt(s) == |s| ==> line == s && Requests(s) == [] && Remainder(s) == s
  {
    var n := NewlineAt(s);
    line := s[..n];
    if n < |s| {
      rest := s[n + 1..];
    } else {
      rest := "";
    }
  }

  /** Bytes that arrive later only extend the unfinished last line. */
  lemma {:induction false} RequestsOfAppend(x: string, y: string)
    ensures Requests(x + y) == Requests(x) + Requests(Remainder(x) + y)
    ensures Remainder(x + y) == Remainder(Remainder(x) + y)
    decreases |x|
  {
    hide Requests, Remainder, NewlineAt, OneLine, StripCr;
    var line, rest := Cut(x);
    if NewlineAt(x) < |x| {
      FirstLine(line, rest);
      assert x + y == line + "\n" + (rest + y);
      FirstLine(line, rest + y);
      RequestsOfAppend(rest, y);
    }
  }

  lemma {:induction false} RemainderHasNoNewline(s: string)
    ensures NewlineAt(Remainder(s)) == |Remainder(s)|
    ensures Requests(Remainder(s)) == []
    decreases |s|
  {
    hide Requests, Remainder, NewlineAt, OneLine, StripCr;
    var line, rest := Cut(s);
    if NewlineAt(s) < |s| {
      FirstLine(line, rest);
      RemainderHasNoNewline(rest);
    }
  }

  /** All bytes of a chunked stream. */
  function Flatten(chunks: seq<string>): string {
    if chunks == [] then "" else chunks[0] + Flatten(chunks[1..])
  }

  /** What a reader extracts that drains all complete lines after every chunk. */
  function ReadChunks(buffer: string, chunks: seq<string>): (seq<string>, string)
    decreases |chunks|
  {
    if chunks == [] then ([], buffer)
    else
      var s := buffer + chunks[0];
      var (lines, rest) := ReadChunks(Remainder(s), chunks[1..]);
      (Requests(s) + lines, rest)
  }

  /** However the stream is cut into chunks, the same requests and remainder come out. */
  lemma {:induction false} ChunkingIsIrrelevant(buffer: string, chunks: seq<string>)
    requires NewlineAt(buffer) == |buffer|
    ensures ReadChunks(buffer, chunks) ==
            (Requests(buffer + Flatten(chunks)), Remainder(buffer + Flatten(chunks)))
    decreases |chunks|
  {
    hide Requests, Remainder, NewlineAt, OneLine, StripCr;
    if chunks == [] {
      assert buffer + Flatten(chunks) == buffer;
      var _, _ := Cut(buffer);
    } else {
      var s, later := buffer + chunks[0], Flatten(chunks[1..]);
      RemainderHasNoNewline(s);
      ChunkingIsIrrelevant(Remainder(s), chunks[1..]);
      assert buffer + (chunks[0] + later) == s + later;
      RequestsOfAppend(s, later);
    }
  }

  // ----- Line files

  /** A file holding `lines`, each ended by a newline. */
  function FileText(lines: seq<string>): string {
    if lines == [] then "" else lines[0] + "\n" + FileText(lines[1..])
  }

  /** The lines `std::getline` delivers: an unterminated last line counts too. */
  function FileLines(text: string): seq<string> {
    Pieces(text) + if Remainder(text) == "" then [] else [Remainder(text)]
  }

  lemma {:induction false} FileLinesOfFileText(lines: seq<string>)
    requires forall l :: l in lines ==> OneLine(l)
    ensures FileLines(FileText(lines)) == lines
    ensures Pieces(FileText(lines)) == lines && Remainder(FileText(lines)) == ""
  {
    if lines != [] {
      FileLinesOfFileText(lines[1..]);
      FirstLine(lines[0], FileText(lines[1..]));
    }
  }

  lemma {:induction false} FileTextOfAppend(a: seq<string>, b: seq<string>)
    ensures FileText(a + b) == FileText(a) + FileText(b)
  {
    if a == [] {
      assert a + b == b;
    } else {
      assert (a + b)[1..] == a[1..] + b;
      FileTextOfAppend(a[1..], b);
    }
  }

  lemma {:induction false} PiecesOfAppend(x: string, y: string)
    ensures Pieces(x + y) == Pieces(x) + Pieces(Remainder(x) + y)
    ensures Remainder(x + y) == Remainder(Remainder(x) + y)
    decreases |x|
  {
    hide Requests, Remainder, Pieces, NewlineAt, OneLine;
    var line, rest := Cut(x);
    if NewlineAt(x) < |x| {
      FirstLine(line, rest);
      assert x + y == line + "\n" + (rest + y);
      FirstLine(line, rest + y);
      PiecesOfAppend(rest, y);
    } else {
      NoPieces(x);
    }
  }

  lemma NoPieces(s: string)
    requires NewlineAt(s) == |s|
    ensures Pieces(s) == []
  {
  }

  /**
   Lines appended to a file are read back after its own lines if and only if the file did
   not end in the middle of a line.
   */
  lemma AppendedFile(text: string, lines: seq<string>)
    requires lines != [] && forall l :: l in lines ==> OneLine(l)
    ensures FileLines(text + FileText(lines)) == FileLines(text) + lines <==> Remainder(text) == ""
  {
    hide Requests, Remainder, Pieces, NewlineAt, OneLine, FileText;
    PiecesOfAppend(text, FileText(lines));
    FileLinesOfFileText(lines);
    if Remainder(text) == "" {
      assert "" + FileText(lines) == FileText(lines);
      assert Pieces(text) + [] == Pieces(text);
    } else {
      RemainderHasNoNewline(text);
      NoNewlineIsOneLine(Remainder(text));
      UnfinishedLineGrows(Remainder(text), lines);
      assert |FileLines(text + FileText(lines))| == |Pieces(text)| + |lines|;
    }
  }

  lemma NoNewlineIsOneLine(s: string)
    requires NewlineAt(s) == |s|
    ensures OneLine(s)
  {
  }

  lemma UnfinishedLineGrows(rest: string, lines: seq<string>)
    requires lines != [] && OneLine(rest) && forall l :: l in lines ==> OneLine(l)
    ensures |Pieces(rest + FileText(lines))| == |lines| && Remainder(rest + FileText(lines)) == ""
  {
    var first := rest + lines[0];
    assert rest + FileText(lines) == first + "\n" + FileText(lines[1..]);
    assert OneLine(first) by { assert OneLine(lines[0]); }
    FirstLine(first, FileText(lines[1..]));
    FileLinesOfFileText(lines[1..]);
  }

  // ----- Reading in text mode

  const CTRL_Z: char := '\U{1A}'

  /** A Windows stream in text mode: CR LF becomes LF, and Ctrl-Z is the end of the file. */
  function TextMode(s: string): string {
    if s == "" || s[0] == CTRL_Z then ""
    else if |s| >= 2 && s[0] == '\r' && s[1] == '\n' then "\n" + TextMode(s[2..])
    else [s[0]] + TextMode(s[1..])
  }

  /** The lines `getline` delivers from a stream in text mode. */
  function TextLines(text: string): seq<string> {
    FileLines(TextMode(text))
  }

  /** A line that text mode leaves alone. */
  predicate Plain(line: string) {
    CTRL_Z !in line && (line == "" || line[|line| - 1] != '\r')
  }

  lemma {:induction false} TextModeOfPlain(line: string, rest: string)
    requires OneLine(line) && Plain(line)
    ensures TextMode(line + "\n" + rest) == line + "\n" + TextMode(rest)
  {
    var s := line + "\n" + rest;
    if line != "" {
      assert s[0] == line[0] && s[1..] == line[1..] + "\n" + rest;
      assert |line| > 1 ==> s[1] == line[1];
      assert |line| > 1 ==> line[1..][|line| - 2] == line[|line| - 1];
      TextModeOfPlain(line[1..], rest);
    } else {
      assert s == "\n" + rest && s[1..] == rest;
    }
  }

  /** A line with a Ctrl-Z ends the file; its end and whatever follows it are lost. */
  lemma {:induction false} TextModeOfCtrlZ(line: string, rest: string)
    requires OneLine(line) && CTRL_Z in line
    ensures var t := TextMode(line + "\n" + rest); OneLine(t) && |t| < |line|
  {
    var s := line + "\n" + rest;
    assert s[0] == line[0];
    if line[0] != CTRL_Z {
      assert s[1..] == line[1..] + "\n" + rest && |line| > 1 && s[1] == line[1];
      TextModeOfCtrlZ(line[1..], rest);
    }
  }

  /** A line that ends in CR loses it. */
  lemma {:induction false} TextModeOfCr(line: string, rest: string)
    requires OneLine(line) && CTRL_Z !in line && line != "" && line[|line| - 1] == '\r'
    ensures TextMode(line + "\n" + rest) == line[..|line| - 1] + "\n" + TextMode(rest)
  {
    var s := line + "\n" + rest;
    assert s[0] == line[0];
    if |line| > 1 {
      assert s[1..] == line[1..] + "\n" + rest && s[1] == line[1];
      TextModeOfCr(line[1..], rest);
      assert line[..|line| - 1] == [line[0]] + line[1..][..|line| - 2];
    } else {
      assert s == "\r\n" + rest && s[2..] == rest;
    }
  }

  lemma FileLinesOfLine(line: string, rest: string)
    requires OneLine(line)
    ensures FileLines(line + "\n" + rest) == [line] + FileLines(rest)
  {
    hide Pieces, Remainder, Requests, OneLine;
    FirstLine(line, rest);
  }

  lemma UnfinishedFile(s: string)
    requires OneLine(s)
    ensures FileLines(s) == if s == "" then [] else [s]
  {
    NewlineOfOneLine(s);
  }

  lemma {:induction false} NewlineOfOneLine(s: string)
    requires OneLine(s)
    ensures NewlineAt(s) == |s|
  {
    if s != "" {
      NewlineOfOneLine(s[1..]);
    }
  }

  predicate AllPlain(lines: seq<string>) {
    forall l :: l in lines ==> Plain(l)
  }

  /** A written file is read back in text mode if and only if all its lines are plain. */
  lemma {:induction false} TextLinesOfFileText(lines: seq<string>)
    requires forall l :: l in lines ==> OneLine(l)
    ensures TextLines(FileText(lines)) == lines <==> AllPlain(lines)
  {
    if lines != [] {
      var line, rest := lines[0], FileText(lines[1..]);
      TextLinesOfFileText(lines[1..]);
      if Plain(line) {
        TextModeOfPlain(line, rest);
        FileLinesOfLine(line, TextMode(rest));
        assert lines == [line] + lines[1..];
      } else {
        FirstIsLost(line, rest);
        assert line in lines;
      }
    }
  }

  lemma FirstIsLost(line: string, rest: string)
    requires OneLine(line) && !Plain(line)
    ensures TextLines(line + "\n" + rest) == [] || TextLines(line + "\n" + rest)[0] != line
  {
    if CTRL_Z in line {
      TextModeOfCtrlZ(line, rest);
      UnfinishedFile(TextMode(line + "\n" + rest));
    } else {
      TextModeOfCr(line, rest);
      FileLinesOfLine(line[..|line| - 1], TextMode(rest));
    }
  }

  lemma TextModeOfChar(c: char, rest: string)
    requires c != CTRL_Z && (c == '\r' && rest != "" ==> rest[0] != '\n')
    ensures TextMode([c] + rest) == [c] + TextMode(rest)
  {
    assert ([c] + rest)[1..] == rest;
  }

  lemma TextModeOfCrLf(rest: string)
    ensures TextMode("\r\n" + rest) == "\n" + TextMode(rest)
  {
    assert ("\r\n" + rest)[2..] == rest;
  }

  lemma TextModeOfNothing()
    ensures TextMode("") == ""
  {
  }

  /** Text mode treats the two parts of a file alone, if the first ends with a whole line and has no Ctrl-Z. */
  lemma {:induction false} TextModeOfAppend(x: string, y: string)
    requires CTRL_Z !in x && (x == "" || x[|x| - 1] == '\n')
    ensures TextMode(x + y) == TextMode(x) + TextMode(y)
  {
    hide TextMode;
    if x == "" {
      TextModeOfNothing();
      assert x + y == y;
    } else if |x| >= 2 && x[0] == '\r' && x[1] == '\n' {
      var rest := x[2..];
      assert x == "\r\n" + rest && x + y == "\r\n" + (rest + y);
      assert rest != "" ==> rest[|rest| - 1] == x[|x| - 1];
      TextModeOfCrLf(rest);
      TextModeOfCrLf(rest + y);
      TextModeOfAppend(rest, y);
    } else {
      var rest := x[1..];
      assert x == [x[0]] + rest && x + y == [x[0]] + (rest + y);
      assert rest != "" ==> rest[0] == x[1] && rest[|rest| - 1] == x[|x| - 1];
      TextModeOfChar(x[0], rest);
      TextModeOfChar(x[0], rest + y);
      TextModeOfAppend(rest, y);
    }
  }

  lemma TextModeAtCtrlZ(rest: string)
    ensures TextMode([CTRL_Z] + rest) == ""
  {
  }

  lemma {:induction false} TextModeAfterCtrlZ(x: string, y: string)
    requires CTRL_Z in x
    ensures TextMode(x + y) == TextMode(x)
  {
    hide TextMode;
    var rest := x[1..];
    assert x == [x[0]] + rest && x + y == [x[0]] + (rest + y);
    if x[0] == CTRL_Z {
      TextModeAtCtrlZ(rest);
      TextModeAtCtrlZ(rest + y);
    } else if x[0] == '\r' && rest[0] == '\n' {
      assert rest == "\n" + rest[1..] && x == "\r\n" + rest[1..] && x + y == "\r\n" + (rest[1..] + y);
      TextModeOfCrLf(rest[1..]);
      TextModeOfCrLf(rest[1..] + y);
      TextModeAfterCtrlZ(rest[1..], y);
    } else {
      TextModeOfChar(x[0], rest);
      TextModeOfChar(x[0], rest + y);
      TextModeAfterCtrlZ(rest, y);
    }
  }

  lemma {:induction false} EndsInNewline(s: string)
    ensures Remainder(s) == "" <==> s == "" || s[|s| - 1] == '\n'
    decreases |s|
  {
    var n := NewlineAt(s);
    if n < |s| {
      EndsInNewline(s[n + 1..]);
      assert n + 1 < |s| ==> s[n + 1..][|s| - n - 2] == s[|s| - 1];
    }
  }

  function Newlines(s: string): nat {
    if s == "" then 0 else (if s[0] == '\n' then 1 else 0) + Newlines(s[1..])
  }

  lemma {:induction false} NewlinesOfAppend(a: string, b: string)
    ensures Newlines(a + b) == Newlines(a) + Newlines(b)
  {
    if a == "" {
      assert a + b == b;
    } else {
      assert (a + b)[0] == a[0] && (a + b)[1..] == a[1..] + b;
      NewlinesOfAppend(a[1..], b);
    }
  }

  lemma OneNewline()
    ensures Newlines("\n") == 1
  {
    assert "\n"[1..] == "" && Newlines("") == 0;
  }

  lemma {:induction false} NoNewlines(s: string)
    requires OneLine(s)
    ensures Newlines(s) == 0
  {
    if s != "" {
      NoNewlines(s[1..]);
    }
  }

  lemma {:induction false} PiecesAreCounted(s: string)
    ensures |Pieces(s)| == Newlines(s)
    decreases |s|
  {
    hide Requests, Remainder, OneLine;
    var line, rest := Cut(s);
    NoNewlines(line);
    if NewlineAt(s) < |s| {
      FirstLine(line, rest);
      PiecesAreCounted(rest);
      NewlinesOfAppend(line + "\n", rest);
      NewlinesOfAppend(line, "\n");
      OneNewline();
    } else {
      NoPieces(s);
    }
  }

  /** Without Ctrl-Z, text mode keeps the newlines, and whether the text ends in one. */
  lemma {:induction false} TextModeKeepsNewlines(s: string)
    requires CTRL_Z !in s
    ensures Newlines(TextMode(s)) == Newlines(s) && (TextMode(s) == "" <==> s == "")
    ensures s != "" ==> (TextMode(s)[|TextMode(s)| - 1] == '\n' <==> s[|s| - 1] == '\n')
  {
    hide TextMode;
    if s == "" {
      TextModeOfNothing();
    } else if |s| >= 2 && s[0] == '\r' && s[1] == '\n' {
      var rest := s[2..];
      assert s == "\r\n" + rest && s[1..] == "\n" + rest && s[1..][1..] == rest;
      assert rest != "" ==> rest[|rest| - 1] == s[|s| - 1];
      TextModeOfCrLf(rest);
      TextModeKeepsNewlines(rest);
      assert ("\n" + TextMode(rest))[1..] == TextMode(rest);
    } else {
      var rest := s[1..];
      assert s == [s[0]] + rest;
      assert rest != "" ==> rest[0] == s[1] && rest[|rest| - 1] == s[|s| - 1];
      TextModeOfChar(s[0], rest);
      TextModeKeepsNewlines(rest);
      assert ([s[0]] + TextMode(rest))[1..] == TextMode(rest);
    }
  }

  lemma LinesAreCounted(s: string)
    ensures |FileLines(s)| == Newlines(s) + if s == "" || s[|s| - 1] == '\n' then 0 else 1
  {
    PiecesAreCounted(s);
    EndsInNewline(s);
  }

  /**
   Plain lines appended to a file are read back after its own if and only if the file ended
   with a whole line and had no Ctrl-Z.
   */
  lemma AppendedTextFile(text: string, lines: seq<string>)
    requires lines != [] && (forall l :: l in lines ==> OneLine(l)) && AllPlain(lines)
    ensures TextLines(text + FileText(lines)) == TextLines(text) + lines <==> CTRL_Z !in text && Remainder(text) == ""
  {
    hide OneLine, Plain, TextMode, FileLines, FileText;
    if CTRL_Z in text {
      NothingAfterCtrlZ(text, FileText(lines));
      assert |TextLines(text) + lines| > |TextLines(text)|;
    } else if Remainder(text) == "" {
      AppendedPlainly(text, lines);
    } else {
      UnfinishedTextFile(text, lines);
      assert |TextLines(text + FileText(lines))| < |TextLines(text) + lines|;
    }
  }

  lemma AppendedPlainly(text: string, lines: seq<string>)
    requires (forall l :: l in lines ==> OneLine(l)) && AllPlain(lines)
    requires CTRL_Z !in text && Remainder(text) == ""
    ensures TextLines(text + FileText(lines)) == TextLines(text) + lines
  {
    hide OneLine, Plain, TextMode, FileLines;
    EndsInNewline(text);
    PlainFile(lines);
    if lines == [] {
      assert text + FileText(lines) == text && TextLines(text) + lines == TextLines(text);
    } else {
      TextModeOfAppend(text, FileText(lines));
      TextModeKeepsNewlines(text);
      EndsInNewline(TextMode(text));
      AppendedFile(TextMode(text), lines);
    }
  }

  /** The first appended line joins the unfinished one, so one line less is read. */
  lemma UnfinishedTextFile(text: string, lines: seq<string>)
    requires lines != [] && (forall l :: l in lines ==> OneLine(l)) && AllPlain(lines)
    requires CTRL_Z !in text && Remainder(text) != ""
    ensures |TextLines(text + FileText(lines))| == |TextLines(text)| + |lines| - 1
  {
    hide OneLine, Plain, TextMode, FileLines;
    var whole := text + FileText(lines);
    EndsInNewline(text);
    FileTextCounted(lines);
    NewlinesOfAppend(text, FileText(lines));
    assert CTRL_Z !in whole && whole[|whole| - 1] == FileText(lines)[|FileText(lines)| - 1];
    TextModeKeepsNewlines(text);
    TextModeKeepsNewlines(whole);
    LinesAreCounted(TextMode(text));
    LinesAreCounted(TextMode(whole));
  }

  lemma {:induction false} FileTextCounted(lines: seq<string>)
    requires lines != [] && (forall l :: l in lines ==> OneLine(l)) && AllPlain(lines)
    ensures var t := FileText(lines);
            Newlines(t) == |lines| && CTRL_Z !in t && t != "" && t[|t| - 1] == '\n'
  {
    var first := lines[0] + "\n";
    NoNewlines(lines[0]);
    NewlinesOfAppend(lines[0], "\n");
    OneNewline();
    assert Plain(lines[0]);
    if |lines| > 1 {
      FileTextCounted(lines[1..]);
      NewlinesOfAppend(first, FileText(lines[1..]));
    } else {
      assert FileText(lines[1..]) == "" && FileText(lines) == first;
    }
  }

  lemma {:induction false} PlainFile(lines: seq<string>)
    requires (forall l :: l in lines ==> OneLine(l)) && AllPlain(lines)
    ensures TextMode(FileText(lines)) == FileText(lines)
  {
    if lines != [] {
      PlainFile(lines[1..]);
      TextModeOfPlain(lines[0], FileText(lines[1..]));
    }
  }

  /** After a Ctrl-Z in the file, nothing that is appended is ever read. */
  lemma NothingAfterCtrlZ(text: string, more: string)
    requires CTRL_Z in text
    ensures TextLines(text + more) == TextLines(text)
  {
    TextModeAfterCtrlZ(text, more);
  }
}
