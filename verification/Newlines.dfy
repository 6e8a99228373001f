/**
  Rewriting the line breaks of a text to one kind: three replacements, one after the other
  (operation_journal/filesystem_support.py, filesystem_ops/mutation_support.py,
  filesystem_ops/mutations.py).
*/
module Newlines {
  import opened Snapshots
  import opened Wrappers

  // str.replace of a pair of characters, left to right without overlap.
  function ReplacePair(s: string, a: char, b: char, with: string): string {
    if |s| < 2 then s
    else if s[0] == a && s[1] == b then with + ReplacePair(s[2..], a, b, with)
    else [s[0]] + ReplacePair(s[1..], a, b, with)
  }

  function ReplaceChar(s: string, a: char, with: string): string {
    if s == "" then "" else (if s[0] == a then with else [s[0]]) + ReplaceChar(s[1..], a, with)
  }

  function Normalized(s: string, newline: string): string {
    ReplaceChar(ReplaceChar(ReplacePair(s, '\r', '\n', "\n"), '\r', "\n"), '\n', newline)
  }

  // What is journaled as desired, and what the atomic write encodes: no newline, or an empty one,
  // leaves the text alone.
  function JournaledText(s: string, newline: Option<string>): string {
    if newline.None? || newline.value == "" then s else Normalized(s, newline.value)
  }

  function WrittenText(s: string, newline: Option<string>): string {
    match newline
    case None => s
    case Some(n) => if n == "" then s else Normalized(s, n)
  }

  predicate IsBreak(c: char) { c == '\r' || c == '\n' }

  predicate OneLine(line: string) { forall c :: c in line ==> !IsBreak(c) }

  // The lines of a text: CRLF, CR and LF each end one.
  function Lines(s: string): (lines: seq<string>)
    ensures |lines| > 0
  {
    if s == "" then [""]
    else if s[0] == '\r' && |s| > 1 && s[1] == '\n' then [""] + Lines(s[2..])
    else if IsBreak(s[0]) then [""] + Lines(s[1..])
    else
      var rest := Lines(s[1..]);
      [[s[0]] + rest[0]] + rest[1..]
  }

  function Join(lines: seq<string>, newline: string): string
    requires |lines| > 0
  {
    if |lines| == 1 then lines[0] else lines[0] + newline + Join(lines[1..], newline)
  }

  predicate Standard(newline: string) { newline in {"\n", "\r", "\r\n"} }

  lemma {:induction false} LinesHaveNoBreaks(s: string)
    ensures forall line :: line in Lines(s) ==> OneLine(line)
    decreases |s|
  {
    if s == "" {
    } else if s[0] == '\r' && |s| > 1 && s[1] == '\n' {
      LinesHaveNoBreaks(s[2..]);
    } else {
      LinesHaveNoBreaks(s[1..]);
      var rest := Lines(s[1..]);
      assert rest[0] in rest && forall line :: line in rest[1..] ==> line in rest;
    }
  }

  lemma JoinFirst(c: char, lines: seq<string>, newline: string)
    requires |lines| > 0
    ensures Join([[c] + lines[0]] + lines[1..], newline) == [c] + Join(lines, newline)
  {
    var longer := [[c] + lines[0]] + lines[1..];
    assert longer[1..] == lines[1..];
    if |lines| > 1 { assert [c] + lines[0] + newline + Join(lines[1..], newline) == [c] + (lines[0] + newline + Join(lines[1..], newline)); }
  }

  lemma JoinEmpty(lines: seq<string>, newline: string)
    requires |lines| > 0
    ensures Join([""] + lines, newline) == newline + Join(lines, newline)
  {
    assert ([""] + lines)[1..] == lines;
    assert "" + newline + Join(lines, newline) == newline + Join(lines, newline);
  }

  // Three chained replacements are one pass: the text's lines joined by the newline, whatever it is.
  lemma {:induction false} NormalizedJoinsLines(s: string, newline: string)
    ensures Normalized(s, newline) == Join(Lines(s), newline)
    decreases |s|
  {
    var pairs := ReplacePair(s, '\r', '\n', "\n");
    if s == "" {
    } else if s[0] == '\r' && |s| > 1 && s[1] == '\n' {
      NormalizedJoinsLines(s[2..], newline);
      JoinEmpty(Lines(s[2..]), newline);
      assert pairs == "\n" + ReplacePair(s[2..], '\r', '\n', "\n");
      HeadReplaced('\n', ReplacePair(s[2..], '\r', '\n', "\n"), newline);
    } else {
      var rest := ReplacePair(s[1..], '\r', '\n', "\n");
      assert pairs == [s[0]] + rest by { if |s| == 1 { assert s[1..] == "" && s == [s[0]] + ""; } }
      NormalizedJoinsLines(s[1..], newline);
      HeadReplaced(s[0], rest, newline);
      if IsBreak(s[0]) { JoinEmpty(Lines(s[1..]), newline); } else { JoinFirst(s[0], Lines(s[1..]), newline); }
    }
  }

  lemma HeadReplaced(c: char, rest: string, newline: string)
    ensures ReplaceChar(ReplaceChar([c] + rest, '\r', "\n"), '\n', newline)
            == (if IsBreak(c) then newline else [c]) + ReplaceChar(ReplaceChar(rest, '\r', "\n"), '\n', newline)
  {
    assert ([c] + rest)[1..] == rest;
    var once := ReplaceChar(rest, '\r', "\n");
    var head := if c == '\r' then '\n' else c;
    assert ReplaceChar([c] + rest, '\r', "\n") == [head] + once;
    assert ([head] + once)[1..] == once;
  }

  lemma FirstLine(line: string, newline: string, rest: string)
    requires OneLine(line) && Standard(newline) && (newline == "\r" ==> rest == "" || rest[0] != '\n')
    ensures Lines(line + newline + rest) == [line] + Lines(rest)
  {
    hide Lines, OneLine, Standard;
    BreakSplits(newline, rest);
    LinePrefix(line, newline + rest);
    var split := Lines(newline + rest);
    assert split[0] == "" && split[1..] == Lines(rest);
    assert line + split[0] == line;
    assert line + newline + rest == line + (newline + rest);
  }

  // For the three standard newlines, joining lines and splitting the text again gives the lines back.
  lemma {:induction false} LinesOfJoin(lines: seq<string>, newline: string)
    requires |lines| > 0 && Standard(newline) && forall line :: line in lines ==> OneLine(line)
    ensures Lines(Join(lines, newline)) == lines
    decreases |lines|
  {
    var line := lines[0];
    assert line in lines;
    if |lines| == 1 {
      assert line + "" == line && lines == [line];
      LinePrefix(line, "");
    } else {
      hide Lines, OneLine;
      assert forall l :: l in lines[1..] ==> l in lines;
      LinesOfJoin(lines[1..], newline);
      FirstIsNoLineFeed(lines[1..], newline);
      FirstLine(line, newline, Join(lines[1..], newline));
      assert [line] + lines[1..] == lines;
    }
  }

  lemma FirstIsNoLineFeed(lines: seq<string>, newline: string)
    requires |lines| > 0 && newline == "\r" ==> forall line :: line in lines ==> OneLine(line)
    requires |lines| > 0
    ensures newline == "\r" ==> Join(lines, newline) == "" || Join(lines, newline)[0] != '\n'
  {
    if newline == "\r" {
      var line := lines[0];
      assert line in lines && (line != "" ==> line[0] in line);
    }
  }

  lemma BreakSplits(newline: string, rest: string)
    requires Standard(newline)
    requires newline == "\r" ==> rest == "" || rest[0] != '\n'
    ensures Lines(newline + rest) == [""] + Lines(rest)
  {
    assert (newline + rest)[|newline|..] == rest;
  }

  lemma {:induction false} LinePrefix(line: string, rest: string)
    requires OneLine(line)
    ensures Lines(line + rest) == [line + Lines(rest)[0]] + Lines(rest)[1..]
    decreases |line|
  {
    if line == "" {
      assert line + rest == rest && "" + Lines(rest)[0] == Lines(rest)[0];
    } else {
      assert line[0] in line && forall c :: c in line[1..] ==> c in line;
      LinePrefix(line[1..], rest);
      assert (line + rest)[1..] == line[1..] + rest;
      assert [line[0]] + (line[1..] + Lines(rest)[0]) == line + Lines(rest)[0];
    }
  }

  // A normalized text has the lines of the original and no break of any other kind; normalizing it
  // again changes nothing.
  lemma NormalizedIsFixed(s: string, newline: string)
    requires Standard(newline)
    ensures Lines(Normalized(s, newline)) == Lines(s)
    ensures Normalized(Normalized(s, newline), newline) == Normalized(s, newline)
    ensures Normalized(s, newline) == Join(Lines(s), newline) && forall line :: line in Lines(s) ==> OneLine(line)
  {
    LinesHaveNoBreaks(s);
    NormalizedJoinsLines(s, newline);
    LinesOfJoin(Lines(s), newline);
    NormalizedJoinsLines(Normalized(s, newline), newline);
  }

  // Whatever the encoding, the journaled size and hash are those of the bytes written.
  lemma JournaledDescribesWritten(s: string, newline: Option<string>, encode: string -> Bytes)
    ensures encode(JournaledText(s, newline)) == encode(WrittenText(s, newline))
    ensures newline.Some? && Standard(newline.value) ==> Lines(WrittenText(s, newline)) == Lines(s)
  {
    if newline.Some? && Standard(newline.value) { NormalizedIsFixed(s, newline.value); }
  }
}
