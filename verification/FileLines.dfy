/** Splitting file data into lines with their terminators, and when joining loses no line. */
module FileLines {

  datatype FileLine = FileLine(text: string, terminator: string)

  predicate IsBreak(c: char) { c == '\r' || c == '\n' }

  /** Where the first line ends, or the length if it is not terminated. */
  function FirstBreak(data: string): (i: nat)
    ensures i <= |data| && (i < |data| ==> IsBreak(data[i])) && forall k | 0 <= k < i :: !IsBreak(data[k])
  {
    if data == "" || IsBreak(data[0]) then 0 else FirstBreak(data[1..]) + 1
  }

  /** The length of the terminator at the front: a carriage return takes a newline that follows it. */
  function TerminatorLength(data: string): (n: nat)
    requires data != ""
    ensures 1 <= n <= |data|
  {
    if data[0] == '\r' && |data| > 1 && data[1] == '\n' then 2 else 1
  }

  /** The end of the first line, terminator included. */
  ghost function FirstEnd(data: string): (n: nat)
    requires data != ""
    ensures FirstBreak(data) <= n <= |data| && n > 0
  {
    var i := FirstBreak(data);
    if i == |data| then i else i + TerminatorLength(data[i..])
  }

  ghost function FirstLine(data: string): FileLine
    requires data != ""
  {
    FileLine(data[..FirstBreak(data)], data[FirstBreak(data)..FirstEnd(data)])
  }

  ghost function Split(data: string): seq<FileLine>
    decreases |data|
  {
    if data == "" then [] else [FirstLine(data)] + Split(data[FirstEnd(data)..])
  }

  ghost function Join(lines: seq<FileLine>): string {
    if lines == [] then "" else lines[0].text + lines[0].terminator + Join(lines[1..])
  }

  function Texts(lines: seq<FileLine>): (ts: seq<string>)
    ensures |ts| == |lines| && forall i | 0 <= i < |lines| :: ts[i] == lines[i].text
  {
    seq(|lines|, i requires 0 <= i < |lines| => lines[i].text)
  }

  // ---------------------------------------------------------------------------
  // Splitting and joining are inverse exactly on canonical lists
  // ---------------------------------------------------------------------------

  ghost predicate BreakFree(s: string) { forall k | 0 <= k < |s| :: !IsBreak(s[k]) }

  ghost predicate WellFormedLine(l: FileLine) {
    BreakFree(l.text) && (l.terminator == "" || l.terminator == "\n" || l.terminator == "\r" || l.terminator == "\r\n")
  }

  ghost predicate WellFormed(lines: seq<FileLine>) { forall i | 0 <= i < |lines| :: WellFormedLine(lines[i]) }

  /** A carriage return swallows the newline of an empty line after it. */
  ghost predicate Fuses(l: FileLine, next: FileLine) { l.terminator == "\r" && next.text == "" && next.terminator == "\n" }

  /** Only the last line may be unterminated, and then it has text; no terminator runs into the next line. */
  ghost predicate Canonical(lines: seq<FileLine>) {
    if lines == [] then true
    else if |lines| == 1 then lines[0].text != "" || lines[0].terminator != ""
    else lines[0].terminator != "" && !Fuses(lines[0], lines[1]) && Canonical(lines[1..])
  }

  /** Two texts that agree up to and including a break have the same first break. */
  lemma {:induction false} FirstBreakIs(data: string, i: nat)
    requires i <= |data| && (forall k | 0 <= k < i :: !IsBreak(data[k])) && (i < |data| ==> IsBreak(data[i]))
    ensures FirstBreak(data) == i
  {
  }

  lemma TerminatorAtFront(terminator: string, rest: string)
    requires terminator == "\n" || terminator == "\r" || terminator == "\r\n"
    requires !(terminator == "\r" && rest != "" && rest[0] == '\n')
    ensures TerminatorLength(terminator + rest) == |terminator|
  {
  }

  lemma CutLine(text: string, terminator: string, rest: string)
    ensures var data, i, n := text + terminator + rest, |text|, |terminator|;
            && data[..i] == text && data[i..] == terminator + rest
            && data[i..i + n] == terminator && data[i + n..] == rest
  {
  }

  lemma FirstLineOff(l: FileLine, rest: string)
    requires WellFormedLine(l) && l.terminator != "" && !(l.terminator == "\r" && rest != "" && rest[0] == '\n')
    ensures var data := l.text + l.terminator + rest; FirstBreak(data) == |l.text| && FirstEnd(data) == |l.text| + |l.terminator|
  {
    var data := l.text + l.terminator + rest;
    assert data[|l.text|] == l.terminator[0];
    FirstBreakIs(data, |l.text|);
    TerminatorAtFront(l.terminator, rest);
    hide FirstBreak, TerminatorLength;
    CutLine(l.text, l.terminator, rest);
  }

  /** A line with a terminator splits off as itself unless its carriage return meets a newline. */
  lemma SplitOff(l: FileLine, rest: string)
    requires WellFormedLine(l) && l.terminator != "" && !(l.terminator == "\r" && rest != "" && rest[0] == '\n')
    ensures Split(l.text + l.terminator + rest) == [l] + Split(rest)
  {
    hide FirstBreak, FirstEnd, TerminatorLength, WellFormedLine;
    FirstLineOff(l, rest);
    CutLine(l.text, l.terminator, rest);
  }

  lemma SplitFused(l: FileLine, rest: string)
    requires WellFormedLine(l) && l.terminator == "\r" && rest != "" && rest[0] == '\n'
    ensures Split(l.text + l.terminator + rest) == [FileLine(l.text, "\r\n")] + Split(rest[1..])
    ensures Split(rest) == [FileLine("", "\n")] + Split(rest[1..])
  {
    hide Split;
    assert l.text + l.terminator + rest == l.text + "\r\n" + rest[1..];
    SplitOff(FileLine(l.text, "\r\n"), rest[1..]);
    assert rest == "" + "\n" + rest[1..];
    SplitOff(FileLine("", "\n"), rest[1..]);
  }

  lemma SplitText(text: string)
    requires BreakFree(text)
    ensures Split(text) == if text == "" then [] else [FileLine(text, "")]
  {
    FirstBreakIs(text, |text|);
    hide FirstBreak, TerminatorLength;
    assert text[..|text|] == text && text[|text|..] == "";
  }

  /** Unterminated text runs into whatever follows it. */
  lemma SplitUnterminated(text: string, rest: string)
    requires BreakFree(text) && rest != ""
    ensures |Split(text + rest)| == |Split(rest)|
  {
    var data := text + rest;
    var i := FirstBreak(rest);
    assert i < |rest| ==> data[|text| + i] == rest[i];
    assert forall k | 0 <= k < |text| + i :: !IsBreak(data[k]) by {
      assert forall k | |text| <= k < |text| + i :: data[k] == rest[k - |text|];
    }
    FirstBreakIs(data, |text| + i);
    hide FirstBreak, TerminatorLength;
    assert data[|text| + i..] == rest[i..];
    assert FirstEnd(data) == |text| + FirstEnd(rest);
    assert data[FirstEnd(data)..] == rest[FirstEnd(rest)..];
  }

  /** What the end of a line can be: the rest does not start in the middle of a terminator. */
  lemma TerminatorIs(data: string)
    requires data != "" && IsBreak(data[0])
    ensures var n := TerminatorLength(data); var t, rest := data[..n], data[n..];
            && (t == "\n" || t == "\r" || t == "\r\n") && !(t == "\r" && rest != "" && rest[0] == '\n')
  {
    assert data[..1] == [data[0]];
    if |data| > 1 {
      assert data[..2] == [data[0], data[1]];
    }
  }

  /** What the first step of splitting takes off. */
  lemma FirstLineIs(data: string)
    requires data != ""
    ensures var l, rest := FirstLine(data), data[FirstEnd(data)..];
            && data == l.text + l.terminator + rest && WellFormedLine(l)
            && (l.terminator == "" ==> rest == "" && l.text != "")
            && !MeetsNewline(l, rest)
  {
    var i := FirstBreak(data);
    if i < |data| {
      TerminatorIs(data[i..]);
      hide TerminatorLength, FirstBreak;
      var n := TerminatorLength(data[i..]);
      assert data[i..][..n] == data[i..i + n] && data[i..][n..] == data[i + n..];
    }
  }

  lemma Prepend(l: FileLine, rest: seq<FileLine>)
    ensures Join([l] + rest) == l.text + l.terminator + Join(rest)
    ensures WellFormedLine(l) && WellFormed(rest) <==> WellFormed([l] + rest)
    ensures Canonical([l] + rest) <==>
            if rest == [] then l.text != "" || l.terminator != ""
            else l.terminator != "" && !Fuses(l, rest[0]) && Canonical(rest)
    ensures rest != [] && Fuses(l, rest[0]) ==> MeetsNewline(l, Join(rest))
  {
    var lines := [l] + rest;
    assert lines[1..] == rest;
    assert WellFormed(lines) ==> WellFormedLine(lines[0]) && forall i | 0 <= i < |rest| :: rest[i] == lines[i + 1];
  }

  lemma {:induction false} SplitJoins(data: string)
    ensures Join(Split(data)) == data && WellFormed(Split(data)) && Canonical(Split(data))
    ensures data == "" <==> Split(data) == []
    decreases |data|
  {
    if data != "" {
      var l, rest := FirstLine(data), data[FirstEnd(data)..];
      FirstLineIs(data);
      SplitJoins(rest);
      Prepend(l, Split(rest));
      assert Split(data) == [l] + Split(rest);
      hide *;
    }
  }

  lemma {:induction false} FirstCharOfJoin(lines: seq<FileLine>)
    requires WellFormed(lines) && Join(lines) != "" && Join(lines)[0] == '\n'
    ensures lines != [] && (Fuses(FileLine("", "\r"), lines[0]) || !Canonical(lines))
  {
  }

  ghost predicate MeetsNewline(l: FileLine, rest: string) { l.terminator == "\r" && rest != "" && rest[0] == '\n' }

  /** The number of lines read back, compared with the number written. */
  ghost predicate CountsRight(lines: seq<FileLine>) {
    && |Split(Join(lines))| <= |lines|
    && (|Split(Join(lines))| == |lines| <==> Canonical(lines))
    && (Canonical(lines) ==> Split(Join(lines)) == lines)
  }

  lemma CountUnterminated(l: FileLine, rest: seq<FileLine>)
    requires WellFormedLine(l) && l.terminator == "" && WellFormed(rest) && CountsRight(rest)
    ensures CountsRight([l] + rest)
  {
    hide Split, WellFormed;
    var tail := Join(rest);
    Prepend(l, rest);
    assert l.text + l.terminator + tail == l.text + tail;
    if tail == "" {
      assert l.text + tail == l.text;
      SplitText(l.text);
      assert l == FileLine(l.text, "");
    } else {
      SplitUnterminated(l.text, tail);
      assert rest != [];
    }
  }

  lemma CountFused(l: FileLine, rest: seq<FileLine>)
    requires WellFormedLine(l) && MeetsNewline(l, Join(rest)) && WellFormed(rest) && CountsRight(rest)
    ensures CountsRight([l] + rest)
  {
    hide Split, Join, WellFormed;
    Prepend(l, rest);
    SplitFused(l, Join(rest));
    FirstCharOfJoin(rest);
  }

  lemma CountTerminated(l: FileLine, rest: seq<FileLine>)
    requires WellFormedLine(l) && l.terminator != "" && !MeetsNewline(l, Join(rest)) && WellFormed(rest) && CountsRight(rest)
    ensures CountsRight([l] + rest)
  {
    hide Split, WellFormed;
    Prepend(l, rest);
    SplitOff(l, Join(rest));
    assert rest == [] ==> Join(rest) == "";
  }

  /** Joining never makes lines, and keeps their number exactly for canonical lists. */
  lemma {:induction false} JoinKeepsCount(lines: seq<FileLine>)
    requires WellFormed(lines)
    ensures CountsRight(lines)
  {
    if lines != [] {
      var l, rest := lines[0], lines[1..];
      JoinKeepsCount(rest);
      assert lines == [l] + rest && WellFormedLine(l) && WellFormed(rest);
      hide *;
      if l.terminator == "" {
        CountUnterminated(l, rest);
      } else if MeetsNewline(l, Join(rest)) {
        CountFused(l, rest);
      } else {
        CountTerminated(l, rest);
      }
    }
  }

  method SplitFileLines(data: string) returns (lines: seq<FileLine>)
    ensures lines == Split(data)
  {
    hide FirstBreak, TerminatorLength;
    lines := [];
    var rest := data;
    while |rest| > 0
      invariant Split(data) == lines + Split(rest)
      decreases |rest|
    {
      var index := FirstBreak(rest);
      if index == |rest| {
        SplitText(rest);
        lines := lines + [FileLine(rest, "")];
        return;
      }
      var end := index + TerminatorLength(rest[index..]);
      assert end == FirstEnd(rest);
      lines := lines + [FileLine(rest[..index], rest[index..end])];
      rest := rest[end..];
    }
  }

  /** The lines survive being written to a file and read back exactly when they are canonical. */
  lemma TextsSurviveJoin(lines: seq<FileLine>)
    requires WellFormed(lines)
    ensures Texts(Split(Join(lines))) == Texts(lines) <==> Canonical(lines)
  {
    JoinKeepsCount(lines);
    assert |Texts(Split(Join(lines)))| == |Split(Join(lines))| && |Texts(lines)| == |lines|;
  }

  // ---------------------------------------------------------------------------
  // The diff splits lines another way and sees the same texts
  // ---------------------------------------------------------------------------

  function ReplaceCrLf(s: string): string {
    if s == "" then ""
    else if |s| > 1 && s[0] == '\r' && s[1] == '\n' then "\n" + ReplaceCrLf(s[2..])
    else [s[0]] + ReplaceCrLf(s[1..])
  }

  function ReplaceCr(s: string): string {
    if s == "" then "" else [if s[0] == '\r' then '\n' else s[0]] + ReplaceCr(s[1..])
  }

  /** The parts between newlines; one more than there are newlines. */
  function SplitAtNewlines(s: string): (parts: seq<string>)
    ensures parts != []
  {
    if s == "" then [""]
    else
      var parts := SplitAtNewlines(s[1..]);
      if s[0] == '\n' then [""] + parts else [[s[0]] + parts[0]] + parts[1..]
  }

  function SplitDiffLines(data: string): seq<string> {
    if data == "" then []
    else
      var lines := SplitAtNewlines(ReplaceCr(ReplaceCrLf(data)));
      if lines[|lines| - 1] == "" then lines[..|lines| - 1] else lines
  }

  lemma PartsAtBreak(terminator: string, rest: string)
    requires terminator == "\n" || terminator == "\r" || terminator == "\r\n"
    requires !(terminator == "\r" && rest != "" && rest[0] == '\n')
    ensures SplitAtNewlines(ReplaceCr(ReplaceCrLf(terminator + rest))) == [""] + SplitAtNewlines(ReplaceCr(ReplaceCrLf(rest)))
  {
    var data := terminator + rest;
    assert data[|terminator|..] == rest;
  }

  lemma PartsInLine(data: string)
    requires data != "" && !IsBreak(data[0])
    ensures var parts := SplitAtNewlines(ReplaceCr(ReplaceCrLf(data[1..])));
            parts != [] && SplitAtNewlines(ReplaceCr(ReplaceCrLf(data))) == [[data[0]] + parts[0]] + parts[1..]
  {
    assert ReplaceCrLf(data) == [data[0]] + ReplaceCrLf(data[1..]);
    var s := ReplaceCrLf(data[1..]);
    assert ([data[0]] + s)[1..] == s;
    assert ReplaceCr([data[0]] + s) == [data[0]] + ReplaceCr(s);
    assert ([data[0]] + ReplaceCr(s))[1..] == ReplaceCr(s);
  }

  lemma {:induction false} PartsOfLine(text: string, terminator: string, rest: string)
    requires BreakFree(text) && (terminator == "\n" || terminator == "\r" || terminator == "\r\n")
    requires !(terminator == "\r" && rest != "" && rest[0] == '\n')
    ensures SplitAtNewlines(ReplaceCr(ReplaceCrLf(text + terminator + rest))) ==
            [text] + SplitAtNewlines(ReplaceCr(ReplaceCrLf(rest)))
    decreases |text|
  {
    hide SplitAtNewlines, ReplaceCr, ReplaceCrLf, IsBreak;
    var data := text + terminator + rest;
    if text == "" {
      assert data == terminator + rest;
      PartsAtBreak(terminator, rest);
    } else {
      assert data[0] == text[0] && data[1..] == text[1..] + terminator + rest;
      PartsOfLine(text[1..], terminator, rest);
      PartsInLine(data);
      assert [text[0]] + text[1..] == text;
    }
  }

  lemma {:induction false} PartsOfText(text: string)
    requires BreakFree(text)
    ensures SplitAtNewlines(ReplaceCr(ReplaceCrLf(text))) == [text]
  {
    if text != "" {
      PartsOfText(text[1..]);
      assert !IsBreak(text[0]) && [text[0]] + text[1..] == text;
    }
  }

  /** What follows the last newline is the unterminated line, if there is one. */
  ghost function DropEmptyLast(parts: seq<string>): seq<string>
    requires parts != []
  {
    if parts[|parts| - 1] == "" then parts[..|parts| - 1] else parts
  }

  lemma LastText(text: string)
    requires text != ""
    ensures Texts([FileLine(text, "")]) == [text] == DropEmptyLast([text])
  {
  }

  ghost function Parts(data: string): seq<string> { SplitAtNewlines(ReplaceCr(ReplaceCrLf(data))) }

  lemma PartsOfUnterminated(data: string)
    requires BreakFree(data) && data != ""
    ensures Texts(Split(data)) == DropEmptyLast(Parts(data))
  {
    SplitText(data);
    PartsOfText(data);
    hide *;
    LastText(data);
  }

  lemma PrependText(l: FileLine, lines: seq<FileLine>, parts: seq<string>)
    requires parts != [] && Texts(lines) == DropEmptyLast(parts)
    ensures Texts([l] + lines) == DropEmptyLast([l.text] + parts)
  {
    assert Texts([l] + lines) == [l.text] + Texts(lines);
    assert DropEmptyLast([l.text] + parts) == [l.text] + DropEmptyLast(parts);
  }

  lemma PartsOfTerminated(l: FileLine, rest: string)
    requires WellFormedLine(l) && l.terminator != "" && !MeetsNewline(l, rest)
    requires Parts(rest) != [] && Texts(Split(rest)) == DropEmptyLast(Parts(rest))
    ensures Parts(l.text + l.terminator + rest) != []
    ensures Texts(Split(l.text + l.terminator + rest)) == DropEmptyLast(Parts(l.text + l.terminator + rest))
  {
    hide Split, SplitAtNewlines, ReplaceCr, ReplaceCrLf;
    PartsOfLine(l.text, l.terminator, rest);
    SplitOff(l, rest);
    assert Parts(l.text + l.terminator + rest) == [l.text] + Parts(rest);
    PrependText(l, Split(rest), Parts(rest));
  }

  lemma {:induction false} PartsAreTexts(data: string)
    ensures Parts(data) != [] && Texts(Split(data)) == DropEmptyLast(Parts(data))
    decreases |data|
  {
    if data != "" {
      var l, rest := FirstLine(data), data[FirstEnd(data)..];
      FirstLineIs(data);
      PartsAreTexts(rest);
      if l.terminator == "" {
        assert data == l.text;
        PartsOfUnterminated(data);
      } else {
        PartsOfTerminated(l, rest);
      }
      hide *;
    }
  }

  lemma DiffSeesFileTexts(data: string)
    ensures SplitDiffLines(data) == Texts(Split(data))
  {
    PartsAreTexts(data);
  }
}
