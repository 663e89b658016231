/**
 * Content-Length framing of JSON messages: what the writer emits, in however many partial writes, the reader takes
 * apart again.
 */
module Framing {
  const MAX_FRAME_HEADER_BYTES: nat := 8192
  const BUFFER_BYTES: nat := 4096
  const MAX_INT64: nat := 0x7fff_ffff_ffff_ffff

  datatype Option<T> = None | Some(value: T)

  // ---------------------------------------------------------------------------
  // Numbers
  // ---------------------------------------------------------------------------

  predicate IsDigit(c: char) { '0' <= c <= '9' }

  function Digit(d: nat): (c: char)
    requires d < 10
    ensures IsDigit(c) && c as int == '0' as int + d
  {
    (('0' as int) + d) as char
  }

  function Decimal(n: nat): (s: string)
    ensures s != "" && forall i | 0 <= i < |s| :: IsDigit(s[i])
  {
    if n < 10 then [Digit(n)] else Decimal(n / 10) + [Digit(n % 10)]
  }

  /** The value of a string of digits. */
  function Number(s: string): nat
    requires forall i | 0 <= i < |s| :: IsDigit(s[i])
  {
    if s == "" then 0
    else
      assert IsDigit(s[|s| - 1]);
      Number(s[..|s| - 1]) * 10 + (s[|s| - 1] as int - '0' as int)
  }

  lemma {:induction false} NumberOfDecimal(n: nat)
    ensures Number(Decimal(n)) == n
  {
    if n < 10 {
      assert Decimal(n)[..0] == "";
    } else {
      NumberOfDecimal(n / 10);
      var s := Decimal(n);
      assert s[..|s| - 1] == Decimal(n / 10);
    }
  }

  function TenTo(k: nat): nat { if k == 0 then 1 else 10 * TenTo(k - 1) }

  lemma {:induction false} DecimalIsShort(n: nat, k: nat)
    requires k > 0 && n < TenTo(k)
    ensures |Decimal(n)| <= k
  {
    if n >= 10 {
      DecimalIsShort(n / 10, k - 1);
    }
  }

  // ---------------------------------------------------------------------------
  // Lines and headers
  // ---------------------------------------------------------------------------

  function IndexOf(c: char, s: string): (k: nat)
    ensures k <= |s| && (k < |s| ==> s[k] == c) && forall i | 0 <= i < k :: s[i] != c
  {
    if s == "" || s[0] == c then 0 else 1 + IndexOf(c, s[1..])
  }

  predicate IsSpace(c: char) { c == ' ' || '\t' <= c <= '\r' || c as int == 0x85 || c as int == 0xa0 }

  function TrimLeft(s: string): string { if s != "" && IsSpace(s[0]) then TrimLeft(s[1..]) else s }

  function TrimRight(s: string): string { if s != "" && IsSpace(s[|s| - 1]) then TrimRight(s[..|s| - 1]) else s }

  function TrimSpace(s: string): string { TrimRight(TrimLeft(s)) }

  function TrimSuffix(s: string, c: char): string { if s != "" && s[|s| - 1] == c then s[..|s| - 1] else s }

  function Lower(s: string): string {
    seq(|s|, i requires 0 <= i < |s| => if 'A' <= s[i] <= 'Z' then (s[i] as int + 32) as char else s[i])
  }

  /** A length without a sign, in digits, that fits 64 bits. */
  function ParseLength(value: string): Option<nat> {
    if value == "" || exists i :: 0 <= i < |value| && !IsDigit(value[i]) then None
    else if Number(value) > MAX_INT64 then None
    else Some(Number(value))
  }

  /** What a header line says: nothing of interest, the content length, or it is malformed. */
  datatype Header = Ignored | ContentLength(length: nat) | Malformed

  function HeaderOf(line: string): Header {
    var text := TrimSuffix(TrimSuffix(line, '\n'), '\r');
    var k := IndexOf(':', text);
    if k == |text| then Malformed
    else if Lower(TrimSpace(text[..k])) != "content-length" then Ignored
    else
      match ParseLength(TrimSpace(text[k + 1..]))
      case None => Malformed
      case Some(n) => ContentLength(n)
  }

  predicate EndsHeaders(line: string) { line == "\n" || line == "\r\n" }

  datatype Headers = Ready(length: Option<nat>, rest: string) | End | Bad

  /** Header lines up to the empty one, within the byte limit and with one content length. */
  function ReadHeaders(input: string, used: nat, length: Option<nat>): (r: Headers)
    ensures r.Ready? ==> |r.rest| < |input|
    decreases |input|
  {
    var k := IndexOf('\n', input);
    if used >= MAX_FRAME_HEADER_BYTES || Consumed(input) > MAX_FRAME_HEADER_BYTES - used then Bad
    else if k == |input| then (if used + |input| == 0 then End else Bad)
    else
      var line, rest := input[..k + 1], input[k + 1..];
      if EndsHeaders(line) then Ready(length, rest)
      else
        match HeaderOf(line)
        case Malformed => Bad
        case Ignored => ReadHeaders(rest, used + |line|, length)
        case ContentLength(n) => if length.Some? then Bad else ReadHeaders(rest, used + |line|, Some(n))
  }

  /** The bytes up to and including the next newline, or all of them. */
  function Consumed(input: string): nat { var k := IndexOf('\n', input); if k == |input| then k else k + 1 }

  datatype Read = Got(body: string, rest: string) | EndOfInput | Failed

  function ReadFrame(input: string, max: nat, valid: string -> bool): (r: Read)
    ensures r.Got? ==> |r.rest| < |input|
  {
    match ReadHeaders(input, 0, None)
    case End => EndOfInput
    case Bad => Failed
    case Ready(None, _) => Failed
    case Ready(Some(n), rest) =>
      if n > max || |rest| < n || !valid(rest[..n]) then Failed else Got(rest[..n], rest[n..])
  }

  // ---------------------------------------------------------------------------
  // Frames read back
  // ---------------------------------------------------------------------------

  function LengthLine(n: nat): string { "Content-Length: " + Decimal(n) + "\r\n" }

  function Frame(body: string): string { LengthLine(|body|) + "\r\n" + body }

  lemma {:induction false} FirstAt(c: char, s: string, k: nat)
    requires k < |s| && s[k] == c && forall i | 0 <= i < k :: s[i] != c
    ensures IndexOf(c, s) == k
  {
    var j := IndexOf(c, s);
  }

  lemma TrimDigits(s: string)
    requires s != "" && forall i | 0 <= i < |s| :: IsDigit(s[i])
    ensures TrimSpace(" " + s) == s && TrimSpace(s) == s
  {
    assert (" " + s)[1..] == s;
    assert TrimLeft(s) == s && TrimRight(s) == s;
  }

  lemma LengthLineMeans(n: nat)
    requires n <= MAX_INT64
    ensures HeaderOf(LengthLine(n)) == ContentLength(n)
  {
    var digits := Decimal(n);
    var line, text := LengthLine(n), "Content-Length: " + digits;
    assert TrimSuffix(line, '\n') == text + "\r";
    assert TrimSuffix(text + "\r", '\r') == text;
    assert text[..14] == "Content-Length" && text[14] == ':';
    FirstAt(':', text, 14);
    assert text[15..] == " " + digits;
    TrimDigits(digits);
    NameMatches();
    NumberOfDecimal(n);
  }

  lemma NameMatches()
    ensures Lower(TrimSpace("Content-Length")) == "content-length"
    ensures forall i | 0 <= i < 14 :: "Content-Length"[i] != ':'
  {
    assert TrimLeft("Content-Length") == "Content-Length" && TrimRight("Content-Length") == "Content-Length";
    assert |Lower("Content-Length")| == 14;
  }

  lemma LengthLineEnds(n: nat, rest: string)
    ensures IndexOf('\n', LengthLine(n) + rest) == |LengthLine(n)| - 1
    ensures !EndsHeaders(LengthLine(n)) && |LengthLine(n)| == 18 + |Decimal(n)|
  {
    var line := LengthLine(n);
    NoNewline();
    assert line[|line| - 1] == '\n' && (line + rest)[|line| - 1] == '\n';
    forall i | 0 <= i < |line| - 1
      ensures (line + rest)[i] != '\n'
    {
      assert i < 16 ==> line[i] == "Content-Length: "[i];
      assert 16 <= i < |line| - 2 ==> line[i] == Decimal(n)[i - 16];
    }
    FirstAt('\n', line + rest, |line| - 1);
  }

  lemma NoNewline()
    ensures forall i | 0 <= i < 16 :: "Content-Length: "[i] != '\n'
  {
  }

  lemma Powers()
    ensures TenTo(19) > MAX_INT64
  {
    assert TenTo(4) == 10000;
    assert TenTo(8) == 10000 * TenTo(4);
    assert TenTo(12) == 10000 * TenTo(8);
    assert TenTo(16) == 10000 * TenTo(12);
    assert TenTo(19) == 1000 * TenTo(16);
  }

  /** The headers of a frame are read as its body's length, and nothing after them is touched. */
  lemma HeadersOfFrame(n: nat, rest: string)
    requires n <= MAX_INT64
    ensures ReadHeaders(LengthLine(n) + ("\r\n" + rest), 0, None) == Ready(Some(n), rest)
  {
    hide HeaderOf, Decimal;
    var line, after := LengthLine(n), "\r\n" + rest;
    var input := line + after;
    LengthLineEnds(n, after);
    LengthLineMeans(n);
    Powers();
    DecimalIsShort(n, 19);
    assert input[..|line|] == line && input[|line|..] == after;
    FirstAt('\n', after, 1);
    assert after[..2] == "\r\n" && after[2..] == rest;
    assert ReadHeaders(after, |line|, Some(n)) == Ready(Some(n), rest);
  }

  /** A frame within the limits is read back as its body, and the reader is left at what follows it. */
  lemma FrameReadsBack(body: string, rest: string, max: nat, valid: string -> bool)
    requires |body| <= max && max <= MAX_INT64 && valid(body)
    ensures ReadFrame(Frame(body) + rest, max, valid) == Got(body, rest)
  {
    hide ReadHeaders, LengthLine;
    assert Frame(body) + rest == LengthLine(|body|) + ("\r\n" + (body + rest));
    HeadersOfFrame(|body|, body + rest);
    assert (body + rest)[..|body|] == body && (body + rest)[|body|..] == rest;
  }

  function Frames(bodies: seq<string>): string { if bodies == [] then "" else Frame(bodies[0]) + Frames(bodies[1..]) }

  /** All bodies up to the end of the input, or to the first frame that cannot be read. */
  function ReadAll(input: string, max: nat, valid: string -> bool): (seq<string>, bool)
    decreases |input|
  {
    match ReadFrame(input, max, valid)
    case EndOfInput => ([], true)
    case Failed => ([], false)
    case Got(body, rest) => var more := ReadAll(rest, max, valid); ([body] + more.0, more.1)
  }

  /** Reading any concatenation of frames yields the same bodies in the same order, and then the end of the input. */
  lemma {:induction false} FramesReadBack(bodies: seq<string>, max: nat, valid: string -> bool)
    requires max <= MAX_INT64 && forall i | 0 <= i < |bodies| :: |bodies[i]| <= max && valid(bodies[i])
    ensures ReadAll(Frames(bodies), max, valid) == (bodies, true)
  {
    hide Frame, ReadFrame;
    if bodies == [] {
      NothingToRead(max, valid);
    } else {
      FrameReadsBack(bodies[0], Frames(bodies[1..]), max, valid);
      FramesReadBack(bodies[1..], max, valid);
      assert [bodies[0]] + bodies[1..] == bodies;
    }
  }

  lemma NothingToRead(max: nat, valid: string -> bool)
    ensures ReadFrame("", max, valid) == EndOfInput
  {
  }

  // ---------------------------------------------------------------------------
  // Exactly which inputs are frames
  // ---------------------------------------------------------------------------

  predicate IsLine(line: string) { line != "" && line[|line| - 1] == '\n' && forall i | 0 <= i < |line| - 1 :: line[i] != '\n' }

  /** Whole lines, none of them empty and none malformed. */
  predicate AreHeaders(lines: seq<string>) {
    forall i | 0 <= i < |lines| :: IsLine(lines[i]) && lines[i] != "\n" && lines[i] != "\r\n" && !HeaderOf(lines[i]).Malformed?
  }

  function Concat(lines: seq<string>): string { if lines == [] then "" else lines[0] + Concat(lines[1..]) }

  /** The content lengths that the lines declare. */
  function Lengths(lines: seq<string>): seq<nat> {
    if lines == [] then []
    else (if HeaderOf(lines[0]).ContentLength? then [HeaderOf(lines[0]).length] else []) + Lengths(lines[1..])
  }

  /** The input starts with these header lines and an empty one, within the limit, with at most one content length. */
  ghost predicate StartsWith(input: string, used: nat, length: Option<nat>, lines: seq<string>, blank: string, found: Option<nat>, rest: string) {
    && AreHeaders(lines) && (blank == "\n" || blank == "\r\n")
    && input == Concat(lines) + blank + rest && used + |Concat(lines)| + |blank| <= 8192
    && (length.Some? ==> Lengths(lines) == [] && found == length)
    && (length.None? ==> if Lengths(lines) == [] then found.None? else found.Some? && Lengths(lines) == [found.value])
  }

  lemma OneMoreHeader(line: string, after: string, used: nat, length: Option<nat>, lines: seq<string>, blank: string, found: Option<nat>, rest: string)
    requires IsLine(line) && line != "\n" && line != "\r\n" && !HeaderOf(line).Malformed?
    requires var later := if HeaderOf(line).ContentLength? then Some(HeaderOf(line).length) else length;
             StartsWith(after, used + |line|, later, lines, blank, found, rest)
    requires HeaderOf(line).ContentLength? ==> length.None?
    ensures StartsWith(line + after, used, length, [line] + lines, blank, found, rest)
  {
    hide HeaderOf, IsLine;
    assert ([line] + lines)[0] == line && ([line] + lines)[1..] == lines;
    assert line + (Concat(lines) + blank + rest) == line + Concat(lines) + blank + rest;
  }

  lemma FirstLineIs(input: string)
    requires IndexOf('\n', input) < |input|
    ensures var k := IndexOf('\n', input); IsLine(input[..k + 1]) && input == input[..k + 1] + input[k + 1..]
  {
  }

  lemma {:induction false} HeadersMean(input: string, used: nat, length: Option<nat>) returns (lines: seq<string>, blank: string)
    requires ReadHeaders(input, used, length).Ready?
    ensures var r := ReadHeaders(input, used, length); StartsWith(input, used, length, lines, blank, r.length, r.rest)
    decreases |input|
  {
    hide HeaderOf, IsLine, IndexOf, ReadHeaders, StartsWith;
    ReadyGoesOn(input, used, length);
    var k := IndexOf('\n', input);
    var line, after := input[..k + 1], input[k + 1..];
    FirstLineIs(input);
    if EndsHeaders(line) {
      lines, blank := [], line;
      OnlyBlank(line, after, used, length);
    } else {
      var later := if HeaderOf(line).ContentLength? then Some(HeaderOf(line).length) else length;
      lines, blank := HeadersMean(after, used + |line|, later);
      var r := ReadHeaders(input, used, length);
      OneMoreHeader(line, after, used, length, lines, blank, r.length, r.rest);
      lines := [line] + lines;
    }
  }

  lemma OnlyBlank(blank: string, after: string, used: nat, length: Option<nat>)
    requires EndsHeaders(blank) && used + |blank| <= 8192
    ensures StartsWith(blank + after, used, length, [], blank, length, after)
  {
    assert blank + after == "" + blank + after;
  }

  /** What reading the headers does with the first line, if it succeeds. */
  lemma ReadyGoesOn(input: string, used: nat, length: Option<nat>)
    requires ReadHeaders(input, used, length).Ready?
    ensures IndexOf('\n', input) < |input|
    ensures var k := IndexOf('\n', input);
            var line, after, r := input[..k + 1], input[k + 1..], ReadHeaders(input, used, length);
            && used + |line| <= 8192
            && (EndsHeaders(line) ==> r == Ready(length, after))
            && (!EndsHeaders(line) ==>
                  && !HeaderOf(line).Malformed? && (HeaderOf(line).ContentLength? ==> length.None?)
                  && r == ReadHeaders(after, used + |line|, if HeaderOf(line).ContentLength? then Some(HeaderOf(line).length) else length))
  {
    hide HeaderOf, IndexOf;
  }

  lemma LineFirst(line: string, after: string)
    requires IsLine(line)
    ensures IndexOf('\n', line + after) + 1 == |line|
  {
    FirstAt('\n', line + after, |line| - 1);
  }

  /** The first of the header lines, and what is left for the others. */
  lemma OneHeaderLess(input: string, used: nat, length: Option<nat>, lines: seq<string>, blank: string, found: Option<nat>, rest: string)
    requires StartsWith(input, used, length, lines, blank, found, rest) && lines != []
    ensures var line, after := lines[0], Concat(lines[1..]) + blank + rest;
            var later := if HeaderOf(line).ContentLength? then Some(HeaderOf(line).length) else length;
            && input == line + after && used + |line| <= 8192
            && IsLine(line) && !EndsHeaders(line) && !HeaderOf(line).Malformed? && (HeaderOf(line).ContentLength? ==> length.None?)
            && StartsWith(after, used + |line|, later, lines[1..], blank, found, rest)
  {
    hide HeaderOf, AreHeaders, Lengths, Concat, IsLine;
    FirstHeader(lines);
    FirstLength(lines);
    FirstText(lines, blank, rest);
  }

  lemma FirstHeader(lines: seq<string>)
    requires AreHeaders(lines) && lines != []
    ensures IsLine(lines[0]) && !EndsHeaders(lines[0]) && !HeaderOf(lines[0]).Malformed? && AreHeaders(lines[1..])
  {
    hide HeaderOf, IsLine;
  }

  lemma FirstLength(lines: seq<string>)
    requires lines != []
    ensures if HeaderOf(lines[0]).ContentLength?
            then |Lengths(lines)| > 0 && Lengths(lines)[0] == HeaderOf(lines[0]).length && Lengths(lines)[1..] == Lengths(lines[1..])
            else Lengths(lines) == Lengths(lines[1..])
  {
    hide HeaderOf;
  }

  lemma FirstText(lines: seq<string>, blank: string, rest: string)
    requires lines != []
    ensures Concat(lines) + blank + rest == lines[0] + (Concat(lines[1..]) + blank + rest)
    ensures |Concat(lines)| == |lines[0]| + |Concat(lines[1..])|
  {
    var first, more := lines[0], Concat(lines[1..]);
    assert Concat(lines) == first + more;
    hide Concat;
    Regrouped(first, more, blank, rest);
  }

  lemma Regrouped(a: string, b: string, c: string, d: string)
    ensures (a + b) + c + d == a + (b + c + d)
  {
  }

  lemma {:induction false} HeadersRead(input: string, used: nat, length: Option<nat>, lines: seq<string>, blank: string, found: Option<nat>, rest: string)
    requires StartsWith(input, used, length, lines, blank, found, rest)
    ensures ReadHeaders(input, used, length) == Ready(found, rest)
    decreases |lines|
  {
    hide HeaderOf, IsLine, ReadHeaders, StartsWith, Concat, Lengths;
    if lines == [] {
      NoHeaderLeft(input, used, length, blank, found, rest);
      BlankIsLine(blank);
      LineFirst(blank, rest);
      HeadersGoOn(blank, rest, used, length);
    } else {
      var line, after := lines[0], Concat(lines[1..]) + blank + rest;
      OneHeaderLess(input, used, length, lines, blank, found, rest);
      LineFirst(line, after);
      LineNotEmpty(line);
      HeadersGoOn(line, after, used, length);
      var later := if HeaderOf(line).ContentLength? then Some(HeaderOf(line).length) else length;
      HeadersRead(after, used + |line|, later, lines[1..], blank, found, rest);
    }
  }

  lemma NoHeaderLeft(input: string, used: nat, length: Option<nat>, blank: string, found: Option<nat>, rest: string)
    requires StartsWith(input, used, length, [], blank, found, rest)
    ensures (blank == "\n" || blank == "\r\n") && used + |blank| <= 8192 && found == length
    ensures input == blank + rest
  {
    assert "" + blank + rest == blank + rest;
  }

  lemma LineNotEmpty(line: string)
    requires IsLine(line)
    ensures |line| > 0
  {
  }

  lemma BlankIsLine(blank: string)
    requires blank == "\n" || blank == "\r\n"
    ensures IsLine(blank) && EndsHeaders(blank)
  {
  }

  /**
   * A frame is read from exactly these inputs: well-formed header lines and an empty one within the byte limit, that
   * declare one content length, no greater than allowed, and a body of that length that is valid.
   */
  lemma FrameMeans(input: string, max: nat, valid: string -> bool, body: string, rest: string)
    ensures ReadFrame(input, max, valid) == Got(body, rest) <==>
            |body| <= max && valid(body) && exists lines, blank :: StartsWith(input, 0, None, lines, blank, Some(|body|), body + rest)
  {
    hide ReadHeaders, StartsWith;
    if ReadFrame(input, max, valid) == Got(body, rest) {
      var lines, blank := HeadersMean(input, 0, None);
      assert ReadHeaders(input, 0, None).rest == body + rest;
    }
    if lines, blank :| StartsWith(input, 0, None, lines, blank, Some(|body|), body + rest) {
      HeadersRead(input, 0, None, lines, blank, Some(|body|), body + rest);
      assert (body + rest)[..|body|] == body && (body + rest)[|body|..] == rest;
    }
  }

  /** A header line without a colon, or a content length that is no number of 63 bits, is malformed; other names are ignored. */
  lemma HeaderMeans(name: string, value: string)
    requires (forall i | 0 <= i < |name| :: name[i] != ':')
    requires value == "" || (value[|value| - 1] != '\r' && value[|value| - 1] != '\n')
    ensures HeaderOf(name + ":" + value + "\r\n") ==
            if Lower(TrimSpace(name)) != "content-length" then Ignored
            else var digits := TrimSpace(value);
                 if digits != "" && (forall i | 0 <= i < |digits| :: '0' <= digits[i] <= '9') && Number(digits) <= 0x7fff_ffff_ffff_ffff
                 then ContentLength(Number(digits)) else Malformed
    ensures HeaderOf(name + "\r\n") == Malformed
  {
    hide Lower, TrimSpace, Number, TrimSuffix, IndexOf;
    var text := name + ":" + value;
    BreakOff(text);
    assert name + ":" + value + "\r\n" == text + "\r\n";
    ColonAt(name, value);
    BreakOff(name);
    NoColon(name);
  }

  /** The line break goes, and nothing else. */
  lemma BreakOff(text: string)
    ensures TrimSuffix(TrimSuffix(text + "\r\n", '\n'), '\r') == text
  {
    assert TrimSuffix(text + "\r\n", '\n') == text + "\r";
  }

  lemma ColonAt(name: string, value: string)
    requires (forall i | 0 <= i < |name| :: name[i] != ':')
    ensures var text := name + ":" + value;
            IndexOf(':', text) == |name| && text[..|name|] == name && text[|name| + 1..] == value && |text| > |name|
  {
    FirstAt(':', name + ":" + value, |name|);
  }

  lemma NoColon(name: string)
    requires (forall i | 0 <= i < |name| :: name[i] != ':')
    ensures IndexOf(':', name) == |name|
  {
  }

  lemma HeadersCutOff(input: string, used: nat, length: Option<nat>)
    ensures used >= MAX_FRAME_HEADER_BYTES || Consumed(input) > MAX_FRAME_HEADER_BYTES - used ==> ReadHeaders(input, used, length) == Bad
    ensures used < MAX_FRAME_HEADER_BYTES && IndexOf('\n', input) == |input| <= MAX_FRAME_HEADER_BYTES - used ==>
      ReadHeaders(input, used, length) == if used + |input| == 0 then End else Bad
  {
    hide IndexOf, HeaderOf;
  }

  /** What one whole header line does. */
  lemma HeadersGoOn(text: string, rest: string, used: nat, length: Option<nat>)
    requires used < MAX_FRAME_HEADER_BYTES && |text| <= MAX_FRAME_HEADER_BYTES - used && IndexOf('\n', text + rest) + 1 == |text|
    ensures ReadHeaders(text + rest, used, length) ==
      if EndsHeaders(text) then Ready(length, rest)
      else match HeaderOf(text)
           case Malformed => Bad
           case Ignored => ReadHeaders(rest, used + |text|, length)
           case ContentLength(n) => if length.Some? then Bad else ReadHeaders(rest, used + |text|, Some(n))
  {
    hide IndexOf, HeaderOf, EndsHeaders, ReadHeaders;
    var input := text + rest;
    assert input[..|text|] == text && input[|text|..] == rest;
    FirstHeaderLine(input, used, length);
  }

  lemma FirstHeaderLine(input: string, used: nat, length: Option<nat>)
    requires IndexOf('\n', input) < |input| && used + IndexOf('\n', input) < MAX_FRAME_HEADER_BYTES
    ensures var k := IndexOf('\n', input);
            var line, rest := input[..k + 1], input[k + 1..];
            ReadHeaders(input, used, length) ==
              if EndsHeaders(line) then Ready(length, rest)
              else match HeaderOf(line)
                   case Malformed => Bad
                   case Ignored => ReadHeaders(rest, used + |line|, length)
                   case ContentLength(n) => if length.Some? then Bad else ReadHeaders(rest, used + |line|, Some(n))
  {
    hide IndexOf, HeaderOf, EndsHeaders;
  }

  // ---------------------------------------------------------------------------
  // The reader
  // ---------------------------------------------------------------------------

  datatype Slice = Complete | BufferFull | EndOfFile

  datatype Line = Line(text: string) | TooLong | Partial(text: string)

  class FramedReader {
    var input: string
    const max: nat
    const valid: string -> bool

    constructor (stream: string, limit: int, isValid: string -> bool)
      ensures input == stream && max == (if limit <= 0 then 4194304 else limit) && valid == isValid
    {
      input, max, valid := stream, if limit <= 0 then 4194304 else limit, isValid;
    }

    /** Bytes up to a newline, as far as they fit the buffer. */
    method ReadSlice() returns (part: string, status: Slice)
      modifies this
      ensures old(input) == part + input
      ensures status.Complete? ==> IndexOf('\n', old(input)) < |old(input)| && |part| == IndexOf('\n', old(input)) + 1
      ensures status.BufferFull? ==> |part| == BUFFER_BYTES && IndexOf('\n', old(input)) >= BUFFER_BYTES
      ensures status.EndOfFile? ==> input == "" && IndexOf('\n', old(input)) == |old(input)|
    {
      var k := 0;
      while k < |input| && k < BUFFER_BYTES && input[k] != '\n'
        invariant 0 <= k <= |input| && k <= BUFFER_BYTES && input == old(input) && forall i | 0 <= i < k :: input[i] != '\n'
      {
        k := k + 1;
      }
      ghost var j := IndexOf('\n', input);
      if k < |input| && k < BUFFER_BYTES {
        part, status := input[..k + 1], Complete;
      } else if k == BUFFER_BYTES {
        part, status := input[..k], BufferFull;
      } else {
        part, status := input, EndOfFile;
      }
      input := input[|part|..];
    }

    /** A line within the limit, put together from as many slices as it takes. */
    method ReadHeaderLine(remaining: int) returns (line: Line)
      modifies this
      ensures |input| <= |old(input)|
      ensures line.Line? <==> IndexOf('\n', old(input)) < |old(input)| && IndexOf('\n', old(input)) + 1 <= remaining
      ensures line.Line? ==> old(input) == line.text + input && |line.text| == IndexOf('\n', old(input)) + 1
      ensures line.Partial? ==> 0 < remaining && IndexOf('\n', old(input)) == |old(input)| <= remaining && line.text == old(input)
      ensures line.TooLong? ==> remaining <= 0 || Consumed(old(input)) > remaining
    {
      hide IndexOf;
      if remaining <= 0 {
        return TooLong;
      }
      ghost var start := input;
      var output := "";
      while true
        invariant start == output + input && |output| <= remaining
        invariant |output| <= IndexOf('\n', start)
        decreases |input|
      {
        LaterIndex(output, input);
        var part, status := ReadSlice();
        output := output + part;
        if |output| > remaining {
          return TooLong;
        }
        match status {
          case Complete => return Line(output);
          case EndOfFile => return Partial(output);
          case BufferFull =>
        }
      }
    }

    lemma LaterIndex(before: string, after: string)
      requires |before| <= IndexOf('\n', before + after)
      ensures IndexOf('\n', before + after) == |before| + IndexOf('\n', after)
    {
      var s, k := before + after, IndexOf('\n', after);
      assert forall i | |before| <= i < |s| :: s[i] == after[i - |before|];
      assert forall i | 0 <= i < |before| :: s[i] != '\n';
      if k < |after| {
        assert s[|before| + k] == '\n';
        FirstAt('\n', s, |before| + k);
      }
    }

    /** One frame: its headers, line by line, and its body. */
    method ReadOne() returns (r: Read)
      modifies this
      ensures r == ReadFrame(old(input), max, valid)
      ensures r.Got? ==> input == r.rest
    {
      hide HeaderOf, IndexOf, EndsHeaders, ReadHeaders;
      var length: Option<nat> := None;
      var used := 0;
      while true
        invariant 0 <= used && ReadHeaders(old(input), 0, None) == ReadHeaders(input, used, length)
        decreases |input|
      {
        ghost var before := input;
        HeadersCutOff(before, used, length);
        var line := ReadHeaderLine(MAX_FRAME_HEADER_BYTES - used);
        match line {
          case TooLong => return Failed;
          case Partial(text) =>
            if used + |text| == 0 {
              return EndOfInput;
            }
            return Failed;
          case Line(text) =>
            HeadersGoOn(text, input, used, length);
            if EndsHeaders(text) {
              break;
            }
            match HeaderOf(text) {
              case Malformed => return Failed;
              case Ignored =>
              case ContentLength(n) =>
                if length.Some? {
                  return Failed;
                }
                length := Some(n);
            }
            used := used + |text|;
        }
      }
      assert ReadHeaders(old(input), 0, None) == Ready(length, input);
      if length.None? || length.value > max || |input| < length.value {
        return Failed;
      }
      var body := input[..length.value];
      input := input[length.value..];
      if !valid(body) {
        return Failed;
      }
      return Got(body, input);
    }
  }

  // ---------------------------------------------------------------------------
  // The writer
  // ---------------------------------------------------------------------------

  datatype Written = Done | InvalidBody | TooLarge | Canceled | WriteFailed | NoProgress

  /** What the underlying writer does with one call: how much it takes at most, and whether it then fails. */
  datatype Call = Call(takes: nat, fails: bool)

  class FramedWriter {
    var output: string
    const max: nat
    const valid: string -> bool

    constructor (limit: int, isValid: string -> bool)
      ensures output == "" && max == (if limit <= 0 then 4194304 else limit) && valid == isValid
    {
      output, max, valid := "", if limit <= 0 then 4194304 else limit, isValid;
    }

    /**
     * The frame goes out in pieces, under the gate, until all of it is written or a call fails or makes no progress.
     * `calls` are the answers of the underlying writer; where they run out it takes everything.
     */
    method WriteBody(body: string, canceled: bool, calls: seq<Call>) returns (r: Written, written: nat)
      modifies this`output
      ensures r.Done? ==> valid(body) && |body| <= max && !canceled
      ensures written <= |Frame(body)| && output == old(output) + Frame(body)[..written]
      ensures r.Done? <==> written == |Frame(body)| && r != WriteFailed
      ensures !valid(body) ==> r == InvalidBody && written == 0
      ensures valid(body) && |body| > max ==> r == TooLarge && written == 0
      ensures valid(body) && |body| <= max && canceled ==> r == Canceled && written == 0
      ensures valid(body) && |body| <= max && !canceled ==> r.Done? || r.WriteFailed? || r.NoProgress?
      ensures valid(body) && |body| <= max && !canceled && (forall i | 0 <= i < |calls| :: calls[i].takes > 0 && !calls[i].fails) ==> r.Done?
    {
      hide Frame;
      written := 0;
      FrameNotEmpty(body);
      if !valid(body) {
        return InvalidBody, 0;
      }
      if |body| > max {
        return TooLarge, 0;
      }
      if canceled {
        return Canceled, 0;
      }
      ghost var all := Frame(body);
      var frame := Frame(body);
      var k := 0;
      while |frame| > 0
        invariant 0 <= k && written <= |all| && frame == all[written..] && output == old(output) + all[..written]
        decreases |frame|
      {
        var call := if k < |calls| then calls[k] else Call(|frame|, false);
        var n := if call.takes < |frame| then call.takes else |frame|;
        assert all[..written] + frame[..n] == all[..written + n];
        output := output + frame[..n];
        written := written + n;
        frame := frame[n..];
        k := k + 1;
        if call.fails {
          return WriteFailed, written;
        }
        if n == 0 {
          return NoProgress, written;
        }
      }
      return Done, written;
    }

    lemma FrameNotEmpty(body: string)
      ensures |Frame(body)| > 0
    {
    }
  }
}
