/** The status line and header fields of a response, and the body framing they announce (src-tauri/src/main.rs:818-877). */
module HttpHead {
  import opened Bytes
  import opened ChunkGrammar
  import opened Numerals

  datatype Framing = Chunked | Length(length: nat) | UntilClose

  predicate Continuation(s: seq<byte>, i: nat) {
    i < |s| && 0x80 <= s[i] <= 0xBF
  }

  /** The length of the well-formed UTF-8 sequence at the front of `s`, or 0. */
  function Utf8Width(s: seq<byte>): (n: nat)
    requires s != []
    ensures n <= |s| && n <= 4
  {
    var b := s[0];
    if b < 0x80 then 1
    else if 0xC2 <= b <= 0xDF then (if Continuation(s, 1) then 2 else 0)
    else if 0xE0 <= b <= 0xEF then
      var low, high := if b == 0xE0 then 0xA0 else 0x80, if b == 0xED then 0x9F else 0xBF;
      if Continuation(s, 1) && low <= s[1] <= high && Continuation(s, 2) then 3 else 0
    else if 0xF0 <= b <= 0xF4 then
      var low, high := if b == 0xF0 then 0x90 else 0x80, if b == 0xF4 then 0x8F else 0xBF;
      if Continuation(s, 1) && low <= s[1] <= high && Continuation(s, 2) && Continuation(s, 3) then 4 else 0
    else 0
  }

  predicate ValidUtf8(s: seq<byte>)
    decreases |s|
  {
    s == [] || (Utf8Width(s) != 0 && ValidUtf8(s[Utf8Width(s)..]))
  }

  // The White_Space characters of more than one byte: U+0085, U+00A0, U+1680, U+2000-200A, U+2028, U+2029, U+202F,
  // U+205F and U+3000.
  predicate WideSpace2(b: byte, c: byte) {
    b == 0xC2 && (c == 0x85 || c == 0xA0)
  }

  predicate WideSpace3(b: byte, c: byte, d: byte) {
    || (b == 0xE1 && c == 0x9A && d == 0x80)
    || (b == 0xE2 && c == 0x80 && (0x80 <= d <= 0x8A || d == 0xA8 || d == 0xA9 || d == 0xAF))
    || (b == 0xE2 && c == 0x81 && d == 0x9F)
    || (b == 0xE3 && c == 0x80 && d == 0x80)
  }

  predicate NarrowSpace(b: byte) {
    9 <= b <= 13 || b == 32
  }

  function LeadingSpace(s: seq<byte>): (n: nat)
    ensures n <= |s|
  {
    if |s| >= 1 && NarrowSpace(s[0]) then 1
    else if |s| >= 2 && WideSpace2(s[0], s[1]) then 2
    else if |s| >= 3 && WideSpace3(s[0], s[1], s[2]) then 3
    else 0
  }

  function TrailingSpace(s: seq<byte>): (n: nat)
    ensures n <= |s|
  {
    var k := |s|;
    if k >= 1 && NarrowSpace(s[k - 1]) then 1
    else if k >= 2 && WideSpace2(s[k - 2], s[k - 1]) then 2
    else if k >= 3 && WideSpace3(s[k - 3], s[k - 2], s[k - 1]) then 3
    else 0
  }

  function TrimStart(s: seq<byte>): seq<byte>
    decreases |s|
  {
    var n := LeadingSpace(s);
    if n == 0 then s else TrimStart(s[n..])
  }

  function TrimEnd(s: seq<byte>): seq<byte>
    decreases |s|
  {
    var n := TrailingSpace(s);
    if n == 0 then s else TrimEnd(s[..|s| - n])
  }

  function Trim(s: seq<byte>): seq<byte> {
    TrimEnd(TrimStart(s))
  }

  /** All lines of the head; the last one has no line end. */
  function SplitLines(s: seq<byte>): (r: seq<seq<byte>>)
    ensures r != []
    decreases |s|
  {
    match SplitLine(s)
    case None => [s]
    case Some((line, rest)) => [line] + SplitLines(rest)
  }

  function SkipSpace(s: seq<byte>): seq<byte> {
    if s != [] && IsWhitespace(s[0]) then SkipSpace(s[1..]) else s
  }

  function FieldLength(s: seq<byte>): (n: nat)
    ensures n <= |s|
  {
    if s == [] || IsWhitespace(s[0]) then 0 else 1 + FieldLength(s[1..])
  }

  /** The first whitespace-separated field and what follows it; an empty field when there is none. */
  function NextField(s: seq<byte>): (r: (seq<byte>, seq<byte>)) {
    var t := SkipSpace(s);
    (t[..FieldLength(t)], t[FieldLength(t)..])
  }

  // "HTTP/1.1"
  const HTTP_1_1: seq<byte> := [72, 84, 84, 80, 47, 49, 46, 49]
  // "text/html"
  const TEXT_HTML: seq<byte> := [116, 101, 120, 116, 47, 104, 116, 109, 108]
  // "chunked"
  const CHUNKED: seq<byte> := [99, 104, 117, 110, 107, 101, 100]
  // "content-type"
  const CONTENT_TYPE: seq<byte> := [99, 111, 110, 116, 101, 110, 116, 45, 116, 121, 112, 101]
  const COMMA: byte := 44

  predicate SuccessfulStatus(line: seq<byte>) {
    var (version, rest) := NextField(line);
    var (code, _) := NextField(rest);
    version == HTTP_1_1 && |code| == 3 && AllDigits(code) && 200 <= Decimal(code) < 300
  }

  /** A header field: `name ":" value`, the value without control characters other than tab. */
  predicate ValidField(line: seq<byte>) {
    var n := IndexOf(line, COLON);
    && n < |line|
    && IsToken(line[..n])
    && forall i :: n < i < |line| ==> line[i] == TAB || !IsControl(line[i])
  }

  predicate Named(line: seq<byte>, name: seq<byte>) {
    EqualsIgnoreCase(line[..IndexOf(line, COLON)], name)
  }

  function FieldValue(line: seq<byte>): seq<byte>
    requires ValidField(line)
  {
    Trim(line[IndexOf(line, COLON) + 1..])
  }

  predicate ValidFields(lines: seq<seq<byte>>) {
    forall i :: 0 <= i < |lines| ==> ValidField(lines[i])
  }

  /** The trimmed values of the fields called `name`, in order. */
  function Values(lines: seq<seq<byte>>, name: seq<byte>): seq<seq<byte>>
    requires ValidFields(lines)
  {
    if lines == [] then []
    else
      var before, line := Values(lines[..|lines| - 1], name), lines[|lines| - 1];
      if Named(line, name) then before + [FieldValue(line)] else before
  }

  predicate HtmlType(types: seq<seq<byte>>) {
    |types| == 1 && EqualsIgnoreCase(Trim(types[0][..IndexOf(types[0], SEMICOLON)]), TEXT_HTML)
  }

  /** The framing announced by the content-length and transfer-encoding values. */
  function FramingOf(lengths: seq<seq<byte>>, encodings: seq<seq<byte>>): Option<Framing> {
    if |lengths| > 1 || |encodings| > 1 then None
    else if encodings != [] then
      if lengths == [] && COMMA !in encodings[0] && EqualsIgnoreCase(Trim(encodings[0]), CHUNKED) then Some(Chunked)
      else None
    else if lengths == [] then Some(UntilClose)
    else if lengths[0] == [] || !AllDigits(lengths[0]) then None
    else if 0 < Decimal(lengths[0]) <= BODY_CAP then Some(Length(Decimal(lengths[0])))
    else None
  }

  /** The framing of a response whose head (everything before the empty line) is `head`; `None` refuses the response. */
  function Head(head: seq<byte>): (r: Option<Framing>)
    ensures r.Some? && r.value.Length? ==> 0 < r.value.length <= BODY_CAP
  {
    if !ValidUtf8(head) then None
    else
      var lines := SplitLines(head);
      if !SuccessfulStatus(lines[0]) || !ValidFields(lines[1..]) then None
      else if !HtmlType(Values(lines[1..], CONTENT_TYPE)) then None
      else FramingOf(Values(lines[1..], CONTENT_LENGTH), Values(lines[1..], TRANSFER_ENCODING))
  }

  /** The three header lists the source collects; `None` when a line is not a valid field. */
  method CollectFields(lines: seq<seq<byte>>)
    returns (ok: bool, types: seq<seq<byte>>, lengths: seq<seq<byte>>, encodings: seq<seq<byte>>)
    ensures ok == ValidFields(lines)
    ensures ok ==>
              && types == Values(lines, CONTENT_TYPE)
              && lengths == Values(lines, CONTENT_LENGTH)
              && encodings == Values(lines, TRANSFER_ENCODING)
  {
    hide FieldValue, EqualsIgnoreCase, ValidField, IndexOf;
    types, lengths, encodings := [], [], [];
    for i := 0 to |lines|
      invariant ValidFields(lines[..i])
      invariant types == Values(lines[..i], CONTENT_TYPE)
      invariant lengths == Values(lines[..i], CONTENT_LENGTH)
      invariant encodings == Values(lines[..i], TRANSFER_ENCODING)
    {
      var line := lines[i];
      if !ValidField(line) {
        return false, types, lengths, encodings;
      }
      assert lines[..i + 1][..i] == lines[..i] && lines[..i + 1][i] == line;
      DistinctNames(line);
      if Named(line, CONTENT_TYPE) {
        types := types + [FieldValue(line)];
      } else if Named(line, CONTENT_LENGTH) {
        lengths := lengths + [FieldValue(line)];
      } else if Named(line, TRANSFER_ENCODING) {
        encodings := encodings + [FieldValue(line)];
      }
    }
    ok := true;
    assert lines[..|lines|] == lines;
  }

  /** No line carries two of the three names, so the order in which they are tried does not matter. */
  lemma DistinctNames(line: seq<byte>)
    ensures Named(line, CONTENT_TYPE) ==> !Named(line, CONTENT_LENGTH) && !Named(line, TRANSFER_ENCODING)
    ensures Named(line, CONTENT_LENGTH) ==> !Named(line, TRANSFER_ENCODING)
  {
    assert |CONTENT_TYPE| == 12 && |CONTENT_LENGTH| == 14 && |TRANSFER_ENCODING| == 17;
  }

  method InspectHead(head: seq<byte>) returns (framing: Option<Framing>)
    ensures framing == Head(head)
  {
    hide SuccessfulStatus, EqualsIgnoreCase, Utf8Width, SplitLine, Trim, Values, Decimal, IndexOf;
    if !ValidUtf8(head) {
      return None;
    }
    var lines := SplitLines(head);
    if !SuccessfulStatus(lines[0]) {
      return None;
    }
    var ok, types, lengths, encodings := CollectFields(lines[1..]);
    if !ok || !HtmlType(types) || |lengths| > 1 || |encodings| > 1 {
      return None;
    }
    if encodings != [] {
      var encoding := encodings[0];
      if lengths != [] || COMMA in encoding || !EqualsIgnoreCase(Trim(encoding), CHUNKED) {
        return None;
      }
      return Some(Chunked);
    }
    if lengths != [] {
      var rawLength := lengths[0];
      if rawLength == [] || !AllDigits(rawLength) || Decimal(rawLength) > USIZE_MAX {
        return None;
      }
      var length := Decimal(rawLength);
      if length == 0 || length > BODY_CAP {
        return None;
      }
      return Some(Length(length));
    }
    return Some(UntilClose);
  }
}
