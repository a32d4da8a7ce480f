/** The offset-driven loops of the chunked scanner, proved to compute the scanner's verdict (src-tauri/src/main.rs:627-801). */
module ChunkInspector {
  import opened Bytes
  import opened ChunkGrammar
  import opened Numerals
  import opened ChunkLines
  import opened ChunkedBody

  lemma TokenRun(s: seq<byte>, from: nat, to: nat)
    requires from <= to <= |s| && (forall i :: from <= i < to ==> IsTokenByte(s[i]))
    requires to == |s| || !IsTokenByte(s[to])
    ensures TokenLength(s[from..]) == to - from
  {
    assert s[from..] == s[from..to] + s[to..];
    TokenLengthIs(s[from..to], s[to..]);
  }

  /** What is left of an extension list once an opening quote has been read is well formed. */
  ghost predicate WellFormedFromQuote(s: seq<byte>) {
    match ParseQuoted(s)
    case None => false
    case Some((_, n)) => WellFormedFromEnd(s[n..])
  }

  ghost predicate WellFormedFromEnd(s: seq<byte>) {
    EndsExtension(s) && ParseExtensions(s).Some?
  }

  lemma QuotedStep(s: seq<byte>)
    ensures s == [] ==> !WellFormedFromQuote(s)
    ensures s != [] && s[0] == QUOTE ==> WellFormedFromQuote(s) == WellFormedFromEnd(s[1..])
    ensures s != [] && s[0] == BACKSLASH ==>
              WellFormedFromQuote(s) == (|s| > 1 && 32 <= s[1] <= 126 && WellFormedFromQuote(s[2..]))
    ensures s != [] && s[0] != QUOTE && s[0] != BACKSLASH ==>
              WellFormedFromQuote(s) == (!IsControl(s[0]) && WellFormedFromQuote(s[1..]))
  {
    hide ParseExtensions;
    if |s| > 1 && s[0] == BACKSLASH && ParseQuoted(s[2..]).Some? {
      var n := ParseQuoted(s[2..]).value.1;
      assert s[2..][n..] == s[2 + n..];
    }
    if s != [] && s[0] != QUOTE && s[0] != BACKSLASH && ParseQuoted(s[1..]).Some? {
      var n := ParseQuoted(s[1..]).value.1;
      assert s[1..][n..] == s[1 + n..];
    }
  }

  /** One step of the extension grammar, told by offsets: `name` ends at `n`. */
  lemma ExtensionStep(s: seq<byte>, offset: nat, n: nat)
    requires offset < n <= |s| && s[offset] == SEMICOLON && TokenLength(s[offset + 1..]) == n - offset - 1
    ensures n == offset + 1 ==> ParseExtensions(s[offset..]).None?
    ensures n > offset + 1 && EndsExtension(s[n..]) ==>
              ParseExtensions(s[offset..]).Some? == ParseExtensions(s[n..]).Some?
    ensures n > offset + 1 && n < |s| && s[n] != SEMICOLON && s[n] != EQUALS ==> ParseExtensions(s[offset..]).None?
    ensures n > offset + 1 && n < |s| && s[n] == EQUALS && n + 1 == |s| ==> ParseExtensions(s[offset..]).None?
    ensures n > offset + 1 && n + 1 < |s| && s[n] == EQUALS ==>
              ParseExtensions(s[offset..]).Some? == ParseValue(s[offset + 1..n], s[n + 1..]).Some?
  {
    hide ParseValue, TokenLength;
    var t := s[offset..];
    assert t[1..] == s[offset + 1..] && t[1..][..n - offset - 1] == s[offset + 1..n];
    assert t[1 + (n - offset - 1)..] == s[n..];
    assert n < |s| ==> s[n..][1..] == s[n + 1..];
  }

  /** Whether a value and what follows it parse does not depend on the name in front. */
  lemma TokenValueStep(name: seq<byte>, s: seq<byte>, offset: nat, n: nat)
    requires IsToken(name) && offset <= n <= |s| && offset < |s| && s[offset] != QUOTE
    requires TokenLength(s[offset..]) == n - offset
    ensures ParseValue(name, s[offset..]).Some? == (n > offset && WellFormedFromEnd(s[n..]))
  {
    hide ParseExtensions, TokenLength;
    assert s[offset..][n - offset..] == s[n..];
  }

  lemma QuotedValueStep(name: seq<byte>, s: seq<byte>, offset: nat)
    requires IsToken(name) && offset < |s| && s[offset] == QUOTE
    ensures ParseValue(name, s[offset..]).Some? == WellFormedFromQuote(s[offset + 1..])
  {
    hide ParseExtensions, ParseQuoted;
    var t := s[offset..];
    assert t[1..] == s[offset + 1..];
    match ParseQuoted(t[1..]) {
      case None =>
      case Some((_, n)) => assert t[1..][n..] == t[1 + n..];
    }
  }

  /** Scans a token starting at `from`. */
  method ScanToken(s: seq<byte>, from: nat) returns (to: nat)
    requires from <= |s|
    ensures from <= to <= |s| && TokenLength(s[from..]) == to - from
    ensures (forall i :: from <= i < to ==> IsTokenByte(s[i])) && (to < |s| ==> !IsTokenByte(s[to]))
  {
    to := from;
    while to < |s| && IsTokenByte(s[to])
      invariant from <= to <= |s| && forall i :: from <= i < to ==> IsTokenByte(s[i])
    {
      to := to + 1;
    }
    TokenRun(s, from, to);
  }

  /** Reads a quoted string whose opening quote precedes `from`. */
  method ScanQuoted(s: seq<byte>, from: nat) returns (ok: bool, to: nat)
    requires from <= |s|
    ensures to <= |s|
    ensures WellFormedFromQuote(s[from..]) == (ok && WellFormedFromEnd(s[to..]))
    ensures ok ==> from < to
  {
    hide ParseExtensions, ParseQuoted, WellFormedFromQuote, WellFormedFromEnd;
    ok, to := true, from;
    var closed := false;
    while to < |s|
      invariant from <= to <= |s|
      invariant !closed && WellFormedFromQuote(s[from..]) == WellFormedFromQuote(s[to..])
    {
      var b := s[to];
      QuotedStep(s[to..]);
      assert s[to..][1..] == s[to + 1..];
      assert to + 2 <= |s| ==> s[to..][2..] == s[to + 2..];
      to := to + 1;
      if b == QUOTE {
        closed := true;
        break;
      }
      if b == BACKSLASH {
        if to == |s| || !(s[to] < 128) || IsControl(s[to]) {
          return false, to;
        }
        to := to + 1;
      } else if IsControl(b) {
        return false, to;
      }
    }
    if !closed {
      QuotedStep(s[to..]);
      ok := false;
    }
  }

  method ValidChunkExtensions(s: seq<byte>) returns (ok: bool)
    ensures ok <==> exists es :: ValidExtensions(es) && PrintExtensions(es) == s
  {
    ok := ExtensionsParse(s);
    if ok {
      assert PrintExtensions(ParseExtensions(s).value) == s;
    }
    if es :| ValidExtensions(es) && PrintExtensions(es) == s {
      ExtensionsRoundTrip(es);
    }
  }

  /** Reads one extension starting at `offset`. */
  method ScanExtension(s: seq<byte>, offset: nat) returns (ok: bool, next: nat)
    requires offset < |s|
    ensures next <= |s| && (ok ==> offset < next)
    ensures ParseExtensions(s[offset..]).Some? == (ok && ParseExtensions(s[next..]).Some?)
  {
    hide ParseExtensions, ParseValue, WellFormedFromQuote, TokenLength, PrintExtensions, IsTokenByte;
    if s[offset] != SEMICOLON {
      NoExtension(s, offset);
      return false, offset;
    }
    var end := ScanToken(s, offset + 1);
    ExtensionStep(s, offset, end);
    if end == offset + 1 {
      return false, offset;
    }
    if end == |s| || s[end] == SEMICOLON {
      return true, end;
    }
    if s[end] != EQUALS || end + 1 == |s| {
      return false, offset;
    }
    ghost var name := s[offset + 1..end];
    if s[end + 1] != QUOTE {
      next := ScanToken(s, end + 1);
      TokenValueStep(name, s, end + 1, next);
      ok := next != end + 1;
    } else {
      QuotedValueStep(name, s, end + 1);
      ok, next := ScanQuoted(s, end + 2);
    }
    ok := ok && !(next < |s| && s[next] != SEMICOLON);
  }

  lemma NoExtension(s: seq<byte>, offset: nat)
    requires offset < |s| && s[offset] != SEMICOLON
    ensures ParseExtensions(s[offset..]).None?
  {
  }

  method ExtensionsParse(s: seq<byte>) returns (ok: bool)
    ensures ok == ParseExtensions(s).Some?
  {
    var offset := 0;
    assert s[0..] == s;
    while offset < |s|
      invariant offset <= |s| && ParseExtensions(s).Some? == ParseExtensions(s[offset..]).Some?
      decreases |s| - offset
    {
      var more, next := ScanExtension(s, offset);
      if !more {
        return false;
      }
      offset := next;
    }
    return true;
  }

  /** The announced size of a chunk-size line; `None` when the line is outside the grammar or too long. */
  method ParseChunkSize(line: seq<byte>) returns (size: Option<nat>)
    ensures size.Some? <==> exists l :: ValidSizeLine(l) && PrintSizeLine(l) == line
    ensures forall l :: ValidSizeLine(l) && PrintSizeLine(l) == line ==>
              size.Some? && HexDenotes(l.digits, size.value)
  {
    size := SizeOf(line);
    if size.Some? {
      HexExactly(ParseSizeLine(line).value.digits, size.value);
      assert PrintSizeLine(ParseSizeLine(line).value) == line;
    }
    forall l | ValidSizeLine(l) && PrintSizeLine(l) == line
      ensures ParseSizeLine(line) == Some(l)
    {
      SizeLineRoundTrip(l);
    }
  }

  method SizeOf(line: seq<byte>) returns (size: Option<nat>)
    ensures size.Some? == ParseSizeLine(line).Some?
    ensures size.Some? ==> size.value == HexValue(ParseSizeLine(line).value.digits)
  {
    hide ParseExtensions;
    if line == [] || |line| > METADATA_CAP {
      return None;
    }
    var extensionOffset := IndexOf(line, SEMICOLON);
    var rawSize := line[..extensionOffset];
    if rawSize == [] || |rawSize| > 16 || !HexDigits(rawSize) {
      return None;
    }
    var ok := ExtensionsParse(line[extensionOffset..]);
    HexValueFits(rawSize);
    return if ok && HexValue(rawSize) <= USIZE_MAX then Some(HexValue(rawSize)) else None;
  }

  /** Sixteen hexadecimal digits fit the 64-bit `usize`. */
  lemma {:induction false} HexValueFits(s: seq<byte>)
    requires HexDigits(s) && |s| <= 16
    ensures HexValue(s) < Power16(|s|) && Power16(|s|) <= USIZE_MAX + 1
  {
    if s != [] {
      HexValueFits(s[..|s| - 1]);
    }
    Power16Fits(|s|);
  }

  function Power16(n: nat): nat {
    if n == 0 then 1 else 16 * Power16(n - 1)
  }

  lemma Power16Fits(n: nat)
    requires n <= 16
    ensures 0 < Power16(n) <= USIZE_MAX + 1
  {
    assert Power16(4) == 0x1_0000;
    assert Power16(8) == 0x1_0000_0000;
    assert Power16(12) == 0x1_0000_0000_0000;
    assert Power16(16) == 0x1_0000_0000_0000_0000;
    Power16Grows(n, 16);
  }

  lemma {:induction false} Power16Grows(n: nat, m: nat)
    requires n <= m
    ensures 0 < Power16(n) <= Power16(m)
    decreases m
  {
    if n < m {
      Power16Grows(n, m - 1);
    } else if 0 < n {
      Power16Grows(n - 1, n - 1);
    }
  }

  function CheckedAdd(a: nat, b: nat): (r: Option<nat>)
    ensures r.Some? <==> a + b <= USIZE_MAX
    ensures r.Some? ==> r.value == a + b
  {
    if a + b <= USIZE_MAX then Some(a + b) else None
  }

  /** One turn of the trailer loop. */
  lemma TrailerStep(rest: seq<byte>, used: nat, line: SizeLine, ink: bool, length: nat, eof: bool)
    ensures Judge(EndScan(line, ScanTrailers(rest, used), ink), length, eof) ==
            match SplitLine(rest)
            case None => (if eof || length == WIRE_CAP then Reject else NeedMore)
            case Some((text, after)) =>
              if used + |text| > METADATA_CAP then Reject
              else if text == [] then (if after == [] && ink then Ready else Reject)
              else if ParseTrailer(text).None? then Reject
              else Judge(EndScan(line, ScanTrailers(after, used + |text| + 2), ink), length, eof)
  {
    hide ParseTrailer, SplitLine, PrintTrailers;
  }

  /** The trailer loop, entered after the zero-size line. */
  method InspectTrailers(body: seq<byte>, trailerStart: nat, nonempty: bool, eof: bool, ghost line: SizeLine)
    returns (r: Verdict)
    requires trailerStart <= |body|
    ensures r == Judge(EndScan(line, ScanTrailers(body[trailerStart..], 0), nonempty), |body|, eof)
  {
    hide ParseTrailer, SplitLine, PrintTrailers, ScanTrailers, EndScan;
    var offset := trailerStart;
    while true
      invariant trailerStart <= offset <= |body|
      invariant Judge(EndScan(line, ScanTrailers(body[trailerStart..], 0), nonempty), |body|, eof)
             == Judge(EndScan(line, ScanTrailers(body[offset..], offset - trailerStart), nonempty), |body|, eof)
      decreases |body| - offset
    {
      TrailerStep(body[offset..], offset - trailerStart, line, nonempty, |body|, eof);
      var found := LineEnd(body, offset);
      if found.None? {
        return if eof || |body| == WIRE_CAP then Reject else NeedMore;
      }
      var trailerEnd := found.value;
      if trailerEnd - trailerStart > METADATA_CAP {
        return Reject;
      }
      if trailerEnd == offset {
        offset := offset + 2;
        return if offset == |body| && nonempty then Ready else Reject;
      }
      if ParseTrailer(body[offset..trailerEnd]).None? {
        return Reject;
      }
      offset := trailerEnd + 2;
    }
  }

  /** The absolute offset of the first CRLF at or after `offset`. */
  function LineEnd(body: seq<byte>, offset: nat): (r: Option<nat>)
    requires offset <= |body|
    ensures r.None? <==> SplitLine(body[offset..]).None?
    ensures r.Some? ==>
              && offset <= r.value && r.value + 2 <= |body|
              && SplitLine(body[offset..]) == Some((body[offset..r.value], body[r.value + 2..]))
  {
    match FirstCrlf(body[offset..])
    case None => None
    case Some(k) =>
      assert body[offset..][..k] == body[offset..offset + k];
      assert body[offset..][k + 2..] == body[offset + k + 2..];
      Some(offset + k)
  }

  /** Ready exactly on the printed valid messages; otherwise the verdict of the scanner. */
  method InspectChunkedBody(body: seq<byte>, eof: bool) returns (r: Verdict)
    requires |body| <= ISIZE_MAX
    ensures r == ChunkedVerdict(body, eof)
    ensures r == Ready <==> exists m :: ValidMessage(m) && PrintMessage(m) == body
  {
    r := InspectChunks(body, eof);
    ReadyExactly(body, eof);
  }

  method InspectChunks(body: seq<byte>, eof: bool) returns (r: Verdict)
    requires |body| <= ISIZE_MAX
    ensures r == ChunkedVerdict(body, eof)
  {
    hide SplitLine, ParseSizeLine, HexValue, ScanSized;
    var offset: nat, decoded: nat, nonempty := 0, 0, false;
    assert body[0..] == body;
    while true
      invariant offset <= |body| && decoded <= BODY_CAP
      invariant ChunkedVerdict(body, eof) == Judge(ScanChunks(body[offset..], decoded, nonempty), |body|, eof)
      decreases |body| - offset
    {
      var found := LineEnd(body, offset);
      if found.None? {
        return if eof || |body| == WIRE_CAP then Reject else NeedMore;
      }
      var lineEnd := found.value;
      if lineEnd - offset > METADATA_CAP {
        LongLine(body[offset..lineEnd]);
        return Reject;
      }
      var parsed := SizeOf(body[offset..lineEnd]);
      if parsed.None? {
        return Reject;
      }
      ghost var line := ParseSizeLine(body[offset..lineEnd]).value;
      var verdict;
      verdict, offset, decoded, nonempty := InspectData(body, lineEnd + 2, parsed.value, decoded, nonempty, eof, line);
      if verdict.Some? {
        return verdict.value;
      }
    }
  }

  /** The rest of the loop body: one chunk whose size line has been read, or the end of the message. */
  method InspectData(body: seq<byte>, start: nat, chunkSize: nat, decoded: nat, nonempty: bool, eof: bool,
                     ghost line: SizeLine)
    returns (verdict: Option<Verdict>, offset: nat, nextDecoded: nat, nextNonempty: bool)
    requires |body| <= ISIZE_MAX && start <= |body| && decoded <= BODY_CAP
    requires ValidSizeLine(line) && chunkSize == HexValue(line.digits)
    ensures start <= offset <= |body| && nextDecoded <= BODY_CAP
    ensures Judge(ScanSized(line, body[start..], decoded, nonempty), |body|, eof)
         == if verdict.Some? then verdict.value
            else Judge(ScanChunks(body[offset..], nextDecoded, nextNonempty), |body|, eof)
  {
    hide ScanChunks, HexValue, HasInk, ScanTrailers, TakeData;
    offset, nextDecoded, nextNonempty := start, decoded, nonempty;
    if chunkSize == 0 {
      var r := InspectTrailers(body, start, nonempty, eof, line);
      return Some(r), offset, nextDecoded, nextNonempty;
    }
    var sum := CheckedAdd(decoded, chunkSize);
    if sum.None? || sum.value > BODY_CAP {
      return Some(Reject), offset, nextDecoded, nextNonempty;
    }
    var dataEnd := CheckedAdd(start, chunkSize);
    var framedEnd := if dataEnd.None? then None else CheckedAdd(dataEnd.value, 2);
    if framedEnd.None? {
      return Some(Reject), offset, nextDecoded, nextNonempty;
    }
    Framed(body, start, chunkSize);
    if framedEnd.value > |body| {
      verdict := Some(if eof || |body| == WIRE_CAP then Reject else NeedMore);
      return;
    }
    if body[dataEnd.value..framedEnd.value] != CRLF {
      return Some(Reject), offset, nextDecoded, nextNonempty;
    }
    nextNonempty := nonempty || HasInk(body[start..dataEnd.value]);
    nextDecoded := sum.value;
    offset := framedEnd.value;
    verdict := None;
  }

  lemma LongLine(line: seq<byte>)
    requires |line| > METADATA_CAP
    ensures ParseSizeLine(line).None?
  {
  }

  lemma Framed(body: seq<byte>, offset: nat, size: nat)
    requires offset <= |body|
    ensures TakeData(body[offset..], size)
         == if offset + size + 2 > |body| then Incomplete
            else if body[offset + size..offset + size + 2] != CRLF then Malformed
            else Complete((body[offset..offset + size], body[offset + size + 2..]))
  {
    var s := body[offset..];
    if size + 2 <= |s| {
      assert s[size..size + 2] == body[offset + size..offset + size + 2];
      assert s[..size] == body[offset..offset + size] && s[size + 2..] == body[offset + size + 2..];
    }
  }
}
