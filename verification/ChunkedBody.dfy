/** The strict scanner of chunked bodies (src-tauri/src/main.rs:722-801) and what it accepts. */
module ChunkedBody {
  import opened Bytes
  import opened ChunkGrammar
  import opened Numerals
  import opened ChunkLines

  datatype Verdict = NeedMore | Ready | Reject

  /** What the bytes read so far amount to, before end-of-stream is taken into account. */
  datatype Scan<+T> = Incomplete | Malformed | Complete(value: T)

  function ConsTrailer(t: Trailer, tail: Scan<seq<Trailer>>): (r: Scan<seq<Trailer>>)
    ensures r.Complete? <==> tail.Complete?
    ensures r.Complete? ==>
              r.value == [t] + tail.value
              && PrintTrailers(r.value) == PrintTrailer(t) + CRLF + PrintTrailers(tail.value)
  {
    if tail.Complete? then
      assert ([t] + tail.value)[1..] == tail.value;
      Complete([t] + tail.value)
    else tail
  }

  /** Reads trailer lines up to the empty line, which must end the body; `used` bytes of trailers precede `rest`. */
  function ScanTrailers(rest: seq<byte>, used: nat): (r: Scan<seq<Trailer>>)
    decreases |rest|
  {
    match SplitLine(rest)
    case None => Incomplete
    case Some((line, after)) =>
      if used + |line| > METADATA_CAP then Malformed
      else if line == [] then
        if after == [] then Complete([]) else Malformed
      else
        match ParseTrailer(line)
        case None => Malformed
        case Some(t) => ConsTrailer(t, ScanTrailers(after, used + |line| + 2))
  }

  function ConsChunk(c: Chunk, tail: Scan<Message>): (r: Scan<Message>)
    ensures r.Complete? <==> tail.Complete?
    ensures r.Complete? ==>
              && r.value == Message([c] + tail.value.chunks, tail.value.last, tail.value.trailers)
              && PrintMessage(r.value) == PrintChunk(c) + PrintMessage(tail.value)
              && Data(r.value.chunks) == c.data + Data(tail.value.chunks)
  {
    if tail.Complete? then
      var m := tail.value;
      assert ([c] + m.chunks)[1..] == m.chunks;
      Complete(Message([c] + m.chunks, m.last, m.trailers))
    else tail
  }

  /** Cuts `size` bytes of chunk data and the CRLF closing them off the front of a buffer. */
  function TakeData(s: seq<byte>, size: nat): (r: Scan<(seq<byte>, seq<byte>)>)
    ensures r.Complete? ==> s == r.value.0 + CRLF + r.value.1 && |r.value.0| == size
  {
    if size + 2 > |s| then Incomplete
    else if s[size..size + 2] != CRLF then Malformed
    else Complete((s[..size], s[size + 2..]))
  }

  /** A body without any non-blank byte is refused even when its framing is complete. */
  function EndScan(line: SizeLine, trailers: Scan<seq<Trailer>>, ink: bool): Scan<Message> {
    match trailers
    case Incomplete => Incomplete
    case Malformed => Malformed
    case Complete(ts) => if ink then Complete(Message([], line, ts)) else Malformed
  }

  function ScanChunks(rest: seq<byte>, decoded: nat, ink: bool): (r: Scan<Message>)
    requires decoded <= BODY_CAP
    decreases |rest|, 1
  {
    match SplitLine(rest)
    case None => Incomplete
    case Some((text, after)) =>
      match ParseSizeLine(text)
      case None => Malformed
      case Some(line) => ScanSized(line, after, decoded, ink)
  }

  /** What follows an understood chunk-size line. */
  function ScanSized(line: SizeLine, after: seq<byte>, decoded: nat, ink: bool): (r: Scan<Message>)
    requires decoded <= BODY_CAP && ValidSizeLine(line)
    decreases |after|, 2
  {
    var size := HexValue(line.digits);
    if size == 0 then EndScan(line, ScanTrailers(after, 0), ink)
    else if decoded + size > BODY_CAP then Malformed
    else
      match TakeData(after, size)
      case Incomplete => Incomplete
      case Malformed => Malformed
      case Complete((data, tail)) =>
        ConsChunk(Chunk(line, data), ScanChunks(tail, decoded + size, ink || HasInk(data)))
  }

  function Judge(scan: Scan<Message>, length: nat, eof: bool): Verdict {
    match scan
    case Complete(_) => Ready
    case Malformed => Reject
    case Incomplete => if eof || length == WIRE_CAP then Reject else NeedMore
  }

  function ChunkedVerdict(body: seq<byte>, eof: bool): Verdict {
    Judge(ScanChunks(body, 0, false), |body|, eof)
  }

  /** A message part that can follow `decoded` bytes of data, `ink` telling whether they hold a non-blank byte. */
  ghost predicate ValidTail(m: Message, decoded: nat, ink: bool) {
    && ValidChunks(m.chunks) && ValidLast(m.last) && ValidTrailers(m.trailers)
    && decoded + |Data(m.chunks)| <= BODY_CAP
    && |PrintTrailers(m.trailers)| <= METADATA_CAP
    && (ink || HasInk(Data(m.chunks)))
  }

  lemma {:induction false} TrailersSound(rest: seq<byte>, used: nat)
    requires ScanTrailers(rest, used).Complete?
    ensures var ts := ScanTrailers(rest, used).value;
            && ValidTrailers(ts) && rest == PrintTrailers(ts) + CRLF
            && used + |PrintTrailers(ts)| <= METADATA_CAP
    decreases |rest|
  {
    hide SplitLine, ParseTrailer;
    var (line, after) := SplitLine(rest).value;
    if line != [] {
      TrailersSound(after, used + |line| + 2);
    }
  }

  /** Soundness: a complete scan has read exactly the printed form of a valid message. */
  lemma {:induction false} ScanSound(rest: seq<byte>, decoded: nat, ink: bool)
    requires decoded <= BODY_CAP && ScanChunks(rest, decoded, ink).Complete?
    ensures var m := ScanChunks(rest, decoded, ink).value;
            PrintMessage(m) == rest && ValidTail(m, decoded, ink)
    decreases |rest|, 1
  {
    var (text, after) := SplitLine(rest).value;
    SizedSound(ParseSizeLine(text).value, after, decoded, ink);
  }

  lemma {:induction false} SizedSound(line: SizeLine, after: seq<byte>, decoded: nat, ink: bool)
    requires decoded <= BODY_CAP && ValidSizeLine(line) && ScanSized(line, after, decoded, ink).Complete?
    ensures var m := ScanSized(line, after, decoded, ink).value;
            PrintMessage(m) == PrintSizeLine(line) + CRLF + after && ValidTail(m, decoded, ink)
    decreases |after|, 2
  {
    hide ScanChunks, PrintSizeLine, HexValue, HexDenotes, HasInk, PrintMessage, ValidTail;
    HexExactly(line.digits, HexValue(line.digits));
    if HexValue(line.digits) == 0 {
      EndSound(line, after, decoded, ink);
    } else {
      var (data, tail) := TakeData(after, HexValue(line.digits)).value;
      ScanSound(tail, decoded + |data|, ink || HasInk(data));
      ConsSound(Chunk(line, data), ScanChunks(tail, decoded + |data|, ink || HasInk(data)).value, decoded, ink);
    }
  }

  lemma EndSound(line: SizeLine, after: seq<byte>, decoded: nat, ink: bool)
    requires decoded <= BODY_CAP && ValidLast(line) && ScanTrailers(after, 0).Complete? && ink
    ensures var m := Message([], line, ScanTrailers(after, 0).value);
            PrintMessage(m) == PrintSizeLine(line) + CRLF + after && ValidTail(m, decoded, ink)
  {
    hide ScanTrailers, PrintSizeLine, PrintTrailers, HasInk;
    TrailersSound(after, 0);
  }

  lemma ConsSound(c: Chunk, m: Message, decoded: nat, ink: bool)
    requires ValidChunk(c) && ValidTail(m, decoded + |c.data|, ink || HasInk(c.data))
    ensures var r := ConsChunk(c, Complete(m)).value;
            ValidTail(r, decoded, ink) && PrintMessage(r) == PrintSizeLine(c.line) + CRLF + (c.data + CRLF + PrintMessage(m))
  {
    hide PrintSizeLine, PrintMessage, PrintTrailers, HasInk, ValidChunk;
    InkSplits(c.data, Data(m.chunks));
  }

  lemma InkSplits(a: seq<byte>, b: seq<byte>)
    ensures HasInk(a + b) <==> HasInk(a) || HasInk(b)
  {
    if HasInk(a) {
      var i :| 0 <= i < |a| && !IsWhitespace(a[i]);
      assert (a + b)[i] == a[i];
    }
    if HasInk(b) {
      var i :| 0 <= i < |b| && !IsWhitespace(b[i]);
      assert (a + b)[|a| + i] == b[i];
    }
  }

  /** Completeness for trailers: what was printed is read back. */
  lemma {:induction false} TrailersRoundTrip(ts: seq<Trailer>, used: nat)
    requires ValidTrailers(ts) && used + |PrintTrailers(ts)| <= METADATA_CAP
    ensures ScanTrailers(PrintTrailers(ts) + CRLF, used) == Complete(ts)
  {
    hide SplitLine, ParseTrailer;
    if ts == [] {
      SplitPrintedLine([], []);
      assert PrintTrailers(ts) + CRLF == [] + CRLF + [];
    } else {
      var line, tail := PrintTrailer(ts[0]), PrintTrailers(ts[1..]) + CRLF;
      assert PrintTrailers(ts) + CRLF == line + CRLF + tail;
      assert ValidTrailer(ts[0]);
      TrailerRoundTrip(ts[0]);
      SplitPrintedLine(line, tail);
      TrailersRoundTrip(ts[1..], used + |line| + 2);
      assert [ts[0]] + ts[1..] == ts;
    }
  }

  /** A printed size line is found and read back, whatever follows it. */
  lemma SizeLineFound(line: SizeLine, after: seq<byte>, decoded: nat, ink: bool)
    requires ValidSizeLine(line) && decoded <= BODY_CAP
    ensures ScanChunks(PrintSizeLine(line) + CRLF + after, decoded, ink) == ScanSized(line, after, decoded, ink)
  {
    SizeLineRoundTrip(line);
    SplitPrintedLine(PrintSizeLine(line), after);
  }

  lemma ChunkFound(c: Chunk, tail: seq<byte>, decoded: nat, ink: bool)
    requires ValidChunk(c) && decoded + |c.data| <= BODY_CAP
    ensures ScanSized(c.line, c.data + CRLF + tail, decoded, ink)
         == ConsChunk(c, ScanChunks(tail, decoded + |c.data|, ink || HasInk(c.data)))
  {
    hide SplitLine, ParseSizeLine, HexValue, HexDenotes, HasInk;
    HexExactly(c.line.digits, |c.data|);
    var after, size := c.data + CRLF + tail, |c.data|;
    assert after[..size] == c.data && after[size..size + 2] == CRLF && after[size + 2..] == tail;
    assert TakeData(after, size) == Complete((c.data, tail));
  }

  lemma EndFound(m: Message, decoded: nat, ink: bool)
    requires ValidTail(m, decoded, ink) && m.chunks == []
    ensures ScanChunks(PrintMessage(m), decoded, ink) == Complete(m)
  {
    hide SplitLine, ParseSizeLine, ScanTrailers, HexValue, HexDenotes;
    HexExactly(m.last.digits, 0);
    var after := PrintTrailers(m.trailers) + CRLF;
    assert PrintMessage(m) == PrintSizeLine(m.last) + CRLF + after;
    SizeLineFound(m.last, after, decoded, ink);
    TrailersRoundTrip(m.trailers, 0);
  }

  /** Completeness: the printed form of a valid message is scanned back to that message. */
  lemma {:induction false} MessageRoundTrip(m: Message, decoded: nat, ink: bool)
    requires ValidTail(m, decoded, ink)
    ensures ScanChunks(PrintMessage(m), decoded, ink) == Complete(m)
    decreases |m.chunks|
  {
    hide ScanChunks, ScanSized, PrintSizeLine, PrintChunks, PrintTrailers, HasInk;
    if m.chunks == [] {
      EndFound(m, decoded, ink);
    } else {
      var c, tail := m.chunks[0], Message(m.chunks[1..], m.last, m.trailers);
      FirstChunk(m, c, tail, decoded, ink);
      SizeLineFound(c.line, c.data + CRLF + PrintMessage(tail), decoded, ink);
      ChunkFound(c, PrintMessage(tail), decoded, ink);
      MessageRoundTrip(tail, decoded + |c.data|, ink || HasInk(c.data));
    }
  }

  lemma FirstChunk(m: Message, c: Chunk, tail: Message, decoded: nat, ink: bool)
    requires ValidTail(m, decoded, ink) && m.chunks == [c] + tail.chunks
    requires m.last == tail.last && m.trailers == tail.trailers
    ensures ValidChunk(c) && decoded + |c.data| <= BODY_CAP
    ensures ValidTail(tail, decoded + |c.data|, ink || HasInk(c.data))
    ensures PrintMessage(m) == PrintSizeLine(c.line) + CRLF + (c.data + CRLF + PrintMessage(tail))
  {
    assert m.chunks[0] == c && m.chunks[1..] == tail.chunks;
    InkSplits(c.data, Data(tail.chunks));
    FirstChunkPrints(m, c, tail);
    hide PrintMessage;
  }

  lemma FirstChunkPrints(m: Message, c: Chunk, tail: Message)
    requires m.chunks == [c] + tail.chunks && m.last == tail.last && m.trailers == tail.trailers
    ensures PrintMessage(m) == PrintSizeLine(c.line) + CRLF + (c.data + CRLF + PrintMessage(tail))
  {
    hide PrintSizeLine, PrintEnd;
    assert m.chunks[0] == c && m.chunks[1..] == tail.chunks;
  }

  /** The scanner accepts exactly the printed valid messages, at end of stream or not. */
  lemma ReadyExactly(body: seq<byte>, eof: bool)
    ensures ChunkedVerdict(body, eof) == Ready <==> exists m :: ValidMessage(m) && PrintMessage(m) == body
  {
    var r := ScanChunks(body, 0, false);
    if r.Complete? {
      ScanSound(body, 0, false);
      assert ValidMessage(r.value) && PrintMessage(r.value) == body;
    }
    if m :| ValidMessage(m) && PrintMessage(m) == body {
      MessageRoundTrip(m, 0, false);
    }
  }

  /** An accepted body has one syntax tree, hence one decoding. */
  lemma DecodingUnique(m: Message, n: Message)
    requires ValidMessage(m) && ValidMessage(n) && PrintMessage(m) == PrintMessage(n)
    ensures m == n
  {
    MessageRoundTrip(m, 0, false);
    MessageRoundTrip(n, 0, false);
  }

  lemma {:induction false} TrailersExtend(rest: seq<byte>, used: nat, x: seq<byte>)
    requires x != [] && !ScanTrailers(rest, used).Incomplete?
    ensures ScanTrailers(rest + x, used) == Malformed
    decreases |rest|
  {
    hide SplitLine, ParseTrailer;
    SplitLineExtends(rest, x);
    var (line, after) := SplitLine(rest).value;
    if used + |line| <= METADATA_CAP && line != [] && ParseTrailer(line).Some? {
      TrailersExtend(after, used + |line| + 2, x);
    }
  }

  /** Appending bytes never repairs a malformed body and always spoils a complete one. */
  lemma {:induction false} ScanExtends(rest: seq<byte>, decoded: nat, ink: bool, x: seq<byte>)
    requires decoded <= BODY_CAP && x != [] && !ScanChunks(rest, decoded, ink).Incomplete?
    ensures ScanChunks(rest + x, decoded, ink) == Malformed
    decreases |rest|, 1
  {
    SplitLineExtends(rest, x);
    var (text, after) := SplitLine(rest).value;
    if ParseSizeLine(text).Some? {
      SizedExtends(ParseSizeLine(text).value, after, decoded, ink, x);
    }
  }

  lemma {:induction false} SizedExtends(line: SizeLine, after: seq<byte>, decoded: nat, ink: bool, x: seq<byte>)
    requires decoded <= BODY_CAP && ValidSizeLine(line) && x != []
    requires !ScanSized(line, after, decoded, ink).Incomplete?
    ensures ScanSized(line, after + x, decoded, ink) == Malformed
    decreases |after|, 2
  {
    hide SplitLine, ParseSizeLine, HexValue, HasInk;
    var size := HexValue(line.digits);
    if size == 0 {
      TrailersExtend(after, 0, x);
    } else if decoded + size <= BODY_CAP {
      DataExtends(after, x, size);
      if TakeData(after, size).Complete? {
        var (data, tail) := TakeData(after, size).value;
        ScanExtends(tail, decoded + size, ink || HasInk(data), x);
      }
    }
  }

  lemma DataExtends(s: seq<byte>, x: seq<byte>, size: nat)
    requires !TakeData(s, size).Incomplete?
    ensures TakeData(s, size).Malformed? ==> TakeData(s + x, size) == Malformed
    ensures TakeData(s, size).Complete? ==>
              TakeData(s + x, size) == Complete((TakeData(s, size).value.0, TakeData(s, size).value.1 + x))
  {
    assert (s + x)[..size] == s[..size] && (s + x)[size..size + 2] == s[size..size + 2];
    assert (s + x)[size + 2..] == s[size + 2..] + x;
  }

  /**
   Verdicts on an accepted body cut short or carried on: a proper prefix needs more bytes, unless end-of-stream or
   the exact wire cap makes it a rejection; anything longer is rejected.
   */
  lemma AcceptedBodyIsExact(body: seq<byte>, x: seq<byte>, eof: bool)
    requires x != []
    ensures ChunkedVerdict(body, true) == Ready ==> ChunkedVerdict(body + x, eof) == Reject
    ensures ChunkedVerdict(body + x, true) == Ready ==>
              ChunkedVerdict(body, eof) == if eof || |body| == WIRE_CAP then Reject else NeedMore
  {
    if !ScanChunks(body, 0, false).Incomplete? {
      ScanExtends(body, 0, false, x);
    }
  }
}
