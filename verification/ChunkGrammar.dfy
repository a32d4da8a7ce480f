/**
 The language of complete chunked bodies, as a syntax tree with a printer. It is the part of RFC 9112 sections 7.1,
 7.1.1 and 7.1.2 that the probe accepts: no whitespace around extensions, no tab inside quoted strings, and quoted
 pairs limited to printable ASCII.
 */
module ChunkGrammar {
  import opened Bytes
  import opened Numerals

  datatype QuotedItem = Plain(b: byte) | Escaped(b: byte)
  datatype ExtensionValue = NoValue | TokenValue(token: seq<byte>) | QuotedValue(items: seq<QuotedItem>)
  datatype Extension = Extension(name: seq<byte>, value: ExtensionValue)
  datatype SizeLine = SizeLine(digits: seq<byte>, extensions: seq<Extension>)
  datatype Chunk = Chunk(line: SizeLine, data: seq<byte>)
  datatype Trailer = Trailer(name: seq<byte>, value: seq<byte>)
  datatype Message = Message(chunks: seq<Chunk>, last: SizeLine, trailers: seq<Trailer>)

  const SEMICOLON: byte := 59
  const EQUALS: byte := 61
  const QUOTE: byte := 34
  const BACKSLASH: byte := 92
  const COLON: byte := 58
  const TAB: byte := 9

  // "content-length" and "transfer-encoding".
  const CONTENT_LENGTH: seq<byte> := [99, 111, 110, 116, 101, 110, 116, 45, 108, 101, 110, 103, 116, 104]
  const TRANSFER_ENCODING: seq<byte> :=
    [116, 114, 97, 110, 115, 102, 101, 114, 45, 101, 110, 99, 111, 100, 105, 110, 103]

  predicate ValidItem(item: QuotedItem) {
    match item
    case Plain(b) => b != QUOTE && b != BACKSLASH && !IsControl(b)
    case Escaped(b) => 32 <= b <= 126
  }

  predicate ValidExtension(e: Extension) {
    && IsToken(e.name)
    && match e.value
       case NoValue => true
       case TokenValue(token) => IsToken(token)
       case QuotedValue(items) => forall i :: 0 <= i < |items| ==> ValidItem(items[i])
  }

  predicate ValidExtensions(es: seq<Extension>) {
    forall i :: 0 <= i < |es| ==> ValidExtension(es[i])
  }

  predicate ValidDigits(s: seq<byte>) {
    0 < |s| <= 16 && HexDigits(s)
  }

  predicate ValidSizeLine(l: SizeLine) {
    ValidDigits(l.digits) && ValidExtensions(l.extensions) && |PrintSizeLine(l)| <= METADATA_CAP
  }

  /** A data chunk announces, in hexadecimal, exactly the length of its nonempty data. */
  ghost predicate ValidChunk(c: Chunk) {
    ValidSizeLine(c.line) && c.data != [] && HexDenotes(c.line.digits, |c.data|)
  }

  predicate ValidTrailer(t: Trailer) {
    && IsToken(t.name)
    && !EqualsIgnoreCase(t.name, CONTENT_LENGTH)
    && !EqualsIgnoreCase(t.name, TRANSFER_ENCODING)
    && forall i :: 0 <= i < |t.value| ==> t.value[i] == TAB || !IsControl(t.value[i])
  }

  ghost predicate ValidChunks(cs: seq<Chunk>) {
    forall i :: 0 <= i < |cs| ==> ValidChunk(cs[i])
  }

  predicate ValidTrailers(ts: seq<Trailer>) {
    forall i :: 0 <= i < |ts| ==> ValidTrailer(ts[i])
  }

  ghost predicate ValidLast(l: SizeLine) {
    ValidSizeLine(l) && HexDenotes(l.digits, 0)
  }

  /** The decoded body. */
  function Data(cs: seq<Chunk>): seq<byte> {
    if cs == [] then [] else cs[0].data + Data(cs[1..])
  }

  ghost predicate ValidMessage(m: Message) {
    && ValidChunks(m.chunks) && ValidLast(m.last) && ValidTrailers(m.trailers)
    && |Data(m.chunks)| <= BODY_CAP
    && |PrintTrailers(m.trailers)| <= METADATA_CAP
    && HasInk(Data(m.chunks))
  }

  function PrintItems(items: seq<QuotedItem>): seq<byte> {
    if items == [] then []
    else (if items[0].Plain? then [items[0].b] else [BACKSLASH, items[0].b]) + PrintItems(items[1..])
  }

  function PrintExtension(e: Extension): seq<byte> {
    [SEMICOLON] + e.name +
    match e.value
    case NoValue => []
    case TokenValue(token) => [EQUALS] + token
    case QuotedValue(items) => [EQUALS, QUOTE] + PrintItems(items) + [QUOTE]
  }

  function PrintExtensions(es: seq<Extension>): seq<byte> {
    if es == [] then [] else PrintExtension(es[0]) + PrintExtensions(es[1..])
  }

  function PrintSizeLine(l: SizeLine): seq<byte> {
    l.digits + PrintExtensions(l.extensions)
  }

  function PrintChunk(c: Chunk): seq<byte> {
    PrintSizeLine(c.line) + CRLF + c.data + CRLF
  }

  function PrintChunks(cs: seq<Chunk>): seq<byte> {
    if cs == [] then [] else PrintChunk(cs[0]) + PrintChunks(cs[1..])
  }

  function PrintTrailer(t: Trailer): seq<byte> {
    t.name + [COLON] + t.value
  }

  function PrintTrailers(ts: seq<Trailer>): seq<byte> {
    if ts == [] then [] else PrintTrailer(ts[0]) + CRLF + PrintTrailers(ts[1..])
  }

  /** What follows the last data chunk: the zero-size line, the trailers, an empty line. */
  function PrintEnd(last: SizeLine, ts: seq<Trailer>): seq<byte> {
    PrintSizeLine(last) + CRLF + PrintTrailers(ts) + CRLF
  }

  function PrintMessage(m: Message): seq<byte> {
    PrintChunks(m.chunks) + PrintEnd(m.last, m.trailers)
  }
}
