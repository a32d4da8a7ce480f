/** Concrete responses: one whose rejection is undone, and pages accepted or refused depending on how they are read. */
module LateTerminator {
  import opened Bytes
  import opened ChunkGrammar
  import opened Numerals
  import opened ChunkedBody
  import opened HttpHead
  import opened HttpResponse
  import opened ProbeLoop

  // "HTTP/1.1 200"
  const STATUS: seq<byte> := HTTP_1_1 + [32, 50, 48, 48]
  // "Content-Type:text/html"
  const TYPE: seq<byte> := [67, 111, 110, 116, 101, 110, 116, 45, 84, 121, 112, 101] + [COLON] + TEXT_HTML

  /** "X:" and as many letters as bring the head to exactly `n` bytes. */
  function Padding(n: nat): seq<byte>
    requires n >= 40
  {
    [88, 58] + seq(n - 40, i => 97)
  }

  function HeadOf(n: nat): (head: seq<byte>)
    requires n >= 40
    ensures |head| == n
  {
    STATUS + CRLF + TYPE + CRLF + Padding(n)
  }

  const HEAD: seq<byte> := HeadOf(METADATA_CAP)

  lemma {:induction false} AsciiIsUtf8(s: seq<byte>)
    requires forall i :: 0 <= i < |s| ==> s[i] < 128
    ensures ValidUtf8(s)
  {
    if s != [] {
      AsciiIsUtf8(s[1..]);
    }
  }

  lemma {:induction false} FieldLengthIs(s: seq<byte>, k: nat)
    requires k <= |s| && (forall i :: 0 <= i < k ==> !IsWhitespace(s[i])) && (k < |s| ==> IsWhitespace(s[k]))
    ensures FieldLength(s) == k
  {
    if k != 0 {
      FieldLengthIs(s[1..], k - 1);
    }
  }

  lemma StatusAccepted()
    ensures SuccessfulStatus(STATUS)
  {
    FieldLengthIs(STATUS, 8);
    assert STATUS[..8] == HTTP_1_1 && STATUS[8..] == [32, 50, 48, 48] && SkipSpace(STATUS) == STATUS;
    assert NextField(STATUS) == (HTTP_1_1, [32, 50, 48, 48]);
    var rest: seq<byte>, code: seq<byte> := [32, 50, 48, 48], [50, 48, 48];
    assert rest[1..] == code && SkipSpace(rest) == SkipSpace(rest[1..]) == code;
    FieldLengthIs(code, 3);
    CodeIs200();
  }

  lemma CodeIs200()
    ensures AllDigits([50, 48, 48]) && Decimal([50, 48, 48]) == 200
  {
    var none: seq<byte>, one: seq<byte>, two: seq<byte>, three: seq<byte> := [], [50], [50, 48], [50, 48, 48];
    assert one[..0] == none && two[..1] == one && three[..2] == two;
    assert Decimal(one) == Decimal(one[..0]) * 10 + 2;
    assert Decimal(two) == Decimal(two[..1]) * 10 + 0;
    assert Decimal(three) == Decimal(three[..2]) * 10 + 0;
  }

  lemma TypeNamed()
    ensures IndexOf(TYPE, COLON) == 12 && TYPE[13..] == TEXT_HTML && EqualsIgnoreCase(TYPE[..12], CONTENT_TYPE)
  {
    IndexOfIs(TYPE, COLON, 12);
  }

  lemma NothingToTrim()
    ensures Trim(TEXT_HTML) == TEXT_HTML
  {
    assert LeadingSpace(TEXT_HTML) == 0 && TrailingSpace(TEXT_HTML) == 0;
  }

  lemma TypeAccepted()
    ensures ValidField(TYPE) && Named(TYPE, CONTENT_TYPE) && !Named(TYPE, CONTENT_LENGTH)
    ensures !Named(TYPE, TRANSFER_ENCODING) && FieldValue(TYPE) == TEXT_HTML
  {
    hide IndexOf, Trim;
    TypeNamed();
    NothingToTrim();
    assert |CONTENT_LENGTH| == 14 && |TRANSFER_ENCODING| == 17;
  }

  lemma PaddingAccepted(n: nat)
    requires n >= 40
    ensures ValidField(Padding(n)) && !Named(Padding(n), CONTENT_TYPE)
    ensures !Named(Padding(n), CONTENT_LENGTH) && !Named(Padding(n), TRANSFER_ENCODING)
  {
    IndexOfIs(Padding(n), COLON, 1);
    assert |CONTENT_TYPE| == 12 && |CONTENT_LENGTH| == 14 && |TRANSFER_ENCODING| == 17;
  }

  lemma HeadLines(n: nat)
    requires n >= 40
    ensures SplitLines(HeadOf(n)) == [STATUS, TYPE, Padding(n)]
  {
    var tail := TYPE + CRLF + Padding(n);
    assert HeadOf(n) == STATUS + CRLF + tail;
    SplitPrintedLine(STATUS, tail);
    SplitPrintedLine(TYPE, Padding(n));
    assert SplitLine(Padding(n)).None?;
    assert SplitLines(Padding(n)) == [Padding(n)];
    assert SplitLines(tail) == [TYPE] + [Padding(n)];
  }

  lemma ValuesSnoc(lines: seq<seq<byte>>, line: seq<byte>, name: seq<byte>)
    requires ValidFields(lines) && ValidField(line)
    ensures ValidFields(lines + [line])
    ensures Values(lines + [line], name)
         == if Named(line, name) then Values(lines, name) + [FieldValue(line)] else Values(lines, name)
  {
    hide ValidField, Named, FieldValue;
    assert (lines + [line])[..|lines|] == lines;
  }

  lemma FieldValues(n: nat, name: seq<byte>)
    requires n >= 40
    requires name == CONTENT_TYPE || name == CONTENT_LENGTH || name == TRANSFER_ENCODING
    ensures ValidFields([TYPE, Padding(n)])
    ensures Values([TYPE, Padding(n)], name) == if name == CONTENT_TYPE then [TEXT_HTML] else []
  {
    hide ValidField, Named, FieldValue;
    TypeAccepted();
    PaddingAccepted(n);
    ValuesSnoc([], TYPE, name);
    ValuesSnoc([TYPE], Padding(n), name);
    assert [] + [TYPE] == [TYPE] && [TYPE] + [Padding(n)] == [TYPE, Padding(n)];
    assert |CONTENT_TYPE| == 12 && |CONTENT_LENGTH| == 14 && |TRANSFER_ENCODING| == 17;
  }

  lemma TypeIsHtml()
    ensures HtmlType([TEXT_HTML])
  {
    IndexOfIs(TEXT_HTML, SEMICOLON, 9);
    assert TEXT_HTML[..9] == TEXT_HTML;
    NothingToTrim();
  }

  lemma HeadAccepted(n: nat)
    requires n >= 40
    ensures Head(HeadOf(n)) == Some(UntilClose)
  {
    hide SuccessfulStatus, Values, SplitLines, Trim, HtmlType, ValidUtf8, ValidField;
    AsciiIsUtf8(HeadOf(n));
    HeadLines(n);
    StatusAccepted();
    FieldValues(n, CONTENT_TYPE);
    FieldValues(n, CONTENT_LENGTH);
    FieldValues(n, TRANSFER_ENCODING);
    TypeIsHtml();
    assert |CONTENT_TYPE| == 12 && |CONTENT_LENGTH| == 14 && |TRANSFER_ENCODING| == 17;
    assert [STATUS, TYPE, Padding(n)][1..] == [TYPE, Padding(n)];
  }

  lemma HeadTerminator(n: nat)
    requires n >= 40
    ensures FirstTerminator(HeadOf(n) + TERMINATOR) == Some(n)
  {
    hide FirstTerminator;
    var s := HeadOf(n) + TERMINATOR;
    forall i | 0 <= i < n ensures !TerminatorAt(s, i) {
      assert s[i] == HeadOf(n)[i];
      assert s[i] == CR ==> i == 12 || i == 36;
      assert s[14] == TYPE[0] && s[38] == Padding(n)[0];
    }
    FirstTerminatorIs(s, n);
  }

  /** Rejected after 16385 bytes, waiting for a body after 16388. */
  lemma RejectionIsUndone()
    ensures HttpVerdict(HEAD + [CR], false) == Reject
    ensures HttpVerdict(HEAD + [CR] + [LF, CR, LF], false) == NeedMore
  {
    hide Head, FirstTerminator;
    var r := HEAD + [CR];
    HeadAccepted(METADATA_CAP);
    HeadTerminator(METADATA_CAP);
    assert HEAD + TERMINATOR == r + TERMINATOR[1..];
    TerminatorIsLocal(r, TERMINATOR[1..]);
    assert r[..METADATA_CAP] == HEAD && r[METADATA_CAP..] == TERMINATOR[..1];
    assert TERMINATOR[|r| - METADATA_CAP..] == [LF, CR, LF];
    RevocableIsRevoked(r, METADATA_CAP);
  }

  // ---------- Acceptable responses whose acceptance depends on how they are read ----------

  /** The page of `k` letters behind the head of `n` bytes, delimited by the end of the stream. */
  function Page(n: nat, k: nat): seq<byte>
    requires n >= 40
  {
    HeadOf(n) + TERMINATOR + seq(k, i => 97)
  }

  lemma PageIsAcceptable(n: nat, k: nat)
    requires 40 <= n <= METADATA_CAP && 0 < k <= BODY_CAP && n + 4 + k <= WIRE_CAP
    ensures Acceptable(Page(n, k)) && |Page(n, k)| == n + 4 + k
    ensures FirstTerminator(Page(n, k)) == Some(n) && FramingOfStream(Page(n, k)).UntilClose?
  {
    hide Head, FirstTerminator;
    var body: seq<byte> := seq(k, i => 97);
    var s := Page(n, k);
    HeadAccepted(n);
    HeadTerminator(n);
    TerminatorIsLocal(HeadOf(n) + TERMINATOR, body);
    assert s[..n] == HeadOf(n) && s[n + 4..] == body;
    assert !IsWhitespace(body[0]);
    assert HasInk(body);
  }

  /** With the empty line at offset 16384, byte-by-byte reading refuses the page. */
  lemma LateHeadIsUnsafe()
    ensures Acceptable(Page(METADATA_CAP, 1)) && !SplitSafe(Page(METADATA_CAP, 1))
    ensures |Page(METADATA_CAP, 1)| < WIRE_CAP
  {
    hide FirstTerminator;
    PageIsAcceptable(METADATA_CAP, 1);
  }

  /** With a harmless head, a page that fills the wire cap is refused too. */
  lemma FullWireIsUnsafe()
    ensures var s := Page(METADATA_CAP - 4, BODY_CAP);
            |s| == WIRE_CAP && FirstTerminator(s) == Some(METADATA_CAP - 4) && Acceptable(s) && !SplitSafe(s)
  {
    hide FirstTerminator;
    PageIsAcceptable(METADATA_CAP - 4, BODY_CAP);
  }

  /** And a page of ordinary size is safe. */
  lemma OrdinaryPageIsSafe()
    ensures Acceptable(Page(100, 1000)) && SplitSafe(Page(100, 1000))
  {
    hide FirstTerminator;
    PageIsAcceptable(100, 1000);
  }
}
