/** The language of accepted responses, head and body together (src-tauri/src/main.rs:804-916). */
module AcceptedResponses {
  import opened Ascii
  import opened Bytes
  import opened ChunkGrammar
  import opened ChunkedBody
  import opened HttpHead
  import opened HttpHeadGrammar
  import opened HttpResponse

  /** The caps in kibibytes (src-tauri/src/main.rs:38-40), and the empty line. */
  lemma Limits()
    ensures BODY_CAP == 64 * 1024 && METADATA_CAP == 16 * 1024 && WIRE_CAP == 80 * 1024
    ensures TERMINATOR == Codes("\r\n\r\n")
  {
  }

  /** The body that goes with a framing; without one, it is what came until the end of the stream. */
  ghost predicate ValidBody(framing: Framing, body: seq<byte>, eof: bool) {
    match framing
    case Chunked => exists m :: ValidMessage(m) && PrintMessage(m) == body
    case Length(n) => |body| == n && HasInk(body)
    case UntilClose => eof && |body| <= BODY_CAP && HasInk(body)
  }

  /** No empty line comes before the one behind the head. */
  lemma {:induction false} JoinHasNoTerminator(lines: seq<seq<byte>>, i: nat)
    requires lines != [] && i < |Join(lines)|
    requires forall k :: 0 <= k < |lines| ==> OneLine(lines[k]) && lines[k] != []
    ensures !TerminatorAt(Join(lines) + TERMINATOR, i)
  {
    var line, s := lines[0], Join(lines) + TERMINATOR;
    assert i < |line| - 1 ==> !CrlfAt(line, i);
    if |lines| > 1 {
      var tail := Join(lines[1..]);
      assert s == line + CRLF + (tail + TERMINATOR);
      if i == |line| {
        JoinStart(lines[1..]);
      } else if i > |line| + 1 {
        JoinHasNoTerminator(lines[1..], i - |line| - 2);
      }
    }
  }

  lemma JoinStart(lines: seq<seq<byte>>)
    requires lines != [] && OneLine(lines[0]) && lines[0] != []
    ensures !CrlfAt(Join(lines) + TERMINATOR, 0)
  {
    assert |lines[0]| > 1 ==> !CrlfAt(lines[0], 0);
  }

  lemma PrintedHeadEnds(h: ResponseHead, body: seq<byte>)
    requires ValidStatus(h.status) && AllWellFormed(h.fields)
    ensures FirstTerminator(PrintHead(h) + TERMINATOR + body) == Some(|PrintHead(h)|)
  {
    var lines := [PrintStatus(h.status)] + FieldLines(h.fields);
    forall k | 0 <= k < |lines| ensures OneLine(lines[k]) && lines[k] != [] {
      if k > 0 {
        FieldReads(h.fields[k - 1], CONTENT_TYPE);
      }
    }
    var s := PrintHead(h) + TERMINATOR;
    forall i | 0 <= i < |PrintHead(h)| ensures !TerminatorAt(s, i) {
      JoinHasNoTerminator(lines, i);
    }
    FirstTerminatorIs(s, |PrintHead(h)|);
    TerminatorIsLocal(s, body);
  }

  lemma BodyExactly(framing: Framing, body: seq<byte>, eof: bool)
    ensures BodyVerdict(framing, body, eof) == Ready <==> ValidBody(framing, body, eof)
  {
    if framing.Chunked? {
      ReadyExactly(body, eof);
    }
  }

  /** The response is a printed valid head, an empty line, and a body of the framing the head announces. */
  ghost predicate Printed(response: seq<byte>, eof: bool, h: ResponseHead, framing: Framing, body: seq<byte>) {
    && ValidHead(h, framing) && |PrintHead(h)| <= METADATA_CAP && ValidBody(framing, body, eof)
    && response == PrintHead(h) + TERMINATOR + body
  }

  /** Ready is said of exactly the printed responses within the wire cap. */
  lemma ReadyIsPrinted(response: seq<byte>, eof: bool)
    ensures HttpVerdict(response, eof) == Ready <==>
            |response| <= WIRE_CAP && exists h, framing, body :: Printed(response, eof, h, framing, body)
  {
    hide Head, ValidHead, FirstTerminator, BodyVerdict, ValidBody, PrintHead;
    if HttpVerdict(response, eof) == Ready {
      var n := FirstTerminator(response).value;
      var head, body := response[..n], response[n + 4..];
      var framing := Head(head).value;
      var h := HeadParses(head, framing);
      BodyExactly(framing, body, eof);
      assert response == head + TERMINATOR + body;
      assert Printed(response, eof, h, framing, body);
    }
    if |response| <= WIRE_CAP {
      if h, framing, body :| Printed(response, eof, h, framing, body) {
        HeadIsValid(h, framing);
        HeadRoundTrip(h, framing);
        PrintedHeadEnds(h, body);
        BodyExactly(framing, body, eof);
        var n := |PrintHead(h)|;
        assert response[..n] == PrintHead(h) && response[n + 4..] == body;
      }
    }
  }

  lemma HeadIsValid(h: ResponseHead, framing: Framing)
    requires ValidHead(h, framing)
    ensures ValidStatus(h.status) && AllWellFormed(h.fields)
  {
  }
}
