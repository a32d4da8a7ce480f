/** Verdicts on a growing response buffer, and how they change as bytes or end-of-stream arrive (src-tauri/src/main.rs:804-916). */
module HttpResponse {
  import opened Bytes
  import opened ChunkGrammar
  import opened ChunkedBody
  import opened ChunkInspector
  import opened HttpHead

  const TERMINATOR: seq<byte> := [13, 10, 13, 10]

  predicate TerminatorAt(s: seq<byte>, i: int) {
    0 <= i <= |s| - 4 && s[i] == CR && s[i + 1] == LF && s[i + 2] == CR && s[i + 3] == LF
  }

  /** The offset of the first empty line, if there is one. */
  function FirstTerminator(s: seq<byte>): (r: Option<nat>)
    ensures r.Some? ==> TerminatorAt(s, r.value) && forall i :: 0 <= i < r.value ==> !TerminatorAt(s, i)
    ensures r.None? ==> forall i :: !TerminatorAt(s, i)
  {
    if |s| < 4 then None
    else if TerminatorAt(s, 0) then Some(0)
    else
      assert forall i :: 0 < i <= |s| - 4 ==> TerminatorAt(s, i) == TerminatorAt(s[1..], i - 1);
      match FirstTerminator(s[1..])
      case None => None
      case Some(k) => Some(k + 1)
  }

  lemma FirstTerminatorIs(s: seq<byte>, k: nat)
    requires TerminatorAt(s, k) && forall i :: 0 <= i < k ==> !TerminatorAt(s, i)
    ensures FirstTerminator(s) == Some(k)
  {
  }

  /** A terminator at `k` is first in `s` exactly when it is first in every prefix or extension that contains it. */
  lemma TerminatorIsLocal(s: seq<byte>, x: seq<byte>)
    ensures FirstTerminator(s).Some? ==> FirstTerminator(s + x) == FirstTerminator(s)
    ensures FirstTerminator(s + x).Some? && FirstTerminator(s + x).value + 4 <= |s| ==>
              FirstTerminator(s) == FirstTerminator(s + x)
  {
    forall i | 0 <= i <= |s| - 4 ensures TerminatorAt(s + x, i) == TerminatorAt(s, i) {
    }
    if FirstTerminator(s).Some? {
      FirstTerminatorIs(s + x, FirstTerminator(s).value);
    }
  }

  function BodyVerdict(framing: Framing, body: seq<byte>, eof: bool): Verdict {
    match framing
    case Chunked => ChunkedVerdict(body, eof)
    case Length(n) =>
      if |body| > n then Reject
      else if |body| < n then if eof then Reject else NeedMore
      else if HasInk(body) then Ready else Reject
    case UntilClose =>
      if |body| > BODY_CAP then Reject
      else if !eof then NeedMore
      else if HasInk(body) then Ready else Reject
  }

  function HttpVerdict(response: seq<byte>, eof: bool): Verdict {
    if |response| > WIRE_CAP then Reject
    else
      match FirstTerminator(response)
      case None => if eof || |response| > METADATA_CAP then Reject else NeedMore
      case Some(h) =>
        if h > METADATA_CAP then Reject else AfterHead(response[..h], response[h + 4..], eof)
  }

  function AfterHead(head: seq<byte>, body: seq<byte>, eof: bool): Verdict {
    match Head(head)
    case None => Reject
    case Some(framing) => BodyVerdict(framing, body, eof)
  }

  method InspectHttpClientResponse(response: seq<byte>, eof: bool) returns (r: Verdict)
    ensures r == HttpVerdict(response, eof)
  {
    hide Head, ChunkedVerdict, FirstTerminator;
    if |response| > WIRE_CAP {
      return Reject;
    }
    var terminator := FirstTerminator(response);
    if terminator.None? {
      return if eof || |response| > METADATA_CAP then Reject else NeedMore;
    }
    var headerOffset := terminator.value;
    if headerOffset > METADATA_CAP {
      return Reject;
    }
    var bodyOffset := headerOffset + 4;
    var framing := InspectHead(response[..headerOffset]);
    match framing {
      case None => return Reject;
      case Some(Chunked) =>
        r := InspectChunkedBody(response[bodyOffset..], eof);
      case Some(Length(length)) =>
        var expectedTotal := bodyOffset + length;
        if |response| > expectedTotal {
          return Reject;
        }
        if |response| < expectedTotal {
          return if eof then Reject else NeedMore;
        }
        assert response[bodyOffset..expectedTotal] == response[bodyOffset..];
        return if HasInk(response[bodyOffset..expectedTotal]) then Ready else Reject;
      case Some(UntilClose) =>
        if |response| - bodyOffset > BODY_CAP {
          return Reject;
        }
        if !eof {
          return NeedMore;
        }
        return if HasInk(response[bodyOffset..]) then Ready else Reject;
    }
  }

  /** The body of a response under the wire cap is shorter than that cap, so only end-of-stream ends the wait. */
  lemma BodyVerdictAtEof(framing: Framing, body: seq<byte>)
    requires |body| < WIRE_CAP
    ensures BodyVerdict(framing, body, true) != NeedMore
    ensures BodyVerdict(framing, body, false) != NeedMore ==>
              BodyVerdict(framing, body, true) == BodyVerdict(framing, body, false)
  {
  }

  lemma BodyVerdictExtends(framing: Framing, body: seq<byte>, x: seq<byte>, eof: bool)
    requires |body| < WIRE_CAP && x != []
    requires BodyVerdict(framing, body, false) != NeedMore
    ensures BodyVerdict(framing, body + x, eof) == Reject
  {
    hide ScanChunks, HasInk;
    if framing.Chunked? && !ScanChunks(body, 0, false).Incomplete? {
      ScanExtends(body, 0, false, x);
    }
  }

  /** End-of-stream settles every verdict, and leaves a verdict reached before it unchanged. */
  lemma EofSettles(r: seq<byte>)
    ensures HttpVerdict(r, true) != NeedMore
    ensures HttpVerdict(r, false) != NeedMore ==> HttpVerdict(r, true) == HttpVerdict(r, false)
  {
    hide Head, BodyVerdict, FirstTerminator;
    if |r| <= WIRE_CAP && FirstTerminator(r).Some? {
      var h := FirstTerminator(r).value;
      if Head(r[..h]).Some? {
        BodyVerdictAtEof(Head(r[..h]).value, r[h + 4..]);
      }
    }
  }

  /** Once the empty line has been seen, a settled verdict becomes or stays Reject under every extension. */
  lemma SettledExtends(r: seq<byte>, x: seq<byte>, eof: bool)
    requires x != [] && HttpVerdict(r, false) != NeedMore
    requires FirstTerminator(r).Some? || |r| > WIRE_CAP
    ensures HttpVerdict(r + x, eof) == Reject
  {
    hide AfterHead, FirstTerminator;
    if |r| <= WIRE_CAP {
      TerminatorIsLocal(r, x);
      var h := FirstTerminator(r).value;
      assert (r + x)[..h] == r[..h] && (r + x)[h + 4..] == r[h + 4..] + x;
      if h <= METADATA_CAP {
        AfterHeadExtends(r[..h], r[h + 4..], x, eof);
      }
    }
  }

  lemma AfterHeadExtends(head: seq<byte>, body: seq<byte>, x: seq<byte>, eof: bool)
    requires |body| < WIRE_CAP && x != [] && AfterHead(head, body, false) != NeedMore
    ensures AfterHead(head, body + x, eof) == Reject
  {
    hide Head, BodyVerdict;
    if Head(head).Some? {
      BodyVerdictExtends(Head(head).value, body, x, eof);
    }
  }

  /** A response found Ready before end-of-stream is complete: one more byte and it is rejected. */
  lemma ReadyIsExact(r: seq<byte>, x: seq<byte>, eof: bool)
    requires x != [] && HttpVerdict(r, false) == Ready
    ensures HttpVerdict(r + x, eof) == Reject
  {
    SettledExtends(r, x, eof);
  }

  /** `r` stops inside an empty line at `h`, and what precedes that line is an acceptable head. */
  predicate CutInsideTerminator(r: seq<byte>, h: nat) {
    && h < |r| < h + 4
    && r[h..] == TERMINATOR[..|r| - h]
    && FirstTerminator(r[..h] + TERMINATOR) == Some(h)
    && Head(r[..h]).Some?
  }

  /** The one family of rejections that more bytes can undo. */
  predicate Revocable(r: seq<byte>) {
    && |r| > METADATA_CAP && FirstTerminator(r).None?
    && exists h :: METADATA_CAP - 2 <= h <= METADATA_CAP && CutInsideTerminator(r, h)
  }

  /** A rejection is permanent exactly when the buffer does not stop inside an empty line at offset 16382..16384. */
  lemma RejectIsPermanentExactly(r: seq<byte>)
    requires HttpVerdict(r, false) == Reject
    ensures (forall x :: HttpVerdict(r + x, false) == Reject) <==> !Revocable(r)
  {
    hide HttpVerdict;
    assert r + [] == r;
    forall x | HttpVerdict(r + x, false) != Reject ensures Revocable(r) {
      RevokedIsRevocable(r, x);
    }
    if Revocable(r) {
      var h :| METADATA_CAP - 2 <= h <= METADATA_CAP && CutInsideTerminator(r, h);
      RevocableIsRevoked(r, h);
    }
  }

  /** The same with end-of-stream judged after the extension. */
  lemma RejectAtEof(r: seq<byte>, x: seq<byte>)
    requires HttpVerdict(r, false) == Reject && !Revocable(r)
    ensures HttpVerdict(r + x, true) == Reject
  {
    RejectIsPermanentExactly(r);
    EofSettles(r + x);
  }

  lemma RevokedIsRevocable(r: seq<byte>, x: seq<byte>)
    requires x != [] && HttpVerdict(r, false) == Reject && HttpVerdict(r + x, false) != Reject
    ensures Revocable(r)
  {
    hide Head, BodyVerdict, FirstTerminator;
    if FirstTerminator(r).Some? || |r| > WIRE_CAP {
      SettledExtends(r, x, false);
      assert false;
    } else {
      var s := r + x;
      var h := FirstTerminator(s).value;
      TerminatorIsLocal(r, x);
      assert r[..h] == s[..h];
      assert r[h..] == s[h..h + 4][..|r| - h];
      assert s == (r[..h] + TERMINATOR) + s[h + 4..];
      TerminatorIsLocal(r[..h] + TERMINATOR, s[h + 4..]);
      assert CutInsideTerminator(r, h);
    }
  }

  lemma RevocableIsRevoked(r: seq<byte>, h: nat)
    requires h <= METADATA_CAP && CutInsideTerminator(r, h)
    ensures HttpVerdict(r + TERMINATOR[|r| - h..], false) == NeedMore
  {
    hide Head, FirstTerminator, ScanChunks;
    var s := r[..h] + TERMINATOR;
    assert r == r[..h] + r[h..];
    assert r + TERMINATOR[|r| - h..] == s;
    assert s[..h] == r[..h] && s[h + 4..] == [];
    EmptyScan();
  }

  lemma EmptyScan()
    ensures ScanChunks([], 0, false).Incomplete?
  {
  }
}
