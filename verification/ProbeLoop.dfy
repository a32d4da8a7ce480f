/** The read loop of the readiness probe against an arbitrary schedule of reads (src-tauri/src/main.rs:934-965). */
module ProbeLoop {
  import opened Bytes
  import opened ChunkedBody
  import opened HttpHead
  import opened HttpResponse

  const BUFFER: nat := 4096

  /** What the loop meets at one turn: the deadline, a failed read, or a read that returns `count` bytes if it can. */
  datatype Turn = Deadline | Failed | Deliver(count: nat)

  function Min(a: nat, b: nat): nat {
    if a < b then a else b
  }

  /** How many bytes a read returns: at least one while the stream has any, at most what was asked for. */
  function Delivered(stream: seq<byte>, pos: nat, count: nat): (n: nat)
    requires pos < |stream| && pos < WIRE_CAP
    ensures 0 < n && pos + n <= |stream| && pos + n <= WIRE_CAP && n <= BUFFER
  {
    Min(Min(if count == 0 then 1 else count, Min(WIRE_CAP - pos, BUFFER)), |stream| - pos)
  }

  /** The answer of the loop when `pos` bytes of the stream have been read after `turn` turns. */
  function Answer(stream: seq<byte>, pos: nat, turn: nat, schedule: nat -> Turn): bool
    requires pos <= |stream| && pos <= WIRE_CAP
    decreases WIRE_CAP - pos
  {
    match HttpVerdict(stream[..pos], false)
    case Ready => true
    case Reject => false
    case NeedMore =>
      if !schedule(turn).Deliver? || pos == WIRE_CAP then false
      else if pos == |stream| then HttpVerdict(stream, true) == Ready
      else Answer(stream, pos + Delivered(stream, pos, schedule(turn).count), turn + 1, schedule)
  }

  /** The response at some point was Ready: either as a prefix of the stream, or as the whole stream at its end. */
  ghost predicate SawReady(stream: seq<byte>, n: nat) {
    && n <= |stream| && n <= WIRE_CAP
    && (HttpVerdict(stream[..n], false) == Ready || (n == |stream| && HttpVerdict(stream, true) == Ready))
  }

  method ProbeClientPage(stream: seq<byte>, schedule: nat -> Turn) returns (ready: bool)
    ensures ready == Answer(stream, 0, 0, schedule)
    ensures ready ==> exists n :: SawReady(stream, n)
  {
    hide HttpVerdict;
    var response: seq<byte>, turn: nat := [], 0;
    while true
      invariant |response| <= |stream| && |response| <= WIRE_CAP && response == stream[..|response|]
      invariant Answer(stream, 0, 0, schedule) == Answer(stream, |response|, turn, schedule)
      decreases WIRE_CAP - |response|
    {
      var verdict := InspectHttpClientResponse(response, false);
      if verdict == Ready {
        assert SawReady(stream, |response|);
        return true;
      }
      if verdict == Reject {
        return false;
      }
      if schedule(turn).Deadline? || |response| == WIRE_CAP || schedule(turn).Failed? {
        return false;
      }
      if |response| == |stream| {
        assert response == stream;
        verdict := InspectHttpClientResponse(response, true);
        assert verdict == Ready ==> SawReady(stream, |response|);
        return verdict == Ready;
      }
      var n := Delivered(stream, |response|, schedule(turn).count);
      response := response + stream[|response|..|response| + n];
      turn := turn + 1;
    }
  }

  // ---------- The loop turn by turn ----------

  function Wanted(turn: Turn): nat {
    if turn.Deliver? then turn.count else 0
  }

  /** How much has been read before turn `k`, if the loop gets there. */
  function Position(stream: seq<byte>, schedule: nat -> Turn, k: nat): (pos: nat)
    ensures pos <= |stream| && pos <= WIRE_CAP
  {
    if k == 0 then 0
    else
      var pos := Position(stream, schedule, k - 1);
      if pos < |stream| && pos < WIRE_CAP then pos + Delivered(stream, pos, Wanted(schedule(k - 1))) else pos
  }

  /** After this turn the loop goes on: the response is incomplete, no deadline has passed, and a read delivers more. */
  predicate GoesOn(stream: seq<byte>, schedule: nat -> Turn, k: nat) {
    var pos := Position(stream, schedule, k);
    && HttpVerdict(stream[..pos], false) == NeedMore && schedule(k).Deliver?
    && pos < WIRE_CAP && pos < |stream|
  }

  /** The loop ends well: the response is complete, or a read at the end of the stream shows it to be. */
  predicate EndsWell(stream: seq<byte>, schedule: nat -> Turn, k: nat) {
    var pos := Position(stream, schedule, k);
    || HttpVerdict(stream[..pos], false) == Ready
    || (HttpVerdict(stream[..pos], false) == NeedMore && schedule(k).Deliver? && pos < WIRE_CAP && pos == |stream| &&
        HttpVerdict(stream, true) == Ready)
  }

  ghost predicate EndsWellFrom(stream: seq<byte>, schedule: nat -> Turn, start: nat) {
    exists k :: start <= k && EndsWell(stream, schedule, k) && forall j :: start <= j < k ==> GoesOn(stream, schedule, j)
  }

  lemma {:induction false} AnswerFrom(stream: seq<byte>, schedule: nat -> Turn, start: nat)
    ensures Answer(stream, Position(stream, schedule, start), start, schedule) <==> EndsWellFrom(stream, schedule, start)
    decreases WIRE_CAP - Position(stream, schedule, start)
  {
    hide HttpVerdict;
    if EndsWell(stream, schedule, start) {
      assert EndsWellFrom(stream, schedule, start);
    } else if GoesOn(stream, schedule, start) {
      AnswerFrom(stream, schedule, start + 1);
      OneTurn(stream, schedule, start);
    }
  }

  lemma OneTurn(stream: seq<byte>, schedule: nat -> Turn, start: nat)
    requires GoesOn(stream, schedule, start) && !EndsWell(stream, schedule, start)
    ensures EndsWellFrom(stream, schedule, start) <==> EndsWellFrom(stream, schedule, start + 1)
  {
    hide GoesOn, EndsWell;
    if EndsWellFrom(stream, schedule, start + 1) {
      var k :| start + 1 <= k && EndsWell(stream, schedule, k) &&
               forall j :: start + 1 <= j < k ==> GoesOn(stream, schedule, j);
      assert forall j :: start <= j < k ==> GoesOn(stream, schedule, j);
    }
  }

  /** The answer is true exactly when the loop goes on, turn after turn, up to one that ends well. */
  lemma AnswerExactly(stream: seq<byte>, schedule: nat -> Turn)
    ensures Answer(stream, 0, 0, schedule) <==> EndsWellFrom(stream, schedule, 0)
  {
    AnswerFrom(stream, schedule, 0);
  }

  /** No deadline and no error: every read delivers something or reports the end of the stream. */
  ghost predicate Quiet(schedule: nat -> Turn) {
    forall k :: schedule(k).Deliver?
  }

  /** The whole stream is an acceptable response once its end has been seen. */
  ghost predicate Acceptable(stream: seq<byte>) {
    HttpVerdict(stream, true) == Ready
  }

  lemma AcceptableShape(stream: seq<byte>)
    requires Acceptable(stream)
    ensures |stream| <= WIRE_CAP && FirstTerminator(stream).Some?
    ensures FirstTerminator(stream).value <= METADATA_CAP && FirstTerminator(stream).value + 4 < |stream|
    ensures Head(stream[..FirstTerminator(stream).value]).Some?
  {
    hide Head, FirstTerminator, BodyVerdict;
    var h := FirstTerminator(stream).value;
    ReadyBody(Head(stream[..h]).value, stream[h + 4..]);
  }

  lemma ReadyBody(framing: Framing, body: seq<byte>)
    requires BodyVerdict(framing, body, true) == Ready
    ensures body != []
  {
    hide ScanChunks;
    EmptyScan();
  }

  function FramingOfStream(stream: seq<byte>): Framing
    requires Acceptable(stream)
  {
    AcceptableShape(stream);
    Head(stream[..FirstTerminator(stream).value]).value
  }

  /** What the caller can check on the response to know that the way it is cut into reads does not matter. */
  ghost predicate SplitSafe(stream: seq<byte>)
    requires Acceptable(stream)
  {
    AcceptableShape(stream);
    && FirstTerminator(stream).value <= METADATA_CAP - 3
    && (FramingOfStream(stream).UntilClose? ==> |stream| < WIRE_CAP)
  }

  /** No proper prefix of an acceptable response is Ready; it is rejected only while its head is cut and too long. */
  lemma ProperPrefix(stream: seq<byte>, pos: nat)
    requires Acceptable(stream) && pos < |stream|
    ensures HttpVerdict(stream[..pos], false)
         == if FirstTerminator(stream[..pos]).None? && pos > METADATA_CAP then Reject else NeedMore
  {
    hide HttpVerdict, FirstTerminator;
    AcceptableShape(stream);
    var r, x := stream[..pos], stream[pos..];
    assert r + x == stream;
    if FirstTerminator(r).Some? {
      if HttpVerdict(r, false) != NeedMore {
        SettledExtends(r, x, true);
      }
    } else {
      CutHead(r);
    }
  }

  lemma CutHead(r: seq<byte>)
    requires |r| <= WIRE_CAP && FirstTerminator(r).None?
    ensures HttpVerdict(r, false) == if |r| > METADATA_CAP then Reject else NeedMore
  {
  }

  lemma CutPrefix(stream: seq<byte>, pos: nat)
    requires pos <= |stream| && FirstTerminator(stream).Some?
    ensures FirstTerminator(stream[..pos]).None? <==> pos < FirstTerminator(stream).value + 4
  {
    hide FirstTerminator;
    assert stream[..pos] + stream[pos..] == stream;
    TerminatorIsLocal(stream[..pos], stream[pos..]);
  }

  lemma WholeStream(stream: seq<byte>)
    requires Acceptable(stream)
    ensures HttpVerdict(stream, false) == if FramingOfStream(stream).UntilClose? then NeedMore else Ready
  {
    hide Head, FirstTerminator, ScanChunks;
    AcceptableShape(stream);
  }

  /** Any split of a split-safe response into nonempty reads is answered with true. */
  lemma {:induction false} SafeSplits(stream: seq<byte>, pos: nat, turn: nat, schedule: nat -> Turn)
    requires Acceptable(stream) && SplitSafe(stream) && Quiet(schedule)
    requires pos <= |stream| && pos <= WIRE_CAP
    ensures Answer(stream, pos, turn, schedule)
    decreases WIRE_CAP - pos
  {
    hide HttpVerdict, FirstTerminator;
    AcceptableShape(stream);
    if pos == |stream| {
      assert stream[..pos] == stream;
      WholeStream(stream);
    } else {
      ProperPrefix(stream, pos);
      CutPrefix(stream, pos);
      SafeSplits(stream, pos + Delivered(stream, pos, schedule(turn).count), turn + 1, schedule);
    }
  }

  /** Reading byte by byte refuses an acceptable response whose empty line starts beyond offset 16381. */
  lemma {:induction false} LateHeadRefused(stream: seq<byte>, pos: nat, turn: nat, schedule: nat -> Turn)
    requires Acceptable(stream) && FirstTerminator(stream).value > METADATA_CAP - 3
    requires forall k :: schedule(k) == Deliver(1)
    requires pos <= METADATA_CAP + 1 && pos <= |stream|
    ensures !Answer(stream, pos, turn, schedule)
    decreases WIRE_CAP - pos
  {
    hide HttpVerdict, FirstTerminator;
    AcceptableShape(stream);
    ProperPrefix(stream, pos);
    CutPrefix(stream, pos);
    if pos <= METADATA_CAP {
      LateHeadRefused(stream, pos + 1, turn + 1, schedule);
    }
  }

  /** A close-delimited response of exactly the wire cap is refused however it is read. */
  lemma {:induction false} FullWireRefused(stream: seq<byte>, pos: nat, turn: nat, schedule: nat -> Turn)
    requires Acceptable(stream) && FramingOfStream(stream).UntilClose? && |stream| == WIRE_CAP
    requires pos <= |stream|
    ensures !Answer(stream, pos, turn, schedule)
    decreases WIRE_CAP - pos
  {
    hide HttpVerdict, FirstTerminator;
    if pos == |stream| {
      assert stream[..pos] == stream;
      WholeStream(stream);
    } else {
      ProperPrefix(stream, pos);
      if schedule(turn).Deliver? {
        FullWireRefused(stream, pos + Delivered(stream, pos, schedule(turn).count), turn + 1, schedule);
      }
    }
  }

  /** The probe is independent of read boundaries exactly for split-safe responses. */
  lemma ReadBoundariesDoNotMatterExactly(stream: seq<byte>)
    requires Acceptable(stream)
    ensures (forall schedule :: Quiet(schedule) ==> Answer(stream, 0, 0, schedule)) <==> SplitSafe(stream)
  {
    hide HttpVerdict, FirstTerminator;
    AcceptableShape(stream);
    if SplitSafe(stream) {
      forall schedule | Quiet(schedule) ensures Answer(stream, 0, 0, schedule) {
        SafeSplits(stream, 0, 0, schedule);
      }
    } else {
      var schedule := (k: nat) => Deliver(1);
      assert Quiet(schedule);
      if FirstTerminator(stream).value > METADATA_CAP - 3 {
        LateHeadRefused(stream, 0, 0, schedule);
      } else {
        FullWireRefused(stream, 0, 0, schedule);
      }
    }
  }
}
