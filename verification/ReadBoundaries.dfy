/** For which streams the answer of the probe depends on how they are cut into reads (src-tauri/src/main.rs:934-965). */
module ReadBoundaries {
  import opened Bytes
  import opened ChunkedBody
  import opened HttpHead
  import opened HttpResponse
  import opened ProbeLoop

  /** The first `n` bytes are a whole response, by themselves or because the stream ends there and is seen to end. */
  ghost predicate EndsAt(stream: seq<byte>, n: nat) {
    && n <= |stream| && n <= WIRE_CAP
    && (HttpVerdict(stream[..n], false) == Ready ||
        (n == |stream| && n < WIRE_CAP && HttpVerdict(stream, true) == Ready))
  }

  lemma EndIsAcceptable(stream: seq<byte>, n: nat)
    requires EndsAt(stream, n)
    ensures Acceptable(stream[..n])
  {
    hide HttpVerdict;
    EofSettles(stream[..n]);
    assert n == |stream| ==> stream[..n] == stream;
  }

  /** The offset of the empty line. */
  function HeadEnd(stream: seq<byte>, n: nat): (h: nat)
    requires n <= |stream| && Acceptable(stream[..n])
    ensures FirstTerminator(stream[..n]) == Some(h) && h <= METADATA_CAP && h + 4 < n
  {
    AcceptableShape(stream[..n]);
    FirstTerminator(stream[..n]).value
  }

  /** Nothing that a read boundary could spoil: an early empty line, and no byte behind the end that could be read. */
  ghost predicate Harmless(stream: seq<byte>, n: nat)
    requires EndsAt(stream, n)
  {
    EndIsAcceptable(stream, n);
    HeadEnd(stream, n) <= METADATA_CAP - 3 && (n == |stream| || n == WIRE_CAP)
  }

  /** Before the end the loop goes on, unless it stops inside the empty line too late. */
  lemma BeforeTheEnd(stream: seq<byte>, n: nat, pos: nat)
    requires n <= |stream| && Acceptable(stream[..n]) && pos < n
    ensures HttpVerdict(stream[..pos], false)
         == if pos < HeadEnd(stream, n) + 4 && pos > METADATA_CAP then Reject else NeedMore
  {
    hide HttpVerdict, FirstTerminator;
    var p, h := stream[..n], HeadEnd(stream, n);
    assert p[..pos] == stream[..pos];
    ProperPrefix(p, pos);
    CutPrefix(p, pos);
  }

  lemma AtTheEnd(stream: seq<byte>, n: nat, turn: nat, schedule: nat -> Turn)
    requires EndsAt(stream, n) && schedule(turn).Deliver?
    ensures Answer(stream, n, turn, schedule)
  {
    hide HttpVerdict;
    EndIsAcceptable(stream, n);
    WholeStream(stream[..n]);
  }

  /** Only a stream with an end is ever answered with true. */
  lemma {:induction false} TrueNeedsAnEnd(stream: seq<byte>, pos: nat, turn: nat, schedule: nat -> Turn)
    requires pos <= |stream| && pos <= WIRE_CAP && Answer(stream, pos, turn, schedule)
    ensures exists n :: EndsAt(stream, n)
    decreases WIRE_CAP - pos
  {
    hide HttpVerdict;
    if HttpVerdict(stream[..pos], false) == Ready || pos == |stream| {
      assert stream[..|stream|] == stream;
      assert EndsAt(stream, pos);
    } else {
      TrueNeedsAnEnd(stream, pos + Delivered(stream, pos, schedule(turn).count), turn + 1, schedule);
    }
  }

  /** One byte at a time, but the empty line at once. */
  function Careful(h: nat): nat -> Turn {
    k => Deliver(if k == h then 4 else 1)
  }

  lemma {:induction false} CarefulSucceeds(stream: seq<byte>, n: nat, h: nat, pos: nat, turn: nat)
    requires EndsAt(stream, n) && Acceptable(stream[..n]) && h == HeadEnd(stream, n)
    requires (pos <= h && turn == pos) || (h + 4 <= pos <= n && turn > h)
    ensures Answer(stream, pos, turn, Careful(h))
    decreases WIRE_CAP - pos
  {
    hide HttpVerdict, FirstTerminator;
    if pos == n {
      AtTheEnd(stream, n, turn, Careful(h));
    } else {
      BeforeTheEnd(stream, n, pos);
      var d := Delivered(stream, pos, Careful(h)(turn).count);
      assert d == if turn == h then 4 else 1;
      CarefulSucceeds(stream, n, h, pos + d, turn + 1);
    }
  }

  lemma {:induction false} HarmlessSucceeds(stream: seq<byte>, n: nat, pos: nat, turn: nat, schedule: nat -> Turn)
    requires EndsAt(stream, n) && Harmless(stream, n) && Quiet(schedule) && pos <= n
    ensures Answer(stream, pos, turn, schedule)
    decreases WIRE_CAP - pos
  {
    hide HttpVerdict, FirstTerminator;
    EndIsAcceptable(stream, n);
    if pos == n {
      AtTheEnd(stream, n, turn, schedule);
    } else {
      BeforeTheEnd(stream, n, pos);
      HarmlessSucceeds(stream, n, pos + Delivered(stream, pos, schedule(turn).count), turn + 1, schedule);
    }
  }

  function Bytewise(): nat -> Turn {
    k => Deliver(1)
  }

  lemma {:induction false} BytewiseFails(stream: seq<byte>, n: nat, pos: nat, turn: nat)
    requires n <= |stream| && n <= WIRE_CAP && Acceptable(stream[..n]) && HeadEnd(stream, n) > METADATA_CAP - 3
    requires pos <= METADATA_CAP + 1
    ensures !Answer(stream, pos, turn, Bytewise())
    decreases WIRE_CAP - pos
  {
    hide HttpVerdict, FirstTerminator;
    BeforeTheEnd(stream, n, pos);
    if pos <= METADATA_CAP {
      BytewiseFails(stream, n, pos + 1, turn + 1);
    }
  }

  /** One byte at a time, but the last byte of the response together with the one behind it. */
  function Overshooting(n: nat): nat -> Turn {
    k => Deliver(if k + 1 == n then 2 else 1)
  }

  lemma {:induction false} OvershootingFails(stream: seq<byte>, n: nat, pos: nat)
    requires n < |stream| && n < WIRE_CAP && HttpVerdict(stream[..n], false) == Ready && Acceptable(stream[..n])
    requires HeadEnd(stream, n) <= METADATA_CAP - 3 && pos < n
    ensures !Answer(stream, pos, pos, Overshooting(n))
    decreases WIRE_CAP - pos
  {
    hide HttpVerdict, FirstTerminator;
    BeforeTheEnd(stream, n, pos);
    var d := Delivered(stream, pos, Overshooting(n)(pos).count);
    assert d == if pos + 1 == n then 2 else 1;
    if pos + 1 == n {
      assert stream[..n + 1] == stream[..n] + [stream[n]];
      ReadyIsExact(stream[..n], [stream[n]], false);
    } else {
      OvershootingFails(stream, n, pos + 1);
    }
  }

  lemma SomeSplitSucceeds(stream: seq<byte>, n: nat) returns (schedule: nat -> Turn)
    requires EndsAt(stream, n)
    ensures Quiet(schedule) && Answer(stream, 0, 0, schedule)
  {
    hide HttpVerdict, FirstTerminator;
    EndIsAcceptable(stream, n);
    schedule := Careful(HeadEnd(stream, n));
    CarefulSucceeds(stream, n, HeadEnd(stream, n), 0, 0);
  }

  lemma SomeSplitFails(stream: seq<byte>, n: nat) returns (schedule: nat -> Turn)
    requires EndsAt(stream, n) && !Harmless(stream, n)
    ensures Quiet(schedule) && !Answer(stream, 0, 0, schedule)
  {
    hide HttpVerdict, FirstTerminator;
    EndIsAcceptable(stream, n);
    if HeadEnd(stream, n) > METADATA_CAP - 3 {
      schedule := Bytewise();
      BytewiseFails(stream, n, 0, 0);
    } else {
      schedule := Overshooting(n);
      OvershootingFails(stream, n, 0);
    }
  }

  /** Some way of reading the stream is answered with true exactly when the stream has an end. */
  lemma AcceptedBySomeSplitExactly(stream: seq<byte>)
    ensures (exists schedule :: Quiet(schedule) && Answer(stream, 0, 0, schedule)) <==> (exists n :: EndsAt(stream, n))
  {
    hide Answer, EndsAt, Quiet;
    if n :| EndsAt(stream, n) {
      var schedule := SomeSplitSucceeds(stream, n);
    }
    if schedule :| Quiet(schedule) && Answer(stream, 0, 0, schedule) {
      TrueNeedsAnEnd(stream, 0, 0, schedule);
    }
  }

  /**
   For every stream, acceptable or not: all ways of reading it get the same answer exactly when every end it has is
   harmless.
   */
  lemma SameForEverySplitExactly(stream: seq<byte>)
    ensures (forall s, t :: Quiet(s) && Quiet(t) ==> Answer(stream, 0, 0, s) == Answer(stream, 0, 0, t)) <==>
            (forall n :: EndsAt(stream, n) ==> Harmless(stream, n))
  {
    hide Answer, EndsAt, Quiet, Harmless;
    if n :| EndsAt(stream, n) && !Harmless(stream, n) {
      var s := SomeSplitSucceeds(stream, n);
      var t := SomeSplitFails(stream, n);
    } else {
      forall s, t | Quiet(s) && Quiet(t)
        ensures Answer(stream, 0, 0, s) == Answer(stream, 0, 0, t)
      {
        if Answer(stream, 0, 0, s) || Answer(stream, 0, 0, t) {
          TrueNeedsAnEnd(stream, 0, 0, if Answer(stream, 0, 0, s) then s else t);
          var n :| EndsAt(stream, n);
          HarmlessSucceeds(stream, n, 0, 0, s);
          HarmlessSucceeds(stream, n, 0, 0, t);
        }
      }
    }
  }
}
