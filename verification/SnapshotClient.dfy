/**
 The ordered snapshot client (packages/desktop-capabilities/src/tauri-adapter.ts:29-115). Each method is one turn of the
 event loop: what runs without interruption between two awaits.
 */
module SnapshotClient {
  import opened Bytes
  import opened SnapshotWire
  import UpdateController
  import UpdateSystem

  // ---------- What the order of deliveries comes to ----------

  datatype Shown = Shown(sequence: int, state: ClientState)

  const NOTHING := Shown(-1, NoUpdate)

  function Accept(shown: Shown, value: Json): Shown {
    var ordered := Normalize(value);
    if ordered.None? || ordered.value.sequence <= shown.sequence then shown
    else Shown(ordered.value.sequence, ordered.value.state)
  }

  /** After receiving these values, events and reads alike. */
  function Final(received: seq<Json>): Shown {
    if received == [] then NOTHING else Accept(Final(received[..|received| - 1]), received[|received| - 1])
  }

  lemma FinalStep(received: seq<Json>, value: Json)
    ensures Final(received + [value]) == Accept(Final(received), value)
  {
    assert (received + [value])[..|received|] == received;
  }

  ghost predicate Delivered(received: seq<Json>, ordered: Ordered) {
    exists i :: 0 <= i < |received| && Normalize(received[i]) == Some(ordered)
  }

  /** The client ends with the highest sequence delivered in a valid snapshot, and with the state of such a snapshot. */
  lemma {:induction false} FinalIsHighest(received: seq<Json>)
    ensures forall o :: Delivered(received, o) ==> o.sequence <= Final(received).sequence
    ensures Final(received) == NOTHING ||
            (Final(received).sequence >= 0 &&
             Delivered(received, Ordered(Final(received).sequence, Final(received).state)))
  {
    hide Normalize;
    if received != [] {
      var before, last := received[..|received| - 1], received[|received| - 1];
      FinalIsHighest(before);
      forall o | Delivered(received, o)
        ensures o.sequence <= Final(received).sequence
      {
        var i :| 0 <= i < |received| && Normalize(received[i]) == Some(o);
        if i < |before| {
          assert Normalize(before[i]) == Some(o);
          assert Delivered(before, o);
        }
      }
      if Final(received) == Final(before) {
        if Final(before) != NOTHING {
          var i :| 0 <= i < |before| &&
                   Normalize(before[i]) == Some(Ordered(Final(before).sequence, Final(before).state));
          assert Normalize(received[i]) == Some(Ordered(Final(before).sequence, Final(before).state));
        }
      } else {
        assert Normalize(received[|received| - 1]) == Some(Ordered(Final(received).sequence, Final(received).state));
      }
    }
  }

  /** Duplication, delay and reordering do not matter: the same valid snapshots, however delivered, come to the same. */
  lemma OrderDoesNotMatter(a: seq<Json>, b: seq<Json>)
    requires forall o :: Delivered(a, o) <==> Delivered(b, o)
    requires forall o, p :: Delivered(a, o) && Delivered(a, p) && o.sequence == p.sequence ==> o == p
    ensures Final(a) == Final(b)
  {
    hide Delivered, Final;
    FinalIsHighest(a);
    FinalIsHighest(b);
    var x, y := Final(a), Final(b);
    if x != NOTHING {
      assert Delivered(b, Ordered(x.sequence, x.state));
    }
    if y != NOTHING {
      assert Delivered(a, Ordered(y.sequence, y.state));
    }
  }

  // ---------- The object ----------

  /** One call of an observer; `first` marks the call made by `observe` itself. */
  datatype Delivery = Delivery(sequence: int, first: bool)

  /** Within a subscription every delivery is strictly newer than the one before. */
  predicate StrictlyNewer(log: seq<Delivery>) {
    forall i :: 0 <= i < |log| - 1 ==> log[i + 1].first || log[i].sequence < log[i + 1].sequence
  }

  lemma NoDeliveries()
    ensures StrictlyNewer([])
  {
  }

  lemma OneMoreDelivery(log: seq<Delivery>, d: Delivery)
    requires StrictlyNewer(log) && (log == [] || d.first || log[|log| - 1].sequence < d.sequence)
    ensures StrictlyNewer(log + [d])
  {
  }

  /** How far the connection in progress is; `initial` when it is the one of `initialize`. */
  datatype Connection = Resting | Listening(initial: bool) | Reading(initial: bool) | Ending(initial: bool)

  class TauriAppUpdateCapability {
    var observers: set<nat>
    var shown: Shown
    var unlisten: Option<nat>
    var connection: Connection
    // The native listeners that exist, and how many were ever made.
    var listeners: set<nat>
    var made: nat
    ghost var received: seq<Json>
    ghost var logs: map<nat, seq<Delivery>>

    ghost predicate Listener()
      reads this
    {
      && listeners == (if unlisten.Some? then {unlisten.value} else {})
      && (connection.Listening? ==> unlisten.None?)
      && (observers == {} && connection.Resting? ==> unlisten.None?)
    }

    ghost predicate Log(o: nat)
      reads this
    {
      && LogUpTo(o, shown.sequence)
      && (o in observers ==> logs[o][|logs[o]| - 1].sequence == shown.sequence)
    }

    ghost predicate LogUpTo(o: nat, bound: int)
      reads this
    {
      o in logs && StrictlyNewer(logs[o]) && logs[o] != [] && logs[o][|logs[o]| - 1].sequence <= bound
    }

    /** Every current observer has been given the snapshot that is shown. */
    ghost predicate Valid()
      reads this
    {
      && shown == Final(received)
      && Listener()
      && observers <= logs.Keys
      && forall o <- logs :: Log(o)
    }

    /** Starts `initialize`; the object is handed out when that has ended. */
    constructor ()
      ensures Valid() && connection == Listening(true) && observers == {} && received == []
    {
      observers, shown, unlisten := {}, NOTHING, None;
      connection := Listening(true);
      listeners, made := {}, 0;
      received, logs := [], map[];
    }

    method Deactivate()
      modifies this`unlisten, this`listeners
      requires listeners == (if unlisten.Some? then {unlisten.value} else {})
      ensures unlisten.None? && listeners == {}
    {
      if unlisten.Some? {
        listeners := listeners - {unlisten.value};
      }
      unlisten := None;
    }

    /** The loop of `acceptNative` over the observers. */
    method Notify(ghost before: int)
      requires Listener() && observers <= logs.Keys && before < shown.sequence
      requires forall o <- logs :: LogUpTo(o, before)
      modifies this`logs
      ensures logs.Keys == old(logs).Keys && forall o <- logs :: Log(o)
      ensures forall o <- logs :: logs[o] == old(logs)[o] + if o in observers then [Delivery(shown.sequence, false)] else []
    {
      hide StrictlyNewer;
      var waiting := observers;
      while waiting != {}
        invariant waiting <= observers && logs.Keys == old(logs).Keys
        invariant forall o <- logs :: logs[o] ==
                    old(logs)[o] + if o in observers && o !in waiting then [Delivery(shown.sequence, false)] else []
        decreases |waiting|
      {
        var o :| o in waiting;
        logs := logs[o := logs[o] + [Delivery(shown.sequence, false)]];
        waiting := waiting - {o};
      }
      forall o | o in logs
        ensures Log(o)
      {
        OneMoreDelivery(old(logs)[o], Delivery(shown.sequence, false));
      }
    }

    /** `acceptNative`; false when it throws. */
    method AcceptNative(value: Json) returns (ok: bool)
      requires Valid()
      modifies this`shown, this`received, this`logs
      ensures Valid() && received == old(received) + [value]
      ensures ok <==> Normalize(value).Some?
      ensures logs.Keys == old(logs).Keys
      ensures forall o <- logs ::
                logs[o] == old(logs)[o] + if o in observers && shown != old(shown) then [Delivery(shown.sequence, false)] else []
    {
      hide Final, Normalize;
      FinalStep(received, value);
      received := received + [value];
      var ordered := Normalize(value);
      if ordered.None? {
        return false;
      }
      if ordered.value.sequence <= shown.sequence {
        return true;
      }
      ghost var before := shown.sequence;
      shown := Shown(ordered.value.sequence, ordered.value.state);
      Notify(before);
      return true;
    }

    /** A call of the native listener, however late: what it throws is caught. */
    method ListenerCalled(value: Json)
      requires Valid()
      modifies this`shown, this`received, this`logs
      ensures Valid() && received == old(received) + [value] && logs.Keys == old(logs).Keys
      ensures forall o <- logs ::
                logs[o] == old(logs)[o] + if o in observers && shown != old(shown) then [Delivery(shown.sequence, false)] else []
    {
      var _ := AcceptNative(value);
    }

    /** The first part of `activate`, up to its await. */
    method Activate()
      requires Valid()
      modifies this`connection
      ensures Valid()
      ensures connection ==
              if unlisten.None? && old(connection).Resting? && observers != {} then Listening(false) else old(connection)
    {
      if unlisten.Some? || !connection.Resting? || observers == {} {
        return;
      }
      connection := Listening(false);
    }

    method Observe(o: nat)
      requires Valid() && (connection.Resting? || !connection.initial)
      modifies this`observers, this`logs, this`connection
      ensures Valid() && observers == old(observers) + {o}
      ensures logs == old(logs)[o := (if o in old(logs) then old(logs)[o] else []) + [Delivery(shown.sequence, true)]]
      ensures unlisten.Some? || !connection.Resting?
      ensures connection == if unlisten.None? && old(connection).Resting? then Listening(false) else old(connection)
    {
      hide StrictlyNewer, Final;
      NoDeliveries();
      OneMoreDelivery(if o in logs then logs[o] else [], Delivery(shown.sequence, true));
      observers := observers + {o};
      logs := logs[o := (if o in logs then logs[o] else []) + [Delivery(shown.sequence, true)]];
      Activate();
    }

    method Dispose(o: nat)
      requires Valid() && (connection.Resting? || !connection.initial)
      modifies this`observers, this`unlisten, this`listeners
      ensures Valid() && observers == old(observers) - {o}
      ensures observers == {} ==> listeners == {}
      ensures observers != {} ==> listeners == old(listeners)
    {
      observers := observers - {o};
      if observers == {} {
        Deactivate();
      }
    }

    method ListenResolved()
      requires Valid() && connection.Listening?
      modifies this`unlisten, this`listeners, this`made, this`connection
      ensures Valid() && connection == Reading(old(connection).initial)
      ensures |listeners| == 1 && unlisten == Some(old(made)) && made == old(made) + 1
    {
      listeners := listeners + {made};
      unlisten := Some(made);
      made := made + 1;
      connection := Reading(connection.initial);
    }

    method ListenRejected()
      requires Valid() && connection.Listening?
      modifies this`connection
      ensures Valid() && connection == Ending(old(connection).initial)
    {
      connection := Ending(connection.initial);
    }

    /** The read ends with a value, or fails with None. */
    method ReadEnded(value: Option<Json>)
      requires Valid() && connection.Reading?
      modifies this
      ensures Valid() && connection == Ending(old(connection).initial) && observers == old(observers)
      ensures received == old(received) + if value.Some? then [value.value] else []
      ensures value.None? || Normalize(value.value).None? ==> listeners == {}
      ensures value.Some? && Normalize(value.value).Some? ==> listeners == old(listeners) && unlisten == old(unlisten)
      ensures made == old(made) && logs.Keys == old(logs).Keys
      ensures forall o <- logs ::
                logs[o] == old(logs)[o] + if o in observers && shown != old(shown) then [Delivery(shown.sequence, false)] else []
    {
      var ok := false;
      if value.Some? {
        ok := AcceptNative(value.value);
      }
      if !ok {
        Deactivate();
      }
      connection := Ending(connection.initial);
    }

    /** The last part of `activate` or `initialize`. */
    method ConnectionEnded()
      requires Valid() && connection.Ending?
      modifies this`unlisten, this`listeners, this`connection
      ensures Valid() && connection.Resting?
      ensures if old(connection).initial || observers == {} then listeners == {}
              else listeners == old(listeners) && unlisten == old(unlisten)
    {
      if connection.initial || observers == {} {
        Deactivate();
      }
      connection := Resting;
    }

    /** No native listener remains once there is no observer and no connection in progress; there is never more than one. */
    lemma ListenersAreReleased()
      requires Valid()
      ensures observers == {} && connection.Resting? ==> listeners == {}
      ensures |listeners| <= 1
    {
    }
  }

  // ---------- End to end ----------

  /** The value is the encoding of a published snapshot, or not a snapshot at all. */
  ghost predicate FromHistory(
    value: Json, history: seq<UpdateController.Snapshot>, show: UpdateController.VersionText -> string)
  {
    Normalize(value).None? ||
    exists i, n :: 0 <= i < |history| && value == Encode(history[i], show, n)
  }

  lemma LatestIsShown(
    system: UpdateSystem.System, show: UpdateController.VersionText -> string, received: seq<Json>, i: nat, n: Json)
    requires UpdateSystem.Consecutive(system) && system.controller.snapshot.sequence <= MAX_SAFE_INTEGER
    requires forall k :: 0 <= k < |received| ==> FromHistory(received[k], system.published, show)
    requires i < |received| && received[i] == Encode(system.controller.snapshot, show, n)
    ensures var current := system.controller.snapshot;
            Final(received) == Shown(current.sequence, ViewOf(current.state, show))
  {
    hide Final, Encode, ViewOf, Normalize;
    var current := system.controller.snapshot;
    var last := Ordered(current.sequence, ViewOf(current.state, show));
    SnapshotRoundTrip(current, show, n);
    assert Delivered(received, last);
    FinalIsHighest(received);
    var found := Ordered(Final(received).sequence, Final(received).state);
    var k :| 0 <= k < |received| && Normalize(received[k]) == Some(found);
    assert FromHistory(received[k], system.published, show);
    var j, nk :| 0 <= j < |system.published| && received[k] == Encode(system.published[j], show, nk);
    SnapshotRoundTrip(system.published[j], show, nk);
    assert found.sequence == system.published[j].sequence == system.published[0].sequence + j;
  }

  /**
   In every run of the update system: whatever part of the published snapshots reaches the client, in whatever order and
   how often, among whatever else that is no snapshot, once the latest one has arrived the client shows the controller's
   current state.
   */
  lemma ClientShowsController(
    running: real, preference: Option<bool>, repository: UpdateSystem.Repository, m: UpdateController.Moment,
    steps: seq<(UpdateSystem.Step, UpdateController.Moment)>,
    show: UpdateController.VersionText -> string, received: seq<Json>, i: nat, n: Json)
    requires UpdateSystem.Startable(repository)
    requires UpdateSystem.Run(UpdateSystem.Start(running, preference, repository, m), steps).Some?
    requires var system := UpdateSystem.Run(UpdateSystem.Start(running, preference, repository, m), steps).value;
             && system.controller.snapshot.sequence <= MAX_SAFE_INTEGER
             && (forall k :: 0 <= k < |received| ==> FromHistory(received[k], system.published, show))
             && i < |received| && received[i] == Encode(system.controller.snapshot, show, n)
    ensures var system := UpdateSystem.Run(UpdateSystem.Start(running, preference, repository, m), steps).value;
            var current := system.controller.snapshot;
            Final(received) == Shown(current.sequence, ViewOf(current.state, show))
  {
    hide *;
    UpdateSystem.PublishedInOrder(running, preference, repository, m, steps);
    var system := UpdateSystem.Run(UpdateSystem.Start(running, preference, repository, m), steps).value;
    LatestIsShown(system, show, received, i, n);
  }
}
