/**
 Update snapshots on the wire: what the controller serialises and what the client accepts
 (src-tauri/src/desktop_capabilities/app_update/mod.rs:61-131; packages/desktop-capabilities/src/tauri-adapter.ts:118-202).
 */
module SnapshotWire {
  import opened Bytes
  import opened UpdateController

  datatype Json =
    | Null
    | Boolean(flag: bool)
    | Number(value: real)
    | NotFinite                     // what a number that is no finite number stands for
    | Text(text: string)
    | List(items: seq<Json>)
    | Object(fields: map<string, Json>)

  /** The state of the client. */
  datatype ClientState =
    | NoUpdate
    | UpdateAvailable(version: string, notes: string)
    | UpdateStaged(version: string, notes: string)
    | UpdateDownloading(version: string, notes: string, downloaded: real, total: Option<real>)
    | UpdateFailed(operation: string, retryable: bool, message: string)

  datatype Ordered = Ordered(sequence: nat, state: ClientState)

  const MAX_SAFE_INTEGER: nat := 0x1F_FFFF_FFFF_FFFF

  // ---------- The client's reader; None stands for the error it throws ----------

  function Field(record: Json, key: string): Option<Json> {
    if record.Object? && key in record.fields then Some(record.fields[key]) else None
  }

  function RequireString(record: Json, key: string): Option<string> {
    match Field(record, key)
    case Some(Text(text)) => Some(text)
    case _ => None
  }

  function RequireAmount(record: Json, key: string): Option<real> {
    match Field(record, key)
    case Some(Number(value)) => if value < 0.0 then None else Some(value)
    case _ => None
  }

  function NormalizeDownloading(state: Json): Option<ClientState> {
    var progress := if Field(state, "progress").Some? then Field(state, "progress").value else Null;
    var kind := RequireString(progress, "kind");
    var downloaded := RequireAmount(progress, "downloaded_bytes");
    var total := RequireAmount(progress, "total_bytes");
    var version := RequireString(state, "version");
    var notes := RequireString(state, "release_notes");
    if kind != Some("unknown_total") && kind != Some("known_total") then None
    else if downloaded.None? || (kind == Some("known_total") && total.None?) then None
    else if version.None? || notes.None? then None
    else Some(UpdateDownloading(version.value, notes.value, downloaded.value,
                                if kind == Some("known_total") then total else None))
  }

  function NormalizeState(state: Json): Option<ClientState> {
    var kind := RequireString(state, "kind");
    if kind == Some("idle") || kind == Some("checking") || kind == Some("up_to_date") then Some(NoUpdate)
    else if kind == Some("available") || kind == Some("staged") then
      var version := RequireString(state, "version");
      var notes := RequireString(state, "release_notes");
      if version.None? || notes.None? then None
      else if kind == Some("available") then Some(UpdateAvailable(version.value, notes.value))
      else Some(UpdateStaged(version.value, notes.value))
    else if kind == Some("downloading") then NormalizeDownloading(state)
    else if kind == Some("failed") then
      var operation := RequireString(state, "operation");
      var message := RequireString(state, "message");
      var retryable := Field(state, "retryable");
      if operation != Some("check") && operation != Some("download") then None
      else if retryable.None? || !retryable.value.Boolean? || message.None? then None
      else Some(UpdateFailed(operation.value, retryable.value.flag, message.value))
    else None
  }

  predicate IsSafeSequence(value: Json) {
    value.Number? && 0.0 <= value.value <= MAX_SAFE_INTEGER as real && value.value == value.value.Floor as real
  }

  function Normalize(value: Json): Option<Ordered> {
    match Field(value, "sequence")
    case None => None
    case Some(sequence) =>
      if !IsSafeSequence(sequence) then None else
      var state := NormalizeState(if Field(value, "state").Some? then Field(value, "state").value else Null);
      if state.None? then None else Some(Ordered(sequence.value.Floor, state.value))
  }

  // ---------- What the reader accepts, by its shape ----------

  predicate Has(record: Json, key: string, value: Json) {
    record.Object? && key in record.fields && record.fields[key] == value
  }

  /** Bytes counted so far, out of a known total or not. */
  predicate ShowsProgress(progress: Json, downloaded: real, total: Option<real>) {
    && Has(progress, "downloaded_bytes", Number(downloaded)) && downloaded >= 0.0
    && match total
       case None => Has(progress, "kind", Text("unknown_total"))
       case Some(n) => Has(progress, "kind", Text("known_total")) && Has(progress, "total_bytes", Number(n)) && n >= 0.0
  }

  ghost predicate ShowsState(state: Json, view: ClientState) {
    match view
    case NoUpdate => exists kind <- ["idle", "checking", "up_to_date"] :: Has(state, "kind", Text(kind))
    case UpdateAvailable(version, notes) =>
      && Has(state, "kind", Text("available"))
      && Has(state, "version", Text(version)) && Has(state, "release_notes", Text(notes))
    case UpdateStaged(version, notes) =>
      && Has(state, "kind", Text("staged"))
      && Has(state, "version", Text(version)) && Has(state, "release_notes", Text(notes))
    case UpdateDownloading(version, notes, downloaded, total) =>
      && Has(state, "kind", Text("downloading"))
      && Has(state, "version", Text(version)) && Has(state, "release_notes", Text(notes))
      && exists progress :: Has(state, "progress", progress) && ShowsProgress(progress, downloaded, total)
    case UpdateFailed(operation, retryable, message) =>
      && Has(state, "kind", Text("failed")) && Has(state, "operation", Text(operation))
      && operation in ["check", "download"]
      && Has(state, "retryable", Boolean(retryable)) && Has(state, "message", Text(message))
  }

  /** A whole number of at most 53 bits, and a state. */
  ghost predicate ShowsSnapshot(value: Json, ordered: Ordered) {
    && Has(value, "sequence", Number(ordered.sequence as real)) && ordered.sequence < 0x20_0000_0000_0000
    && exists state :: Has(value, "state", state) && ShowsState(state, ordered.state)
  }

  lemma DownloadingExactly(state: Json, view: ClientState)
    requires RequireString(state, "kind") == Some("downloading")
    ensures NormalizeDownloading(state) == Some(view) <==> ShowsState(state, view)
  {
    if NormalizeDownloading(state) == Some(view) {
      var progress := Field(state, "progress").value;
      assert Has(state, "progress", progress) && ShowsProgress(progress, view.downloaded, view.total);
    }
    if view.UpdateDownloading? && ShowsState(state, view) {
      var progress :| Has(state, "progress", progress) && ShowsProgress(progress, view.downloaded, view.total);
      assert Field(state, "progress") == Some(progress);
    }
  }

  lemma StateExactly(state: Json, view: ClientState)
    ensures NormalizeState(state) == Some(view) <==> ShowsState(state, view)
  {
    if RequireString(state, "kind") == Some("downloading") {
      DownloadingExactly(state, view);
    } else {
      match view
      case _ =>
    }
  }

  /** A value is accepted as a snapshot exactly when it has its shape; anything else is refused. */
  lemma NormalizeExactly(value: Json, ordered: Ordered)
    ensures Normalize(value) == Some(ordered) <==> ShowsSnapshot(value, ordered)
  {
    hide NormalizeState, ShowsState;
    if Field(value, "state").Some? {
      StateExactly(Field(value, "state").value, ordered.state);
    } else {
      NothingIsNoState();
    }
    assert (ordered.sequence as real).Floor == ordered.sequence;
  }

  lemma NothingIsNoState()
    ensures NormalizeState(Null).None?
  {
  }

  // ---------- The controller's writer ----------

  function Amount(n: nat): Json {
    Number(n as real)
  }

  function EncodeProgress(progress: Progress): Json {
    match progress
    case UnknownTotal(downloaded) =>
      Object(map["kind" := Text("unknown_total"), "downloaded_bytes" := Amount(downloaded)])
    case KnownTotal(downloaded, total) =>
      Object(map["kind" := Text("known_total"), "downloaded_bytes" := Amount(downloaded), "total_bytes" := Amount(total)])
  }

  function OperationName(operation: Operation): string {
    match operation case Check => "check" case Download => "download"
  }

  /** `show` prints a version. */
  function EncodeState(state: UpdateState, show: VersionText -> string): Json {
    match state
    case Idle => Object(map["kind" := Text("idle")])
    case Checking => Object(map["kind" := Text("checking")])
    case UpToDate => Object(map["kind" := Text("up_to_date")])
    case Available(version, notes) =>
      Object(map["kind" := Text("available"), "version" := Text(show(version)), "release_notes" := Text(notes)])
    case Downloading(version, notes, progress) =>
      Object(map["kind" := Text("downloading"), "version" := Text(show(version)), "release_notes" := Text(notes),
                 "progress" := EncodeProgress(progress)])
    case Staged(version, notes) =>
      Object(map["kind" := Text("staged"), "version" := Text(show(version)), "release_notes" := Text(notes)])
    case Failed(operation, retryable, message) =>
      Object(map["kind" := Text("failed"), "operation" := Text(OperationName(operation)),
                 "retryable" := Boolean(retryable), "message" := Text(message)])
  }

  function Encode(snapshot: Snapshot, show: VersionText -> string, nextCheck: Json): Json {
    Object(map["sequence" := Amount(snapshot.sequence), "state" := EncodeState(snapshot.state, show),
               "automatic_download" := Boolean(snapshot.automaticDownload), "next_check_at" := nextCheck])
  }

  /** What the client is to show for a controller state. */
  function ViewOf(state: UpdateState, show: VersionText -> string): ClientState {
    match state
    case Idle => NoUpdate
    case Checking => NoUpdate
    case UpToDate => NoUpdate
    case Available(version, notes) => UpdateAvailable(show(version), notes)
    case Downloading(version, notes, UnknownTotal(downloaded)) =>
      UpdateDownloading(show(version), notes, downloaded as real, None)
    case Downloading(version, notes, KnownTotal(downloaded, total)) =>
      UpdateDownloading(show(version), notes, downloaded as real, Some(total as real))
    case Staged(version, notes) => UpdateStaged(show(version), notes)
    case Failed(operation, retryable, message) => UpdateFailed(OperationName(operation), retryable, message)
  }

  lemma DownloadingRoundTrip(version: VersionText, notes: string, progress: Progress, show: VersionText -> string)
    ensures var state := Downloading(version, notes, progress);
            NormalizeDownloading(EncodeState(state, show)) == Some(ViewOf(state, show))
  {
    var state := EncodeState(Downloading(version, notes, progress), show);
    assert Field(state, "progress") == Some(EncodeProgress(progress));
    assert RequireString(state, "version") == Some(show(version)) && RequireString(state, "release_notes") == Some(notes);
    match progress
    case UnknownTotal(downloaded) =>
      assert RequireString(EncodeProgress(progress), "kind") == Some("unknown_total");
      assert RequireAmount(EncodeProgress(progress), "downloaded_bytes") == Some(downloaded as real);
    case KnownTotal(downloaded, total) =>
      assert RequireString(EncodeProgress(progress), "kind") == Some("known_total");
      assert RequireAmount(EncodeProgress(progress), "downloaded_bytes") == Some(downloaded as real);
      assert RequireAmount(EncodeProgress(progress), "total_bytes") == Some(total as real);
  }

  lemma OfferRoundTrip(state: UpdateState, show: VersionText -> string)
    requires state.Available? || state.Staged?
    ensures NormalizeState(EncodeState(state, show)) == Some(ViewOf(state, show))
  {
    hide NormalizeDownloading;
    match state
    case Available(version, notes) =>
      assert RequireString(EncodeState(state, show), "kind") == Some("available");
    case Staged(version, notes) =>
      assert RequireString(EncodeState(state, show), "kind") == Some("staged");
  }

  lemma FailureRoundTrip(state: UpdateState, show: VersionText -> string)
    requires state.Failed?
    ensures NormalizeState(EncodeState(state, show)) == Some(ViewOf(state, show))
  {
    hide NormalizeDownloading;
    assert RequireString(EncodeState(state, show), "kind") == Some("failed");
  }

  lemma StateRoundTrip(state: UpdateState, show: VersionText -> string)
    ensures NormalizeState(EncodeState(state, show)) == Some(ViewOf(state, show))
  {
    hide NormalizeDownloading;
    match state
    case Idle =>
    case Checking =>
    case UpToDate =>
    case Available(version, notes) => OfferRoundTrip(state, show);
    case Downloading(version, notes, progress) =>
      DownloadingRoundTrip(version, notes, progress, show);
      assert RequireString(EncodeState(state, show), "kind") == Some("downloading");
    case Staged(version, notes) => OfferRoundTrip(state, show);
    case Failed(operation, retryable, message) => FailureRoundTrip(state, show);
  }

  /** Every snapshot the controller publishes is accepted as what it says, exactly while its sequence is a safe integer. */
  lemma SnapshotRoundTrip(snapshot: Snapshot, show: VersionText -> string, nextCheck: Json)
    ensures Normalize(Encode(snapshot, show, nextCheck)) ==
            if snapshot.sequence <= MAX_SAFE_INTEGER then
              Some(Ordered(snapshot.sequence, ViewOf(snapshot.state, show)))
            else None
  {
    hide NormalizeState, EncodeState, ViewOf;
    StateRoundTrip(snapshot.state, show);
    assert (snapshot.sequence as real).Floor == snapshot.sequence;
  }
}
