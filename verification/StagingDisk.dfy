/**
 The files of the staging directory and what a crash can make of them
 (src-tauri/src/desktop_capabilities/app_update/staging.rs:9-13, 318-418).
 */
module StagingDisk {
  import opened Bytes
  import opened UpdateController

  datatype InstallKind = WindowsNsis | LinuxAppImage | MacosApp

  datatype Metadata = Metadata(version: VersionText, signature: string, target: string, kind: InstallKind)

  /** The contents of a file: the JSON text of some metadata, or any other bytes. */
  datatype Content = Json(metadata: Metadata) | Raw(bytes: seq<byte>)

  /** A file; until `synced`, a crash may leave anything in its place. */
  datatype Stored = Stored(content: Content, synced: bool)

  datatype Name = MetadataFile | PackageFile | MetadataTemp | PackageTemp

  datatype Files = Files(
    metadata: Option<Stored>, package: Option<Stored>, metadataTemp: Option<Stored>, packageTemp: Option<Stored>)

  function Get(files: Files, name: Name): Option<Stored> {
    match name
    case MetadataFile => files.metadata
    case PackageFile => files.package
    case MetadataTemp => files.metadataTemp
    case PackageTemp => files.packageTemp
  }

  function Set(files: Files, name: Name, file: Option<Stored>): Files {
    match name
    case MetadataFile => files.(metadata := file)
    case PackageFile => files.(package := file)
    case MetadataTemp => files.(metadataTemp := file)
    case PackageTemp => files.(packageTemp := file)
  }

  /**
   `now` is what running code sees. `metadatas` and `packages` are what a crash may leave under the two lasting names:
   every value the name has had since the directory was last synced. The temporary names can hold anything.
   */
  datatype State = State(now: Files, metadatas: iset<Option<Content>>, packages: iset<Option<Content>>)

  ghost function Surviving(file: Option<Stored>): iset<Option<Content>> {
    if file.None? then iset{None}
    else if file.value.synced then iset{Some(file.value.content)}
    else iset c: Content :: Some(c)
  }

  ghost predicate Coherent(s: State) {
    Surviving(s.now.metadata) <= s.metadatas && Surviving(s.now.package) <= s.packages
  }

  ghost function Put(s: State, name: Name, file: Option<Stored>): State {
    var files := Set(s.now, name, file);
    match name
    case MetadataFile => State(files, s.metadatas + Surviving(file), s.packages)
    case PackageFile => State(files, s.metadatas, s.packages + Surviving(file))
    case _ => State(files, s.metadatas, s.packages)
  }

  /** An atomic replacement; both directory changes may or may not survive. */
  ghost function Moved(s: State, from: Name, to: Name): State {
    Put(Put(s, to, Get(s.now, from)), from, None)
  }

  ghost function DirectorySynced(s: State): State {
    State(s.now, Surviving(s.now.metadata), Surviving(s.now.package))
  }

  // ---------- Recovery ----------

  type Verifier = (Content, string) -> bool

  /** What a recovery without faults finds in these files. */
  function Recovered(verify: Verifier, files: Files): Option<Metadata> {
    if files.metadata.Some? && files.package.Some? && files.metadata.value.content.Json? then
      var m := files.metadata.value.content.metadata;
      if m.version.Semver? && verify(files.package.value.content, m.signature) then Some(m) else None
    else None
  }

  // ---------- Accidents ----------

  ghost predicate Survives(file: Option<Stored>, possible: iset<Option<Content>>) {
    if file.None? then None in possible else file.value.synced && Some(file.value.content) in possible
  }

  /** The machine stops and starts again: every name independently holds one of its possible values. */
  ghost predicate Restarts(s: State, t: State) {
    && Survives(t.now.metadata, s.metadatas) && t.metadatas == Surviving(t.now.metadata)
    && Survives(t.now.package, s.packages) && t.packages == Surviving(t.now.package)
  }

  /** A restart finds exactly what was synced; in place of contents that were not, it may find any. */
  lemma UnsyncedExactly(s: State, file: Stored, c: Content)
    requires s.metadatas == Surviving(Some(file)) && s.packages == iset{None}
    ensures (exists t :: Restarts(s, t) && t.now.metadata == Some(Stored(c, true))) <==>
            (file.synced ==> c == file.content)
  {
    if file.synced ==> c == file.content {
      var files := Files(Some(Stored(c, true)), None, None, None);
      var t := State(files, iset{Some(c)}, iset{None});
      assert Restarts(s, t);
    }
  }

  /** A recovery only removes files. */
  ghost predicate Shrunk(s: State, start: State) {
    && (s.now.metadata == start.now.metadata || s.now.metadata == None)
    && (s.now.package == start.now.package || s.now.package == None)
    && s.metadatas <= start.metadatas + iset{None} && s.packages <= start.packages + iset{None}
  }

  /** A crash with restart, or a recovery that gets as far as the state. */
  datatype Accident = Restart(state: State) | Recovering(state: State)

  ghost predicate Leads(s: State, accidents: seq<Accident>, t: State)
    decreases |accidents|
  {
    if accidents == [] then t == s else
    match accidents[0]
    case Restart(u) => Restarts(s, u) && Leads(u, accidents[1..], t)
    case Recovering(u) => Coherent(u) && Shrunk(u, s) && Leads(u, accidents[1..], t)
  }

  lemma {:induction false} AccidentsInventNothing(s: State, accidents: seq<Accident>, t: State)
    requires Coherent(s) && Leads(s, accidents, t)
    ensures Coherent(t)
    ensures t.metadatas <= s.metadatas + iset{None} && t.packages <= s.packages + iset{None}
    decreases |accidents|
  {
    if accidents != [] {
      match accidents[0]
      case Restart(u) => AccidentsInventNothing(u, accidents[1..], t);
      case Recovering(u) => AccidentsInventNothing(u, accidents[1..], t);
    }
  }

  /**
   However often recoveries are interrupted and whichever unsynced changes survive, the last recovery finds nothing or a
   metadata file that could survive the first crash, and that file verifies against the package beside it.
   */
  lemma YieldsASurvivor(verify: Verifier, s: State, accidents: seq<Accident>, t: State)
    requires Coherent(s) && Leads(s, accidents, t)
    ensures var found := Recovered(verify, t.now);
            found.Some? ==>
              && Some(Json(found.value)) in s.metadatas
              && t.now.package.Some? && verify(t.now.package.value.content, found.value.signature)
  {
    AccidentsInventNothing(s, accidents, t);
    if Recovered(verify, t.now).Some? {
      assert Surviving(t.now.metadata) <= t.metadatas;
      assert Some(t.now.metadata.value.content) in Surviving(t.now.metadata);
    }
  }

  /** The states that accidents cannot change any more: no crash loses or alters the staged update. */
  ghost predicate Durable(s: State, metadata: Option<Content>, package: Option<Content>) {
    s.metadatas == iset{metadata} && s.packages == iset{package}
  }

  lemma DurableSurvives(verify: Verifier, s: State, m: Metadata, package: Content, t: State)
    requires Durable(s, Some(Json(m)), Some(package)) && Restarts(s, t)
    requires m.version.Semver? && verify(package, m.signature)
    ensures Recovered(verify, t.now) == Some(m)
  {
  }

  lemma DurablyEmpty(verify: Verifier, s: State, accidents: seq<Accident>, t: State)
    requires Coherent(s) && Durable(s, None, None) && Leads(s, accidents, t)
    ensures Recovered(verify, t.now) == None
  {
    YieldsASurvivor(verify, s, accidents, t);
  }

  // ---------- The disk ----------

  /**
   Any of the numbered calls may fail, as `fails` says. A failed call changes nothing, except that a failed write leaves
   what `debris` says.
   */
  class Disk {
    const fails: nat -> bool
    const debris: nat -> Content
    var calls: nat
    var now: Files
    ghost var metadatas: iset<Option<Content>>
    ghost var packages: iset<Option<Content>>
    // How many reads failed.
    var readFaults: nat
    // Every state the disk has been in.
    ghost var trace: seq<State>

    /** An empty directory. */
    constructor (fails: nat -> bool, debris: nat -> Content)
      ensures Valid() && this.fails == fails && this.debris == debris && calls == 0 && readFaults == 0 && trace == []
      ensures now == Files(None, None, None, None) && Durable(Value(), None, None)
    {
      this.fails, this.debris := fails, debris;
      calls, readFaults, now, trace := 0, 0, Files(None, None, None, None), [];
      metadatas, packages := iset{None}, iset{None};
    }

    ghost function Value(): State
      reads this
    {
      State(now, metadatas, packages)
    }

    ghost predicate Valid()
      reads this
    {
      Coherent(Value()) && forall i :: 0 <= i < |trace| ==> Coherent(trace[i])
    }

    /** None of these calls fails. */
    ghost predicate Smooth(from: int, to: int) {
      forall n: nat :: from <= n < to ==> !fails(n)
    }

    ghost predicate FailsTwice(from: int, to: int) {
      exists a: nat, b: nat :: from <= a < b < to && fails(a) && fails(b)
    }

    lemma Wider(low: int, from: int, to: int, high: int)
      requires low <= from && to <= high
      ensures Smooth(low, high) ==> Smooth(from, to)
      ensures FailsTwice(from, to) ==> FailsTwice(low, high)
    {
    }

    lemma FirstFails(n: nat)
      ensures Smooth(n, n + 1) <==> !fails(n)
    {
    }

    method Remove(name: Name) returns (ok: bool)
      requires Valid()
      modifies this
      ensures Valid() && trace == old(trace) + [Value()]
      ensures Value() == if ok then Put(old(Value()), name, None) else old(Value())
      ensures ok == !fails(old(calls)) && calls == old(calls) + 1 && readFaults == old(readFaults)
    {
      ok := !fails(calls);
      calls := calls + 1;
      if ok {
        ghost var after := Put(Value(), name, None);
        now := Set(now, name, None);
        metadatas, packages := after.metadatas, after.packages;
      }
      trace := trace + [Value()];
    }

    method Create(name: Name) returns (ok: bool)
      requires Valid() && (name == MetadataTemp || name == PackageTemp)
      modifies this
      ensures Valid() && trace == old(trace) + [Value()]
      ensures Value() == if ok then Put(old(Value()), name, Some(Stored(Raw([]), false))) else old(Value())
      ensures ok == !fails(old(calls)) && calls == old(calls) + 1 && readFaults == old(readFaults)
    {
      ok := !fails(calls);
      calls := calls + 1;
      if ok {
        now := Set(now, name, Some(Stored(Raw([]), false)));
      }
      trace := trace + [Value()];
    }

    method Write(name: Name, content: Content) returns (ok: bool)
      requires Valid() && (name == MetadataTemp || name == PackageTemp)
      modifies this
      ensures Valid() && trace == old(trace) + [Value()]
      ensures Value() == Put(old(Value()), name, Some(Stored(if ok then content else debris(old(calls)), false)))
      ensures ok == !fails(old(calls)) && calls == old(calls) + 1 && readFaults == old(readFaults)
    {
      ok := !fails(calls);
      calls := calls + 1;
      now := Set(now, name, Some(Stored(if ok then content else debris(calls - 1), false)));
      trace := trace + [Value()];
    }

    method Sync(name: Name) returns (ok: bool)
      requires Valid() && (name == MetadataTemp || name == PackageTemp) && Get(now, name).Some?
      modifies this
      ensures Valid() && trace == old(trace) + [Value()]
      ensures Value() ==
              if ok then Put(old(Value()), name, Some(Stored(Get(old(now), name).value.content, true)))
              else old(Value())
      ensures ok == !fails(old(calls)) && calls == old(calls) + 1 && readFaults == old(readFaults)
    {
      ok := !fails(calls);
      calls := calls + 1;
      if ok {
        now := Set(now, name, Some(Stored(Get(now, name).value.content, true)));
      }
      trace := trace + [Value()];
    }

    method Rename(from: Name, to: Name) returns (ok: bool)
      requires Valid() && from != to
      modifies this
      ensures Valid() && trace == old(trace) + [Value()]
      ensures Value() == if ok then Moved(old(Value()), from, to) else old(Value())
      ensures ok == (!fails(old(calls)) && Get(old(now), from).Some?)
      ensures calls == old(calls) + 1 && readFaults == old(readFaults)
    {
      ok := !fails(calls) && Get(now, from).Some?;
      calls := calls + 1;
      if ok {
        ghost var after := Moved(Value(), from, to);
        now := Set(Set(now, to, Get(now, from)), from, None);
        metadatas, packages := after.metadatas, after.packages;
      }
      trace := trace + [Value()];
    }

    method SyncDirectory() returns (ok: bool)
      requires Valid()
      modifies this
      ensures Valid() && trace == old(trace) + [Value()]
      ensures Value() == if ok then DirectorySynced(old(Value())) else old(Value())
      ensures ok == !fails(old(calls)) && calls == old(calls) + 1 && readFaults == old(readFaults)
    {
      ok := !fails(calls);
      calls := calls + 1;
      if ok {
        ghost var after := DirectorySynced(Value());
        metadatas, packages := after.metadatas, after.packages;
      }
      trace := trace + [Value()];
    }

    /** None when the file is missing or reading it fails. */
    method Read(name: Name) returns (content: Option<Content>)
      requires Valid()
      modifies this`calls, this`readFaults
      ensures Valid() && calls == old(calls) + 1
      ensures content == if fails(old(calls)) || Get(now, name).None? then None else Some(Get(now, name).value.content)
      ensures readFaults == old(readFaults) + if fails(old(calls)) then 1 else 0
    {
      content := None;
      if fails(calls) {
        readFaults := readFaults + 1;
      } else if Get(now, name).Some? {
        content := Some(Get(now, name).value.content);
      }
      calls := calls + 1;
    }
  }
}
