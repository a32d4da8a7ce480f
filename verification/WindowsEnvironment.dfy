/** Merging and encoding of Windows process environments (src-tauri/src/cli_supervisor.rs:863-946). */
module WindowsEnvironment {
  import opened Bytes
  import opened Utf16

  type Entry = (Text, Text)

  /** A value to set, or None for a name to remove. */
  type Override = (Text, Option<Text>)

  const EQUALS: u16 := 61

  // ---------- The comparison ----------

  /** The ordinal comparison that ignores case compares the upper-cased code units; `up` is the table of the system. */
  function Key(up: u16 -> u16, name: Text): (key: Text)
    ensures |key| == |name|
  {
    seq(|name|, i requires 0 <= i < |name| => up(name[i]))
  }

  predicate Less(a: Text, b: Text) {
    b != [] && (a == [] || a[0] < b[0] || (a[0] == b[0] && Less(a[1..], b[1..])))
  }

  lemma {:induction false} LessIsIrreflexive(a: Text)
    ensures !Less(a, a)
  {
    if a != [] {
      LessIsIrreflexive(a[1..]);
    }
  }

  lemma {:induction false} LessIsTransitive(a: Text, b: Text, c: Text)
    requires Less(a, b) && Less(b, c)
    ensures Less(a, c)
  {
    if a != [] && a[0] == b[0] == c[0] {
      LessIsTransitive(a[1..], b[1..], c[1..]);
    }
  }

  lemma {:induction false} LessIsTotal(a: Text, b: Text)
    ensures Less(a, b) || Less(b, a) || a == b
  {
    if a != [] && b != [] && a[0] == b[0] {
      LessIsTotal(a[1..], b[1..]);
      assert a == [a[0]] + a[1..] && b == [b[0]] + b[1..];
    }
  }

  // ---------- Environments as maps of folded names ----------

  function Find(up: u16 -> u16, env: seq<Entry>, key: Text): Option<Entry> {
    if env == [] then None
    else if Key(up, env[0].0) == key then Some(env[0])
    else Find(up, env[1..], key)
  }

  function Without(up: u16 -> u16, env: seq<Entry>, key: Text): seq<Entry> {
    if env == [] then []
    else if Key(up, env[0].0) == key then Without(up, env[1..], key)
    else [env[0]] + Without(up, env[1..], key)
  }

  lemma {:induction false} FindWithout(up: u16 -> u16, env: seq<Entry>, gone: Text, key: Text)
    ensures Find(up, Without(up, env, gone), key) == if key == gone then None else Find(up, env, key)
  {
    if env != [] {
      FindWithout(up, env[1..], gone, key);
    }
  }

  lemma {:induction false} FindPushed(up: u16 -> u16, env: seq<Entry>, e: Entry, key: Text)
    ensures Find(up, env + [e], key) ==
            if Find(up, env, key).Some? then Find(up, env, key)
            else if Key(up, e.0) == key then Some(e) else None
  {
    if env == [] {
      assert env + [e] == [e];
    } else {
      assert (env + [e])[1..] == env[1..] + [e];
      FindPushed(up, env[1..], e, key);
    }
  }

  /** No two names equal under the comparison. */
  ghost predicate Unique(up: u16 -> u16, env: seq<Entry>) {
    env == [] || (Find(up, env[1..], Key(up, env[0].0)).None? && Unique(up, env[1..]))
  }

  lemma {:induction false} UniqueWithout(up: u16 -> u16, env: seq<Entry>, gone: Text)
    requires Unique(up, env)
    ensures Unique(up, Without(up, env, gone))
  {
    if env != [] {
      UniqueWithout(up, env[1..], gone);
      FindWithout(up, env[1..], gone, Key(up, env[0].0));
    }
  }

  lemma {:induction false} UniquePushed(up: u16 -> u16, env: seq<Entry>, e: Entry)
    requires Unique(up, env) && Find(up, env, Key(up, e.0)).None?
    ensures Unique(up, env + [e])
  {
    if env == [] {
      assert (env + [e])[1..] == [];
    } else {
      assert (env + [e])[1..] == env[1..] + [e];
      UniquePushed(up, env[1..], e);
      FindPushed(up, env[1..], e, Key(up, env[0].0));
    }
  }

  /** `retain` followed by `push`. */
  function Bind(up: u16 -> u16, env: seq<Entry>, e: Entry): seq<Entry> {
    Without(up, env, Key(up, e.0)) + [e]
  }

  lemma FindBound(up: u16 -> u16, env: seq<Entry>, e: Entry, key: Text)
    ensures Find(up, Bind(up, env, e), key) == if Key(up, e.0) == key then Some(e) else Find(up, env, key)
  {
    FindWithout(up, env, Key(up, e.0), key);
    FindPushed(up, Without(up, env, Key(up, e.0)), e, key);
  }

  lemma UniqueBound(up: u16 -> u16, env: seq<Entry>, e: Entry)
    requires Unique(up, env)
    ensures Unique(up, Bind(up, env, e))
  {
    UniqueWithout(up, env, Key(up, e.0));
    FindWithout(up, env, Key(up, e.0), Key(up, e.0));
    UniquePushed(up, Without(up, env, Key(up, e.0)), e);
  }

  // ---------- What a name is bound to ----------

  function LastInherited(up: u16 -> u16, inherited: seq<Entry>, key: Text): Option<Entry> {
    if inherited == [] then None else
    var last := inherited[|inherited| - 1];
    if Key(up, last.0) == key then Some(last) else LastInherited(up, inherited[..|inherited| - 1], key)
  }

  function LastSet(up: u16 -> u16, overrides: seq<Override>, key: Text): Option<Entry> {
    if overrides == [] then None else
    var last := overrides[|overrides| - 1];
    if last.1.Some? && Key(up, last.0) == key then Some((last.0, last.1.value))
    else LastSet(up, overrides[..|overrides| - 1], key)
  }

  ghost predicate Removed(up: u16 -> u16, overrides: seq<Override>, key: Text) {
    exists i :: 0 <= i < |overrides| && overrides[i].1.None? && Key(up, overrides[i].0) == key
  }

  /** The last override that sets the name, else nothing if some override removes it, else its last inherited value. */
  ghost function Binding(up: u16 -> u16, inherited: seq<Entry>, overrides: seq<Override>, key: Text): Option<Entry> {
    if LastSet(up, overrides, key).Some? then LastSet(up, overrides, key)
    else if Removed(up, overrides, key) then None
    else LastInherited(up, inherited, key)
  }

  // ---------- Sorting ----------

  ghost predicate Sorted(up: u16 -> u16, env: seq<Entry>) {
    forall i, j :: 0 <= i < j < |env| ==> Less(Key(up, env[i].0), Key(up, env[j].0))
  }

  function Insert(up: u16 -> u16, env: seq<Entry>, e: Entry): (r: seq<Entry>)
    ensures |r| == |env| + 1
  {
    if env == [] then [e]
    else if Less(Key(up, e.0), Key(up, env[0].0)) then [e] + env
    else [env[0]] + Insert(up, env[1..], e)
  }

  /** The standard stable sort; as the names are unique here, `SortedIsDetermined` makes any sort the same. */
  function Sort(up: u16 -> u16, env: seq<Entry>): (r: seq<Entry>)
    ensures |r| == |env|
  {
    if env == [] then [] else Insert(up, Sort(up, env[..|env| - 1]), env[|env| - 1])
  }

  lemma {:induction false} FindInserted(up: u16 -> u16, env: seq<Entry>, e: Entry, key: Text)
    requires Find(up, env, Key(up, e.0)).None?
    ensures Find(up, Insert(up, env, e), key) == if Key(up, e.0) == key then Some(e) else Find(up, env, key)
  {
    if env != [] && !Less(Key(up, e.0), Key(up, env[0].0)) {
      FindInserted(up, env[1..], e, key);
      var r := Insert(up, env, e);
      assert r[0] == env[0] && r[1..] == Insert(up, env[1..], e);
    } else {
      assert ([e] + env)[1..] == env;
    }
  }

  lemma {:induction false} FindMember(up: u16 -> u16, env: seq<Entry>, i: nat)
    requires i < |env|
    ensures Find(up, env, Key(up, env[i].0)).Some?
  {
    if i > 0 {
      FindMember(up, env[1..], i - 1);
    }
  }

  ghost predicate Above(up: u16 -> u16, env: seq<Entry>, key: Text) {
    forall i :: 0 <= i < |env| ==> Less(key, Key(up, env[i].0))
  }

  lemma SortedCons(up: u16 -> u16, e: Entry, env: seq<Entry>)
    ensures Sorted(up, [e] + env) <==> Above(up, env, Key(up, e.0)) && Sorted(up, env)
  {
    var all := [e] + env;
    if Sorted(up, all) {
      forall i | 0 <= i < |env|
        ensures Less(Key(up, e.0), Key(up, env[i].0))
      {
        assert all[0] == e && all[i + 1] == env[i];
      }
      forall i, j | 0 <= i < j < |env|
        ensures Less(Key(up, env[i].0), Key(up, env[j].0))
      {
        assert all[i + 1] == env[i] && all[j + 1] == env[j];
      }
    }
  }

  lemma {:induction false} AboveInserted(up: u16 -> u16, env: seq<Entry>, e: Entry, key: Text)
    requires Above(up, env, key) && Less(key, Key(up, e.0))
    ensures Above(up, Insert(up, env, e), key)
  {
    if env != [] && !Less(Key(up, e.0), Key(up, env[0].0)) {
      AboveInserted(up, env[1..], e, key);
    }
  }

  lemma {:induction false} SortedInserted(up: u16 -> u16, env: seq<Entry>, e: Entry)
    requires Sorted(up, env) && Find(up, env, Key(up, e.0)).None?
    ensures Sorted(up, Insert(up, env, e))
  {
    var key := Key(up, e.0);
    if env == [] {
    } else {
      assert env == [env[0]] + env[1..];
      SortedCons(up, env[0], env[1..]);
      if Less(key, Key(up, env[0].0)) {
        forall i | 0 <= i < |env|
          ensures Less(key, Key(up, env[i].0))
        {
          if i > 0 {
            LessIsTransitive(key, Key(up, env[0].0), Key(up, env[i].0));
          }
        }
        SortedCons(up, e, env);
      } else {
        LessIsTotal(key, Key(up, env[0].0));
        SortedInserted(up, env[1..], e);
        AboveInserted(up, env[1..], e, Key(up, env[0].0));
        SortedCons(up, env[0], Insert(up, env[1..], e));
      }
    }
  }

  lemma {:induction false} UniqueInit(up: u16 -> u16, env: seq<Entry>)
    requires env != [] && Unique(up, env)
    ensures Unique(up, env[..|env| - 1]) && Find(up, env[..|env| - 1], Key(up, env[|env| - 1].0)).None?
  {
    if |env| > 1 {
      var rest := env[1..];
      UniqueInit(up, rest);
      var init := env[..|env| - 1];
      assert init[1..] == rest[..|rest| - 1] && rest[|rest| - 1] == env[|env| - 1];
      FindPushed(up, rest[..|rest| - 1], rest[|rest| - 1], Key(up, env[0].0));
      assert rest == rest[..|rest| - 1] + [rest[|rest| - 1]];
    }
  }

  lemma SortedNil(up: u16 -> u16)
    ensures Sorted(up, [])
  {
  }

  lemma {:induction false} SortIsSorted(up: u16 -> u16, env: seq<Entry>)
    requires Unique(up, env)
    ensures Sorted(up, Sort(up, env))
    ensures forall key :: Find(up, Sort(up, env), key) == Find(up, env, key)
  {
    hide Sorted, Unique, Find, Insert, Key;
    if env == [] {
      SortedNil(up);
    } else {
      var init, last := env[..|env| - 1], env[|env| - 1];
      UniqueInit(up, env);
      SortIsSorted(up, init);
      SortedInserted(up, Sort(up, init), last);
      assert env == init + [last];
      forall key
        ensures Find(up, Sort(up, env), key) == Find(up, env, key)
      {
        FindInserted(up, Sort(up, init), last, key);
        FindPushed(up, init, last, key);
      }
    }
  }

  lemma {:induction false} AboveIsAbsent(up: u16 -> u16, env: seq<Entry>, key: Text, least: Text)
    requires Above(up, env, least) && (key == least || Less(key, least))
    ensures Find(up, env, key).None?
  {
    if env != [] {
      if key != least {
        LessIsTransitive(key, least, Key(up, env[0].0));
      }
      LessIsIrreflexive(key);
      AboveIsAbsent(up, env[1..], key, least);
    }
  }

  /** A sorted environment is determined by its bindings. */
  lemma {:induction false} SortedIsDetermined(up: u16 -> u16, a: seq<Entry>, b: seq<Entry>)
    requires Sorted(up, a) && Sorted(up, b)
    requires forall key :: Find(up, a, key) == Find(up, b, key)
    ensures a == b
  {
    assert a != [] ==> Find(up, a, Key(up, a[0].0)).Some?;
    assert b != [] ==> Find(up, b, Key(up, b[0].0)).Some?;
    if a != [] && b != [] {
      SameHead(up, a, b);
      assert a == [a[0]] + a[1..] && b == [b[0]] + b[1..];
      SortedCons(up, a[0], a[1..]);
      SortedCons(up, b[0], b[1..]);
      forall key
        ensures Find(up, a[1..], key) == Find(up, b[1..], key)
      {
        if key == Key(up, a[0].0) {
          AboveIsAbsent(up, a[1..], key, key);
          AboveIsAbsent(up, b[1..], key, key);
        } else {
          assert Find(up, a, key) == Find(up, b, key);
        }
      }
      SortedIsDetermined(up, a[1..], b[1..]);
    }
  }

  lemma SameHead(up: u16 -> u16, a: seq<Entry>, b: seq<Entry>)
    requires a != [] && b != [] && Sorted(up, a) && Sorted(up, b)
    requires forall key :: Find(up, a, key) == Find(up, b, key)
    ensures a[0] == b[0]
  {
    var ka, kb := Key(up, a[0].0), Key(up, b[0].0);
    assert a == [a[0]] + a[1..] && b == [b[0]] + b[1..];
    SortedCons(up, a[0], a[1..]);
    SortedCons(up, b[0], b[1..]);
    LessIsTotal(ka, kb);
    assert Find(up, a, ka) == Some(a[0]) && Find(up, b, kb) == Some(b[0]);
    if Less(ka, kb) {
      LessIsIrreflexive(ka);
      AboveIsAbsent(up, b[1..], ka, kb);
    } else if Less(kb, ka) {
      LessIsIrreflexive(kb);
      AboveIsAbsent(up, a[1..], kb, ka);
    }
  }

  // ---------- The merge, name by name ----------

  /** Equal but for case. */
  predicate SameName(up: u16 -> u16, a: Text, b: Text) {
    |a| == |b| && forall i :: 0 <= i < |a| ==> up(a[i]) == up(b[i])
  }

  /** The first `k` units agree but for case, and then `a` ends or has the smaller unit. */
  predicate BeforeAt(up: u16 -> u16, a: Text, b: Text, k: nat) {
    && k <= |a| && k < |b|
    && (forall i :: 0 <= i < k ==> up(a[i]) == up(b[i]))
    && (k == |a| || up(a[k]) < up(b[k]))
  }

  ghost predicate Before(up: u16 -> u16, a: Text, b: Text) {
    exists k: nat :: BeforeAt(up, a, b, k)
  }

  /** This override sets the name to the value, and no later one sets it. */
  predicate SetLast(up: u16 -> u16, overrides: seq<Override>, e: Entry, j: nat) {
    && j < |overrides| && overrides[j] == (e.0, Some(e.1))
    && forall k :: j < k < |overrides| && overrides[k].1.Some? ==> !SameName(up, overrides[k].0, e.0)
  }

  /** This inherited entry is not followed by one of the same name. */
  predicate InheritedLast(up: u16 -> u16, inherited: seq<Entry>, e: Entry, i: nat) {
    && i < |inherited| && inherited[i] == e
    && forall k :: i < k < |inherited| ==> !SameName(up, inherited[k].0, e.0)
  }

  /** The last value set for a name, or the last one inherited if no override mentions the name. */
  ghost predicate Chosen(up: u16 -> u16, inherited: seq<Entry>, overrides: seq<Override>, e: Entry) {
    || (exists j: nat :: SetLast(up, overrides, e, j))
    || ((forall k :: 0 <= k < |overrides| ==> !SameName(up, overrides[k].0, e.0)) &&
        exists i: nat :: InheritedLast(up, inherited, e, i))
  }

  /** The result holds exactly the chosen entries, in the order of their names, so no two have the same name. */
  ghost predicate IsMerge(up: u16 -> u16, inherited: seq<Entry>, overrides: seq<Override>, env: seq<Entry>) {
    && (forall e :: e in env <==> Chosen(up, inherited, overrides, e))
    && forall i, j :: 0 <= i < j < |env| ==> Before(up, env[i].0, env[j].0)
  }

  lemma KeyExactly(up: u16 -> u16, a: Text, b: Text)
    ensures Key(up, a) == Key(up, b) <==> SameName(up, a, b)
  {
    if Key(up, a) == Key(up, b) {
      assert forall i :: 0 <= i < |a| ==> up(a[i]) == Key(up, a)[i] && up(b[i]) == Key(up, b)[i];
    }
  }

  lemma {:induction false} LessExactly(up: u16 -> u16, a: Text, b: Text)
    ensures Less(Key(up, a), Key(up, b)) <==> Before(up, a, b)
  {
    if b == [] {
    } else if a == [] {
      assert BeforeAt(up, a, b, 0);
    } else {
      assert Key(up, a)[1..] == Key(up, a[1..]) && Key(up, b)[1..] == Key(up, b[1..]);
      LessExactly(up, a[1..], b[1..]);
      BeforeTail(up, a, b);
    }
  }

  lemma BeforeTail(up: u16 -> u16, a: Text, b: Text)
    requires a != [] && b != []
    ensures Before(up, a, b) <==> up(a[0]) < up(b[0]) || (up(a[0]) == up(b[0]) && Before(up, a[1..], b[1..]))
  {
    if up(a[0]) < up(b[0]) {
      assert BeforeAt(up, a, b, 0);
    }
    if k: nat :| BeforeAt(up, a, b, k) {
      assert k > 0 ==> BeforeAt(up, a[1..], b[1..], k - 1);
    }
    if k: nat :| up(a[0]) == up(b[0]) && BeforeAt(up, a[1..], b[1..], k) {
      forall i | 0 <= i < k + 1 ensures up(a[i]) == up(b[i]) {
        assert i > 0 ==> a[i] == a[1..][i - 1] && b[i] == b[1..][i - 1];
      }
      assert BeforeAt(up, a, b, k + 1);
    }
  }

  lemma SortedExactly(up: u16 -> u16, env: seq<Entry>)
    ensures Sorted(up, env) <==> forall i, j :: 0 <= i < j < |env| ==> Before(up, env[i].0, env[j].0)
  {
    forall i, j | 0 <= i < j < |env|
      ensures Less(Key(up, env[i].0), Key(up, env[j].0)) <==> Before(up, env[i].0, env[j].0)
    {
      LessExactly(up, env[i].0, env[j].0);
    }
  }

  lemma {:induction false} FindExactly(up: u16 -> u16, env: seq<Entry>, e: Entry)
    requires Sorted(up, env)
    ensures Find(up, env, Key(up, e.0)) == Some(e) <==> e in env
  {
    if env != [] {
      assert env == [env[0]] + env[1..];
      SortedCons(up, env[0], env[1..]);
      FindExactly(up, env[1..], e);
      if e in env[1..] && Key(up, env[0].0) == Key(up, e.0) {
        LessIsIrreflexive(Key(up, e.0));
      }
    }
  }

  lemma {:induction false} LastSetExactly(up: u16 -> u16, overrides: seq<Override>, e: Entry)
    ensures LastSet(up, overrides, Key(up, e.0)) == Some(e) <==> exists j: nat :: SetLast(up, overrides, e, j)
  {
    if overrides != [] {
      var n, init := |overrides| - 1, overrides[..|overrides| - 1];
      var last := overrides[n];
      LastSetExactly(up, init, e);
      KeyExactly(up, last.0, e.0);
      if last == (e.0, Some(e.1)) {
        assert SetLast(up, overrides, e, n);
      }
      if j: nat :| SetLast(up, init, e, j) && !(last.1.Some? && SameName(up, last.0, e.0)) {
        assert SetLast(up, overrides, e, j);
      }
      if j: nat :| SetLast(up, overrides, e, j) && j < n {
        assert SetLast(up, init, e, j);
      }
    }
  }

  lemma {:induction false} LastSetKeeps(up: u16 -> u16, overrides: seq<Override>, key: Text)
    ensures var found := LastSet(up, overrides, key);
            && (found.Some? ==> Key(up, found.value.0) == key)
            && (found.None? <==> forall k :: 0 <= k < |overrides| && overrides[k].1.Some? ==> Key(up, overrides[k].0) != key)
  {
    if overrides != [] {
      var n := |overrides| - 1;
      LastSetKeeps(up, overrides[..n], key);
      assert forall k :: 0 <= k < n ==> overrides[k] == overrides[..n][k];
    }
  }

  lemma {:induction false} LastInheritedExactly(up: u16 -> u16, inherited: seq<Entry>, e: Entry)
    ensures LastInherited(up, inherited, Key(up, e.0)) == Some(e) <==> exists i: nat :: InheritedLast(up, inherited, e, i)
  {
    if inherited != [] {
      var n, init := |inherited| - 1, inherited[..|inherited| - 1];
      LastInheritedExactly(up, init, e);
      KeyExactly(up, inherited[n].0, e.0);
      if inherited[n] == e {
        assert InheritedLast(up, inherited, e, n);
      }
      if i: nat :| InheritedLast(up, init, e, i) && !SameName(up, inherited[n].0, e.0) {
        assert InheritedLast(up, inherited, e, i);
      }
      if i: nat :| InheritedLast(up, inherited, e, i) && i < n {
        assert InheritedLast(up, init, e, i);
      }
    }
  }

  lemma {:induction false} LastInheritedKeeps(up: u16 -> u16, inherited: seq<Entry>, key: Text)
    ensures var found := LastInherited(up, inherited, key); found.Some? ==> Key(up, found.value.0) == key
  {
    if inherited != [] {
      LastInheritedKeeps(up, inherited[..|inherited| - 1], key);
    }
  }

  lemma BindingExactly(up: u16 -> u16, inherited: seq<Entry>, overrides: seq<Override>, e: Entry)
    ensures Binding(up, inherited, overrides, Key(up, e.0)) == Some(e) <==> Chosen(up, inherited, overrides, e)
  {
    hide LastSet, LastInherited, Key, SetLast, InheritedLast;
    var key := Key(up, e.0);
    LastSetExactly(up, overrides, e);
    LastSetKeeps(up, overrides, key);
    LastInheritedExactly(up, inherited, e);
    forall k | 0 <= k < |overrides| ensures Key(up, overrides[k].0) == key <==> SameName(up, overrides[k].0, e.0) {
      KeyExactly(up, overrides[k].0, e.0);
    }
    if j: nat :| SetLast(up, overrides, e, j) {
      assert LastSet(up, overrides, key).Some?;
    }
  }

  lemma BindingKeeps(up: u16 -> u16, inherited: seq<Entry>, overrides: seq<Override>, key: Text)
    ensures var found := Binding(up, inherited, overrides, key); found.Some? ==> Key(up, found.value.0) == key
  {
    LastSetKeeps(up, overrides, key);
    LastInheritedKeeps(up, inherited, key);
  }

  lemma {:induction false} FindKeeps(up: u16 -> u16, env: seq<Entry>, key: Text)
    ensures var found := Find(up, env, key); found.Some? ==> Key(up, found.value.0) == key
  {
    if env != [] {
      FindKeeps(up, env[1..], key);
    }
  }

  /** What the loops compute, sorted and bound key by key, is the merge. */
  lemma MergeExactly(up: u16 -> u16, inherited: seq<Entry>, overrides: seq<Override>, env: seq<Entry>)
    ensures IsMerge(up, inherited, overrides, env) <==>
            Sorted(up, env) && forall key :: Find(up, env, key) == Binding(up, inherited, overrides, key)
  {
    hide Sorted, Find, Binding, Chosen, Key, Before;
    SortedExactly(up, env);
    if Sorted(up, env) {
      forall e: Entry ensures Find(up, env, Key(up, e.0)) == Some(e) <==> e in env {
        FindExactly(up, env, e);
      }
      forall e: Entry
        ensures Binding(up, inherited, overrides, Key(up, e.0)) == Some(e) <==> Chosen(up, inherited, overrides, e)
      {
        BindingExactly(up, inherited, overrides, e);
      }
      if IsMerge(up, inherited, overrides, env) {
        forall key ensures Find(up, env, key) == Binding(up, inherited, overrides, key) {
          SameAtKey(up, inherited, overrides, env, key);
        }
      }
    }
  }

  lemma SameAtKey(up: u16 -> u16, inherited: seq<Entry>, overrides: seq<Override>, env: seq<Entry>, key: Text)
    requires Sorted(up, env) && forall e :: e in env <==> Chosen(up, inherited, overrides, e)
    ensures Find(up, env, key) == Binding(up, inherited, overrides, key)
  {
    hide Sorted, Find, Binding, Chosen, Key;
    var found, bound := Find(up, env, key), Binding(up, inherited, overrides, key);
    FindKeeps(up, env, key);
    BindingKeeps(up, inherited, overrides, key);
    if found.Some? {
      FindExactly(up, env, found.value);
      BindingExactly(up, inherited, overrides, found.value);
    }
    if bound.Some? {
      FindExactly(up, env, bound.value);
      BindingExactly(up, inherited, overrides, bound.value);
    }
  }

  // ---------- The loops ----------

  lemma NoEqualNames(up: u16 -> u16, inherited: seq<Entry>, overrides: seq<Override>, env: seq<Entry>, i: nat, j: nat)
    requires IsMerge(up, inherited, overrides, env) && i < j < |env|
    ensures !SameName(up, env[i].0, env[j].0)
  {
    var k: nat :| BeforeAt(up, env[i].0, env[j].0, k);
  }

  lemma MergeIsDetermined(
    up: u16 -> u16, inherited: seq<Entry>, overrides: seq<Override>, a: seq<Entry>, b: seq<Entry>)
    requires IsMerge(up, inherited, overrides, a) && IsMerge(up, inherited, overrides, b)
    ensures a == b
  {
    hide IsMerge;
    MergeExactly(up, inherited, overrides, a);
    MergeExactly(up, inherited, overrides, b);
    forall key
      ensures Find(up, a, key) == Find(up, b, key)
    {
      assert Find(up, a, key) == Binding(up, inherited, overrides, key);
    }
    SortedIsDetermined(up, a, b);
  }

  method MergeInherited(up: u16 -> u16, inherited: seq<Entry>) returns (env: seq<Entry>)
    ensures Unique(up, env) && forall key :: Find(up, env, key) == LastInherited(up, inherited, key)
  {
    env := [];
    for i := 0 to |inherited|
      invariant Unique(up, env) && forall key :: Find(up, env, key) == LastInherited(up, inherited[..i], key)
    {
      var e := inherited[i];
      assert inherited[..i + 1][..i] == inherited[..i];
      UniqueBound(up, env, e);
      forall key
        ensures Find(up, Bind(up, env, e), key) == LastInherited(up, inherited[..i + 1], key)
      {
        FindBound(up, env, e, key);
      }
      env := Bind(up, env, e);
    }
    assert inherited[..|inherited|] == inherited;
  }

  lemma RemovedStep(up: u16 -> u16, overrides: seq<Override>, i: nat, key: Text)
    requires i < |overrides|
    ensures Removed(up, overrides[..i + 1], key) <==>
            Removed(up, overrides[..i], key) || (overrides[i].1.None? && Key(up, overrides[i].0) == key)
  {
    if Removed(up, overrides[..i], key) {
      var j :| 0 <= j < i && overrides[..i][j].1.None? && Key(up, overrides[..i][j].0) == key;
      assert overrides[..i + 1][j] == overrides[j];
    }
    if overrides[i].1.None? && Key(up, overrides[i].0) == key {
      assert overrides[..i + 1][i] == overrides[i];
    }
  }

  method ApplyRemovals(up: u16 -> u16, start: seq<Entry>, overrides: seq<Override>) returns (env: seq<Entry>)
    requires Unique(up, start)
    ensures Unique(up, env)
    ensures forall key :: Find(up, env, key) == if Removed(up, overrides, key) then None else Find(up, start, key)
  {
    hide Find, Unique, Removed, Key, Without;
    env := start;
    NothingRemoved(up);
    for i := 0 to |overrides|
      invariant Unique(up, env)
      invariant forall key ::
        Find(up, env, key) == if Removed(up, overrides[..i], key) then None else Find(up, start, key)
    {
      ghost var before := env;
      if overrides[i].1.None? {
        UniqueWithout(up, env, Key(up, overrides[i].0));
        env := Without(up, env, Key(up, overrides[i].0));
      }
      forall key
        ensures Find(up, env, key) ==
                if Removed(up, overrides[..i + 1], key) then None else Find(up, start, key)
      {
        RemovedStep(up, overrides, i, key);
        FindWithout(up, before, Key(up, overrides[i].0), key);
      }
    }
    assert overrides[..|overrides|] == overrides;
  }

  lemma NothingRemoved(up: u16 -> u16)
    ensures forall key :: !Removed(up, [], key)
  {
  }

  method ApplySets(up: u16 -> u16, start: seq<Entry>, overrides: seq<Override>) returns (env: seq<Entry>)
    requires Unique(up, start)
    ensures Unique(up, env)
    ensures forall key ::
              Find(up, env, key) ==
              if LastSet(up, overrides, key).Some? then LastSet(up, overrides, key) else Find(up, start, key)
  {
    hide Find, Unique, Key, Bind;
    env := start;
    for i := 0 to |overrides|
      invariant Unique(up, env)
      invariant forall key ::
        Find(up, env, key) ==
        if LastSet(up, overrides[..i], key).Some? then LastSet(up, overrides[..i], key) else Find(up, start, key)
    {
      ghost var before := env;
      assert overrides[..i + 1][..i] == overrides[..i];
      if overrides[i].1.Some? {
        var e := (overrides[i].0, overrides[i].1.value);
        UniqueBound(up, env, e);
        env := Bind(up, env, e);
        forall key
          ensures Find(up, env, key) == if Key(up, e.0) == key then Some(e) else Find(up, before, key)
        {
          FindBound(up, before, e, key);
        }
      }
    }
    assert overrides[..|overrides|] == overrides;
  }

  method MergeWindowsEnvironment(up: u16 -> u16, inherited: seq<Entry>, overrides: seq<Override>)
    returns (env: seq<Entry>)
    ensures IsMerge(up, inherited, overrides, env)
  {
    hide Sorted, Find, Unique, LastSet, LastInherited, Removed, IsMerge;
    env := MergeInherited(up, inherited);
    env := ApplyRemovals(up, env, overrides);
    env := ApplySets(up, env, overrides);
    SortIsSorted(up, env);
    env := Sort(up, env);
    MergeExactly(up, inherited, overrides, env);
  }

  // ---------- The environment block ----------

  function Encode(env: seq<Entry>): Text {
    if env == [] then [] else Encode(env[..|env| - 1]) + Line(env[|env| - 1])
  }

  function Line(e: Entry): Text {
    e.0 + [EQUALS] + e.1 + [NUL]
  }

  function Block(env: seq<Entry>): Text {
    Encode(env) + if env == [] then [NUL, NUL] else [NUL]
  }

  function IndexOf(s: Text, c: u16, from: nat): (i: nat)
    requires from <= |s|
    ensures from <= i <= |s| && (i < |s| ==> s[i] == c) && forall j :: from <= j < i ==> s[j] != c
    decreases |s| - from
  {
    if from == |s| || s[from] == c then from else IndexOf(s, c, from + 1)
  }

  /** The name ends at the first "=" after its first character, so that names such as "=C:" are names. */
  function ParseLine(line: Text): Option<Entry> {
    if line == [] then None else
    var i := IndexOf(line, EQUALS, 1);
    if i == |line| then None else Some((line[..i], line[i + 1..]))
  }

  /** The lines up to the empty one. */
  function ParseBlock(block: Text): Option<seq<Entry>>
    decreases |block|
  {
    var n := IndexOf(block, NUL, 0);
    if n == |block| then None
    else if n == 0 then Some([]) else
    var rest := ParseBlock(block[n + 1..]);
    if ParseLine(block[..n]).None? || rest.None? then None
    else Some([ParseLine(block[..n]).value] + rest.value)
  }

  ghost predicate Representable(name: Text) {
    name != [] && EQUALS !in name[1..]
  }

  predicate NulFree(e: Entry) {
    NUL !in e.0 && NUL !in e.1
  }

  lemma IndexIs(s: Text, c: u16, from: nat, i: nat)
    requires from <= i <= |s| && (i < |s| ==> s[i] == c) && forall j :: from <= j < i ==> s[j] != c
    ensures IndexOf(s, c, from) == i
  {
  }

  /** A line parses to its own entry exactly when the name is representable. */
  lemma LineRoundTrip(e: Entry)
    ensures ParseLine(e.0 + [EQUALS] + e.1) == Some(e) <==> Representable(e.0)
  {
    var line := e.0 + [EQUALS] + e.1;
    assert line != [];
    if Representable(e.0) {
      forall j | 1 <= j < |e.0|
        ensures line[j] != EQUALS
      {
        assert line[j] == e.0[1..][j - 1];
      }
      IndexIs(line, EQUALS, 1, |e.0|);
      assert line[..|e.0|] == e.0 && line[|e.0| + 1..] == e.1;
    } else if e.0 != [] {
      var k :| 0 <= k < |e.0[1..]| && e.0[1..][k] == EQUALS;
      assert line[k + 1] == EQUALS;
      assert IndexOf(line, EQUALS, 1) <= k + 1;
    }
  }

  lemma BlockStep(e: Entry, rest: Text)
    requires NulFree(e)
    ensures ParseBlock(Line(e) + rest) ==
            if ParseLine(e.0 + [EQUALS] + e.1).None? || ParseBlock(rest).None? then None
            else Some([ParseLine(e.0 + [EQUALS] + e.1).value] + ParseBlock(rest).value)
  {
    hide ParseLine;
    var text, block := e.0 + [EQUALS] + e.1, Line(e) + rest;
    assert block == text + [NUL] + rest;
    forall j | 0 <= j < |text|
      ensures block[j] != NUL
    {
      assert block[j] == text[j];
      assert text[j] in e.0 || text[j] == EQUALS || text[j] in e.1;
    }
    IndexIs(block, NUL, 0, |text|);
    assert block[..|text|] == text && block[|text| + 1..] == rest;
  }

  lemma {:induction false} EncodeCons(e: Entry, env: seq<Entry>)
    ensures Encode([e] + env) == Line(e) + Encode(env)
  {
    if env == [] {
      assert [e] + env == [e];
      assert [e][..0] == [];
    } else {
      var all := [e] + env;
      assert all[..|all| - 1] == [e] + env[..|env| - 1];
      EncodeCons(e, env[..|env| - 1]);
    }
  }

  /** A parsed block is the encoded environment exactly when every name is representable. */
  lemma {:induction false} LinesRoundTrip(env: seq<Entry>)
    requires forall i :: 0 <= i < |env| ==> NulFree(env[i])
    ensures ParseBlock(Encode(env) + [NUL]) == Some(env) <==> forall i :: 0 <= i < |env| ==> Representable(env[i].0)
  {
    hide ParseLine, Representable, Line, NulFree;
    if env == [] {
      assert Encode(env) + [NUL] == [NUL];
    } else {
      var e, rest := env[0], env[1..];
      assert env == [e] + rest;
      EncodeCons(e, rest);
      assert Encode(env) + [NUL] == Line(e) + (Encode(rest) + [NUL]);
      BlockStep(e, Encode(rest) + [NUL]);
      LineRoundTrip(e);
      LinesRoundTrip(rest);
      assert (forall i :: 0 <= i < |env| ==> Representable(env[i].0)) <==>
             Representable(e.0) && forall i :: 0 <= i < |rest| ==> Representable(rest[i].0);
      assert forall p: Entry, ps: seq<Entry> :: [p] + ps == env ==> p == e && ps == rest;
    }
  }

  lemma NothingEncoded()
    ensures Encode([]) == []
  {
  }

  lemma NothingEncodedExactly(env: seq<Entry>)
    ensures Encode(env) == [] <==> env == []
    ensures env == [] ==> Block(env) == Encode(env) + [NUL] + [NUL]
  {
  }

  lemma EncodeStep(env: seq<Entry>, i: nat)
    requires i < |env|
    ensures Encode(env[..i + 1]) == Encode(env[..i]) + (env[i].0 + [EQUALS] + env[i].1 + [NUL])
  {
    assert env[..i + 1][..i] == env[..i];
  }

  /** The block of an environment; None stands for the error of an embedded NUL. */
  function BlockOf(env: seq<Entry>): Option<Text> {
    if forall i :: 0 <= i < |env| ==> NulFree(env[i]) then Some(Block(env)) else None
  }

  method WindowsEnvironmentBlock(up: u16 -> u16, inherited: seq<Entry>, overrides: seq<Override>)
    returns (block: Option<Text>)
    ensures exists env :: IsMerge(up, inherited, overrides, env) && block == BlockOf(env)
  {
    hide IsMerge, Encode;
    var env := MergeWindowsEnvironment(up, inherited, overrides);
    var text := [];
    NothingEncoded();
    for i := 0 to |env|
      invariant text == Encode(env[..i]) && (i > 0 ==> text != [])
      invariant forall j :: 0 <= j < i ==> NulFree(env[j])
    {
      var (name, value) := env[i];
      if NUL in name || NUL in value {
        assert !NulFree(env[i]);
        assert BlockOf(env) == None;
        return None;
      }
      text := text + name;
      text := text + [EQUALS];
      text := text + value;
      text := text + [NUL];
      EncodeStep(env, i);
    }
    assert env[..|env|] == env && text == Encode(env);
    NothingEncodedExactly(env);
    if text == [] {
      text := text + [NUL];
    }
    text := text + [NUL];
    assert text == Block(env);
    return Some(text);
  }

  /** The block parses back to the environment exactly when every name is representable. */
  lemma BlockRoundTrip(env: seq<Entry>)
    requires forall i :: 0 <= i < |env| ==> NulFree(env[i])
    ensures ParseBlock(Block(env)) == Some(env) <==> forall i :: 0 <= i < |env| ==> Representable(env[i].0)
  {
    if env == [] {
      assert Block(env) == [NUL, NUL];
    } else {
      LinesRoundTrip(env);
    }
  }
}
