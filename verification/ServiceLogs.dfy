/** get-cache.go: the entries of one region, and why the tasks of a run own distinct region rows. */
module ServiceLogs {
  import opened Wrappers
  import opened Text
  import opened Keys
  import opened Tables
  import opened RegionHistory
  import opened SnapshotProtocol
  import opened SnapshotInvariant

  type AppDataMap = map<string, AppData>

  /** An entry is stored under the key printed from its own dash-free public key and chain. */
  predicate WellKeyed(apps: AppDataMap) {
    forall key | key in apps ::
      && key == AppDataKey(apps[key].publicKey, apps[key].chain)
      && Free('-', apps[key].publicKey) && Free('-', apps[key].chain)
  }

  function KeyOf(key: string): Option<string> {
    var parsed := PublicKeyAndChain(key);
    if parsed.None? then None else Some(AppDataKey(parsed.value.0, parsed.value.1))
  }

  function Rekeyed(log: AppData, parsed: (string, string)): AppData {
    log.(publicKey := parsed.0, chain := parsed.1)
  }

  /** The entries after reading the logs in order; None is the panic on a key without a dash after its brace. */
  function Gathered(keys: seq<string>, logs: seq<AppData>): Option<AppDataMap>
    requires |keys| == |logs|
  {
    if keys == [] then Some(map[])
    else
      var n := |keys| - 1;
      var before, parsed := Gathered(keys[..n], logs[..n]), PublicKeyAndChain(keys[n]);
      if before.None? || parsed.None? then None
      else Some(before.value[AppDataKey(parsed.value.0, parsed.value.1) := Rekeyed(logs[n], parsed.value)])
  }

  /** getServiceLogData: `logs` holds, for each key, the snapshot fields decoded from its service log. */
  method GetServiceLogData(keys: seq<string>, logs: seq<AppData>) returns (apps: Option<AppDataMap>)
    requires |keys| == |logs|
    ensures apps == Gathered(keys, logs)
  {
    var current: AppDataMap := map[];
    for i := 0 to |keys|
      invariant Gathered(keys[..i], logs[..i]) == Some(current)
    {
      assert keys[..i + 1][..i] == keys[..i] && logs[..i + 1][..i] == logs[..i];
      var parsed := PublicKeyAndChain(keys[i]);
      if parsed.None? {
        PanicStays(keys, logs, i + 1);
        return None;
      }
      current := current[AppDataKey(parsed.value.0, parsed.value.1) := Rekeyed(logs[i], parsed.value)];
    }
    assert keys[..|keys|] == keys && logs[..|logs|] == logs;
    apps := Some(current);
  }

  lemma {:induction false} PanicStays(keys: seq<string>, logs: seq<AppData>, i: nat)
    requires |keys| == |logs| && i <= |keys| && Gathered(keys[..i], logs[..i]).None?
    ensures Gathered(keys, logs).None?
  {
    if i == |keys| {
      assert keys[..i] == keys && logs[..i] == logs;
    } else {
      var n := |keys| - 1;
      assert keys[..n][..i] == keys[..i] && logs[..n][..i] == logs[..i];
      PanicStays(keys[..n], logs[..n], i);
    }
  }

  lemma {:induction false} GatheredPanics(keys: seq<string>, logs: seq<AppData>)
    requires |keys| == |logs|
    ensures Gathered(keys, logs).None? <==> exists i :: 0 <= i < |keys| && KeyOf(keys[i]).None?
  {
    if keys != [] {
      var n := |keys| - 1;
      GatheredPanics(keys[..n], logs[..n]);
      assert forall i | 0 <= i < n :: keys[..n][i] == keys[i];
      hide PublicKeyAndChain, Rekeyed;
    }
  }

  lemma {:induction false} GatheredWellKeyed(keys: seq<string>, logs: seq<AppData>)
    requires |keys| == |logs|
    ensures Gathered(keys, logs).Some? ==> WellKeyed(Gathered(keys, logs).value)
  {
    if keys != [] {
      GatheredWellKeyed(keys[..|keys| - 1], logs[..|keys| - 1]);
      hide PublicKeyAndChain;
    }
  }

  lemma {:induction false} GatheredEntry(keys: seq<string>, logs: seq<AppData>, key: string)
    requires |keys| == |logs| && Gathered(keys, logs).Some?
    ensures key in Gathered(keys, logs).value <==> exists i :: IsLast(keys, i, key)
    ensures forall i | IsLast(keys, i, key) ::
      var parsed := PublicKeyAndChain(keys[i]).value;
      Gathered(keys, logs).value[key] == logs[i].(publicKey := parsed.0, chain := parsed.1)
  {
    if keys != [] {
      var n := |keys| - 1;
      GatheredEntry(keys[..n], logs[..n], key);
      hide PublicKeyAndChain, AppDataKey, IsLast;
      forall i ensures IsLast(keys, i, key) <==>
        if KeyOf(keys[n]) == Some(key) then i == n else IsLast(keys[..n], i, key)
      {
        LastOneMore(keys, i, key);
      }
      if KeyOf(keys[n]) == Some(key) {
        assert IsLast(keys, n, key);
      } else {
        LastInRange(keys[..n], key);
      }
    }
  }

  lemma LastInRange(keys: seq<string>, key: string)
    ensures forall i | IsLast(keys, i, key) :: 0 <= i < |keys|
  {
  }

  /**
   What is gathered: well-keyed entries, one for each (node, chain) among the keys and no other, holding the last log
   of that pair; and a panic exactly when some key cannot be parsed.
   */
  lemma GatheredMeans(keys: seq<string>, logs: seq<AppData>)
    requires |keys| == |logs|
    ensures Gathered(keys, logs).None? <==> exists i :: 0 <= i < |keys| && KeyOf(keys[i]).None?
    ensures Gathered(keys, logs).Some? ==> WellKeyed(Gathered(keys, logs).value)
    ensures Gathered(keys, logs).Some? ==> forall key ::
      key in Gathered(keys, logs).value <==> exists i :: IsLast(keys, i, key)
    ensures Gathered(keys, logs).Some? ==> forall i, key | IsLast(keys, i, key) ::
      var parsed := PublicKeyAndChain(keys[i]).value;
      Gathered(keys, logs).value[key] == logs[i].(publicKey := parsed.0, chain := parsed.1)
  {
    GatheredPanics(keys, logs);
    GatheredWellKeyed(keys, logs);
    hide Gathered, WellKeyed, PublicKeyAndChain;
    if Gathered(keys, logs).Some? {
      forall key
        ensures key in Gathered(keys, logs).value <==> exists i :: IsLast(keys, i, key)
        ensures forall i | IsLast(keys, i, key) ::
          var parsed := PublicKeyAndChain(keys[i]).value;
          Gathered(keys, logs).value[key] == logs[i].(publicKey := parsed.0, chain := parsed.1)
      {
        GatheredEntry(keys, logs, key);
      }
    }
  }

  /** Key `i` prints to `key`, and no later one does. */
  ghost predicate IsLast(keys: seq<string>, i: int, key: string) {
    0 <= i < |keys| && KeyOf(keys[i]) == Some(key) && forall j | i < j < |keys| :: KeyOf(keys[j]) != Some(key)
  }

  lemma LastOneMore(keys: seq<string>, i: int, key: string)
    requires keys != []
    ensures var n := |keys| - 1;
      IsLast(keys, i, key) <==> if KeyOf(keys[n]) == Some(key) then i == n else IsLast(keys[..n], i, key)
  {
    var n := |keys| - 1;
    assert forall j | 0 <= j < n :: keys[..n][j] == keys[j];
  }

  predicate ValidateAppData(app: AppData) {
    app.publicKey != "" && app.sessionKey != "" && |app.publicKey| == 64
  }

  /** `tasks` are the valid entries of all regions, each once, in whatever order the maps are ranged over. */
  ghost predicate AreTasksOf(regions: map<string, AppDataMap>, tasks: seq<Task>, entries: seq<(string, string)>) {
    && |tasks| == |entries| && Distinct(entries)
    && forall i | 0 <= i < |tasks| ::
         var (region, key) := entries[i];
         region in regions && key in regions[region] && tasks[i] == Task(region, regions[region][key])
         && ValidateAppData(tasks[i].app)
  }

  /** Entries gathered from well-keyed regions give a well-formed run: no two tasks share a region row. */
  lemma TasksAreWellFormed(
    regions: map<string, AppDataMap>, tasks: seq<Task>, entries: seq<(string, string)>, concurrency: nat)
    requires forall r | r in regions :: WellKeyed(regions[r])
    requires AreTasksOf(regions, tasks, entries) && concurrency >= 1
    ensures WellFormed(Config(tasks, concurrency))
    ensures forall i | 0 <= i < |tasks| :: |tasks[i].app.publicKey| == 64 && tasks[i].app.sessionKey != ""
  {
    forall i | 0 <= i < |tasks| ensures DashFree(tasks[i].Session()) {
      EntryOf(regions, tasks, entries, i);
    }
    forall i, j | 0 <= i < j < |tasks| ensures tasks[i].Row() != tasks[j].Row() {
      EntryOf(regions, tasks, entries, i);
      EntryOf(regions, tasks, entries, j);
      assert entries[i] != entries[j];
    }
  }

  lemma EntryOf(regions: map<string, AppDataMap>, tasks: seq<Task>, entries: seq<(string, string)>, i: nat)
    requires forall r | r in regions :: WellKeyed(regions[r])
    requires AreTasksOf(regions, tasks, entries) && i < |tasks|
    ensures entries[i] == (tasks[i].region, AppDataKey(tasks[i].app.publicKey, tasks[i].app.chain))
    ensures DashFree(tasks[i].Session())
  {
    assert WellKeyed(regions[entries[i].0]);
  }
}
