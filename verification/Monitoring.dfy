/** PMM monitoring: the token kept in agreement across secrets, and the field index
    that decides which Instances a MonitoringConfig event wakes up. */
module Monitoring {
  import opened Kube
  import opened Instances
  import T = Translation

  type Data = map<string, string>

  const TOKEN := "pmmservertoken"

  // --------------------------------------------------------------- merge patches

  /** A JSON merge patch (RFC 7396, section 2) of a secret's data: None removes. */
  type Patch = map<string, Option<string>>

  /** MergeFrom: what turns one version into the other, and nothing else. */
  function Difference(from: Data, to: Data): Patch {
    map k | k in from.Keys + to.Keys && !(k in from && k in to && from[k] == to[k]) ::
      if k in to then Some(to[k]) else None
  }

  function Patched(d: Data, p: Patch): Data {
    map k | k in d.Keys + p.Keys && (k in p ==> p[k].Some?) :: if k in p then p[k].value else d[k]
  }

  function PatchedAll(d: Data, ps: seq<Patch>): Data
    decreases |ps|
  {
    if ps == [] then d else PatchedAll(Patched(d, ps[0]), ps[1..])
  }

  lemma PatchedDifference(from: Data, to: Data)
    ensures Patched(from, Difference(from, to)) == to
  {
  }

  /** The patch of ensurePMMToken, made from the copy it read, carries the token alone. */
  function TokenPatch(copy: Data, key: string): (p: Patch)
    ensures HasToken(copy, key) ==> p == map[]
    ensures !HasToken(copy, key) ==> p == map[TOKEN := Some(key)]
  {
    Difference(copy, copy[TOKEN := key])
  }

  lemma DisjointPatchesCommute(d: Data, p: Patch, q: Patch)
    requires p.Keys !! q.Keys
    ensures Patched(Patched(d, p), q) == Patched(Patched(d, q), p)
  {
  }

  /** What the other writers sent. */
  function Others(ps: seq<Patch>): seq<Patch> {
    if ps == [] then [] else (if TOKEN in ps[0] then [] else [ps[0]]) + Others(ps[1..])
  }

  /** However token patches interleave with writers that leave the token alone, the
      secret ends up with what the others wrote, and with the token once it was sent. */
  lemma {:induction false} TokenAmongWrites(d: Data, d': Data, ps: seq<Patch>, key: string)
    requires forall p :: p in ps ==> p == map[TOKEN := Some(key)] || TOKEN !in p
    requires d - {TOKEN} == d' - {TOKEN}
    ensures PatchedAll(d, ps) - {TOKEN} == PatchedAll(d', Others(ps)) - {TOKEN}
    ensures HasToken(d, key) || (exists p :: p in ps && TOKEN in p) ==> HasToken(PatchedAll(d, ps), key)
    decreases |ps|
  {
    if ps != [] {
      var p := ps[0];
      assert p in ps;
      var e := Patched(d, p);
      if TOKEN in p {
        assert e - {TOKEN} == d - {TOKEN};
        assert Others(ps) == Others(ps[1..]);
        TokenAmongWrites(e, d', ps[1..], key);
      } else {
        var e' := Patched(d', p);
        forall k | k != TOKEN
          ensures k in d <==> k in d'
          ensures k in d ==> d[k] == d'[k]
        {
          assert k in d - {TOKEN} <==> k in d' - {TOKEN};
          if k in d { assert (d - {TOKEN})[k] == (d' - {TOKEN})[k]; }
        }
        assert e - {TOKEN} == e' - {TOKEN};
        TokenAmongWrites(e, e', ps[1..], key);
        assert Others(ps) == [p] + Others(ps[1..]);
      }
    }
  }

  // ------------------------------------------------------------- PMM credentials

  predicate HasToken(d: Data, key: string) { TOKEN in d && d[TOKEN] == key }

  function ApiKey(secrets: map<string, Data>, credentials: string): Option<string> {
    if credentials in secrets && T.API_KEY in secrets[credentials] && secrets[credentials][T.API_KEY] != ""
    then Some(secrets[credentials][T.API_KEY]) else None
  }

  /** Each named secret that exists holds the key; everything else is as before. */
  ghost predicate Agreed(before: map<string, Data>, now: map<string, Data>, names: seq<string>, key: string) {
    now.Keys == before.Keys &&
    forall n :: n in before ==> now[n] == if n in names then before[n][TOKEN := key] else before[n]
  }

  /** The same, but not all of the named secrets may have been reached. */
  ghost predicate Spreading(before: map<string, Data>, now: map<string, Data>, names: seq<string>, key: string) {
    now.Keys == before.Keys &&
    forall n :: n in before ==> now[n] == before[n] || (n in names && now[n] == before[n][TOKEN := key])
  }

  /** The key that the secrets of a monitored Instance share; None if PMM is off or
      cannot be resolved. */
  function SharedKey(inst: Instance, w: World): Option<string> {
    if MONITORING !in inst.components then None
    else match T.MonitoringConfigName(inst.components[MONITORING])
      case Err(_) => None
      case Ok(config) =>
        if config == "" || config !in w.monitoring then None
        else ApiKey(w.secrets, w.monitoring[config].credentials)
  }

  /** The users secret and the operator's internal copy of it. */
  function TokenSecrets(name: string, secretsName: string): seq<string> {
    [if secretsName != "" then secretsName else name + "-secrets", "internal-" + name]
  }

  class Secrets {
    var data: map<string, Data>
    var calls: nat   // calls that still succeed
    var writes: nat  // patches sent so far

    /** ensurePMMToken: a missing secret is left for the next reconcile. */
    method EnsureToken(name: string, key: string) returns (ok: bool)
      modifies this
      ensures data == old(data) || (name in old(data) && data == old(data)[name := old(data)[name][TOKEN := key]])
      ensures ok && name in data ==> data[name] == old(data)[name][TOKEN := key]
      ensures name !in old(data) || HasToken(old(data)[name], key) ==> data == old(data) && writes == old(writes)
      ensures (old(calls) >= 2 ==> ok) && calls >= old(calls) - 2
    {
      if calls == 0 { return false; }
      calls := calls - 1;
      if name !in data { return true; }
      var secret := data[name];
      var update := TokenPatch(secret, key);
      assert Patched(secret, update) == secret[TOKEN := key] by { PatchedDifference(secret, secret[TOKEN := key]); }
      if update == map[] {
        assert secret[TOKEN := key] == secret;
        return true;
      }
      if calls == 0 { return false; }
      calls := calls - 1;
      data, writes := data[name := Patched(data[name], update)], writes + 1;
      ok := true;
    }

    /** syncPMMCredentials: after an error-free call every named secret that exists
        holds the API key and nothing else changed. A call that fails has done so for
        some of the secrets. When they agreed before, nothing is written. */
    method SyncCredentials(credentials: string, names: seq<string>) returns (ok: bool)
      modifies this
      ensures old(calls) > 2 * |names| && ApiKey(old(data), credentials).Some? ==> ok
      ensures var key := ApiKey(old(data), credentials);
              if key.None? then !ok && data == old(data) && writes == old(writes)
              else
                && Spreading(old(data), data, names, key.value)
                && (ok ==> Agreed(old(data), data, names, key.value))
                && (Agreed(old(data), old(data), names, key.value) ==> data == old(data) && writes == old(writes))
    {
      if calls == 0 { return false; }
      calls := calls - 1;
      if ApiKey(data, credentials).None? { return false; }
      var key := ApiKey(data, credentials).value;
      ghost var before := data;
      for i := 0 to |names|
        invariant data.Keys == before.Keys
        invariant old(calls) > 2 * |names| ==> calls >= 2 * (|names| - i)
        invariant forall n :: n in before ==>
                    data[n] == if n in names[..i] then before[n][TOKEN := key] else before[n]
        invariant Agreed(before, before, names, key) ==> data == before && writes == old(writes)
      {
        if Agreed(before, before, names, key) && names[i] in before {
          assert before[names[i]] == before[names[i]][TOKEN := key];
        }
        if names[i] in before {
          assert before[names[i]][TOKEN := key][TOKEN := key] == before[names[i]][TOKEN := key];
        }
        assert names[..i + 1] == names[..i] + [names[i]];
        ok := EnsureToken(names[i], key);
        if !ok { return; }
      }
      assert names[..|names|] == names;
      ok := true;
    }
  }

  /** Spelled out: the token is the key, and every other entry is as before. */
  lemma AgreedExact(before: map<string, Data>, now: map<string, Data>, names: seq<string>, key: string)
    ensures Agreed(before, now, names, key) <==>
              && now.Keys == before.Keys
              && (forall n :: n in before && n in names ==>
                    && HasKey(now[n], "pmmservertoken", key)
                    && now[n] - {"pmmservertoken"} == before[n] - {"pmmservertoken"})
              && (forall n :: n in before && n !in names ==> now[n] == before[n])
  {
    forall n | n in before && n in now
      ensures now[n] == before[n][TOKEN := key] <==>
                HasKey(now[n], "pmmservertoken", key) && now[n] - {"pmmservertoken"} == before[n] - {"pmmservertoken"}
    {
      UpdatedExact(before[n], now[n], "pmmservertoken", key);
    }
  }

  predicate HasKey(d: Data, name: string, value: string) { name in d && d[name] == value }

  lemma UpdatedExact(before: Data, now: Data, name: string, value: string)
    ensures now == before[name := value] <==> HasKey(now, name, value) && now - {name} == before - {name}
  {
    if HasKey(now, name, value) && now - {name} == before - {name} {
      forall k ensures (k in now <==> k in before[name := value]) && (k in now ==> now[k] == before[name := value][k]) {
        if k != name {
          assert k in now - {name} <==> k in before - {name};
          if k in now { assert (now - {name})[k] == (before - {name})[k]; }
        }
      }
    }
  }

  lemma AgreedStays(before: map<string, Data>, now: map<string, Data>, names: seq<string>, key: string)
    requires Agreed(before, now, names, key)
    ensures Agreed(now, now, names, key)
    ensures forall n :: n in names && n in now ==> HasToken(now[n], key)
  {
    forall n | n in now && n in names ensures now[n] == now[n][TOKEN := key] {
      assert now[n] == before[n][TOKEN := key];
    }
  }

  // ------------------------------------------------------------ the field index

  /** The extractor: the MonitoringConfig an Instance names, if any. */
  function IndexValue(inst: Instance): Option<string> {
    if MONITORING !in inst.components then None
    else match T.MonitoringConfigName(inst.components[MONITORING])
      case Err(_) => None
      case Ok(config) => if config == "" then None else Some(config)
  }

  /** The cache with its index on the extracted value, kept up to date event by event. */
  class Index {
    var instances: map<string, Instance>
    var buckets: map<string, set<string>>

    ghost predicate Valid()
      reads this
    {
      && (forall config :: config in buckets ==> buckets[config] != {})
      && (forall config, n :: (config in buckets && n in buckets[config])
                              <==> (n in instances && IndexValue(instances[n]) == Some(config)))
    }

    constructor ()
      ensures Valid() && instances == map[]
    {
      instances, buckets := map[], map[];
    }

    method Unlink(n: string, config: string)
      requires config in buckets && forall c :: c in buckets ==> buckets[c] != {}
      modifies this`buckets
      ensures forall c :: c in buckets ==> buckets[c] != {}
      ensures forall c, m :: (c in buckets && m in buckets[c])
                <==> (c in old(buckets) && m in old(buckets)[c] && !(c == config && m == n))
    {
      var rest := buckets[config] - {n};
      if rest == {} {
        assert forall m :: m in buckets[config] ==> m == n || m in rest;
        buckets := buckets - {config};
      } else {
        buckets := buckets[config := rest];
      }
    }

    /** Add and update events: the old entry goes, the new one comes. */
    method Store(n: string, inst: Instance)
      requires Valid()
      modifies this
      ensures Valid() && instances == old(instances)[n := inst]
    {
      if n in instances && IndexValue(instances[n]).Some? {
        var config := IndexValue(instances[n]).value;
        assert config in buckets && n in buckets[config];
        Unlink(n, config);
      }
      var value := IndexValue(inst);
      if value.Some? {
        var there := if value.value in buckets then buckets[value.value] else {};
        buckets := buckets[value.value := there + {n}];
      }
      instances := instances[n := inst];
    }

    method Remove(n: string)
      requires Valid()
      modifies this
      ensures Valid() && instances == old(instances) - {n}
    {
      if n in instances && IndexValue(instances[n]).Some? {
        var config := IndexValue(instances[n]).value;
        assert config in buckets && n in buckets[config];
        Unlink(n, config);
      }
      instances := instances - {n};
    }

    /** enqueueMonitoringConfig: wakes exactly this provider's Instances that name the
        MonitoringConfig, each once. */
    method Enqueue(config: string) returns (requests: seq<string>)
      requires Valid()
      ensures forall n :: n in requests <==>
                && n in instances && instances[n].provider == "percona-server-mysql"
                && IndexValue(instances[n]) == Some(config)
      ensures forall i, j :: 0 <= i < j < |requests| ==> requests[i] != requests[j]
    {
      requests := [];
      var listed := if config in buckets then buckets[config] else {};
      ghost var all := listed;
      assert forall n :: n in all <==> n in instances && IndexValue(instances[n]) == Some(config);
      while listed != {}
        invariant listed <= all
        invariant forall n :: n in requests <==> n in all - listed && instances[n].provider == PROVIDER
        invariant forall i, j :: 0 <= i < j < |requests| ==> requests[i] != requests[j]
        decreases |listed|
      {
        var n :| n in listed;
        listed := listed - {n};
        if instances[n].provider == PROVIDER { requests := requests + [n]; }
      }
    }
  }

  /** The same world with one MonitoringConfig changed, created or deleted. */
  predicate DifferOnlyAt(w: World, w': World, config: string) {
    w' == w.(monitoring := w'.monitoring) && w.monitoring - {config} == w'.monitoring - {config}
  }

  /** An Instance the event does not wake builds the same cluster as before. */
  lemma IndexCoversReads(name: string, inst: Instance, w: World, w': World, config: string)
    requires DifferOnlyAt(w, w', config) && IndexValue(inst) != Some(config)
    ensures T.BuildCluster(name, inst, w) == T.BuildCluster(name, inst, w')
  {
    SameElsewhere(w, w', config);
    forall spec ensures T.WithMonitoring(spec, name, inst, w) == T.WithMonitoring(spec, name, inst, w') { }
    SameEngine(name, inst, w, w');
    match T.EngineCluster(name, inst, w) {
      case Err(_) =>
      case Ok(c0) =>
        SameOrchestrator(c0, inst, w, w');
        match T.WithOrchestrator(c0, inst, w) {
          case Err(_) =>
          case Ok(c1) =>
            assert T.WithProxy(c1, inst, w) == T.WithProxy(c1, inst, w');
            forall spec ensures T.WithBackup(spec, inst, w) == T.WithBackup(spec, inst, w') {
              SameBackup(spec, inst, w, w');
            }
        }
    }
  }

  lemma SameElsewhere(w: World, w': World, config: string)
    requires DifferOnlyAt(w, w', config)
    ensures forall c :: c != config ==> (c in w.monitoring <==> c in w'.monitoring)
    ensures forall c :: c != config && c in w.monitoring ==> w.monitoring[c] == w'.monitoring[c]
  {
    forall c | c != config
      ensures c in w.monitoring <==> c in w'.monitoring
      ensures c in w.monitoring ==> w.monitoring[c] == w'.monitoring[c]
    {
      assert c in w.monitoring - {config} <==> c in w'.monitoring - {config};
      if c in w.monitoring { assert (w.monitoring - {config})[c] == (w'.monitoring - {config})[c]; }
    }
  }

  lemma SameEngine(name: string, inst: Instance, w: World, w': World)
    requires w' == w.(monitoring := w'.monitoring)
    ensures T.EngineCluster(name, inst, w) == T.EngineCluster(name, inst, w')
  {
  }

  lemma SameOrchestrator(spec: ClusterSpec, inst: Instance, w: World, w': World)
    requires w' == w.(monitoring := w'.monitoring)
    ensures T.WithOrchestrator(spec, inst, w) == T.WithOrchestrator(spec, inst, w')
  {
  }

  lemma {:induction false} SameStorages(b: BackupSpec, entries: seq<StorageEntry>, uid: string, w: World, w': World)
    requires w' == w.(monitoring := w'.monitoring)
    ensures T.RegisterStorages(b, entries, uid, w) == T.RegisterStorages(b, entries, uid, w')
    decreases |entries|
  {
    if entries != [] && T.StorageUsable(w, entries[0].storage) {
      match T.EnabledSchedules(entries[0].storage, entries[0].schedules) {
        case None =>
        case Some(schedules) =>
          var storage := OpStorage(T.TrimSlashes(w.storages[entries[0].storage].bucket), uid);
          SameStorages(b.(storages := b.storages[entries[0].storage := storage],
                          schedules := b.schedules + schedules), entries[1..], uid, w, w');
      }
    }
  }

  lemma SameBackup(spec: ClusterSpec, inst: Instance, w: World, w': World)
    requires w' == w.(monitoring := w'.monitoring)
    ensures T.WithBackup(spec, inst, w) == T.WithBackup(spec, inst, w')
  {
    if inst.backup.Some? {
      SameStorages(BackupSpec(w.backupImage, map[], []), inst.backup.value.storages, inst.uid, w, w');
    }
  }
}
