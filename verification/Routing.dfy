/**
 Building the run-time objects from a configuration: one entry per replica, one
 replica set per configured model, and the table from names and aliases to sets.
 */
module Routing {
  import opened ByteStrings
  import opened Lifecycle
  import opened Eviction
  import opened Orchestration
  import opened RoundRobin
  import opened Config
  import opened Sequences

  /** The table after mapping each of the names to `v`. */
  function Assign<V>(t: map<Bytes, V>, names: seq<Bytes>, v: V): map<Bytes, V> {
    if names == [] then t else Assign(t, names[..|names| - 1], v)[names[|names| - 1] := v]
  }

  lemma {:induction false} AssignAt<V>(t: map<Bytes, V>, names: seq<Bytes>, v: V, x: Bytes)
    ensures x in Assign(t, names, v) <==> x in t || x in names
    ensures x in Assign(t, names, v) ==> Assign(t, names, v)[x] == if x in names then v else t[x]
    decreases |names|
  {
    if names != [] {
      AssignAt(t, names[..|names| - 1], v, x);
      assert names == names[..|names| - 1] + [names[|names| - 1]];
    }
  }

  /** The name table as a function of the file: a later declaration of a name overrides an earlier one. */
  function Table(models: seq<ModelConfig>): map<Bytes, nat> {
    if models == [] then map[]
    else Assign<nat>(Table(models[..|models| - 1]), NamesOf(models[|models| - 1]), |models| - 1)
  }

  function Settings(m: ModelConfig, k: nat): ModelCfg {
    ModelCfg(m.name, if IsLlama(m) then LlamaCpp else VLLM, if m.gpuGroup == "" then None else Some(m.gpuGroup), m.vramAllocationMB, k)
  }

  function Copies(m: ModelConfig): nat {
    if m.replicas <= 0 then 1 else m.replicas
  }

  /** One replica set: as many fresh UNLOADED entries as configured, all with the model's settings. */
  ghost predicate Built(rs: ReplicaSet, m: ModelConfig, k: nat)
    reads rs, rs.entries
  {
    && rs.Valid() && rs.next == 0 && |rs.entries| == Copies(m)
    && Distinct(rs.entries)
    && forall me | me in rs.entries :: me.View() == Model(Settings(m, k), Memory(0, 0, false), FRESH)
  }

  /** An entry's name, engine, pin and size are the configured ones. */
  predicate Follows(c: ModelCfg, m: ModelConfig) {
    && c.name == m.name && c.allocation == m.vramAllocationMB
    && (c.engine == LlamaCpp <==> m.engine == "llama_cpp")
    && (if m.gpuGroup == "" then c.pin.None? else c.pin == Some(m.gpuGroup))
  }

  method BuildSet(m: ModelConfig, k: nat) returns (rs: ReplicaSet)
    ensures fresh(rs) && (forall me | me in rs.entries :: fresh(me)) && Built(rs, m, k)
    ensures |rs.entries| == if m.replicas > 1 then m.replicas else 1
    ensures forall me | me in rs.entries :: Follows(me.cfg, m)
  {
    var n := m.replicas;
    if n <= 0 {
      n := 1;
    }
    var entries: seq<ModelEntry> := [];
    for i := 0 to n
      invariant |entries| == i && forall me | me in entries :: fresh(me)
      invariant Distinct(entries)
      invariant forall me | me in entries :: me.View() == Model(Settings(m, k), Memory(0, 0, false), FRESH)
    {
      var me := new ModelEntry(Settings(m, k), Memory(0, 0, false));
      entries := entries + [me];
    }
    rs := new ReplicaSet(entries);
  }

  function Entries(sets: seq<ReplicaSet>): seq<ModelEntry> {
    if sets == [] then [] else Entries(sets[..|sets| - 1]) + sets[|sets| - 1].entries
  }

  /** `byName` is the table with each index replaced by its set. */
  ghost predicate Represents(byName: map<Bytes, ReplicaSet>, table: map<Bytes, nat>, sets: seq<ReplicaSet>) {
    && byName.Keys == table.Keys
    && forall x | x in table :: table[x] < |sets| && byName[x] == sets[table[x]]
  }

  lemma {:induction false} AssignRepresents(byName: map<Bytes, ReplicaSet>, table: map<Bytes, nat>, sets: seq<ReplicaSet>, names: seq<Bytes>, k: nat)
    requires Represents(byName, table, sets) && k < |sets|
    ensures Represents(Assign(byName, names, sets[k]), Assign(table, names, k), sets)
    decreases |names|
  {
    if names != [] {
      AssignRepresents(byName, table, sets, names[..|names| - 1], k);
    }
  }

  /** Name and aliases of one model, overriding what earlier models registered. */
  method Register(byName: map<Bytes, ReplicaSet>, m: ModelConfig, rs: ReplicaSet) returns (r: map<Bytes, ReplicaSet>)
    ensures r == Assign(byName, NamesOf(m), rs)
  {
    r := byName[m.name := rs];
    assert [m.name] + m.aliases[..0] == [m.name];
    for a := 0 to |m.aliases|
      invariant r == Assign(byName, [m.name] + m.aliases[..a], rs)
    {
      r := r[m.aliases[a] := rs];
      assert ([m.name] + m.aliases[..a + 1])[..a + 1] == [m.name] + m.aliases[..a];
    }
    assert m.aliases[..|m.aliases|] == m.aliases;
  }

  lemma EntriesSnoc(sets: seq<ReplicaSet>, rs: ReplicaSet)
    ensures Entries(sets + [rs]) == Entries(sets) + rs.entries
  {
    assert (sets + [rs])[..|sets|] == sets;
  }

  /** Name table and sets after one more model. */
  lemma RegisterRepresents(byName: map<Bytes, ReplicaSet>, models: seq<ModelConfig>, n: nat, sets: seq<ReplicaSet>, rs: ReplicaSet)
    requires n < |models| && |sets| == n && Represents(byName, Table(models[..n]), sets)
    ensures Represents(Assign(byName, NamesOf(models[n]), rs), Table(models[..n + 1]), sets + [rs])
  {
    assert models[..n + 1][..n] == models[..n];
    AssignRepresents(byName, Table(models[..n]), sets + [rs], NamesOf(models[n]), n);
  }

  /** `newOrchestrator`: every set as configured, all entries distinct, and the name table as declared. */
  method NewOrchestrator(cfg: Config) returns (models: seq<ModelEntry>, sets: seq<ReplicaSet>, byName: map<Bytes, ReplicaSet>)
    ensures |sets| == |cfg.models| && forall k | 0 <= k < |sets| :: Built(sets[k], cfg.models[k], k)
    ensures forall k, me | 0 <= k < |sets| && me in sets[k].entries :: Follows(me.cfg, cfg.models[k]) && me.cfg.rset == k
    ensures forall k | 0 <= k < |sets| :: |sets[k].entries| == if cfg.models[k].replicas > 1 then cfg.models[k].replicas else 1
    ensures models == Entries(sets) && Distinct(models)
    ensures Represents(byName, Table(cfg.models), sets)
  {
    models, sets, byName := [], [], map[];
    for n := 0 to |cfg.models|
      invariant |sets| == n && forall k | 0 <= k < n :: Built(sets[k], cfg.models[k], k)
      invariant models == Entries(sets) && Distinct(models)
      invariant Represents(byName, Table(cfg.models[..n]), sets)
    {
      var m := cfg.models[n];
      var rs := BuildSet(m, n);
      DistinctAppend(models, rs.entries);
      EntriesSnoc(sets, rs);
      RegisterRepresents(byName, cfg.models, n, sets, rs);
      byName := Register(byName, m, rs);
      models := models + rs.entries;
      sets := sets + [rs];
    }
    assert cfg.models[..|cfg.models|] == cfg.models;
  }

  // ---- what the table resolves to ----

  /** The sets that declare a name. */
  ghost predicate Declares(models: seq<ModelConfig>, k: int, x: Bytes) {
    0 <= k < |models| && x in NamesOf(models[k])
  }

  lemma {:induction false} TableHas(models: seq<ModelConfig>, k: int, x: Bytes)
    requires Declares(models, k, x)
    ensures x in Table(models) && x in Names(models)
    decreases |models|
  {
    var n := |models| - 1;
    AssignAt<nat>(Table(models[..n]), NamesOf(models[n]), n, x);
    if k < n {
      TableHas(models[..n], k, x);
    }
  }

  lemma {:induction false} TableDeclares(models: seq<ModelConfig>, x: Bytes)
    requires x in Table(models)
    ensures Declares(models, Table(models)[x], x)
    decreases |models|
  {
    var n := |models| - 1;
    AssignAt<nat>(Table(models[..n]), NamesOf(models[n]), n, x);
    if x !in NamesOf(models[n]) {
      TableDeclares(models[..n], x);
    }
  }

  /** No two models declare the same name. */
  ghost predicate Unshared(models: seq<ModelConfig>) {
    forall i, j, x | Declares(models, i, x) && Declares(models, j, x) :: i == j
  }

  /** Every declared name resolves to each set that declares it. */
  ghost predicate Faithful(models: seq<ModelConfig>) {
    forall k, x | Declares(models, k, x) :: x in Table(models) && Table(models)[x] == k
  }

  /** Resolution is faithful exactly when no name is declared by two models. */
  lemma ResolutionIsRightIff(models: seq<ModelConfig>)
    ensures Faithful(models) <==> Unshared(models)
  {
    if Unshared(models) {
      forall k, x | Declares(models, k, x) ensures x in Table(models) && Table(models)[x] == k {
        TableHas(models, k, x);
        TableDeclares(models, x);
      }
    }
    if Faithful(models) {
      forall i, j, x | Declares(models, i, x) && Declares(models, j, x) ensures i == j {
      }
    }
  }

  lemma SharedRepeats(front: seq<Bytes>, own: seq<Bytes>, x: Bytes)
    requires x in front && x in own
    ensures !Distinct(front + own)
  {
    var p :| 0 <= p < |front| && front[p] == x;
    var q :| 0 <= q < |own| && own[q] == x;
    assert (front + own)[p] == x && (front + own)[|front| + q] == x;
  }

  lemma {:induction false} DistinctDeclaresOnce(models: seq<ModelConfig>, i: int, j: int, x: Bytes)
    requires Distinct(Names(models)) && Declares(models, i, x) && Declares(models, j, x) && i <= j
    ensures i == j
    decreases |models|
  {
    var n := |models| - 1;
    if j < n {
      DistinctPrefix(Names(models[..n]), NamesOf(models[n]));
      DistinctDeclaresOnce(models[..n], i, j, x);
    } else if i < n {
      TableHas(models[..n], i, x);
      SharedRepeats(Names(models[..n]), NamesOf(models[n]), x);
      assert false;
    }
  }

  /** An accepted configuration: a name resolves to the one set that declares it, and anything undeclared to nothing. */
  lemma AcceptedNamesResolve(cfg: Config, disk: Disk, x: Bytes)
    requires Accepts(cfg, disk)
    ensures forall k | Declares(cfg.models, k, x) :: x in Table(cfg.models) && Table(cfg.models)[x] == k
    ensures (forall k :: !Declares(cfg.models, k, x)) <==> x !in Table(cfg.models)
  {
    if x in Table(cfg.models) {
      TableDeclares(cfg.models, x);
    }
    forall k | Declares(cfg.models, k, x) ensures x in Table(cfg.models) && Table(cfg.models)[x] == k {
      TableHas(cfg.models, k, x);
      var d: int := Table(cfg.models)[x];
      TableDeclares(cfg.models, x);
      DistinctDeclaresOnce(cfg.models, if d <= k then d else k, if d <= k then k else d, x);
    }
  }
}
