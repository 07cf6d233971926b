/**
 The configuration and its validation.  `Accepts` says what an accepted file
 looks like as a whole; `ValidateConfig` finds it out with running maps.
 */
module Config {
  import opened ByteStrings
  import opened Lifecycle
  import opened Sequences
  import opened Ttl

  datatype GpuGroup = GpuGroup(id: string, gpus: seq<int>)

  datatype ModelConfig = ModelConfig(
    name: Bytes, aliases: seq<Bytes>, engine: string,
    gpuGroup: string, vramAllocationMB: int, kvCacheMemoryGB: real,
    ttlActive: int, ttlInactive: int, ttlUnused: int,
    vllmArgs: seq<string>, tensorParallelSize: int, replicas: int,
    ggufPath: string, llamaCppArgs: seq<string>)

  datatype Config = Config(
    listen: string, vllmSocketDir: string, llamaCppSocketDir: string, llamaCppModelDir: string,
    queueDepth: int, ttlActive: int, ttlInactive: int, ttlUnused: int,
    gpuGroups: seq<GpuGroup>, models: seq<ModelConfig>)

  /** What the file system answers. */
  datatype Disk = Disk(writable: string -> bool, isFile: (string, string) -> bool)

  datatype Problem =
    | BadGlobals
    | GroupWithoutId | GroupWithoutGpus(group: string) | DuplicateDevice(dev: int, prior: string, group: string)
    | ModelWithoutName | DuplicateName(name: Bytes) | BadModel(name: Bytes)
    | BadDirectory(dir: string) | MissingGguf(name: Bytes)

  const VLLM_NAME := "vllm"
  const LLAMA_NAME := "llama_cpp"

  // ---- the accepted configurations ----

  /** Every device of every group, in file order. */
  function Devices(groups: seq<GpuGroup>): seq<int> {
    if groups == [] then [] else Devices(groups[..|groups| - 1]) + groups[|groups| - 1].gpus
  }

  function NamesOf(m: ModelConfig): seq<Bytes> {
    [m.name] + m.aliases
  }

  /** Every name and alias of every model, in file order. */
  function Names(models: seq<ModelConfig>): seq<Bytes> {
    if models == [] then [] else Names(models[..|models| - 1]) + NamesOf(models[|models| - 1])
  }

  /** The effective timer: a positive per-model value overrides the global one. */
  function Effective(modelVal: int, globalVal: int): int {
    if modelVal > 0 then modelVal else globalVal
  }

  function TimersOf(cfg: Config, m: ModelConfig): Timers {
    Timers(Effective(m.ttlActive, cfg.ttlActive), Effective(m.ttlInactive, cfg.ttlInactive), Effective(m.ttlUnused, cfg.ttlUnused))
  }

  predicate IsLlama(m: ModelConfig) {
    m.engine == LLAMA_NAME
  }

  predicate GlobalsOk(cfg: Config) {
    && cfg.listen != "" && cfg.queueDepth > 0
    && 0 < cfg.ttlActive < cfg.ttlInactive < cfg.ttlUnused
    && cfg.gpuGroups != [] && cfg.models != []
  }

  ghost predicate GroupsOk(groups: seq<GpuGroup>) {
    && (forall g | g in groups :: g.id != "" && g.gpus != [])
    && Distinct(Devices(groups))
  }

  ghost predicate NamesOk(models: seq<ModelConfig>) {
    && (forall m | m in models :: m.name != [])
    && Distinct(Names(models))
  }

  /** The last group with that id decides, as in a map filled in file order. */
  function GpuCounts(groups: seq<GpuGroup>): map<string, nat> {
    if groups == [] then map[]
    else GpuCounts(groups[..|groups| - 1])[groups[|groups| - 1].id := |groups[|groups| - 1].gpus|]
  }

  function Largest(groups: seq<GpuGroup>): nat {
    if groups == [] then 0
    else
      var rest := Largest(groups[..|groups| - 1]);
      if |groups[|groups| - 1].gpus| > rest then |groups[|groups| - 1].gpus| else rest
  }

  /** The checks of one model that do not involve other models. */
  predicate ModelOk(cfg: Config, m: ModelConfig) {
    && (m.gpuGroup != "" ==> m.gpuGroup in GpuCounts(cfg.gpuGroups))
    && m.tensorParallelSize >= 0 && m.replicas >= 0
    && (m.replicas > 1 ==> m.gpuGroup == "")
    && (m.engine == "" || m.engine == VLLM_NAME || IsLlama(m))
    && TimersOf(cfg, m).active < TimersOf(cfg, m).inactive < TimersOf(cfg, m).unused
    && (if IsLlama(m) then
          m.ggufPath != "" && m.kvCacheMemoryGB == 0.0 && m.vllmArgs == [] && m.tensorParallelSize == 0
        else
          && m.ggufPath == "" && m.llamaCppArgs == []
          && m.tensorParallelSize <= (if m.gpuGroup != "" then GpuCounts(cfg.gpuGroups)[m.gpuGroup] else Largest(cfg.gpuGroups)))
  }

  ghost predicate FilesOk(cfg: Config, disk: Disk) {
    && ((exists m | m in cfg.models :: !IsLlama(m)) ==> cfg.vllmSocketDir != "" && disk.writable(cfg.vllmSocketDir))
    && ((exists m | m in cfg.models :: IsLlama(m)) ==>
          cfg.llamaCppSocketDir != "" && cfg.llamaCppModelDir != "" && disk.writable(cfg.llamaCppSocketDir))
    && (forall m | m in cfg.models && IsLlama(m) :: disk.isFile(cfg.llamaCppModelDir, m.ggufPath))
  }

  ghost predicate Accepts(cfg: Config, disk: Disk) {
    && GlobalsOk(cfg) && GroupsOk(cfg.gpuGroups) && NamesOk(cfg.models)
    && (forall m | m in cfg.models :: ModelOk(cfg, m))
    && FilesOk(cfg, disk)
  }

  // ---- the checks ----

  ghost predicate Owns(groups: seq<GpuGroup>, n: int, id: string, dev: int) {
    exists i | 0 <= i < n && i < |groups| :: groups[i].id == id && dev in groups[i].gpus
  }

  lemma {:induction false} DevicesSplit(groups: seq<GpuGroup>, n: nat)
    requires n <= |groups|
    ensures exists rest :: Devices(groups) == Devices(groups[..n]) + rest
    decreases |groups|
  {
    if n == |groups| {
      assert groups[..n] == groups;
      assert Devices(groups) == Devices(groups[..n]) + [];
    } else {
      var front := groups[..|groups| - 1];
      DevicesSplit(front, n);
      assert front[..n] == groups[..n];
      var rest :| Devices(front) == Devices(groups[..n]) + rest;
      assert Devices(groups) == Devices(groups[..n]) + (rest + groups[|groups| - 1].gpus);
    }
  }

  lemma RepeatRejectsGroups(groups: seq<GpuGroup>, n: nat, k: nat)
    requires n < |groups| && k < |groups[n].gpus|
    requires groups[n].gpus[k] in Devices(groups[..n]) + groups[n].gpus[..k]
    ensures !Distinct(Devices(groups))
  {
    DevicesSplit(groups, n + 1);
    var rest :| Devices(groups) == Devices(groups[..n + 1]) + rest;
    assert groups[..n + 1][..n] == groups[..n];
    Repeated(Devices(groups[..n]), groups[n].gpus, k, rest);
  }

  /** Accepts exactly the group lists in which every group is named and non-empty and no device appears twice. */
  method CheckGroups(groups: seq<GpuGroup>) returns (err: Option<Problem>)
    ensures err.None? <==> GroupsOk(groups)
    ensures err.Some? && err.value.DuplicateDevice? ==>
              exists n | 0 <= n < |groups| ::
                && groups[n].id == err.value.group && err.value.dev in groups[n].gpus
                && Owns(groups, n + 1, err.value.prior, err.value.dev)
  {
    var seen: map<int, string> := map[];
    assert Devices(groups[..0]) == [];
    for n := 0 to |groups|
      invariant forall g | g in groups[..n] :: g.id != "" && g.gpus != []
      invariant Distinct(Devices(groups[..n]))
      invariant forall d :: d in seen <==> d in Devices(groups[..n])
      invariant forall d | d in seen :: Owns(groups, n, seen[d], d)
    {
      var g := groups[n];
      assert g in groups;
      if g.id == "" {
        return Some(GroupWithoutId);
      }
      if g.gpus == [] {
        return Some(GroupWithoutGpus(g.id));
      }
      assert groups[..n + 1] == groups[..n] + [g];
      ghost var front := Devices(groups[..n]);
      for k := 0 to |g.gpus|
        invariant Distinct(front + g.gpus[..k])
        invariant forall d :: d in seen <==> d in front + g.gpus[..k]
        invariant forall d | d in seen :: Owns(groups, n + 1, seen[d], d)
      {
        var dev := g.gpus[k];
        if dev in seen {
          RepeatRejectsGroups(groups, n, k);
          return Some(DuplicateDevice(dev, seen[dev], g.id));
        }
        DistinctSnoc(front + g.gpus[..k], dev);
        assert front + g.gpus[..k + 1] == front + g.gpus[..k] + [dev];
        seen := seen[dev := g.id];
      }
      assert g.gpus[..|g.gpus|] == g.gpus;
      assert groups[..n + 1][..n] == groups[..n];
    }
    assert groups[..|groups|] == groups;
    err := None;
  }

  lemma {:induction false} NamesSplit(models: seq<ModelConfig>, n: nat)
    requires n <= |models|
    ensures exists rest :: Names(models) == Names(models[..n]) + rest
    decreases |models|
  {
    if n == |models| {
      assert models[..n] == models;
      assert Names(models) == Names(models[..n]) + [];
    } else {
      var front := models[..|models| - 1];
      NamesSplit(front, n);
      assert front[..n] == models[..n];
      var rest :| Names(front) == Names(models[..n]) + rest;
      assert Names(models) == Names(models[..n]) + (rest + NamesOf(models[|models| - 1]));
    }
  }

  lemma RepeatRejectsNames(models: seq<ModelConfig>, n: nat, k: nat)
    requires n < |models| && k < |NamesOf(models[n])|
    requires NamesOf(models[n])[k] in Names(models[..n]) + NamesOf(models[n])[..k]
    ensures !Distinct(Names(models)) && multiset(Names(models))[NamesOf(models[n])[k]] >= 2
  {
    NamesSplit(models, n + 1);
    var rest :| Names(models) == Names(models[..n + 1]) + rest;
    assert models[..n + 1][..n] == models[..n];
    Repeated(Names(models[..n]), NamesOf(models[n]), k, rest);
  }

  /** The model loop: names and aliases against all earlier ones, then the checks of the model itself. */
  method CheckModels(cfg: Config, counts: map<string, nat>, largest: nat) returns (err: Option<Problem>, hasVLLM: bool, hasLlamaCpp: bool)
    requires counts == GpuCounts(cfg.gpuGroups) && largest == Largest(cfg.gpuGroups)
    ensures err.None? <==> NamesOk(cfg.models) && forall m | m in cfg.models :: ModelOk(cfg, m)
    ensures err.Some? && err.value.DuplicateName? ==> multiset(Names(cfg.models))[err.value.name] >= 2
    ensures err.None? ==> (hasVLLM <==> exists m | m in cfg.models :: !IsLlama(m))
    ensures err.None? ==> (hasLlamaCpp <==> exists m | m in cfg.models :: IsLlama(m))
  {
    var models := cfg.models;
    hasVLLM, hasLlamaCpp := false, false;
    var names: set<Bytes> := {};
    assert Names(models[..0]) == [];
    for n := 0 to |models|
      invariant forall m | m in models[..n] :: m.name != [] && ModelOk(cfg, m)
      invariant Distinct(Names(models[..n]))
      invariant forall x :: x in names <==> x in Names(models[..n])
      invariant hasVLLM <==> exists m | m in models[..n] :: !IsLlama(m)
      invariant hasLlamaCpp <==> exists m | m in models[..n] :: IsLlama(m)
    {
      var m := models[n];
      assert m in models;
      assert models[..n + 1] == models[..n] + [m];
      if m.name == [] {
        return Some(ModelWithoutName), hasVLLM, hasLlamaCpp;
      }
      var dup;
      dup, names := CheckNames(models, n, names);
      if dup.Some? {
        return dup, hasVLLM, hasLlamaCpp;
      }
      var ok := CheckModel(cfg, m, counts, largest);
      if !ok {
        return Some(BadModel(m.name)), hasVLLM, hasLlamaCpp;
      }
      if IsLlama(m) {
        hasLlamaCpp := true;
      } else {
        hasVLLM := true;
      }
    }
    assert models[..|models|] == models;
    err := None;
  }

  method CheckNames(models: seq<ModelConfig>, n: nat, earlier: set<Bytes>) returns (err: Option<Problem>, names: set<Bytes>)
    requires n < |models|
    requires Distinct(Names(models[..n])) && forall x :: x in earlier <==> x in Names(models[..n])
    ensures err.None? ==> Distinct(Names(models[..n + 1])) && forall x :: x in names <==> x in Names(models[..n + 1])
    ensures err.Some? ==> !Distinct(Names(models))
    ensures err.Some? ==> err.value.DuplicateName? && multiset(Names(models))[err.value.name] >= 2
  {
    names := earlier;
    ghost var front := Names(models[..n]);
    var own := NamesOf(models[n]);
    for k := 0 to |own|
      invariant Distinct(front + own[..k])
      invariant forall x :: x in names <==> x in front + own[..k]
    {
      if own[k] in names {
        RepeatRejectsNames(models, n, k);
        return Some(DuplicateName(own[k])), names;
      }
      DistinctSnoc(front + own[..k], own[k]);
      assert front + own[..k + 1] == front + own[..k] + [own[k]];
      names := names + {own[k]};
    }
    assert own[..|own|] == own;
    assert models[..n + 1][..n] == models[..n];
    err := None;
  }

  /** The rest of the model loop's body, check by check. */
  method CheckModel(cfg: Config, m: ModelConfig, counts: map<string, nat>, largest: nat) returns (ok: bool)
    requires counts == GpuCounts(cfg.gpuGroups) && largest == Largest(cfg.gpuGroups)
    ensures ok <==> ModelOk(cfg, m)
  {
    if m.gpuGroup != "" && m.gpuGroup !in counts {
      return false;
    }
    if m.tensorParallelSize < 0 {
      return false;
    }
    if m.replicas < 0 {
      return false;
    }
    if m.replicas > 1 && m.gpuGroup != "" {
      return false;
    }
    if m.engine != "" && m.engine != VLLM_NAME && m.engine != LLAMA_NAME {
      return false;
    }
    var effActive := Effective(m.ttlActive, cfg.ttlActive);
    var effInactive := Effective(m.ttlInactive, cfg.ttlInactive);
    var effUnused := Effective(m.ttlUnused, cfg.ttlUnused);
    if effActive >= effInactive || effInactive >= effUnused {
      return false;
    }
    if m.engine == LLAMA_NAME {
      if m.ggufPath == "" || m.kvCacheMemoryGB != 0.0 || |m.vllmArgs| > 0 || m.tensorParallelSize != 0 {
        return false;
      }
    } else {
      if m.ggufPath != "" || |m.llamaCppArgs| > 0 {
        return false;
      }
      if m.tensorParallelSize > 0 {
        if m.gpuGroup != "" {
          if m.tensorParallelSize > counts[m.gpuGroup] {
            return false;
          }
        } else if m.tensorParallelSize > largest {
          return false;
        }
      }
    }
    ok := true;
  }

  /** `validateConfig`: no error exactly for the accepted configurations. */
  method ValidateConfig(cfg: Config, disk: Disk) returns (err: Option<Problem>)
    ensures err.None? <==> Accepts(cfg, disk)
    ensures err.None? ==> cfg.listen != "" && cfg.queueDepth > 0 && 0 < cfg.ttlActive < cfg.ttlInactive < cfg.ttlUnused
  {
    if cfg.listen == "" || cfg.queueDepth <= 0 || cfg.ttlActive <= 0 || cfg.ttlInactive <= 0 || cfg.ttlUnused <= 0
       || cfg.ttlActive >= cfg.ttlInactive || cfg.ttlInactive >= cfg.ttlUnused || |cfg.gpuGroups| == 0 || |cfg.models| == 0 {
      return Some(BadGlobals);
    }
    err := CheckGroups(cfg.gpuGroups);
    if err.Some? {
      return;
    }
    var counts: map<string, nat>, largest := map[], 0;
    for n := 0 to |cfg.gpuGroups|
      invariant counts == GpuCounts(cfg.gpuGroups[..n]) && largest == Largest(cfg.gpuGroups[..n])
    {
      var g := cfg.gpuGroups[n];
      assert cfg.gpuGroups[..n + 1][..n] == cfg.gpuGroups[..n];
      counts := counts[g.id := |g.gpus|];
      if |g.gpus| > largest {
        largest := |g.gpus|;
      }
    }
    assert cfg.gpuGroups[..|cfg.gpuGroups|] == cfg.gpuGroups;
    var hasVLLM, hasLlamaCpp;
    err, hasVLLM, hasLlamaCpp := CheckModels(cfg, counts, largest);
    if err.Some? {
      return;
    }
    err := CheckFiles(cfg, disk, hasVLLM, hasLlamaCpp);
  }

  method CheckFiles(cfg: Config, disk: Disk, hasVLLM: bool, hasLlamaCpp: bool) returns (err: Option<Problem>)
    requires hasVLLM <==> exists m | m in cfg.models :: !IsLlama(m)
    requires hasLlamaCpp <==> exists m | m in cfg.models :: IsLlama(m)
    ensures err.None? <==> FilesOk(cfg, disk)
  {
    if hasVLLM && (cfg.vllmSocketDir == "" || !disk.writable(cfg.vllmSocketDir)) {
      return Some(BadDirectory(cfg.vllmSocketDir));
    }
    if hasLlamaCpp {
      if cfg.llamaCppSocketDir == "" || cfg.llamaCppModelDir == "" || !disk.writable(cfg.llamaCppSocketDir) {
        return Some(BadDirectory(cfg.llamaCppSocketDir));
      }
    }
    for n := 0 to |cfg.models|
      invariant forall p | 0 <= p < n && IsLlama(cfg.models[p]) :: disk.isFile(cfg.llamaCppModelDir, cfg.models[p].ggufPath)
    {
      var m := cfg.models[n];
      if IsLlama(m) && !disk.isFile(cfg.llamaCppModelDir, m.ggufPath) {
        assert m in cfg.models;
        return Some(MissingGguf(m.name));
      }
    }
    err := None;
  }

  // ---- what acceptance buys ----

  /** Every model of an accepted file has positive, strictly increasing effective timers. */
  lemma AcceptedTimersAreOrdered(cfg: Config, disk: Disk, m: ModelConfig)
    requires Accepts(cfg, disk) && m in cfg.models
    ensures Ordered(TimersOf(cfg, m))
  {
    assert ModelOk(cfg, m);
  }

  lemma {:induction false} LargestIsLargest(groups: seq<GpuGroup>)
    ensures forall g | g in groups :: |g.gpus| <= Largest(groups)
    ensures groups != [] ==> exists g :: g in groups && |g.gpus| == Largest(groups)
    decreases |groups|
  {
    if groups != [] {
      var front, last := groups[..|groups| - 1], groups[|groups| - 1];
      assert groups == front + [last];
      LargestIsLargest(front);
      if front != [] && Largest(front) >= |last.gpus| {
        var g :| g in front && |g.gpus| == Largest(front);
        assert g in groups;
      } else {
        assert last in groups && |last.gpus| == Largest(groups);
      }
    }
  }

  /** An unpinned vLLM model of an accepted file has a group with enough devices for its shards. */
  lemma UnpinnedShardsFit(cfg: Config, disk: Disk, m: ModelConfig)
    requires Accepts(cfg, disk) && m in cfg.models && !IsLlama(m) && m.gpuGroup == ""
    ensures exists g :: g in cfg.gpuGroups && m.tensorParallelSize <= |g.gpus|
  {
    hide FilesOk, GroupsOk, NamesOk;
    assert ModelOk(cfg, m);
    LargestIsLargest(cfg.gpuGroups);
    var g :| g in cfg.gpuGroups && |g.gpus| == Largest(cfg.gpuGroups);
    assert m.tensorParallelSize <= |g.gpus|;
  }

  /** And a shard count above every group's device count is rejected. */
  lemma TooManyShardsRejected(cfg: Config, disk: Disk, m: ModelConfig)
    requires m in cfg.models && !IsLlama(m) && m.gpuGroup == "" && cfg.gpuGroups != []
    requires forall g | g in cfg.gpuGroups :: m.tensorParallelSize > |g.gpus|
    ensures !Accepts(cfg, disk)
  {
    LargestIsLargest(cfg.gpuGroups);
    if Accepts(cfg, disk) {
      UnpinnedShardsFit(cfg, disk, m);
    }
  }

  /** A positive timer of the model's own is used, and the global one otherwise. */
  lemma OwnTimersOverride(cfg: Config, disk: Disk, m: ModelConfig)
    requires Accepts(cfg, disk) && m in cfg.models
    ensures var t := TimersOf(cfg, m);
            && (m.ttlActive > 0 ==> t.active == m.ttlActive) && (m.ttlActive <= 0 ==> t.active == cfg.ttlActive)
            && (m.ttlInactive > 0 ==> t.inactive == m.ttlInactive) && (m.ttlInactive <= 0 ==> t.inactive == cfg.ttlInactive)
            && (m.ttlUnused > 0 ==> t.unused == m.ttlUnused) && (m.ttlUnused <= 0 ==> t.unused == cfg.ttlUnused)
  {
  }

  /** The last group with an id, as (ghost) position. */
  ghost predicate LastWithId(groups: seq<GpuGroup>, id: string, n: int) {
    0 <= n < |groups| && groups[n].id == id && forall p | n < p < |groups| :: groups[p].id != id
  }

  lemma {:induction false} CountOfLast(groups: seq<GpuGroup>, id: string, n: int)
    requires LastWithId(groups, id, n)
    ensures id in GpuCounts(groups) && GpuCounts(groups)[id] == |groups[n].gpus|
    decreases |groups|
  {
    var front := groups[..|groups| - 1];
    if n < |front| {
      assert LastWithId(front, id, n);
      CountOfLast(front, id, n);
    }
  }

  lemma {:induction false} FindsLast(groups: seq<GpuGroup>, id: string) returns (n: int)
    requires id in GpuCounts(groups)
    ensures LastWithId(groups, id, n)
    decreases |groups|
  {
    n := |groups| - 1;
    if groups[n].id != id {
      n := FindsLast(groups[..n], id);
    }
  }

  /** Why one model is refused, reason by reason. */
  ghost predicate Faulty(cfg: Config, m: ModelConfig) {
    var active := if m.ttlActive > 0 then m.ttlActive else cfg.ttlActive;
    var inactive := if m.ttlInactive > 0 then m.ttlInactive else cfg.ttlInactive;
    var unused := if m.ttlUnused > 0 then m.ttlUnused else cfg.ttlUnused;
    || (m.gpuGroup != "" && forall g | g in cfg.gpuGroups :: g.id != m.gpuGroup)
    || m.tensorParallelSize < 0 || m.replicas < 0
    || (m.gpuGroup != "" && m.replicas >= 2)
    || m.engine !in {"", "vllm", "llama_cpp"}
    || active >= inactive || inactive >= unused
    || (m.engine == "llama_cpp" &&
          (m.ggufPath == "" || m.kvCacheMemoryGB != 0.0 || m.vllmArgs != [] || m.tensorParallelSize != 0))
    || (m.engine != "llama_cpp" &&
          (|| m.ggufPath != "" || m.llamaCppArgs != []
           || (m.gpuGroup == "" && m.tensorParallelSize > 0 && forall g | g in cfg.gpuGroups :: m.tensorParallelSize > |g.gpus|)
           || (exists n :: LastWithId(cfg.gpuGroups, m.gpuGroup, n) && m.gpuGroup != "" && m.tensorParallelSize > |cfg.gpuGroups[n].gpus|)))
  }

  /** A model passes its own checks exactly when there is no reason to refuse it. */
  lemma ModelOkIff(cfg: Config, m: ModelConfig)
    ensures ModelOk(cfg, m) <==> !Faulty(cfg, m)
  {
    CountsKeys(cfg.gpuGroups, m.gpuGroup);
    LargestIsLargest(cfg.gpuGroups);
    if m.gpuGroup in GpuCounts(cfg.gpuGroups) {
      var n := FindsLast(cfg.gpuGroups, m.gpuGroup);
      CountOfLast(cfg.gpuGroups, m.gpuGroup, n);
      assert forall p | LastWithId(cfg.gpuGroups, m.gpuGroup, p) :: p == n;
    }
  }

  /** The first group with the id: where the scheduler puts a pinned model. */
  function FirstWith(groups: seq<GpuGroup>, id: string): Option<nat> {
    if groups == [] then None
    else if groups[0].id == id then Some(|groups[0].gpus|)
    else FirstWith(groups[1..], id)
  }

  lemma {:induction false} CountsKeys(groups: seq<GpuGroup>, id: string)
    ensures id in GpuCounts(groups) <==> exists g | g in groups :: g.id == id
    decreases |groups|
  {
    if groups != [] {
      var front, last := groups[..|groups| - 1], groups[|groups| - 1];
      CountsKeys(front, id);
      assert groups == front + [last];
    }
  }

  lemma {:induction false} FirstWithFinds(groups: seq<GpuGroup>, id: string)
    ensures FirstWith(groups, id).Some? <==> exists g | g in groups :: g.id == id
    decreases |groups|
  {
    if groups != [] {
      FirstWithFinds(groups[1..], id);
      assert groups == [groups[0]] + groups[1..];
    }
  }

  /** Every pinned vLLM model's shards fit on the group it will be put on. */
  ghost predicate PinnedShardsFit(cfg: Config) {
    forall m | m in cfg.models && !IsLlama(m) && m.gpuGroup != "" ::
      FirstWith(cfg.gpuGroups, m.gpuGroup).Some? && m.tensorParallelSize <= FirstWith(cfg.gpuGroups, m.gpuGroup).value
  }

  /** No id has more devices in the last group named so than in the first. */
  ghost predicate LastFitsFirst(groups: seq<GpuGroup>) {
    forall id | id in GpuCounts(groups) :: FirstWith(groups, id).Some? && GpuCounts(groups)[id] <= FirstWith(groups, id).value
  }

  const EMPTY_DISK := Disk(_ => true, (_, _) => true)

  /** A configuration whose only model is pinned to `id` with `tp` shards. */
  function PinConfig(groups: seq<GpuGroup>, id: string, tp: int): Config {
    Config("listen", "sockets", "", "", 1, 1, 2, 3, groups,
           [ModelConfig([109], [], VLLM_NAME, id, 0, 0.0, 0, 0, 0, [], tp, 0, "", [])])
  }

  /** It is accepted up to the device count of the last group with the id. */
  lemma PinConfigAccepted(groups: seq<GpuGroup>, id: string, tp: nat)
    requires groups != [] && GroupsOk(groups) && id in GpuCounts(groups) && tp <= GpuCounts(groups)[id]
    ensures Accepts(PinConfig(groups, id, tp), EMPTY_DISK)
  {
    var cfg := PinConfig(groups, id, tp);
    CountsKeys(groups, id);
    assert cfg.models[..0] == [] && Names(cfg.models[..0]) == [];
    assert Names(cfg.models) == [[109]];
  }

  /**
   Validation does not reject repeated group ids, and checks a pinned model's
   shard count against the last group of that id while the scheduler puts it on
   the first.  So, for any accepted list of groups, acceptance guarantees that the
   shards of every pinned vLLM model fit exactly when no id has more devices in
   its last group than in its first; groups in between do not matter.
   */
  lemma PinnedShardsFitIff(groups: seq<GpuGroup>)
    requires groups != [] && GroupsOk(groups)
    ensures (forall cfg: Config, disk: Disk | Accepts(cfg, disk) && cfg.gpuGroups == groups :: PinnedShardsFit(cfg))
       <==> LastFitsFirst(groups)
  {
    if LastFitsFirst(groups) {
      forall cfg: Config, disk: Disk | Accepts(cfg, disk) && cfg.gpuGroups == groups ensures PinnedShardsFit(cfg) {
        assert forall m | m in cfg.models :: ModelOk(cfg, m);
      }
    }
    if forall cfg: Config, disk: Disk | Accepts(cfg, disk) && cfg.gpuGroups == groups :: PinnedShardsFit(cfg) {
      forall id | id in GpuCounts(groups)
        ensures FirstWith(groups, id).Some? && GpuCounts(groups)[id] <= FirstWith(groups, id).value
      {
        var cfg := PinConfig(groups, id, GpuCounts(groups)[id]);
        PinConfigAccepted(groups, id, GpuCounts(groups)[id]);
        assert PinnedShardsFit(cfg);
        CountsKeys(groups, id);
        assert cfg.models[0] in cfg.models;
      }
    }
  }

  /** An accepted configuration with two shards for a model that will get one device. */
  lemma ShardsTooMany()
    ensures var cfg := PinConfig([GpuGroup("a", [0]), GpuGroup("a", [1, 2])], "a", 2);
            Accepts(cfg, EMPTY_DISK) && !PinnedShardsFit(cfg)
  {
    var groups := [GpuGroup("a", [0]), GpuGroup("a", [1, 2])];
    assert groups[..1] == [groups[0]] && groups[..1][..0] == [];
    assert Devices(groups[..1]) == [0] && Devices(groups) == [0, 1, 2];
    assert GpuCounts(groups)["a"] == 2 && FirstWith(groups, "a") == Some(1);
    PinConfigAccepted(groups, "a", 2);
    var cfg := PinConfig(groups, "a", 2);
    assert cfg.models[0] in cfg.models;
  }

  /** Groups of two, five and one device under one id: a later group is larger, and yet whatever is accepted fits. */
  lemma LargerInBetween(cfg: Config, disk: Disk)
    requires Accepts(cfg, disk)
    requires cfg.gpuGroups == [GpuGroup("a", [0, 1]), GpuGroup("a", [2, 3, 4, 5, 6]), GpuGroup("a", [7])]
    ensures PinnedShardsFit(cfg)
  {
    var groups := cfg.gpuGroups;
    forall id | id in GpuCounts(groups) ensures id == "a" {
      CountsKeys(groups, id);
    }
    assert GpuCounts(groups)["a"] == 1 && FirstWith(groups, "a") == Some(2);
    assert LastFitsFirst(groups);
    PinnedShardsFitIff(groups);
  }
}
