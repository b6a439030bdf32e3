/** Laying a mode's configuration over the base configuration (config.go). */
module Overlay {
  import opened Prelude
  import opened Config

  // ---------- The merge as a function of values ----------

  function Over(base: string, overlay: string): string {
    if overlay != "" then overlay else base
  }

  function OverList<T>(base: seq<T>, overlay: seq<T>): seq<T> {
    if |overlay| > 0 then overlay else base
  }

  function OverOption<T>(base: Option<T>, overlay: Option<T>): Option<T> {
    if overlay.Some? then overlay else base
  }

  /** Values under the same key are merged, the others taken over. */
  function MergeMaps<V>(base: map<string, V>, overlay: map<string, V>, merge: (V, V) -> V): map<string, V> {
    map k | k in base.Keys + overlay.Keys ::
      if k !in overlay then base[k] else if k !in base then overlay[k] else merge(base[k], overlay[k])
  }

  function MergeHook(base: CommandHook, overlay: CommandHook): CommandHook {
    CommandHook(Over(base.command, overlay.command), OverOption(base.allowCache, overlay.allowCache))
  }

  type Env = Option<map<string, string>>

  function MergeEnv(base: Env, overlay: Env): Env {
    if overlay.None? then base else Some(base.GetOr(map[]) + overlay.value)
  }

  function MergeService(base: ServiceConfig, overlay: ServiceConfig): ServiceConfig {
    ServiceConfig(Over(base.path, overlay.path), if overlay.port != 0 then overlay.port else base.port,
                  Over(base.command, overlay.command), OverList(base.dependsOn, overlay.dependsOn),
                  MergeEnv(base.env, overlay.env), Over(base.envFile, overlay.envFile),
                  Over(base.build, overlay.build), Over(base.start, overlay.start),
                  OverList(base.proxy, overlay.proxy))
  }

  function MergeProvisionerService(base: ProvisionerService, overlay: ProvisionerService): ProvisionerService {
    ProvisionerService(OverList(base.outputs, overlay.outputs), Over(base.init, overlay.init),
                       Over(base.seed, overlay.seed), Over(base.reset, overlay.reset),
                       Over(base.destroy, overlay.destroy))
  }

  function MergeCompute(base: Option<ComputeHooks>, overlay: Option<ComputeHooks>): Option<ComputeHooks> {
    if overlay.None? then base
    else if base.None? then overlay
    else
      var b, o := base.value, overlay.value;
      Some(ComputeHooks(Over(b.create, o.create), Over(b.destroy, o.destroy), OverList(b.outputs, o.outputs),
                        OverOption(b.ssh, o.ssh)))
  }

  function MergeProvisioner(base: ProvisionerConfig, overlay: ProvisionerConfig): ProvisionerConfig {
    ProvisionerConfig(Over(base.before, overlay.before), Over(base.after, overlay.after),
                      MergeCompute(base.compute, overlay.compute),
                      MergeMaps(base.services, overlay.services, MergeProvisionerService))
  }

  function MergeRunner(base: Option<RunnerConfig>, overlay: Option<RunnerConfig>): Option<RunnerConfig> {
    if overlay.None? then base
    else if base.None? then overlay
    else
      var b, o := base.value, overlay.value;
      Some(RunnerConfig(MergeHook(b.before, o.before), MergeHook(b.build, o.build), MergeHook(b.deploy, o.deploy),
                        MergeHook(b.destroy, o.destroy), MergeHook(b.after, o.after),
                        OverOption(b.compose, o.compose)))
  }

  /** The mode and the infrastructure services are not part of a file, so those of the base stay. */
  function Merge(base: ProjectConfig, overlay: ProjectConfig): ProjectConfig {
    ProjectConfig(if overlay.version != 0 then overlay.version else base.version, Over(base.name, overlay.name),
                  MergeProvisioner(base.provisioner, overlay.provisioner),
                  OverOption(base.infrastructure, overlay.infrastructure),
                  MergeMaps(base.services, overlay.services, MergeService),
                  MergeRunner(base.runner, overlay.runner), base.mode, base.infraServices)
  }

  /** A file that sets nothing. */
  const EMPTY := ProjectConfig(0, "", ProvisionerConfig("", "", None, map[]), None, map[], None, "", map[])

  // ---------- What laying over means ----------

  /** What the overlay sets it decides; what it leaves unset stays. */
  predicate HookLaid(base: CommandHook, overlay: CommandHook, merged: CommandHook) {
    && merged.command == (if overlay.command != "" then overlay.command else base.command)
    && merged.allowCache == (if overlay.allowCache.Some? then overlay.allowCache else base.allowCache)
  }

  predicate ComputeLaid(base: ComputeHooks, overlay: ComputeHooks, merged: ComputeHooks) {
    && merged.create == (if overlay.create != "" then overlay.create else base.create)
    && merged.destroy == (if overlay.destroy != "" then overlay.destroy else base.destroy)
    && merged.outputs == (if overlay.outputs != [] then overlay.outputs else base.outputs)
    && merged.ssh == (if overlay.ssh.Some? then overlay.ssh else base.ssh)
  }

  predicate ProvisionerServiceLaid(base: ProvisionerService, overlay: ProvisionerService, merged: ProvisionerService) {
    && merged.outputs == (if overlay.outputs != [] then overlay.outputs else base.outputs)
    && merged.init == (if overlay.init != "" then overlay.init else base.init)
    && merged.seed == (if overlay.seed != "" then overlay.seed else base.seed)
    && merged.reset == (if overlay.reset != "" then overlay.reset else base.reset)
    && merged.destroy == (if overlay.destroy != "" then overlay.destroy else base.destroy)
  }

  /** Env variables are added: those of the overlay have its values, the others those of the base. */
  predicate EnvLaid(base: Option<map<string, string>>, overlay: Option<map<string, string>>,
                    merged: Option<map<string, string>>)
  {
    if overlay.None? then merged == base
    else if base.None? then merged == overlay
    else
      merged.Some? && merged.value.Keys == base.value.Keys + overlay.value.Keys
      && forall k :: k in merged.value ==>
           merged.value[k] == if k in overlay.value then overlay.value[k] else base.value[k]
  }

  predicate ServiceLaid(base: ServiceConfig, overlay: ServiceConfig, merged: ServiceConfig) {
    && merged.path == (if overlay.path != "" then overlay.path else base.path)
    && merged.port == (if overlay.port != 0 then overlay.port else base.port)
    && merged.command == (if overlay.command != "" then overlay.command else base.command)
    && merged.dependsOn == (if overlay.dependsOn != [] then overlay.dependsOn else base.dependsOn)
    && EnvLaid(base.env, overlay.env, merged.env)
    && merged.envFile == (if overlay.envFile != "" then overlay.envFile else base.envFile)
    && merged.build == (if overlay.build != "" then overlay.build else base.build)
    && merged.start == (if overlay.start != "" then overlay.start else base.start)
    && merged.proxy == (if overlay.proxy != [] then overlay.proxy else base.proxy)
  }

  predicate RunnerLaid(base: RunnerConfig, overlay: RunnerConfig, merged: RunnerConfig) {
    && HookLaid(base.before, overlay.before, merged.before) && HookLaid(base.build, overlay.build, merged.build)
    && HookLaid(base.deploy, overlay.deploy, merged.deploy) && HookLaid(base.after, overlay.after, merged.after)
    && HookLaid(base.destroy, overlay.destroy, merged.destroy)
    && merged.compose == (if overlay.compose.Some? then overlay.compose else base.compose)
  }

  /** A part that only one of the two has is taken over whole, one that both have is laid. */
  ghost predicate PartLaid<T(!new)>(base: Option<T>, overlay: Option<T>, merged: Option<T>, laid: (T, T, T) -> bool) {
    if overlay.None? then merged == base
    else if base.None? then merged == overlay
    else merged.Some? && laid(base.value, overlay.value, merged.value)
  }

  ghost predicate EachLaid<T(!new)>(base: map<string, T>, overlay: map<string, T>, merged: map<string, T>,
                                    laid: (T, T, T) -> bool)
  {
    merged.Keys == base.Keys + overlay.Keys
    && forall k :: k in merged ==>
         if k !in overlay then merged[k] == base[k]
         else if k !in base then merged[k] == overlay[k]
         else laid(base[k], overlay[k], merged[k])
  }

  /** The whole configuration. Its mode and infrastructure services are those of the base. */
  ghost predicate Laid(base: ProjectConfig, overlay: ProjectConfig, merged: ProjectConfig) {
    && merged.version == (if overlay.version != 0 then overlay.version else base.version)
    && merged.name == (if overlay.name != "" then overlay.name else base.name)
    && merged.infrastructure == (if overlay.infrastructure.Some? then overlay.infrastructure else base.infrastructure)
    && merged.mode == base.mode && merged.infraServices == base.infraServices
    && (var b, o, m := base.provisioner, overlay.provisioner, merged.provisioner;
        && m.before == (if o.before != "" then o.before else b.before)
        && m.after == (if o.after != "" then o.after else b.after)
        && PartLaid(b.compute, o.compute, m.compute, ComputeLaid)
        && EachLaid(b.services, o.services, m.services, ProvisionerServiceLaid))
    && EachLaid(base.services, overlay.services, merged.services, ServiceLaid)
    && PartLaid(base.runner, overlay.runner, merged.runner, RunnerLaid)
  }

  /** The merge lays the overlay over the base. */
  lemma MergeLays(base: ProjectConfig, overlay: ProjectConfig)
    ensures Laid(base, overlay, Merge(base, overlay))
  {
    hide MergeService;
    forall b, o ensures ServiceLaid(b, o, MergeService(b, o)) {
      MergeLaysService(b, o);
    }
  }

  lemma MergeLaysService(base: ServiceConfig, overlay: ServiceConfig)
    ensures ServiceLaid(base, overlay, MergeService(base, overlay))
  {
    if overlay.env.Some? {
      assert map[] + overlay.env.value == overlay.env.value;
    }
  }

  // ---------- The program ----------

  method MergeCommandHook(base: CommandHook, overlay: CommandHook) returns (merged: CommandHook)
    ensures HookLaid(base, overlay, merged)
    ensures merged == MergeHook(base, overlay)
  {
    merged := base;
    if overlay.command != "" {
      merged := merged.(command := overlay.command);
    }
    if overlay.allowCache.Some? {
      merged := merged.(allowCache := overlay.allowCache);
    }
  }

  class BaseConfig {
    var value: ProjectConfig

    constructor (value: ProjectConfig)
      ensures this.value == value
    {
      this.value := value;
    }

    /** deepMergeConfig */
    method DeepMerge(overlay: ProjectConfig)
      modifies this
      ensures Laid(old(value), overlay, value)
      ensures value == Merge(old(value), overlay)
    {
      MergeLays(value, overlay);
      if overlay.version != 0 {
        value := value.(version := overlay.version);
      }
      value := value.(name := Over(value.name, overlay.name));
      var provisioner := value.provisioner;
      provisioner := provisioner.(before := Over(provisioner.before, overlay.provisioner.before),
                                  after := Over(provisioner.after, overlay.provisioner.after),
                                  compute := MergeCompute(provisioner.compute, overlay.provisioner.compute));
      var provisioners := LayProvisioners(provisioner.services, overlay.provisioner.services);
      value := value.(provisioner := provisioner.(services := provisioners));
      if overlay.infrastructure.Some? {
        value := value.(infrastructure := overlay.infrastructure);
      }
      var services := LayServices(value.services, overlay.services);
      value := value.(services := services);
      if overlay.runner.Some? {
        if value.runner.None? {
          value := value.(runner := overlay.runner);
        } else {
          var b, o := value.runner.value, overlay.runner.value;
          var before := MergeCommandHook(b.before, o.before);
          var build := MergeCommandHook(b.build, o.build);
          var deploy := MergeCommandHook(b.deploy, o.deploy);
          var after := MergeCommandHook(b.after, o.after);
          var destroy := MergeCommandHook(b.destroy, o.destroy);
          b := b.(before := before, build := build, deploy := deploy, after := after, destroy := destroy);
          if o.compose.Some? {
            b := b.(compose := o.compose);
          }
          value := value.(runner := Some(b));
        }
      }
    }
  }

  method LayProvisioners(base: map<string, ProvisionerService>, overlay: map<string, ProvisionerService>)
    returns (merged: map<string, ProvisionerService>)
    ensures merged == MergeMaps(base, overlay, MergeProvisionerService)
  {
    hide MergeMaps;
    merged := base;
    var left := overlay.Keys;
    ghost var done: map<string, ProvisionerService> := map[];
    MergedNone(base, MergeProvisionerService);
    while left != {}
      invariant left <= overlay.Keys && done == map k | k in overlay && k !in left :: overlay[k]
      invariant merged == MergeMaps(base, done, MergeProvisionerService)
    {
      var k :| k in left;
      left := left - {k};
      MergedOne(base, done, k, overlay[k], MergeProvisionerService);
      done := done[k := overlay[k]];
      var o := overlay[k];
      if k !in merged {
        merged := merged[k := o];
      } else {
        var b := merged[k];
        if |o.outputs| > 0 {
          b := b.(outputs := o.outputs);
        }
        b := b.(init := Over(b.init, o.init), seed := Over(b.seed, o.seed), reset := Over(b.reset, o.reset),
                destroy := Over(b.destroy, o.destroy));
        merged := merged[k := b];
      }
    }
    assert done == overlay;
  }

  method LayServices(base: map<string, ServiceConfig>, overlay: map<string, ServiceConfig>)
    returns (merged: map<string, ServiceConfig>)
    ensures merged == MergeMaps(base, overlay, MergeService)
  {
    hide MergeMaps;
    merged := base;
    var left := overlay.Keys;
    ghost var done: map<string, ServiceConfig> := map[];
    MergedNone(base, MergeService);
    while left != {}
      invariant left <= overlay.Keys && done == map k | k in overlay && k !in left :: overlay[k]
      invariant merged == MergeMaps(base, done, MergeService)
    {
      var k :| k in left;
      left := left - {k};
      MergedOne(base, done, k, overlay[k], MergeService);
      done := done[k := overlay[k]];
      if k !in merged {
        merged := merged[k := overlay[k]];
      } else {
        var service := LayService(merged[k], overlay[k]);
        merged := merged[k := service];
      }
    }
    assert done == overlay;
  }

  method LayService(base: ServiceConfig, o: ServiceConfig) returns (b: ServiceConfig)
    ensures b == MergeService(base, o)
  {
    b := base.(path := Over(base.path, o.path), command := Over(base.command, o.command));
    if o.port != 0 {
      b := b.(port := o.port);
    }
    if |o.dependsOn| > 0 {
      b := b.(dependsOn := o.dependsOn);
    }
    b := b.(envFile := Over(b.envFile, o.envFile), build := Over(b.build, o.build), start := Over(b.start, o.start));
    if |o.proxy| > 0 {
      b := b.(proxy := o.proxy);
    }
    if o.env.Some? {
      var env := LayEnv(b.env.GetOr(map[]), o.env.value);
      b := b.(env := Some(env));
    }
  }

  method LayEnv(base: map<string, string>, overlay: map<string, string>) returns (env: map<string, string>)
    ensures env == base + overlay
  {
    env := base;
    var left := overlay.Keys;
    ghost var done: map<string, string> := map[];
    while left != {}
      invariant left <= overlay.Keys && done == map k | k in overlay && k !in left :: overlay[k]
      invariant env == base + done
    {
      var k :| k in left;
      left := left - {k};
      env := env[k := overlay[k]];
      done := done[k := overlay[k]];
    }
    assert done == overlay;
  }

  lemma MergedNone<V>(base: map<string, V>, merge: (V, V) -> V)
    ensures MergeMaps(base, map[], merge) == base
  {
  }

  lemma MergedOne<V>(base: map<string, V>, overlay: map<string, V>, k: string, v: V, merge: (V, V) -> V)
    requires k !in overlay
    ensures MergeMaps(base, overlay[k := v], merge) ==
      MergeMaps(base, overlay, merge)[k := if k in base then merge(base[k], v) else v]
    ensures k in MergeMaps(base, overlay, merge) <==> k in base
    ensures k in base ==> MergeMaps(base, overlay, merge)[k] == base[k]
  {
  }

  // ---------- Laws ----------

  lemma MapsAssociate<V>(a: map<string, V>, b: map<string, V>, c: map<string, V>, merge: (V, V) -> V)
    requires forall x, y, z :: x in a.Values && y in b.Values && z in c.Values ==>
      merge(merge(x, y), z) == merge(x, merge(y, z))
    ensures MergeMaps(MergeMaps(a, b, merge), c, merge) == MergeMaps(a, MergeMaps(b, c, merge), merge)
  {
    var left, right := MergeMaps(MergeMaps(a, b, merge), c, merge), MergeMaps(a, MergeMaps(b, c, merge), merge);
    assert left.Keys == right.Keys;
    forall k | k in left ensures left[k] == right[k] {
      if k in a && k in b && k in c {
        assert a[k] in a.Values && b[k] in b.Values && c[k] in c.Values;
      }
    }
  }

  lemma EnvsAssociate(a: Env, b: Env, c: Env)
    ensures MergeEnv(MergeEnv(a, b), c) == MergeEnv(a, MergeEnv(b, c))
  {
    var x, y, z := a.GetOr(map[]), b.GetOr(map[]), c.GetOr(map[]);
    assert (x + y) + z == x + (y + z) && map[] + y == y && map[] + (y + z) == y + z && map[] + z == z;
  }

  lemma ServicesAssociate(a: ServiceConfig, b: ServiceConfig, c: ServiceConfig)
    ensures MergeService(MergeService(a, b), c) == MergeService(a, MergeService(b, c))
  {
    hide MergeEnv;
    EnvsAssociate(a.env, b.env, c.env);
  }

  lemma ProvisionersAssociate(a: ProvisionerConfig, b: ProvisionerConfig, c: ProvisionerConfig)
    ensures MergeProvisioner(MergeProvisioner(a, b), c) == MergeProvisioner(a, MergeProvisioner(b, c))
  {
    hide MergeMaps;
    MapsAssociate(a.services, b.services, c.services, MergeProvisionerService);
  }

  lemma RunnersAssociate(a: Option<RunnerConfig>, b: Option<RunnerConfig>, c: Option<RunnerConfig>)
    ensures MergeRunner(MergeRunner(a, b), c) == MergeRunner(a, MergeRunner(b, c))
  {
  }

  /** Merging is associative: overlays can be combined before they are laid over a base. */
  lemma MergeIsAssociative(a: ProjectConfig, b: ProjectConfig, c: ProjectConfig)
    ensures Merge(Merge(a, b), c) == Merge(a, Merge(b, c))
  {
    hide MergeMaps, MergeService, MergeProvisioner, MergeRunner;
    ProvisionersAssociate(a.provisioner, b.provisioner, c.provisioner);
    RunnersAssociate(a.runner, b.runner, c.runner);
    forall x, y, z ensures MergeService(MergeService(x, y), z) == MergeService(x, MergeService(y, z)) {
      ServicesAssociate(x, y, z);
    }
    MapsAssociate(a.services, b.services, c.services, MergeService);
  }

  lemma MapsIdempotent<V>(a: map<string, V>, merge: (V, V) -> V)
    requires forall v :: v in a.Values ==> merge(v, v) == v
    ensures MergeMaps(a, a, merge) == a
  {
    forall k | k in a ensures MergeMaps(a, a, merge)[k] == a[k] {
      assert a[k] in a.Values;
    }
  }

  /** Laying a configuration over itself, or a file that sets nothing over it, changes nothing. */
  lemma MergeIsIdempotent(a: ProjectConfig)
    ensures Merge(a, a) == a && Merge(a, EMPTY) == a
  {
    MapsIdempotent(a.provisioner.services, MergeProvisionerService);
    forall s: ServiceConfig ensures MergeService(s, s) == s {
      assert s.EnvVars() + s.EnvVars() == s.EnvVars();
    }
    MapsIdempotent(a.services, MergeService);
    MergedNone(a.provisioner.services, MergeProvisionerService);
    MergedNone(a.services, MergeService);
  }
}
