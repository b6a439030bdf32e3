/** The manifest: every template variable resolved (manifest.go). */
module Manifest {
  import opened Prelude
  import opened Order
  import opened Config
  import opened Template

  type Outputs = map<string, map<string, string>>
  type EnvMap = map<string, string>
  type EnvFiles = map<string, EnvMap>

  /** filepath.Join */
  type Joiner = (string, string) -> string

  datatype ManifestService = ManifestService(path: string, envFile: string, env: Option<EnvMap>)

  datatype ManifestData = ManifestData(envName: string, projectName: string, branch: string, mode: string,
                                       ports: PortMap, provisionerOutputs: Outputs,
                                       services: map<string, ManifestService>,
                                       infrastructure: Option<string>, enabledServices: seq<string>)

  // ---------- Building ----------

  function ServicePorts(cfg: ProjectConfig, ports: PortMap): PortMap {
    map n | n in ports && n in cfg.services :: ports[n]
  }

  function InfraPorts(cfg: ProjectConfig, ports: PortMap): PortMap {
    map n | n in ports && n !in cfg.services :: ports[n]
  }

  predicate EnvRenders(env: EnvMap, ctx: TemplateContext) {
    forall k :: k in env ==> Render(env[k], ctx).Ok?
  }

  function RenderEnv(env: EnvMap, ctx: TemplateContext): Result<EnvMap> {
    if EnvRenders(env, ctx) then Ok(map k | k in env :: Render(env[k], ctx).value) else Err
  }

  lemma RenderEnvAgrees(env: EnvMap, ctx: TemplateContext, ctx': TemplateContext)
    requires forall k :: k in env ==> Render(env[k], ctx') == Render(env[k], ctx)
    ensures RenderEnv(env, ctx') == RenderEnv(env, ctx)
  {
    hide Render;
    assert EnvRenders(env, ctx') <==> EnvRenders(env, ctx);
    if EnvRenders(env, ctx) {
      assert (map k | k in env :: Render(env[k], ctx').value) == (map k | k in env :: Render(env[k], ctx).value);
    }
  }

  method RenderEnvMap(env: EnvMap, ctx: TemplateContext) returns (r: Result<EnvMap>)
    ensures r == RenderEnv(env, ctx)
  {
    hide Render;
    var rendered: EnvMap := map[];
    var left := env.Keys;
    while left != {}
      invariant left <= env.Keys
      invariant forall k :: k in env && k !in left ==> Render(env[k], ctx).Ok?
      invariant rendered == map k | k in env && k !in left :: Render(env[k], ctx).value
    {
      var key :| key in left;
      var result := RenderTemplate(env[key], ctx);
      if result.Err? {
        return Err;
      }
      rendered := rendered[key := result.value];
      left := left - {key};
    }
    assert rendered == map k | k in env :: Render(env[k], ctx).value;
    return Ok(rendered);
  }

  function ResolvedService(svc: ServiceConfig, ctx: TemplateContext): Result<ManifestService> {
    if svc.env.None? then Ok(ManifestService(svc.path, svc.ResolvedEnvFile(), None))
    else
      var rendered := RenderEnv(svc.env.value, ctx);
      if rendered.Err? then Err
      else Ok(ManifestService(svc.path, svc.ResolvedEnvFile(), Some(rendered.value)))
  }

  /** What a manifest is built from. */
  datatype Source = Source(cfg: ProjectConfig, envName: string, branch: string, mode: string, ports: PortMap,
                           outputs: Outputs, store: EnvMap)
  {
    function Context(svcName: string): TemplateContext {
      TemplateContext(ServicePorts(cfg, ports), InfraPorts(cfg, ports), outputs, svcName, envName, store,
                      cfg.ProxyDomain())
    }

    function Service(s: string): Result<ManifestService>
      requires s in cfg.services
    {
      ResolvedService(cfg.services[s], Context(s))
    }

    /** An error when any service has a variable that does not resolve, else all of them resolved. */
    function Manifest(): Result<ManifestData> {
      if exists s :: s in cfg.services && Service(s).Err? then Err
      else Ok(ManifestData(envName, cfg.name, branch, mode, ports, outputs,
                           map s | s in cfg.services :: Service(s).value,
                           if cfg.infrastructure == Some("") then None else cfg.infrastructure, []))
    }
  }

  method SplitPorts(cfg: ProjectConfig, ports: PortMap) returns (servicePorts: PortMap, infraPorts: PortMap)
    ensures servicePorts == ServicePorts(cfg, ports) && infraPorts == InfraPorts(cfg, ports)
  {
    servicePorts, infraPorts := map[], map[];
    var left := ports.Keys;
    while left != {}
      invariant left <= ports.Keys
      invariant servicePorts == map n | n in ports && n in cfg.services && n !in left :: ports[n]
      invariant infraPorts == map n | n in ports && n !in cfg.services && n !in left :: ports[n]
    {
      var name :| name in left;
      if name in cfg.services {
        servicePorts := servicePorts[name := ports[name]];
      } else {
        infraPorts := infraPorts[name := ports[name]];
      }
      left := left - {name};
    }
  }

  method ResolveService(svc: ServiceConfig, ctx: TemplateContext) returns (r: Result<ManifestService>)
    ensures r == ResolvedService(svc, ctx)
  {
    var ms := ManifestService(svc.path, svc.ResolvedEnvFile(), None);
    if svc.env.Some? {
      var rendered := RenderEnvMap(svc.env.value, ctx);
      if rendered.Err? {
        return Err;
      }
      ms := ms.(env := Some(rendered.value));
    }
    return Ok(ms);
  }

  method BuildManifest(src: Source) returns (r: Result<ManifestData>)
    ensures r == src.Manifest()
  {
    var cfg := src.cfg;
    var servicePorts, infraPorts := SplitPorts(cfg, src.ports);
    var tmplCtx := TemplateContext(servicePorts, infraPorts, src.outputs, "", src.envName, src.store,
                                   cfg.ProxyDomain());
    var services: map<string, ManifestService> := map[];
    var todo := cfg.services.Keys;
    while todo != {}
      invariant todo <= cfg.services.Keys
      invariant tmplCtx == src.Context(tmplCtx.currentService)
      invariant services.Keys == cfg.services.Keys - todo
      invariant forall s :: s in services ==> src.Service(s) == Ok(services[s])
    {
      var svcName :| svcName in todo;
      var svc := cfg.services[svcName];
      if svc.env.Some? {
        tmplCtx := tmplCtx.(currentService := svcName);
      }
      var ms := ResolveService(svc, tmplCtx);
      assert ms == src.Service(svcName);
      if ms.Err? {
        return Err;
      }
      services := services[svcName := ms.value];
      todo := todo - {svcName};
    }
    assert services == map s | s in cfg.services :: src.Service(s).value;
    var m := ManifestData(src.envName, cfg.name, src.branch, src.mode, src.ports, src.outputs, services,
                          None, []);
    if cfg.infrastructure.Some? && cfg.infrastructure.value != "" {
      m := m.(infrastructure := cfg.infrastructure);
    }
    return Ok(m);
  }

  // ---------- Env files ----------

  function Target(svc: ManifestService, join: Joiner): string {
    join(svc.path, svc.envFile)
  }

  function FileSoFar(files: EnvFiles, target: string): EnvMap {
    if target in files then files[target] else map[]
  }

  /** The files after visiting services in a given order: a later service overwrites an earlier one. */
  ghost function FilesInOrder(m: ManifestData, order: seq<string>, join: Joiner): EnvFiles
    requires forall n :: n in order ==> n in m.services
  {
    if order == [] then map[]
    else
      var files := FilesInOrder(m, order[..|order| - 1], join);
      var svc := m.services[order[|order| - 1]];
      if svc.env.None? then files
      else files[Target(svc, join) := FileSoFar(files, Target(svc, join)) + svc.env.value]
  }

  /** A listing of the services, as ranging over the map visits them. */
  ghost predicate IsOrder(m: ManifestData, order: seq<string>) {
    Distinct(order) && forall n :: n in order <==> n in m.services
  }

  method EnvFilePaths(m: ManifestData, join: Joiner) returns (files: EnvFiles, ghost order: seq<string>)
    ensures IsOrder(m, order)
    ensures files == FilesInOrder(m, order, join)
    ensures exists visited :: IsOrder(m, visited) && files == FilesInOrder(m, visited, join)
  {
    files, order := map[], [];
    var left := m.services.Keys;
    ghost var seen: set<string> := {};
    while left != {}
      invariant left !! seen && left + seen == m.services.Keys
      invariant Distinct(order) && forall n :: n in order <==> n in seen
      invariant files == FilesInOrder(m, order, join)
    {
      var name :| name in left;
      var svc := m.services[name];
      assert (order + [name])[..|order|] == order;
      left, seen, order := left - {name}, seen + {name}, order + [name];
      if svc.env.Some? {
        var target := Target(svc, join);
        if target !in files {
          files := files[target := map[]];
        }
        files := files[target := files[target] + svc.env.value];
      }
    }
  }

  lemma {:induction false} FilesDependOnServices(m: ManifestData, m': ManifestData, order: seq<string>, join: Joiner)
    requires m'.services == m.services && forall n :: n in order ==> n in m.services
    ensures FilesInOrder(m', order, join) == FilesInOrder(m, order, join)
  {
    if order != [] {
      FilesDependOnServices(m, m', order[..|order| - 1], join);
    }
  }

  ghost predicate HasFile(m: ManifestData, n: string, t: string, join: Joiner) {
    n in m.services && m.services[n].env.Some? && Target(m.services[n], join) == t
  }

  /** Service n sets k in file t. */
  ghost predicate Sets(m: ManifestData, n: string, t: string, k: string, join: Joiner) {
    HasFile(m, n, t, join) && k in m.services[n].env.value
  }

  /** Services that share a file agree on every variable they both set. */
  ghost predicate NoConflicts(m: ManifestData, join: Joiner) {
    forall a, b, t, k :: Sets(m, a, t, k, join) && Sets(m, b, t, k, join) ==>
      m.services[a].env.value[k] == m.services[b].env.value[k]
  }

  lemma {:induction false} FileOrigin(m: ManifestData, order: seq<string>, t: string, join: Joiner)
    requires forall n :: n in order ==> n in m.services
    ensures t in FilesInOrder(m, order, join) <==> exists n :: n in order && HasFile(m, n, t, join)
  {
    if order != [] {
      var last := |order| - 1;
      FileOrigin(m, order[..last], t, join);
      assert order == order[..last] + [order[last]];
      if HasFile(m, order[last], t, join) {
        assert order[last] in order;
      } else if n :| n in order && HasFile(m, n, t, join) {
        assert n in order[..last];
      }
    }
  }

  /** A variable of a file was set by some service, and every service that sets it has the file hold it. */
  lemma {:induction false} ValueOrigin(m: ManifestData, order: seq<string>, t: string, k: string, join: Joiner)
    requires forall n :: n in order ==> n in m.services
    ensures var files := FilesInOrder(m, order, join);
      (t in files && k in files[t] ==>
         exists n :: n in order && Sets(m, n, t, k, join) && files[t][k] == m.services[n].env.value[k])
      && (forall n :: n in order && Sets(m, n, t, k, join) ==> t in files && k in files[t])
  {
    if order != [] {
      var last := |order| - 1;
      var n := order[last];
      ValueOrigin(m, order[..last], t, k, join);
      assert order == order[..last] + [n];
      assert n in order;
    }
  }

  /** The last service visited has its own values in its file. */
  lemma LastWins(m: ManifestData, order: seq<string>, n: string, t: string, k: string, join: Joiner)
    requires forall s :: s in order + [n] ==> s in m.services
    requires Sets(m, n, t, k, join)
    ensures forall s :: s in order + [n] ==> s in m.services
    ensures var files := FilesInOrder(m, order + [n], join);
      t in files && k in files[t] && files[t][k] == m.services[n].env.value[k]
  {
    assert (order + [n])[..|order|] == order;
  }

  lemma SameFiles(m: ManifestData, p: seq<string>, q: seq<string>, join: Joiner)
    requires NoConflicts(m, join) && IsOrder(m, p) && IsOrder(m, q)
    ensures FilesInOrder(m, p, join) == FilesInOrder(m, q, join)
  {
    var f, g := FilesInOrder(m, p, join), FilesInOrder(m, q, join);
    forall t ensures t in f <==> t in g {
      FileOrigin(m, p, t, join);
      FileOrigin(m, q, t, join);
    }
    forall t | t in f ensures f[t] == g[t] {
      forall k ensures k in f[t] <==> k in g[t] {
        ValueOrigin(m, p, t, k, join);
        ValueOrigin(m, q, t, k, join);
      }
      forall k | k in f[t] ensures f[t][k] == g[t][k] {
        ValueOrigin(m, p, t, k, join);
        ValueOrigin(m, q, t, k, join);
        var a :| a in p && Sets(m, a, t, k, join) && f[t][k] == m.services[a].env.value[k];
        var b :| b in q && Sets(m, b, t, k, join) && g[t][k] == m.services[b].env.value[k];
      }
    }
  }

  /** A listing of a set, in some order. */
  ghost function AnyOrder(s: set<string>): (r: seq<string>)
    ensures Distinct(r) && forall n :: n in r <==> n in s
  {
    if s == {} then []
    else
      var x :| x in s;
      AnyOrder(s - {x}) + [x]
  }

  ghost predicate OrderIrrelevant(m: ManifestData, join: Joiner) {
    forall p, q :: IsOrder(m, p) && IsOrder(m, q) ==> FilesInOrder(m, p, join) == FilesInOrder(m, q, join)
  }

  /** An order that visits b and then a last. */
  lemma OrderEndingIn(m: ManifestData, a: string, b: string) returns (rest: seq<string>)
    requires a in m.services && b in m.services && a != b
    ensures IsOrder(m, rest + [b] + [a]) && IsOrder(m, rest + [a] + [b])
  {
    rest := AnyOrder(m.services.Keys - {a, b});
  }

  lemma ConflictShows(m: ManifestData, a: string, b: string, t: string, k: string, join: Joiner)
    requires OrderIrrelevant(m, join) && Sets(m, a, t, k, join) && Sets(m, b, t, k, join)
    ensures m.services[a].env.value[k] == m.services[b].env.value[k]
  {
    hide FilesInOrder, IsOrder;
    if a != b {
      var rest := OrderEndingIn(m, a, b);
      LastWins(m, rest + [b], a, t, k, join);
      LastWins(m, rest + [a], b, t, k, join);
    }
  }

  /** The env files are independent of Go's map order exactly when no shared file has a conflict. */
  lemma EnvFilesAreDetermined(m: ManifestData, join: Joiner)
    ensures OrderIrrelevant(m, join) <==> NoConflicts(m, join)
  {
    if OrderIrrelevant(m, join) {
      forall a, b, t, k | Sets(m, a, t, k, join) && Sets(m, b, t, k, join)
        ensures m.services[a].env.value[k] == m.services[b].env.value[k]
      {
        ConflictShows(m, a, b, t, k, join);
      }
    }
    if NoConflicts(m, join) {
      forall p, q | IsOrder(m, p) && IsOrder(m, q)
        ensures FilesInOrder(m, p, join) == FilesInOrder(m, q, join)
      {
        SameFiles(m, p, q, join);
      }
    }
  }
}
