/** The compose and nginx generators (compose_generator.go, nginx_generator.go), down to what their
    text is made of. */
module Generators {
  import opened Prelude
  import opened Order
  import opened Config
  import opened Text
  import opened Regexp
  import opened Template
  import opened Manifest

  // ---------- Compose ----------

  datatype ComposeService = ComposeService(name: string, image: string, workingDir: string, command: string,
                                           envFiles: seq<string>, afterProxy: bool)

  datatype ComposeFile = ComposeFile(proxy: bool, services: seq<ComposeService>)

  function Startable(cfg: ProjectConfig): set<string> {
    set n | n in cfg.services && cfg.services[n].start != ""
  }

  /** The store is not part of it: {{store.KEY}} never resolves in a start command. */
  function StartContext(cfg: ProjectConfig, m: ManifestData, svcName: string): TemplateContext {
    TemplateContext(ServicePorts(cfg, m.ports), InfraPorts(cfg, m.ports), m.provisionerOutputs, svcName,
                    m.envName, map[], cfg.ProxyDomain())
  }

  function ComposeBlock(cfg: ProjectConfig, m: ManifestData, join: Joiner, name: string): Result<ComposeService> {
    if name !in cfg.services || cfg.Compose().None? then Err
    else
      var svc := cfg.services[name];
      var command := Render(svc.start, StartContext(cfg, m, name));
      if command.Err? then Err
      else Ok(ComposeService(name, cfg.Compose().value.image, svc.path, command.value,
                             [join(svc.path, ".env"), join(svc.path, svc.ResolvedEnvFile())],
                             cfg.Compose().value.ProxyEnabled()))
  }

  predicate ComposeConfigured(cfg: ProjectConfig) {
    cfg.Compose().Some? && cfg.Compose().value.image != ""
    && (cfg.Compose().value.ProxyEnabled() ==> cfg.Compose().value.proxy.value.ResolvedType() == "nginx")
  }

  /** One block for each service with a start command, in the order of the names. */
  ghost function ComposeOf(cfg: ProjectConfig, m: ManifestData, join: Joiner): Result<ComposeFile> {
    var blocks := Collect(Listing(Startable(cfg)), n => ComposeBlock(cfg, m, join, n));
    if !ComposeConfigured(cfg) || blocks.Err? then Err
    else Ok(ComposeFile(cfg.Compose().value.ProxyEnabled(), blocks.value))
  }

  method GenerateComposeFile(cfg: ProjectConfig, m: ManifestData, join: Joiner) returns (r: Result<ComposeFile>)
    ensures r == ComposeOf(cfg, m, join)
  {
    hide Render, Listing;
    if !ComposeConfigured(cfg) {
      return Err;
    }
    var names := SortedKeys(Startable(cfg));
    var blocks: seq<ComposeService> := [];
    ghost var f := n => ComposeBlock(cfg, m, join, n);
    for i := 0 to |names|
      invariant Collect(names[..i], f) == Ok(blocks)
    {
      assert names[..i + 1][..i] == names[..i] && names[i] in names;
      var svc := cfg.services[names[i]];
      var startCmd := RenderTemplate(svc.start, StartContext(cfg, m, names[i]));
      if startCmd.Err? {
        CollectFails(names, f, i);
        return Err;
      }
      blocks := blocks + [ComposeService(names[i], cfg.Compose().value.image, svc.path, startCmd.value,
                                         [join(svc.path, ".env"), join(svc.path, svc.ResolvedEnvFile())],
                                         cfg.Compose().value.ProxyEnabled())];
    }
    assert names[..|names|] == names;
    CollectAgrees(names, f, n => ComposeBlock(cfg, m, join, n));
    return Ok(ComposeFile(cfg.Compose().value.ProxyEnabled(), blocks));
  }

  // ---------- The store in start commands ----------

  /** A variable of the start command of service n names the store. */
  ghost predicate UsesStore(cfg: ProjectConfig, n: string)
    requires n in cfg.services
  {
    exists x :: Match(x) in Scan(cfg.services[n].start, VARIABLE) && NamesStore(x)
  }

  predicate NamesStore(x: string) {
    Path(x)[0] == "store"
  }

  lemma PathHasStart(x: string)
    ensures |Path(x)| > 0
  {
  }

  /** A start command that names the store never renders, whatever the store holds. */
  lemma StoreFailsInStart(cfg: ProjectConfig, m: ManifestData, join: Joiner, n: string)
    requires n in cfg.services && UsesStore(cfg, n)
    ensures ComposeBlock(cfg, m, join, n).Err?
  {
    hide Path;
    var x :| Match(x) in Scan(cfg.services[n].start, VARIABLE) && NamesStore(x);
    PathHasStart(x);
    RenderSucceeds(cfg.services[n].start, StartContext(cfg, m, n));
  }

  /** And it takes the whole compose file with it. */
  lemma StoreFailsCompose(cfg: ProjectConfig, m: ManifestData, join: Joiner, n: string)
    requires n in cfg.services && UsesStore(cfg, n)
    ensures ComposeOf(cfg, m, join).Err?
  {
    hide ComposeBlock, Listing, Scan;
    StoreFailsInStart(cfg, m, join, n);
    assert cfg.services[n].start != "" by {
      if cfg.services[n].start == "" {
        NothingInNothing();
      }
    }
    var names := Listing(Startable(cfg));
    assert n in Startable(cfg) && n in names;
    var i :| 0 <= i < |names| && names[i] == n;
    CollectFails(names, k => ComposeBlock(cfg, m, join, k), i);
  }

  lemma NothingInNothing()
    ensures Scan("", VARIABLE) == []
  {
  }

  /** What such a command would be with the store at hand, as in env blocks: it renders without the store,
      and to the same text, exactly when it does not name it. */
  lemma StoreIsMissedExactly(cfg: ProjectConfig, m: ManifestData, n: string, store: EnvMap)
    requires n in cfg.services
    requires Render(cfg.services[n].start, StartContext(cfg, m, n).(store := store)).Ok?
    ensures Render(cfg.services[n].start, StartContext(cfg, m, n)) ==
      if UsesStore(cfg, n) then Err else Render(cfg.services[n].start, StartContext(cfg, m, n).(store := store))
  {
    hide Path, Render, ResolveVar;
    var start, ctx := cfg.services[n].start, StartContext(cfg, m, n);
    var full := ctx.(store := store);
    RenderSucceeds(start, ctx);
    RenderSucceeds(start, full);
    forall x | Match(x) in Scan(start, VARIABLE)
      ensures |Path(x)| > 0
      ensures ResolveVar(Path(x), ctx) == if Path(x)[0] == "store" then Err else ResolveVar(Path(x), full)
    {
      PathHasStart(x);
      StoreOnly(Path(x), ctx, store);
    }
    if !UsesStore(cfg, n) {
      RenderAgrees(start, full, ctx);
    }
  }

  const STORE_START := ServiceConfig("web", 0, "", [], None, "", "", "{{store.KEY}}", [])

  /** An input: with KEY in the store the text renders, as documented, and the start command does not. */
  lemma StoreInStartExample(cfg: ProjectConfig, m: ManifestData, join: Joiner, ctx: TemplateContext)
    requires "web" in cfg.services && cfg.services["web"] == STORE_START && ctx.store == map["KEY" := "value"]
    ensures Render(STORE_START.start, ctx) == Ok("value")
    ensures ComposeBlock(cfg, m, join, "web").Err?
  {
    hide Render, Split, TrimSpace, ResolveVar;
    VariableAlone(ctx);
    VariableAlone(StartContext(cfg, m, "web"));
    StoreValue(ctx);
    StoreValue(StartContext(cfg, m, "web"));
  }

  lemma StoreValue(ctx: TemplateContext)
    ensures ResolveVar(["store", "KEY"], ctx) == if "KEY" in ctx.store then Ok(ctx.store["KEY"]) else Err
  {
  }

  lemma VariableAlone(ctx: TemplateContext)
    ensures Render(STORE_START.start, ctx) == ResolveVar(["store", "KEY"], ctx)
  {
    hide Render, ResolveVar, TrimSpace, Split;
    var path, rest := "store.KEY", "";
    assert STORE_START.start == "" + ("{{" + path + "}}" + rest);
    RenderFirst("", path, rest, ctx);
    assert Render("", ctx) == Ok("") by { NothingRenders(ctx); }
    TrimmedStays(path);
    assert path == "store" + "." + "KEY";
    SplitAtSeparator("store", '.', "KEY");
    assert Split("KEY", '.') == ["KEY"] by { SplitWithout("KEY", '.'); }
    assert ["store"] + ["KEY"] == ["store", "KEY"];
    assert Split(TrimSpace(path), '.') == ["store", "KEY"];
    var value := ResolveVar(["store", "KEY"], ctx);
    assert value.Ok? ==> "" + (value.value + "") == value.value;
  }

  lemma NothingRenders(ctx: TemplateContext)
    ensures Render("", ctx) == Ok("")
  {
  }

  lemma StoreOnly(path: seq<string>, ctx: TemplateContext, store: EnvMap)
    requires |path| > 0 && ctx.store == map[]
    ensures ResolveVar(path, ctx) == if path[0] == "store" then Err else ResolveVar(path, ctx.(store := store))
  {
  }

  // ---------- Nginx ----------

  datatype Location = Location(path: string, port: int, targetPath: string)

  datatype NginxServer =
    | Proxied(serverName: string, port: int, locations: seq<Location>)
    | NotStarted(serverName: string, svc: string, envName: string)

  datatype NginxFile = NginxFile(servers: seq<NginxServer>)

  /** The services that get a proxy block: those enabled, or all with a port when none is tracked. */
  function Proxying(m: ManifestData): set<string> {
    if m.enabledServices == [] then m.ports.Keys else set n | n in m.enabledServices
  }

  function Locations(proxies: seq<ServiceProxy>, ports: PortMap): Result<seq<Location>> {
    if forall p :: p in proxies ==> p.toService in ports then
      Ok(seq(|proxies|, i requires 0 <= i < |proxies| =>
           assert proxies[i] in proxies;
           Location(proxies[i].path, ports[proxies[i].toService], proxies[i].ResolvedTargetPath())))
    else Err
  }

  function ServerBlock(cfg: ProjectConfig, m: ManifestData, domain: string, name: string): Result<NginxServer> {
    var serverName := m.envName + "--" + name + "." + domain;
    if name !in Proxying(m) || name !in m.ports || name !in cfg.services then
      Ok(NotStarted(serverName, name, m.envName))
    else
      var locations := Locations(cfg.services[name].proxy, m.ports);
      if locations.Err? then Err else Ok(Proxied(serverName, m.ports[name], locations.value))
  }

  /** One server for each service, in the order of the names. */
  ghost function NginxOf(cfg: ProjectConfig, m: ManifestData, domain: string): Result<NginxFile> {
    var servers := Collect(Listing(cfg.services.Keys), n => ServerBlock(cfg, m, domain, n));
    if servers.Err? then Err else Ok(NginxFile(servers.value))
  }

  method GenerateNginxConfig(cfg: ProjectConfig, m: ManifestData, domain: string) returns (r: Result<NginxFile>)
    ensures r == NginxOf(cfg, m, domain)
  {
    hide Listing, Proxying, Locations;
    var enabled := EnabledSet(m);
    var names := SortedKeys(cfg.services.Keys);
    var servers: seq<NginxServer> := [];
    ghost var f := n => ServerBlock(cfg, m, domain, n);
    for i := 0 to |names|
      invariant Collect(names[..i], f) == Ok(servers)
    {
      var name := names[i];
      assert names[..i + 1][..i] == names[..i] && name in names;
      var serverName := m.envName + "--" + name + "." + domain;
      if name !in enabled || name !in m.ports {
        servers := servers + [NotStarted(serverName, name, m.envName)];
      } else {
        var locations := Locations(cfg.services[name].proxy, m.ports);
        if locations.Err? {
          CollectFails(names, f, i);
          return Err;
        }
        servers := servers + [Proxied(serverName, m.ports[name], locations.value)];
      }
    }
    assert names[..|names|] == names;
    CollectAgrees(names, f, n => ServerBlock(cfg, m, domain, n));
    return Ok(NginxFile(servers));
  }

  method EnabledSet(m: ManifestData) returns (enabled: set<string>)
    ensures enabled == Proxying(m)
  {
    enabled := {};
    for i := 0 to |m.enabledServices|
      invariant enabled == set n | n in m.enabledServices[..i]
    {
      assert m.enabledServices[..i + 1] == m.enabledServices[..i] + [m.enabledServices[i]];
      enabled := enabled + {m.enabledServices[i]};
    }
    assert m.enabledServices[..|m.enabledServices|] == m.enabledServices;
    assert m.enabledServices != [] ==> m.enabledServices[0] in enabled;
    if enabled == {} {
      enabled := m.ports.Keys;
    }
  }

  /** The nginx config does not depend on provisioner outputs, on services' env or on the store. */
  lemma NginxDependsOn(cfg: ProjectConfig, m: ManifestData, m': ManifestData, domain: string)
    requires m'.envName == m.envName && m'.ports == m.ports && m'.enabledServices == m.enabledServices
    ensures NginxOf(cfg, m', domain) == NginxOf(cfg, m, domain)
  {
    var names := Listing(cfg.services.Keys);
    CollectAgrees(names, n => ServerBlock(cfg, m', domain, n), n => ServerBlock(cfg, m, domain, n));
  }
}
