/** What the generated files say (compose_generator.go, nginx_generator.go, step_registry.go). */
module Artifacts {
  import opened Prelude
  import opened Order
  import opened Config
  import opened Template
  import opened Manifest
  import opened Variables
  import opened Generators
  import opened Remote
  import opened Convergence
  import EnvFile
  import HookOutput

  // ---------- The compose file ----------

  /** What start commands see: what env blocks do, but no store. */
  function Seen(cfg: ProjectConfig, m: ManifestData): Source {
    Source(cfg, m.envName, m.branch, m.mode, m.ports, m.provisionerOutputs, map[])
  }

  /** The block of a service. */
  ghost predicate BlockSays(cfg: ProjectConfig, m: ManifestData, join: Joiner, b: ComposeService)
    requires cfg.runner.Some? && cfg.runner.value.compose.Some?
  {
    && b.name in cfg.services
    && var svc := cfg.services[b.name]; var compose := cfg.runner.value.compose.value;
    && b.image == compose.image && b.workingDir == svc.path
    && b.envFiles == [join(svc.path, ".env"), join(svc.path, if svc.envFile != "" then svc.envFile else ".env.local")]
    && b.afterProxy == (compose.proxy.Some? && compose.proxy.value.enabled != Some(false))
    && ('{' !in svc.start ==> b.command == svc.start)
    && forall n, o :: Inside(n) && AtEnd(o) ==> Stands(Seen(cfg, m), b.name, svc.start, Ok(b.command), n, o)
  }

  lemma BlockIsAsSaid(cfg: ProjectConfig, m: ManifestData, join: Joiner, name: string)
    requires ComposeBlock(cfg, m, join, name).Ok?
    ensures cfg.runner.Some? && cfg.runner.value.compose.Some?
    ensures ComposeBlock(cfg, m, join, name).value.name == name
    ensures BlockSays(cfg, m, join, ComposeBlock(cfg, m, join, name).value)
  {
    hide Render, Stands, Inside, AtEnd;
    var svc, b := cfg.services[name], ComposeBlock(cfg, m, join, name).value;
    var ctx := StartContext(cfg, m, name);
    assert ctx == Seen(cfg, m).Context(name);
    if '{' !in svc.start {
      PlainTextStays(svc.start, ctx);
    }
    forall n, o | Inside(n) && AtEnd(o) ensures Stands(Seen(cfg, m), b.name, svc.start, Ok(b.command), n, o) {
      ContextStands(Seen(cfg, m), name, svc.start, n, o);
    }
  }

  /** A compose file has one block for each service with a start command, in the order of their names, and the
      proxy where it is not switched off. */
  lemma ComposeSays(cfg: ProjectConfig, m: ManifestData, join: Joiner)
    requires ComposeOf(cfg, m, join).Ok?
    ensures cfg.runner.Some? && cfg.runner.value.compose.Some? && cfg.runner.value.compose.value.image != ""
    ensures var proxy := cfg.runner.value.compose.value.proxy; var f := ComposeOf(cfg, m, join).value;
      && f.proxy == (proxy.Some? && proxy.value.enabled != Some(false))
      && (f.proxy ==> proxy.value.kind in {"", "nginx"})
    ensures var f := ComposeOf(cfg, m, join).value;
      && (forall i, j :: 0 <= i < j < |f.services| ==> Less(f.services[i].name, f.services[j].name))
      && (forall b :: b in f.services ==> BlockSays(cfg, m, join, b) && cfg.services[b.name].start != "")
      && forall n :: n in cfg.services && cfg.services[n].start != "" ==> exists b :: b in f.services && b.name == n
  {
    hide ComposeBlock, Listing, BlockSays, Less;
    var names, f := Listing(Startable(cfg)), n => ComposeBlock(cfg, m, join, n);
    var blocks := ComposeOf(cfg, m, join).value.services;
    forall k | 0 <= k < |names|
      ensures |blocks| == |names| && blocks[k].name == names[k] && BlockSays(cfg, m, join, blocks[k])
    {
      CollectAt(names, f, k);
      BlockIsAsSaid(cfg, m, join, names[k]);
    }
    CollectLength(names, f);
    forall n | n in cfg.services && cfg.services[n].start != "" ensures exists b :: b in blocks && b.name == n {
      assert n in Startable(cfg);
      var k :| 0 <= k < |names| && names[k] == n;
      assert blocks[k] in blocks;
    }
    forall b | b in blocks ensures BlockSays(cfg, m, join, b) && b.name in Startable(cfg) {
      var k :| 0 <= k < |blocks| && blocks[k] == b;
      assert names[k] in names;
    }
  }

  lemma CollectLength<T, U>(xs: seq<T>, f: T -> Result<U>)
    requires Collect(xs, f).Ok?
    ensures |Collect(xs, f).value| == |xs|
  {
    if xs != [] {
      CollectAt(xs, f, 0);
    }
  }

  /** There is none exactly when compose is not configured, has no image or another proxy than nginx, or a start
      command does not render. */
  lemma NoComposeExactly(cfg: ProjectConfig, m: ManifestData, join: Joiner)
    ensures ComposeOf(cfg, m, join).Err? <==>
      || cfg.runner.None? || cfg.runner.value.compose.None?
      || var compose := cfg.runner.value.compose.value;
      || compose.image == ""
      || (compose.proxy.Some? && compose.proxy.value.enabled != Some(false)
          && compose.proxy.value.kind !in {"", "nginx"})
      || exists n :: n in cfg.services && cfg.services[n].start != ""
                     && Render(cfg.services[n].start, Seen(cfg, m).Context(n)).Err?
  {
    hide Render, Listing;
    var names, f := Listing(Startable(cfg)), n => ComposeBlock(cfg, m, join, n);
    forall n | n in Startable(cfg) && cfg.Compose().Some?
      ensures f(n).Err? <==> Render(cfg.services[n].start, Seen(cfg, m).Context(n)).Err?
    {
      assert StartContext(cfg, m, n) == Seen(cfg, m).Context(n);
    }
    if n :| n in Startable(cfg) && f(n).Err? {
      var i :| 0 <= i < |names| && names[i] == n;
      CollectFails(names, f, i);
    } else {
      CollectSucceeds(names, f);
    }
  }

  // ---------- The nginx config ----------

  /** The server of service n: a proxy to its port and, at the paths configured, to other services, if n is enabled
      and has a port; otherwise the page that says how to start it. */
  ghost predicate ServerSays(cfg: ProjectConfig, m: ManifestData, domain: string, n: string, server: NginxServer)
    requires n in cfg.services
  {
    && server.serverName == m.envName + "--" + n + "." + domain
    && (server.Proxied? <==> n in m.ports && (m.enabledServices == [] || n in m.enabledServices))
    && (server.NotStarted? ==> server.svc == n && server.envName == m.envName)
    && (server.Proxied? ==>
          var proxy := cfg.services[n].proxy;
          && server.port == m.ports[n] && |server.locations| == |proxy|
          && forall i :: 0 <= i < |proxy| ==>
               && server.locations[i].path == proxy[i].path
               && proxy[i].toService in m.ports && server.locations[i].port == m.ports[proxy[i].toService]
               && server.locations[i].targetPath == if proxy[i].targetPath != "" then proxy[i].targetPath
                                                    else proxy[i].path)
  }

  lemma ServerIsAsSaid(cfg: ProjectConfig, m: ManifestData, domain: string, n: string)
    requires n in cfg.services && ServerBlock(cfg, m, domain, n).Ok?
    ensures ServerSays(cfg, m, domain, n, ServerBlock(cfg, m, domain, n).value)
  {
    var proxy := cfg.services[n].proxy;
    assert forall i :: 0 <= i < |proxy| ==> proxy[i] in proxy;
  }

  /** An nginx config has one server for each service, in the order of their names. */
  lemma NginxSays(cfg: ProjectConfig, m: ManifestData, domain: string) returns (names: seq<string>)
    requires NginxOf(cfg, m, domain).Ok?
    ensures forall i, j :: 0 <= i < j < |names| ==> Less(names[i], names[j])
    ensures forall n :: n in names <==> n in cfg.services
    ensures var servers := NginxOf(cfg, m, domain).value.servers;
      |servers| == |names|
      && forall i :: 0 <= i < |names| ==> names[i] in cfg.services && ServerSays(cfg, m, domain, names[i], servers[i])
  {
    hide ServerBlock, Listing, ServerSays, Less;
    names := Listing(cfg.services.Keys);
    var f := n => ServerBlock(cfg, m, domain, n);
    CollectLength(names, f);
    forall k | 0 <= k < |names|
      ensures names[k] in cfg.services
      ensures ServerSays(cfg, m, domain, names[k], NginxOf(cfg, m, domain).value.servers[k])
    {
      assert names[k] in names;
      CollectAt(names, f, k);
      ServerIsAsSaid(cfg, m, domain, names[k]);
    }
  }

  /** There is none exactly when a service that is to be proxied has a path to one without a port. */
  lemma NoNginxExactly(cfg: ProjectConfig, m: ManifestData, domain: string)
    ensures NginxOf(cfg, m, domain).Err? <==>
      exists n :: n in cfg.services && n in m.ports && (m.enabledServices == [] || n in m.enabledServices)
                  && exists p :: p in cfg.services[n].proxy && p.toService !in m.ports
  {
    hide Listing;
    var names, f := Listing(cfg.services.Keys), n => ServerBlock(cfg, m, domain, n);
    forall n | n in cfg.services
      ensures f(n).Err? <==> n in m.ports && (m.enabledServices == [] || n in m.enabledServices)
                             && exists p :: p in cfg.services[n].proxy && p.toService !in m.ports
    {
    }
    if n :| n in cfg.services && f(n).Err? {
      var i :| 0 <= i < |names| && names[i] == n;
      CollectFails(names, f, i);
    } else {
      CollectSucceeds(names, f);
    }
  }

  // ---------- The files of a machine ----------

  /** The services that count as enabled: those that are tracked, or those to start by themselves. */
  ghost predicate CountsAsEnabled(inp: Inputs, enabled: seq<string>) {
    if inp.enabled != [] then enabled == inp.enabled
    else if inp.src.cfg.runner.Some? && inp.src.cfg.runner.value.compose.Some? then
      enabled == inp.src.cfg.runner.value.compose.value.autostart
    else enabled == []
  }

  /** The proxy is configured and not switched off. */
  predicate Proxied(cfg: ProjectConfig) {
    && cfg.runner.Some? && cfg.runner.value.compose.Some? && cfg.runner.value.compose.value.proxy.Some?
    && cfg.runner.value.compose.value.proxy.value.enabled != Some(false)
  }

  /** After a full run the machine has the manifest with the services enabled, unless an env file took its place. */
  lemma ManifestIsThere(inp: Inputs, a: VM, b: VM)
    requires Runs(inp, FULL, a, b)
    ensures inp.src.Manifest().Ok?
    ensures ".previewctl.json" in Targets(inp.src.Manifest().value, inp.join)
            || (".previewctl.json" in b.files
                && b.files[".previewctl.json"] ==
                     ManifestFile(inp.src.Manifest().value.(enabledServices := inp.enabled)))
  {
    hide Runs, ComposeOf, NginxOf, EnvTexts, Source.Manifest, IsOrder, Targets;
    var order := FullRun(inp, a, b);
    PartKeys(inp);
    TargetsAreFiles(Built(inp), order, inp.join);
    SameTargets(inp.src.Manifest().value, Built(inp), inp.join);
  }

  lemma SameTargets(m: ManifestData, m': ManifestData, join: Joiner)
    requires m'.services == m.services
    ensures Targets(m', join) == Targets(m, join)
  {
  }

  /** It has the compose file of that manifest. */
  lemma ComposeIsThere(inp: Inputs, a: VM, b: VM)
    requires Runs(inp, FULL, a, b)
    ensures inp.src.Manifest().Ok?
    ensures var compose := ComposeOf(inp.src.cfg, inp.src.Manifest().value.(enabledServices := inp.enabled), inp.join);
      && compose.Ok?
      && ".previewctl.compose.yaml" in b.files && b.files[".previewctl.compose.yaml"] == ComposeText(compose.value)
  {
    hide Runs, ComposeOf, NginxOf, EnvTexts, Source.Manifest, IsOrder;
    var order := FullRun(inp, a, b);
    PartKeys(inp);
  }

  /** And with the proxy on, the nginx config for the services that count as enabled, and the error pages. */
  lemma NginxIsThere(inp: Inputs, a: VM, b: VM) returns (enabled: seq<string>)
    requires Runs(inp, FULL, a, b) && Proxied(inp.src.cfg)
    ensures inp.src.Manifest().Ok? && CountsAsEnabled(inp, enabled)
    ensures var domain := inp.src.cfg.runner.value.compose.value.proxy.value.domain;
      var nginx := NginxOf(inp.src.cfg, inp.src.Manifest().value.(enabledServices := enabled), domain);
      && domain != "" && nginx.Ok?
      && "preview/nginx.conf" in b.files && b.files["preview/nginx.conf"] == NginxText(nginx.value)
    ensures forall p :: p in {"preview/error-pages/previewctl_404.html", "preview/error-pages/previewctl_502.html",
                              "preview/error-pages/previewctl_503.html"} ==>
      p in b.files && b.files[p] == ErrorPage(p, inp.src.envName)
  {
    hide Runs, ComposeOf, NginxOf, EnvTexts, Source.Manifest, IsOrder;
    var order := FullRun(inp, a, b);
    enabled := inp.EnabledServices();
    ManifestSays(inp.src);
    NginxIsNoPage(ForNginx(inp));
  }

  /** Every file that is neither generated nor an env file is as it was. */
  lemma OthersStay(inp: Inputs, a: VM, b: VM, p: string)
    requires Runs(inp, FULL, a, b) && inp.src.Manifest().Ok?
    requires p !in GENERATED && p !in Targets(inp.src.Manifest().value, inp.join)
    ensures (p in b.files <==> p in a.files) && (p in a.files ==> b.files[p] == a.files[p])
  {
    hide Runs, EnvTexts, Source.Manifest, IsOrder, Targets;
    var order := FullText(inp, a, b, p);
    TargetsAreFiles(Built(inp), order, inp.join);
    SameTargets(inp.src.Manifest().value, Built(inp), inp.join);
  }

  /** The variables of all services can be printed on a line. */
  ghost predicate AllPrintable(m: ManifestData) {
    forall n :: n in m.services && m.services[n].env.Some? ==> EnvFile.Printable(m.services[n].env.value)
  }

  /** Reading its env file on the machine gives every service the values of its env block. */
  lemma EnvFileReads(inp: Inputs, a: VM, b: VM, n: string, k: string)
    requires Runs(inp, FULL, a, b) && inp.src.Manifest().Ok?
    requires NoConflicts(inp.src.Manifest().value, inp.join) && AllPrintable(inp.src.Manifest().value)
    requires n in inp.src.Manifest().value.services && inp.src.Manifest().value.services[n].env.Some?
    requires k in inp.src.Manifest().value.services[n].env.value
    requires var svc := inp.src.Manifest().value.services[n]; inp.join(svc.path, svc.envFile) !in GENERATED
    ensures var svc := inp.src.Manifest().value.services[n]; var t := inp.join(svc.path, svc.envFile);
      && t in b.files && b.files[t].EnvText?
      && k in HookOutput.Parse(b.files[t].text) && HookOutput.Parse(b.files[t].text)[k] == svc.env.value[k]
  {
    hide Runs, Source.Manifest, HookOutput.Parse, EnvFile.Content, FilesInOrder, EnvFile.Printable;
    var m := inp.src.Manifest().value;
    var t := inp.join(m.services[n].path, m.services[n].envFile);
    var order := FullText(inp, a, b, t);
    BuiltFiles(inp, order);
    FileHolds(m, order, n, k, inp.join);
    assert b.files[t] == EnvText(EnvFile.Content(FilesInOrder(m, order, inp.join)[t]));
    EnvFile.RoundTrip(FilesInOrder(m, order, inp.join)[t]);
  }

  /** The file of a service is printable and holds its values. */
  lemma FileHolds(m: ManifestData, order: seq<string>, n: string, k: string, join: Joiner)
    requires IsOrder(m, order) && NoConflicts(m, join) && AllPrintable(m)
    requires n in m.services && m.services[n].env.Some? && k in m.services[n].env.value
    ensures var t := join(m.services[n].path, m.services[n].envFile); var files := FilesInOrder(m, order, join);
      t in files && k in files[t] && files[t][k] == m.services[n].env.value[k] && EnvFile.Printable(files[t])
  {
    hide FilesInOrder;
    var t := join(m.services[n].path, m.services[n].envFile);
    assert Sets(m, n, t, k, join);
    ValueOrigin(m, order, t, k, join);
    var files := FilesInOrder(m, order, join);
    forall x | x in files[t]
      ensures HookOutput.Plain(HookOutput.Pair(x, files[t][x])) && '\n' !in x && '\n' !in files[t][x]
    {
      ValueOrigin(m, order, t, x, join);
    }
  }
}
