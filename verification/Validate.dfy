/** Validation of a configuration (validate.go), and what it is worth for rendering. */
module Validate {
  import opened Prelude
  import opened Text
  import opened Regexp
  import opened Config
  import opened Template
  import opened Manifest
  import opened DependencyGraph

  /** What a message reports, without its wording. */
  datatype Issue =
    | UnknownDependency(svc: string, dep: string)
    | SelfDependency(svc: string)
    | DependencyCycle
    | BadVariable(svc: string, envKey: string, path: seq<string>)

  // ---------- Dependencies ----------

  predicate Known(cfg: ProjectConfig, name: string) {
    name in cfg.services || name in cfg.infraServices || name in cfg.provisioner.services
  }

  ghost predicate DependencyIssue(cfg: ProjectConfig, i: Issue) {
    match i
    case UnknownDependency(svc, dep) =>
      svc in cfg.services && dep in cfg.services[svc].dependsOn && !Known(cfg, dep)
    case SelfDependency(svc) => svc in cfg.services && svc in cfg.services[svc].dependsOn
    case DependencyCycle => Cyclic(cfg.services)
    case BadVariable(_, _, _) => false
  }

  // ---------- Template variables ----------

  /** The cases of validateTemplateVars. The env, store and proxy namespaces are not among them. */
  predicate Accepted(cfg: ProjectConfig, parts: seq<string>)
    requires |parts| >= 1
  {
    if parts[0] == "self" then |parts| == 2 && parts[1] == "port"
    else if parts[0] == "services" then |parts| == 3 && parts[2] == "port" && parts[1] in cfg.services
    else if parts[0] == "infrastructure" then |parts| == 3 && parts[2] == "port" && parts[1] in cfg.infraServices
    else if parts[0] == "provisioner" then
      |parts| == 3 && parts[1] in cfg.provisioner.services
      && parts[2] in cfg.provisioner.services[parts[1]].outputs
    else false
  }

  /** The path of some variable in the value of a service's env key. */
  ghost predicate Uses(cfg: ProjectConfig, svc: string, envKey: string, path: seq<string>) {
    svc in cfg.services && envKey in cfg.services[svc].EnvVars()
    && exists m :: Match(m) in Scan(cfg.services[svc].EnvVars()[envKey], VARIABLE) && Path(m) == path
  }

  ghost predicate TemplateIssue(cfg: ProjectConfig, i: Issue) {
    i.BadVariable? && Uses(cfg, i.svc, i.envKey, i.path) && |i.path| >= 1 && !Accepted(cfg, i.path)
  }

  class ValidationError {
    var errors: seq<Issue>

    constructor ()
      ensures errors == []
    {
      errors := [];
    }

    method Add(i: Issue)
      modifies this
      ensures errors == old(errors) + [i]
    {
      errors := errors + [i];
    }

    /** Every issue of the dependencies is reported, and nothing else is added. */
    method ValidateDependencyRefs(cfg: ProjectConfig)
      modifies this
      ensures forall i :: i in errors <==> i in old(errors) || DependencyIssue(cfg, i)
      ensures forall svc, dep :: UnknownDependency(svc, dep) in errors <==>
        UnknownDependency(svc, dep) in old(errors)
        || (svc in cfg.services && dep in cfg.services[svc].dependsOn
            && dep !in cfg.services && dep !in cfg.infraServices && dep !in cfg.provisioner.services)
      ensures forall svc :: SelfDependency(svc) in errors <==>
        SelfDependency(svc) in old(errors) || (svc in cfg.services && svc in cfg.services[svc].dependsOn)
      ensures DependencyCycle in errors <==> DependencyCycle in old(errors) || Cyclic(cfg.services)
    {
      var left := cfg.services.Keys;
      while left != {}
        invariant left <= cfg.services.Keys
        invariant forall i :: i in errors <==>
          i in old(errors) || (DependencyIssue(cfg, i) && !i.DependencyCycle? && i.svc !in left)
      {
        var svcName :| svcName in left;
        left := left - {svcName};
        CheckDependencies(cfg, svcName);
      }
      if |cfg.services| > 0 {
        var order := TopologicalSort(cfg.services);
        if order.Err? {
          Add(DependencyCycle);
        }
      } else {
        NoServicesNoCycle(cfg.services);
      }
    }

    method CheckDependencies(cfg: ProjectConfig, svcName: string)
      requires svcName in cfg.services
      modifies this
      ensures forall i :: i in errors <==>
        i in old(errors) || (DependencyIssue(cfg, i) && !i.DependencyCycle? && i.svc == svcName)
    {
      var deps := cfg.services[svcName].dependsOn;
      for n := 0 to |deps|
        invariant forall i :: i in errors <==>
          i in old(errors) || FoundIn(cfg, svcName, deps[..n], i)
      {
        assert deps[..n + 1] == deps[..n] + [deps[n]];
        if !Known(cfg, deps[n]) {
          Add(UnknownDependency(svcName, deps[n]));
        }
        if deps[n] == svcName {
          Add(SelfDependency(svcName));
        }
      }
      assert deps[..|deps|] == deps;
    }

    method ValidateTemplateVars(cfg: ProjectConfig)
      modifies this
      ensures forall i :: i in errors <==> i in old(errors) || TemplateIssue(cfg, i)
    {
      var left := cfg.services.Keys;
      while left != {}
        invariant left <= cfg.services.Keys
        invariant forall i :: i in errors <==> i in old(errors) || (TemplateIssue(cfg, i) && i.svc !in left)
      {
        var svcName :| svcName in left;
        left := left - {svcName};
        CheckService(cfg, svcName);
      }
    }

    method CheckService(cfg: ProjectConfig, svcName: string)
      requires svcName in cfg.services
      modifies this
      ensures forall i :: i in errors <==> i in old(errors) || (TemplateIssue(cfg, i) && i.svc == svcName)
    {
      var env := cfg.services[svcName].EnvVars();
      var left := env.Keys;
      while left != {}
        invariant left <= env.Keys
        invariant forall i :: i in errors <==>
          i in old(errors) || (TemplateIssue(cfg, i) && i.svc == svcName && i.envKey !in left)
      {
        var envKey :| envKey in left;
        left := left - {envKey};
        CheckValue(cfg, svcName, envKey);
      }
    }

    method CheckValue(cfg: ProjectConfig, svcName: string, envKey: string)
      requires svcName in cfg.services && envKey in cfg.services[svcName].EnvVars()
      modifies this
      ensures forall i :: i in errors <==>
        i in old(errors) || (TemplateIssue(cfg, i) && i.svc == svcName && i.envKey == envKey)
    {
      var matches := Scan(cfg.services[svcName].EnvVars()[envKey], VARIABLE);
      for n := 0 to |matches|
        invariant forall i :: i in errors <==>
          i in old(errors)
          || (i.BadVariable? && i.svc == svcName && i.envKey == envKey && Rejects(cfg, matches[..n], i.path))
      {
        var m := matches[n];
        assert matches[..n + 1] == matches[..n] + [m];
        if m.Match? && !Accepted(cfg, Path(m.text)) {
          Add(BadVariable(svcName, envKey, Path(m.text)));
        }
      }
      assert matches[..|matches|] == matches;
    }
  }

  ghost predicate FoundIn(cfg: ProjectConfig, svc: string, deps: seq<string>, i: Issue) {
    (i.UnknownDependency? && i.svc == svc && i.dep in deps && !Known(cfg, i.dep))
    || (i == SelfDependency(svc) && svc in deps)
  }

  ghost predicate Rejects(cfg: ProjectConfig, ps: seq<Piece>, path: seq<string>) {
    |path| >= 1 && !Accepted(cfg, path) && exists m :: Match(m) in ps && Path(m) == path
  }

  lemma NoServicesNoCycle(services: Services)
    requires |services| == 0
    ensures !Cyclic(services)
  {
    assert services.Keys == {};
    forall p ensures !IsCycle(services, p) {
      if |p| >= 2 {
        assert !DependsOn(services, p[0], p[1]);
      }
    }
  }

  // ---------- What acceptance promises ----------

  ghost predicate AllAccepted(cfg: ProjectConfig) {
    forall svc, k, path :: Uses(cfg, svc, k, path) ==> |path| >= 1 && Accepted(cfg, path)
  }

  /** Every name has a port, and every declared output of a provisioner service is there. */
  ghost predicate Complete(src: Source) {
    (forall n :: n in src.cfg.services || n in src.cfg.infraServices ==> n in src.ports)
    && forall s :: s in src.cfg.provisioner.services ==>
         forall o :: o in src.cfg.provisioner.services[s].outputs ==>
           s in src.outputs && o in src.outputs[s]
  }

  /** The two ways an accepted variable can still fail: an infrastructure name that is a service too
      has its port among the services, and a service without a name has no self. */
  predicate Blind(cfg: ProjectConfig, svc: string, path: seq<string>) {
    (|path| == 3 && path[0] == "infrastructure" && path[1] in cfg.services)
    || (|path| >= 1 && path[0] == "self" && svc == "")
  }

  ghost predicate NothingBlind(cfg: ProjectConfig) {
    forall svc, k, path :: Uses(cfg, svc, k, path) ==> !Blind(cfg, svc, path)
  }

  lemma AcceptedResolves(src: Source, svc: string, path: seq<string>)
    requires Complete(src) && |path| >= 1 && Accepted(src.cfg, path) && svc in src.cfg.services
    ensures ResolveVar(path, src.Context(svc)).Ok? <==> !Blind(src.cfg, svc, path)
  {
    if path[0] == "provisioner" {
      assert path[1..] == [path[1], path[2]];
      assert path[2] in src.cfg.provisioner.services[path[1]].outputs;
    }
  }

  ghost predicate SeesAll(src: Source, svc: string, k: string) {
    forall path :: Uses(src.cfg, svc, k, path) ==> !Blind(src.cfg, svc, path)
  }

  lemma ValueRenders(src: Source, svc: string, k: string)
    requires svc in src.cfg.services && k in src.cfg.services[svc].EnvVars()
    requires Complete(src) && AllAccepted(src.cfg)
    ensures Render(src.cfg.services[svc].EnvVars()[k], src.Context(svc)).Ok? <==> SeesAll(src, svc, k)
  {
    hide ResolveVar, Accepted, Render, Scan, Path, Blind;
    var tmpl, ctx := src.cfg.services[svc].EnvVars()[k], src.Context(svc);
    RenderSucceeds(tmpl, ctx);
    forall m | Match(m) in Scan(tmpl, VARIABLE)
      ensures Uses(src.cfg, svc, k, Path(m))
      ensures ResolveVar(Path(m), ctx).Ok? <==> !Blind(src.cfg, svc, Path(m))
    {
      assert Uses(src.cfg, svc, k, Path(m));
      AcceptedResolves(src, svc, Path(m));
    }
    if path :| Uses(src.cfg, svc, k, path) && Blind(src.cfg, svc, path) {
      var m :| Match(m) in Scan(tmpl, VARIABLE) && Path(m) == path;
    }
  }

  lemma ServiceRenders(src: Source, svc: string)
    requires svc in src.cfg.services && Complete(src) && AllAccepted(src.cfg)
    ensures src.Service(svc).Ok? <==> forall k :: k in src.cfg.services[svc].EnvVars() ==> SeesAll(src, svc, k)
  {
    hide Render;
    var env := src.cfg.services[svc].EnvVars();
    forall k | k in env ensures Render(env[k], src.Context(svc)).Ok? <==> SeesAll(src, svc, k) {
      ValueRenders(src, svc, k);
    }
    assert src.Service(svc).Ok? <==> EnvRenders(env, src.Context(svc));
  }

  /** A validated configuration renders, given its ports and outputs, exactly when no variable falls
      into one of the two blind spots. */
  lemma ValidationIsSound(src: Source)
    requires Complete(src) && AllAccepted(src.cfg)
    ensures src.Manifest().Ok? <==> NothingBlind(src.cfg)
  {
    forall svc | svc in src.cfg.services
      ensures src.Service(svc).Ok? <==> forall k :: k in src.cfg.services[svc].EnvVars() ==> SeesAll(src, svc, k)
    {
      ServiceRenders(src, svc);
    }
    if svc, k, path :| Uses(src.cfg, svc, k, path) && Blind(src.cfg, svc, path) {
      assert !SeesAll(src, svc, k);
      assert src.Service(svc).Err?;
    }
  }

  /** In particular when the names of services are not empty and not those of infrastructure. */
  lemma DisjointNamesRender(src: Source)
    requires Complete(src) && AllAccepted(src.cfg)
    requires "" !in src.cfg.services && src.cfg.services.Keys !! src.cfg.infraServices.Keys
    ensures src.Manifest().Ok?
  {
    forall svc, k, path | Uses(src.cfg, svc, k, path) ensures !Blind(src.cfg, svc, path) {
      assert Accepted(src.cfg, path);
    }
    ValidationIsSound(src);
  }

  /** Nothing reported means every variable accepted, and no cycle among the services. */
  lemma NoIssues(cfg: ProjectConfig)
    requires forall i :: !TemplateIssue(cfg, i) && !DependencyIssue(cfg, i)
    ensures AllAccepted(cfg) && !Cyclic(cfg.services)
  {
    forall svc, k, path | Uses(cfg, svc, k, path) ensures |path| >= 1 && Accepted(cfg, path) {
      assert !TemplateIssue(cfg, BadVariable(svc, k, path));
    }
    assert !DependencyIssue(cfg, DependencyCycle);
  }

  // ---------- Where validation is wrong ----------

  /** One service with one variable in its env. */
  function Lone(svc: string, text: string, infra: map<string, int>): ProjectConfig {
    var service := ServiceConfig("app", 0, "", [], Some(map["X" := text]), "", "", "", []);
    ProjectConfig(1, "example", ProvisionerConfig("", "", None, map[]), None, map[svc := service], None, "", infra)
  }

  lemma LoneUses(svc: string, path: string, infra: map<string, int>, s: string, k: string, p: seq<string>)
    requires path != "" && '}' !in path
    ensures Uses(Lone(svc, "{{" + path + "}}", infra), s, k, p) <==>
      s == svc && k == "X" && p == Split(TrimSpace(path), '.')
  {
    hide Scan, Path, Split, TrimSpace;
    OneVariable(path);
    var m := "{{" + path + "}}";
    assert Match(m) in [Match(m)];
  }

  lemma LoneHasNoCycle(cfg: ProjectConfig)
    requires forall s :: s in cfg.services ==> cfg.services[s].dependsOn == []
    ensures forall i :: !DependencyIssue(cfg, i)
  {
    forall p ensures !IsCycle(cfg.services, p) {
      if |p| >= 2 {
        assert !DependsOn(cfg.services, p[0], p[1]);
      }
    }
  }

  /** Nothing is reported, ports and outputs are there, and still it does not render. */
  ghost predicate Misjudged(src: Source) {
    (forall i :: !TemplateIssue(src.cfg, i) && !DependencyIssue(src.cfg, i)) && Complete(src) && src.Manifest().Err?
  }

  lemma LoneIsMisjudged(src: Source, svc: string, path: string, infra: map<string, int>, parts: seq<string>)
    requires path != "" && '}' !in path && parts == Split(TrimSpace(path), '.')
    requires src.cfg == Lone(svc, "{{" + path + "}}", infra) && svc in src.ports && infra.Keys <= src.ports.Keys
    requires Accepted(src.cfg, parts) && Blind(src.cfg, svc, parts)
    ensures Misjudged(src)
  {
    hide Accepted, Blind, Split, TrimSpace, Uses, Source.Manifest;
    forall s, k, p ensures Uses(src.cfg, s, k, p) <==> s == svc && k == "X" && p == parts {
      LoneUses(svc, path, infra, s, k, p);
    }
    LoneHasNoCycle(src.cfg);
    assert AllAccepted(src.cfg);
    assert Uses(src.cfg, svc, "X", parts);
    assert !NothingBlind(src.cfg);
    assert Complete(src);
    ValidationIsSound(src);
  }

  const DB_PORT := "infrastructure.db.port"
  const OWN_PORT := "self.port"

  const BOTH_KINDS :=
    Source(Lone("db", "{{" + DB_PORT + "}}", map["db" := 5432]), "env", "main", "local", map["db" := 61000], map[],
           map[])

  const NO_NAME :=
    Source(Lone("", "{{" + OWN_PORT + "}}", map[]), "env", "main", "local", map["" := 61000], map[], map[])

  /** An input for one blind spot: the port of an infrastructure service whose name a service has too. */
  lemma BothKindsIsMisjudged()
    ensures Misjudged(BOTH_KINDS)
  {
    hide Misjudged, Split, TrimSpace, Accepted, Blind;
    InfrastructurePath();
    InfrastructureIsBlind(BOTH_KINDS.cfg);
    LoneIsMisjudged(BOTH_KINDS, "db", DB_PORT, map["db" := 5432], ["infrastructure", "db", "port"]);
  }

  /** And for the other: the own port of the service with the empty name. */
  lemma NoNameIsMisjudged()
    ensures Misjudged(NO_NAME)
  {
    hide Misjudged, Split, TrimSpace, Accepted, Blind;
    SelfPath();
    SelfIsBlind(NO_NAME.cfg);
    LoneIsMisjudged(NO_NAME, "", OWN_PORT, map[], ["self", "port"]);
  }

  lemma InfrastructureIsBlind(cfg: ProjectConfig)
    requires "db" in cfg.services && "db" in cfg.infraServices
    ensures Accepted(cfg, ["infrastructure", "db", "port"]) && Blind(cfg, "db", ["infrastructure", "db", "port"])
  {
    assert "infrastructure" != "self" && "infrastructure" != "services" by {
      assert "infrastructure"[0] != "self"[0] && "infrastructure"[0] != "services"[0];
    }
  }

  lemma SelfIsBlind(cfg: ProjectConfig)
    ensures Accepted(cfg, ["self", "port"]) && Blind(cfg, "", ["self", "port"])
  {
  }

  lemma InfrastructurePath()
    ensures Split(TrimSpace(DB_PORT), '.') == ["infrastructure", "db", "port"] && '}' !in DB_PORT && DB_PORT != ""
  {
    hide Split, TrimSpace;
    TrimmedStays(DB_PORT);
    assert DB_PORT == "infrastructure" + "." + "db.port" && "db.port" == "db" + "." + "port";
    SplitAtSeparator("infrastructure", '.', "db.port");
    SplitAtSeparator("db", '.', "port");
    SplitWithout("port", '.');
  }

  lemma SelfPath()
    ensures Split(TrimSpace(OWN_PORT), '.') == ["self", "port"] && '}' !in OWN_PORT && OWN_PORT != ""
  {
    hide Split, TrimSpace;
    TrimmedStays(OWN_PORT);
    assert OWN_PORT == "self" + "." + "port";
    SplitAtSeparator("self", '.', "port");
    SplitWithout("port", '.');
  }

  /** The other way round validation is wrong for whole namespaces: given the ports of the names and no more,
      and the declared outputs and no more, a variable that resolves is rejected exactly when it names the
      environment, the store or the proxy. */
  lemma RejectedThoughItResolves(src: Source, svc: string, path: seq<string>)
    requires svc in src.cfg.services && |path| >= 1 && ResolveVar(path, src.Context(svc)).Ok?
    requires forall n :: n in src.ports ==> n in src.cfg.services || n in src.cfg.infraServices
    requires forall s :: s in src.outputs ==> s in src.cfg.provisioner.services
    requires forall s, o :: s in src.outputs && o in src.outputs[s] ==> o in src.cfg.provisioner.services[s].outputs
    ensures !Accepted(src.cfg, path) <==> path[0] in {"env", "store", "proxy"}
  {
    NamespacesDiffer();
  }

  /** An input: the environment's name is documented, resolves, and is reported. */
  lemma EnvNameIsRejected(src: Source, svc: string)
    requires svc in src.cfg.services && src.envName != ""
    ensures ResolveVar(["env", "name"], src.Context(svc)) == Ok(src.envName) && !Accepted(src.cfg, ["env", "name"])
  {
    NamespacesDiffer();
    assert ["env", "name"][0] == "env";
  }

  lemma NamespacesDiffer()
    ensures {"env", "store", "proxy"} !! {"self", "services", "infrastructure", "provisioner"}
  {
    assert "store"[1] == 't' && "self"[1] == 'e' && "services"[1] == 'e';
    assert "provisioner"[3] == 'v' && "proxy"[3] == 'x';
  }
}
