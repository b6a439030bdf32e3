/** What each template variable stands for (template.go), and what env blocks see of an environment (manifest.go). */
module Variables {
  import opened Prelude
  import opened Config
  import opened Text
  import opened Template
  import opened Manifest

  // ---------- One variable ----------

  /** A name that can stand inside a path. */
  predicate Inside(n: string) {
    '.' !in n && '}' !in n
  }

  /** And at its end, where space would be trimmed. */
  predicate AtEnd(n: string) {
    Inside(n) && (n != "" ==> !IsSpace(n[|n| - 1]))
  }

  /** A template is text before a variable, the variable, and what follows; each renders by itself. */
  lemma RenderPieces(before: string, path: string, rest: string, ctx: TemplateContext)
    requires '{' !in before && path != "" && '}' !in path
    ensures var variable := Render("{{" + path + "}}", ctx); var later := Render(rest, ctx);
      Render(before + ("{{" + path + "}}" + rest), ctx) ==
        if variable.Ok? && later.Ok? then Ok(before + (variable.value + later.value)) else Err
  {
    hide Render, ResolveVar, Split, TrimSpace;
    RenderFirst(before, path, rest, ctx);
    Alone(path, ctx);
  }

  lemma Alone(path: string, ctx: TemplateContext)
    requires path != "" && '}' !in path
    ensures Render("{{" + path + "}}", ctx) == ResolveVar(Split(TrimSpace(path), '.'), ctx)
  {
    hide Render, ResolveVar, Split, TrimSpace;
    var value := ResolveVar(Split(TrimSpace(path), '.'), ctx);
    RenderFirst("", path, "", ctx);
    assert "{{" + path + "}}" == "" + ("{{" + path + "}}" + "");
    assert Render("", ctx) == Ok("") by { NothingToRender(ctx); }
    assert value.Ok? ==> "" + (value.value + "") == value.value;
  }

  lemma NothingToRender(ctx: TemplateContext)
    ensures Render("", ctx) == Ok("")
  {
  }

  /** Text without braces stays. */
  lemma {:induction false} PlainTextStays(text: string, ctx: TemplateContext)
    requires '{' !in text
    ensures Render(text, ctx) == Ok(text)
  {
    hide Render, ResolveVar;
    if text == "" {
      NothingToRender(ctx);
    } else {
      CharacterStays(text, ctx);
      PlainTextStays(text[1..], ctx);
      assert [text[0]] + text[1..] == text;
    }
  }

  lemma TwoParts(a: string, b: string)
    requires '.' !in a && '.' !in b
    ensures Split(a + "." + b, '.') == [a, b]
  {
    hide Split;
    SplitAtSeparator(a, '.', b);
    SplitWithout(b, '.');
    assert [a] + [b] == [a, b];
  }

  lemma ThreeParts(a: string, b: string, c: string)
    requires '.' !in a && '.' !in b && '.' !in c
    ensures Split(a + "." + b + "." + c, '.') == [a, b, c]
  {
    hide Split;
    TwoParts(b, c);
    Associative(a + ".", b + ".", c);
    Associative(a + ".", b, ".");
    assert a + "." + b + "." + c == a + "." + (b + "." + c);
    SplitAtSeparator(a, '.', b + "." + c);
    assert [a] + [b, c] == [a, b, c];
  }

  /** A variable of two parts, of which the first begins with a letter. */
  lemma Two(a: string, b: string, ctx: TemplateContext)
    requires Inside(a) && AtEnd(b) && a != "" && !IsSpace(a[0])
    ensures Render("{{" + (a + "." + b) + "}}", ctx) == ResolveVar([a, b], ctx)
  {
    hide Render, ResolveVar, Split, TrimSpace, IsSpace;
    var path := a + "." + b;
    assert !IsSpace('.') by { DotIsNoSpace(); }
    assert path[0] == a[0] && path[|path| - 1] == if b == "" then '.' else b[|b| - 1];
    TrimmedStays(path);
    TwoParts(a, b);
    Alone(path, ctx);
  }

  lemma Three(a: string, b: string, c: string, ctx: TemplateContext)
    requires Inside(a) && Inside(b) && AtEnd(c) && a != "" && !IsSpace(a[0])
    ensures Render("{{" + (a + "." + b + "." + c) + "}}", ctx) == ResolveVar([a, b, c], ctx)
  {
    hide Render, ResolveVar, Split, TrimSpace, IsSpace;
    var path := a + "." + b + "." + c;
    assert !IsSpace('.') by { DotIsNoSpace(); }
    assert path[0] == a[0] && path[|path| - 1] == if c == "" then '.' else c[|c| - 1];
    TrimmedStays(path);
    ThreeParts(a, b, c);
    Alone(path, ctx);
  }

  lemma DotIsNoSpace()
    ensures !IsSpace('.')
  {
  }

  lemma Words()
    ensures !IsSpace('s') && !IsSpace('i') && !IsSpace('e') && !IsSpace('p')
    ensures AtEnd("port") && AtEnd("name") && AtEnd("domain") && Inside("url")
  {
  }

  /** A port renders as digits that stand for it. */
  predicate Shows(r: Result<string>, port: int) {
    r.Ok? && Number(r.value) == port
  }

  lemma PortIsShown(ports: PortMap, name: string)
    ensures if name in ports then Shows(Port(ports, name), ports[name]) else Port(ports, name).Err?
  {
    hide Number, Decimal;
    if name in ports {
      DecimalIsTheNumber(ports[name]);
    }
  }

  lemma ServicePort(n: string, ctx: TemplateContext)
    requires Inside(n)
    ensures var r := Render("{{services." + n + ".port}}", ctx);
      if n in ctx.servicePorts then r.Ok? && Number(r.value) == ctx.servicePorts[n] else r.Err?
  {
    hide Render, Number, Port;
    Words();
    Three("services", n, "port", ctx);
    assert "{{" + ("services" + "." + n + "." + "port") + "}}" == "{{services." + n + ".port}}";
    PortIsShown(ctx.servicePorts, n);
  }

  lemma InfrastructurePort(n: string, ctx: TemplateContext)
    requires Inside(n)
    ensures var r := Render("{{infrastructure." + n + ".port}}", ctx);
      if n in ctx.infraPorts then r.Ok? && Number(r.value) == ctx.infraPorts[n] else r.Err?
  {
    hide Render, Number, Port;
    Words();
    Three("infrastructure", n, "port", ctx);
    assert "{{" + ("infrastructure" + "." + n + "." + "port") + "}}" == "{{infrastructure." + n + ".port}}";
    PortIsShown(ctx.infraPorts, n);
  }

  lemma OwnPort(ctx: TemplateContext)
    ensures var r := Render("{{self.port}}", ctx);
      if ctx.currentService != "" && ctx.currentService in ctx.servicePorts then
        r.Ok? && Number(r.value) == ctx.servicePorts[ctx.currentService]
      else r.Err?
  {
    hide Render, Number, Port;
    Words();
    Two("self", "port", ctx);
    assert "{{" + ("self" + "." + "port") + "}}" == "{{self.port}}";
    PortIsShown(ctx.servicePorts, ctx.currentService);
  }

  lemma OutputResolves(s: string, o: string, ctx: TemplateContext)
    ensures ResolveVar(["provisioner", s, o], ctx) ==
      if s in ctx.provisionerOutputs && o in ctx.provisionerOutputs[s] then Ok(ctx.provisionerOutputs[s][o]) else Err
  {
    hide Port;
    assert ["provisioner", s, o][1..] == [s, o];
  }

  lemma ProvisionerOutput(s: string, o: string, ctx: TemplateContext)
    requires Inside(s) && AtEnd(o)
    ensures Render("{{provisioner." + s + "." + o + "}}", ctx) ==
      if s in ctx.provisionerOutputs && o in ctx.provisionerOutputs[s] then Ok(ctx.provisionerOutputs[s][o]) else Err
  {
    hide Render, ResolveVar, IsSpace;
    Words();
    Three("provisioner", s, o, ctx);
    assert "{{" + ("provisioner" + "." + s + "." + o) + "}}" == "{{provisioner." + s + "." + o + "}}";
    OutputResolves(s, o, ctx);
  }

  lemma StoreKey(k: string, ctx: TemplateContext)
    requires AtEnd(k)
    ensures Render("{{store." + k + "}}", ctx) == if k in ctx.store then Ok(ctx.store[k]) else Err
  {
    hide Render;
    Words();
    Two("store", k, ctx);
    assert "{{" + ("store" + "." + k) + "}}" == "{{store." + k + "}}";
  }

  lemma EnvName(ctx: TemplateContext)
    ensures Render("{{env.name}}", ctx) == if ctx.envName != "" then Ok(ctx.envName) else Err
  {
    hide Render;
    Words();
    Two("env", "name", ctx);
    assert "{{" + ("env" + "." + "name") + "}}" == "{{env.name}}";
  }

  lemma ProxyDomain(ctx: TemplateContext)
    ensures Render("{{proxy.domain}}", ctx) == if ctx.proxyDomain != "" then Ok(ctx.proxyDomain) else Err
  {
    hide Render;
    Words();
    Two("proxy", "domain", ctx);
    assert "{{" + ("proxy" + "." + "domain") + "}}" == "{{proxy.domain}}";
  }

  lemma ProxyUrl(s: string, ctx: TemplateContext)
    requires AtEnd(s)
    ensures Render("{{proxy.url." + s + "}}", ctx) ==
      if ctx.proxyDomain != "" && s in ctx.servicePorts then
        Ok("https://" + ctx.envName + "--" + s + "." + ctx.proxyDomain)
      else Err
  {
    hide Render;
    Words();
    Three("proxy", "url", s, ctx);
    assert "{{" + ("proxy" + "." + "url" + "." + s) + "}}" == "{{proxy.url." + s + "}}";
  }

  /** Nothing else resolves: a variable that renders is one of these. */
  lemma NothingElse(path: string, ctx: TemplateContext)
    requires path != "" && '}' !in path && Trimmed(path) && Render("{{" + path + "}}", ctx).Ok?
    ensures var parts := Split(path, '.');
      || (|parts| == 2 && parts[0] == "store")
      || (|parts| == 2 && path in {"self.port", "env.name", "proxy.domain"})
      || (|parts| == 3 && parts[0] in {"services", "infrastructure"} && parts[2] == "port")
      || (|parts| == 3 && parts[0] == "provisioner")
      || (|parts| == 3 && parts[0] == "proxy" && parts[1] == "url")
  {
    hide Render, Split, TrimSpace, Join, ResolveVar;
    Alone(path, ctx);
    TrimmedStays(path);
    var parts := Split(path, '.');
    JoinSplit(path, '.');
    ResolvesOnly(parts, ctx);
    if |parts| == 2 {
      JoinOfTwo(parts);
      TwoWords();
    }
  }

  lemma TwoWords()
    ensures "self" + "." + "port" == "self.port" && "env" + "." + "name" == "env.name"
    ensures "proxy" + "." + "domain" == "proxy.domain"
  {
  }

  lemma ResolvesOnly(parts: seq<string>, ctx: TemplateContext)
    requires ResolveVar(parts, ctx).Ok?
    ensures
      || (|parts| == 2 && parts[0] == "store")
      || (|parts| == 2 && parts[0] == "self" && parts[1] == "port")
      || (|parts| == 2 && parts[0] == "env" && parts[1] == "name")
      || (|parts| == 2 && parts[0] == "proxy" && parts[1] == "domain")
      || (|parts| == 3 && parts[0] in {"services", "infrastructure"} && parts[2] == "port")
      || (|parts| == 3 && parts[0] == "provisioner")
      || (|parts| == 3 && parts[0] == "proxy" && parts[1] == "url")
  {
    hide Port;
  }

  lemma JoinOfTwo(parts: seq<string>)
    requires |parts| == 2
    ensures Join(parts, '.') == parts[0] + "." + parts[1]
  {
    assert parts[1..] == [parts[1]];
  }

  // ---------- What a manifest says ----------

  /** The manifest names the environment and every service, resolved. */
  lemma ManifestSays(src: Source)
    requires src.Manifest().Ok?
    ensures var m := src.Manifest().value;
      && m.envName == src.envName && m.projectName == src.cfg.name && m.branch == src.branch && m.mode == src.mode
      && m.ports == src.ports && m.provisionerOutputs == src.outputs && m.enabledServices == []
      && m.infrastructure == (if src.cfg.infrastructure == Some("") then None else src.cfg.infrastructure)
      && m.services.Keys == src.cfg.services.Keys
    ensures forall s :: s in src.cfg.services ==>
      var svc := src.cfg.services[s]; var ms := src.Manifest().value.services[s];
      && ms.path == svc.path && ms.envFile == (if svc.envFile != "" then svc.envFile else ".env.local")
      && (ms.env.Some? <==> svc.env.Some?) && (ms.env.Some? ==> ms.env.value.Keys == svc.env.value.Keys)
  {
    hide Render;
    forall s | s in src.cfg.services ensures src.Service(s).Ok? {
    }
  }

  lemma EnvRendered(src: Source, s: string, k: string)
    requires src.Manifest().Ok? && s in src.cfg.services && src.cfg.services[s].env.Some?
    requires k in src.cfg.services[s].env.value
    ensures var env := src.Manifest().value.services[s].env;
      env.Some? && k in env.value
      && Render(src.cfg.services[s].env.value[k], src.Context(s)) == Ok(env.value[k])
  {
    hide Render;
    assert src.Service(s).Ok?;
  }

  /** What a text gives for service s when it is one variable, n and o being names: the value of the environment that
      the variable stands for, or an error where there is none. */
  ghost predicate Stands(src: Source, s: string, text: string, r: Result<string>, n: string, o: string) {
    && (text == "{{self.port}}" ==>
          if s != "" && s in src.cfg.services && s in src.ports then r.Ok? && Number(r.value) == src.ports[s]
          else r.Err?)
    && (text == "{{services." + n + ".port}}" ==>
          if n in src.cfg.services && n in src.ports then r.Ok? && Number(r.value) == src.ports[n] else r.Err?)
    && (text == "{{infrastructure." + n + ".port}}" ==>
          if n !in src.cfg.services && n in src.ports then r.Ok? && Number(r.value) == src.ports[n] else r.Err?)
    && (text == "{{provisioner." + n + "." + o + "}}" ==>
          r == if n in src.outputs && o in src.outputs[n] then Ok(src.outputs[n][o]) else Err)
    && (text == "{{store." + o + "}}" ==> r == if o in src.store then Ok(src.store[o]) else Err)
    && (text == "{{env.name}}" ==> r == if src.envName != "" then Ok(src.envName) else Err)
    && (text == "{{proxy.domain}}" ==> r == if DomainOf(src.cfg) != "" then Ok(DomainOf(src.cfg)) else Err)
    && (text == "{{proxy.url." + o + "}}" ==>
          r == if o in src.cfg.services && o in src.ports && DomainOf(src.cfg) != "" then
                 Ok("https://" + src.envName + "--" + o + "." + DomainOf(src.cfg))
               else Err)
  }

  /** The domain of the proxy, where one is configured. */
  function DomainOf(cfg: ProjectConfig): string {
    if cfg.runner.Some? && cfg.runner.value.compose.Some? && cfg.runner.value.compose.value.proxy.Some? then
      cfg.runner.value.compose.value.proxy.value.domain
    else ""
  }

  /** Env blocks see the ports, the outputs, the store, the environment and the proxy, and the service itself. */
  lemma ContextStands(src: Source, s: string, text: string, n: string, o: string)
    requires Inside(n) && AtEnd(o)
    ensures Stands(src, s, text, Render(text, src.Context(s)), n, o)
  {
    hide Render, Number, Inside, AtEnd;
    var ctx := src.Context(s);
    OwnPort(ctx);
    ServicePort(n, ctx);
    InfrastructurePort(n, ctx);
    ProvisionerOutput(n, o, ctx);
    StoreKey(o, ctx);
    EnvName(ctx);
    ProxyDomain(ctx);
    ProxyUrl(o, ctx);
  }

  /** The value of an env key in the manifest. */
  lemma EnvSees(src: Source, s: string, k: string, n: string, o: string)
    requires src.Manifest().Ok? && s in src.cfg.services && src.cfg.services[s].env.Some?
    requires k in src.cfg.services[s].env.value && Inside(n) && AtEnd(o)
    ensures var env := src.Manifest().value.services[s].env;
      env.Some? && k in env.value && Stands(src, s, src.cfg.services[s].env.value[k], Ok(env.value[k]), n, o)
  {
    hide Render, Number;
    EnvRendered(src, s, k);
    ContextStands(src, s, src.cfg.services[s].env.value[k], n, o);
  }

  /** There is a manifest exactly when every env value renders for its service. */
  lemma ManifestBuildsExactly(src: Source)
    ensures src.Manifest().Ok? <==>
      forall s, k :: s in src.cfg.services && src.cfg.services[s].env.Some? && k in src.cfg.services[s].env.value ==>
        Render(src.cfg.services[s].env.value[k], src.Context(s)).Ok?
  {
    hide Render;
    if src.Manifest().Err? {
      var s :| s in src.cfg.services && src.Service(s).Err?;
      assert !EnvRenders(src.cfg.services[s].env.value, src.Context(s));
    } else {
      forall s, k | s in src.cfg.services && src.cfg.services[s].env.Some? && k in src.cfg.services[s].env.value
        ensures Render(src.cfg.services[s].env.value[k], src.Context(s)).Ok?
      {
        EnvRendered(src, s, k);
      }
    }
  }

  /** So a single env value decides alone: an environment in which it is the only one, and one variable, can be built
      exactly when there is what that variable stands for. */
  lemma LoneVariableBuilds(src: Source, s: string, k: string, n: string, o: string) returns (r: Result<string>)
    requires s in src.cfg.services && Inside(n) && AtEnd(o)
    requires src.cfg.services[s].env.Some? && src.cfg.services[s].env.value.Keys == {k}
    requires forall q :: q in src.cfg.services && q != s ==> src.cfg.services[q].env.None?
    ensures Stands(src, s, src.cfg.services[s].env.value[k], r, n, o) && (src.Manifest().Ok? <==> r.Ok?)
  {
    hide Render, Stands, Source.Manifest, Inside, AtEnd;
    ManifestBuildsExactly(src);
    assert k in src.cfg.services[s].env.value;
    r := Render(src.cfg.services[s].env.value[k], src.Context(s));
    ContextStands(src, s, src.cfg.services[s].env.value[k], n, o);
  }
}
