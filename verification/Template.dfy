/** Template variables (template.go). */
module Template {
  import opened Prelude
  import opened Config
  import opened Text
  import opened Regexp

  datatype TemplateContext = TemplateContext(servicePorts: PortMap, infraPorts: PortMap,
                                             provisionerOutputs: map<string, map<string, string>>,
                                             currentService: string, envName: string,
                                             store: map<string, string>, proxyDomain: string)

  // ---------- The pattern \{\{([^}]+)\}\} ----------

  predicate IsMatch(m: string) {
    |m| >= 5 && m[..2] == "{{" && m[|m| - 2..] == "}}" && forall k :: 2 <= k < |m| - 2 ==> m[k] != '}'
  }

  /** The length of the match that begins at the start of s, zero when none does. */
  function MatchLength(s: string): (n: nat)
    ensures n <= |s|
  {
    if |s| < 2 || s[..2] != "{{" then 0
    else
      var j := IndexByte(s[2..], '}');
      if j >= 1 && j + 3 < |s| && s[j + 3] == '}' then j + 4 else 0
  }

  lemma MatchLengthIsTheMatch(s: string, n: nat)
    requires 0 < n <= |s|
    ensures n == MatchLength(s) <==> IsMatch(s[..n])
  {
    if |s| >= 2 && s[..2] == "{{" {
      var j := IndexByte(s[2..], '}');
      assert 0 <= j ==> s[2..][j] == s[2 + j] == '}';
      forall k | 2 <= k < 2 + j ensures s[k] != '}' {
        assert s[k] == s[2..][..j][k - 2];
      }
      if IsMatch(s[..n]) {
        assert s[..n][n - 2..][0] == '}' && s[..n][n - 2..][1] == '}';
        assert s[2..][n - 4] == '}';
      }
    } else {
      assert n >= 2 ==> s[..n][..2] == s[..2];
    }
  }

  const VARIABLE: Pattern := s => MatchLength(s)

  ghost predicate NoMatchAtStart(s: string) {
    forall n :: 0 < n <= |s| ==> !IsMatch(s[..n])
  }

  /** The pattern takes what the regular expression says: the one match that begins here, if any. */
  lemma PatternIsTheExpression(s: string)
    ensures Taken(s, VARIABLE) > 0 ==> IsMatch(s[..Taken(s, VARIABLE)])
    ensures Taken(s, VARIABLE) == 0 ==> NoMatchAtStart(s)
    ensures forall n :: 0 < n <= |s| && IsMatch(s[..n]) ==> n == Taken(s, VARIABLE)
  {
    forall n | 0 < n <= |s| ensures n == MatchLength(s) <==> IsMatch(s[..n]) {
      MatchLengthIsTheMatch(s, n);
    }
  }

  // ---------- Resolving one variable ----------

  /** What a dotted path resolves to. */
  function ResolveVar(parts: seq<string>, ctx: TemplateContext): Result<string> {
    if |parts| == 0 then Err
    else if parts[0] == "self" then
      if ctx.currentService == "" || |parts| != 2 || parts[1] != "port" then Err
      else Port(ctx.servicePorts, ctx.currentService)
    else if parts[0] == "services" then
      if |parts| != 3 || parts[2] != "port" then Err else Port(ctx.servicePorts, parts[1])
    else if parts[0] == "infrastructure" then
      if |parts| != 3 || parts[2] != "port" then Err else Port(ctx.infraPorts, parts[1])
    else if parts[0] == "env" then
      if |parts| != 2 || parts[1] != "name" || ctx.envName == "" then Err else Ok(ctx.envName)
    else if parts[0] == "store" then
      if |parts| != 2 then Err
      else if parts[1] in ctx.store then Ok(ctx.store[parts[1]]) else Err
    else if parts[0] == "proxy" then
      if ctx.proxyDomain == "" then Err
      else if |parts| == 2 && parts[1] == "domain" then Ok(ctx.proxyDomain)
      else if |parts| == 3 && parts[1] == "url" then
        if parts[2] !in ctx.servicePorts then Err
        else Ok("https://" + ctx.envName + "--" + parts[2] + "." + ctx.proxyDomain)
      else Err
    else if parts[0] == "provisioner" then ResolveProvisionerVar(parts[1..], ctx)
    else Err
  }

  function Port(ports: PortMap, name: string): Result<string> {
    if name in ports then Ok(Decimal(ports[name])) else Err
  }

  function ResolveProvisionerVar(parts: seq<string>, ctx: TemplateContext): Result<string> {
    if |parts| != 2 || parts[0] !in ctx.provisionerOutputs then Err
    else
      var svc := ctx.provisionerOutputs[parts[0]];
      if parts[1] in svc then Ok(svc[parts[1]]) else Err
  }

  /** The dotted path inside the braces of a match. */
  function Path(m: string): seq<string> {
    Split(TrimSpace(if |m| < 4 then m else m[2..|m| - 2]), '.')
  }

  // ---------- Rendering ----------

  function Resolving(ctx: TemplateContext): Replacer {
    m => ResolveVar(Path(m), ctx)
  }

  function Render(tmpl: string, ctx: TemplateContext): Result<string> {
    Replace(tmpl, VARIABLE, Resolving(ctx))
  }

  method RenderTemplate(tmpl: string, ctx: TemplateContext) returns (r: Result<string>)
    ensures r == Render(tmpl, ctx)
  {
    r := ReplaceAllStringFunc(tmpl, VARIABLE, Resolving(ctx));
  }

  lemma CharacterStays(s: string, ctx: TemplateContext)
    requires s != "" && s[0] != '{'
    ensures Render(s, ctx) == Then(Ok([s[0]]), Render(s[1..], ctx))
  {
    hide ResolveVar, Replace, Split, TrimSpace;
    ReplaceNext(s, VARIABLE, Resolving(ctx));
    assert |s| >= 2 ==> s[..2][0] == s[0];
  }

  lemma VariableIsReplaced(m: string, rest: string, ctx: TemplateContext)
    requires IsMatch(m)
    ensures Render(m + rest, ctx) == Then(ResolveVar(Path(m), ctx), Render(rest, ctx))
  {
    hide ResolveVar, Replace, IsMatch, MatchLength, Path;
    var s := m + rest;
    assert m != "" by { MatchIsLong(m); }
    assert s[..|m|] == m && s[|m|..] == rest;
    PatternIsTheExpression(s);
    ReplaceNext(s, VARIABLE, Resolving(ctx));
  }

  lemma MatchIsLong(m: string)
    requires IsMatch(m)
    ensures |m| >= 5
  {
  }

  lemma PathOf(path: string)
    requires path != "" && '}' !in path
    ensures var m := "{{" + path + "}}"; IsMatch(m) && Path(m) == Split(TrimSpace(path), '.')
  {
    hide Split, TrimSpace;
    var m := "{{" + path + "}}";
    assert m[2..|m| - 2] == path;
  }

  lemma Prepend(c: char, before: string, later: Result<string>)
    ensures Then(Ok([c]), Then(Ok(before), later)) == Then(Ok([c] + before), later)
  {
    if later.Ok? {
      Associative([c], before, later.value);
    }
  }

  /** A variable is replaced by what its path resolves to; the text before it stays, and what follows it is
      rendered by itself, so that nothing put in is scanned again. */
  lemma {:induction false} RenderFirst(before: string, path: string, rest: string, ctx: TemplateContext)
    requires '{' !in before && path != "" && '}' !in path
    ensures Render(before + ("{{" + path + "}}" + rest), ctx) ==
      Then(Ok(before), Then(ResolveVar(Split(TrimSpace(path), '.'), ctx), Render(rest, ctx)))
  {
    hide ResolveVar, Render, Split, TrimSpace, IsMatch, Path;
    var m := "{{" + path + "}}";
    var later := Then(ResolveVar(Split(TrimSpace(path), '.'), ctx), Render(rest, ctx));
    if before == "" {
      assert before + (m + rest) == m + rest;
      PathOf(path);
      VariableIsReplaced(m, rest, ctx);
      assert later.Ok? ==> "" + later.value == later.value;
    } else {
      var s := before + (m + rest);
      assert s[1..] == before[1..] + (m + rest);
      CharacterStays(s, ctx);
      RenderFirst(before[1..], path, rest, ctx);
      assert [before[0]] + before[1..] == before;
      Prepend(before[0], before[1..], later);
    }
  }

  /** Rendering succeeds exactly when every variable resolves. */
  lemma RenderSucceeds(tmpl: string, ctx: TemplateContext)
    ensures Render(tmpl, ctx).Ok? <==>
      forall m :: Match(m) in Scan(tmpl, VARIABLE) ==> ResolveVar(Path(m), ctx).Ok?
  {
    hide ResolveVar;
    ReplaceSucceeds(tmpl, VARIABLE, Resolving(ctx));
    assert forall m :: Resolving(ctx)(m) == ResolveVar(Path(m), ctx);
  }

  /** A template sees of its context only what its variables resolve to. */
  lemma RenderAgrees(tmpl: string, ctx: TemplateContext, ctx': TemplateContext)
    requires Render(tmpl, ctx).Ok?
    requires forall m :: Match(m) in Scan(tmpl, VARIABLE) ==> ResolveVar(Path(m), ctx') == ResolveVar(Path(m), ctx)
    ensures Render(tmpl, ctx') == Render(tmpl, ctx)
  {
    ReplaceAgrees(tmpl, VARIABLE, Resolving(ctx), Resolving(ctx'));
  }

  ghost predicate Includes(m: map<string, string>, m': map<string, string>) {
    forall k :: k in m ==> k in m' && m'[k] == m[k]
  }

  /** ctx' has every entry of ctx, and possibly more. */
  ghost predicate Extends(ctx: TemplateContext, ctx': TemplateContext) {
    ctx'.currentService == ctx.currentService && ctx'.envName == ctx.envName
    && ctx'.proxyDomain == ctx.proxyDomain
    && (forall n :: n in ctx.servicePorts ==> n in ctx'.servicePorts && ctx'.servicePorts[n] == ctx.servicePorts[n])
    && (forall n :: n in ctx.infraPorts ==> n in ctx'.infraPorts && ctx'.infraPorts[n] == ctx.infraPorts[n])
    && Includes(ctx.store, ctx'.store)
    && (forall s :: s in ctx.provisionerOutputs ==>
          s in ctx'.provisionerOutputs && Includes(ctx.provisionerOutputs[s], ctx'.provisionerOutputs[s]))
  }

  lemma ResolveIsMonotone(parts: seq<string>, ctx: TemplateContext, ctx': TemplateContext)
    requires Extends(ctx, ctx') && ResolveVar(parts, ctx).Ok?
    ensures ResolveVar(parts, ctx') == ResolveVar(parts, ctx)
  {
  }

  /** Adding entries to the context never changes what rendered. */
  lemma RenderIsMonotone(tmpl: string, ctx: TemplateContext, ctx': TemplateContext)
    requires Extends(ctx, ctx') && Render(tmpl, ctx).Ok?
    ensures Render(tmpl, ctx') == Render(tmpl, ctx)
  {
    RenderSucceeds(tmpl, ctx);
    forall m | Match(m) in Scan(tmpl, VARIABLE) ensures ResolveVar(Path(m), ctx') == ResolveVar(Path(m), ctx) {
      ResolveIsMonotone(Path(m), ctx, ctx');
    }
    RenderAgrees(tmpl, ctx, ctx');
  }

  /** A text that is nothing but one variable. */
  lemma OneVariable(path: string)
    requires path != "" && '}' !in path
    ensures var m := "{{" + path + "}}"; Scan(m, VARIABLE) == [Match(m)] && Path(m) == Split(TrimSpace(path), '.')
  {
    hide Split, TrimSpace, Path, IsMatch, MatchLength;
    var m := "{{" + path + "}}";
    PathOf(path);
    MatchIsLong(m);
    PatternIsTheExpression(m);
    assert m[..|m|] == m && m[|m|..] == "";
  }
}
