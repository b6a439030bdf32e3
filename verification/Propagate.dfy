/** Which services a changed value can reach (propagate.go), and why the others need nothing. */
module Propagate {
  import opened Prelude
  import opened Text
  import opened Order
  import opened Config
  import opened Regexp
  import opened Template
  import opened Manifest
  import opened Generators

  // ---------- The scan ----------

  function Needles(provisionerName: string, changedStoreKeys: seq<string>): seq<string> {
    (if provisionerName != "" then ["provisioner." + provisionerName + "."] else [])
    + seq(|changedStoreKeys|, i requires 0 <= i < |changedStoreKeys| => "store." + changedStoreKeys[i])
  }

  predicate Mentions(s: string, needles: seq<string>) {
    exists n :: n in needles && Contains(s, n)
  }

  predicate EnvMentions(svc: ServiceConfig, needles: seq<string>) {
    exists k :: k in svc.EnvVars() && Mentions(svc.EnvVars()[k], needles)
  }

  /** The services whose env block or start command holds a needle. */
  function Direct(cfg: ProjectConfig, needles: seq<string>): set<string> {
    set n | n in cfg.services
      && (EnvMentions(cfg.services[n], needles) || Mentions(cfg.services[n].start, needles))
  }

  /** Those, and every service in a directory of one of them. */
  function Affected(cfg: ProjectConfig, needles: seq<string>): set<string> {
    set n | n in cfg.services && exists d :: d in Direct(cfg, needles) && cfg.services[d].path == cfg.services[n].path
  }

  predicate StartMentions(cfg: ProjectConfig, needles: seq<string>) {
    exists n :: n in cfg.services && Mentions(cfg.services[n].start, needles)
  }

  method ScanEnv(svc: ServiceConfig, needles: seq<string>) returns (found: bool)
    ensures found <==> EnvMentions(svc, needles)
  {
    hide Mentions;
    var left := svc.EnvVars().Keys;
    while left != {}
      invariant left <= svc.EnvVars().Keys
      invariant forall k :: k in svc.EnvVars() && k !in left ==> !Mentions(svc.EnvVars()[k], needles)
    {
      var k :| k in left;
      left := left - {k};
      if Mentions(svc.EnvVars()[k], needles) {
        return true;
      }
    }
    return false;
  }

  method DirectMatches(cfg: ProjectConfig, needles: seq<string>) returns (needsCompose: bool, direct: set<string>)
    ensures needsCompose == StartMentions(cfg, needles) && direct == Direct(cfg, needles)
  {
    hide Mentions, EnvMentions;
    needsCompose, direct := false, {};
    var left := cfg.services.Keys;
    while left != {}
      invariant left <= cfg.services.Keys
      invariant direct == Direct(cfg, needles) - left
      invariant needsCompose <==>
        exists n :: n in cfg.services && n !in left && Mentions(cfg.services[n].start, needles)
    {
      var name :| name in left;
      left := left - {name};
      var inEnv := ScanEnv(cfg.services[name], needles);
      if inEnv {
        direct := direct + {name};
      }
      if Mentions(cfg.services[name].start, needles) {
        direct, needsCompose := direct + {name}, true;
      }
    }
  }

  method ServicesAffectedByChange(cfg: ProjectConfig, provisionerName: string, changedStoreKeys: seq<string>)
    returns (needsCompose: bool, affected: set<string>)
    ensures needsCompose == StartMentions(cfg, Needles(provisionerName, changedStoreKeys))
    ensures affected == Affected(cfg, Needles(provisionerName, changedStoreKeys))
  {
    hide EnvMentions, Mentions;
    var needles := Needles(provisionerName, changedStoreKeys);
    var direct;
    needsCompose, direct := DirectMatches(cfg, needles);
    var affectedPaths := set d | d in direct :: cfg.services[d].path;
    affected := direct;
    var left := cfg.services.Keys;
    while left != {}
      invariant left <= cfg.services.Keys
      invariant affected == direct + set n | n in cfg.services && n !in left && cfg.services[n].path in affectedPaths
    {
      var name :| name in left;
      left := left - {name};
      if cfg.services[name].path in affectedPaths {
        affected := affected + {name};
      }
    }
  }

  // ---------- Exactly these services ----------

  /** The text holds the prefix of the service's outputs, or the name of a changed key. */
  ghost predicate Refers(text: string, name: string, changed: seq<string>) {
    (name != "" && Contains(text, "provisioner." + name + "."))
    || exists k :: k in changed && Contains(text, "store." + k)
  }

  lemma MentionsIsRefers(text: string, name: string, changed: seq<string>)
    ensures Mentions(text, Needles(name, changed)) <==> Refers(text, name, changed)
  {
    hide Contains;
    var head := if name != "" then ["provisioner." + name + "."] else [];
    forall k | k in changed ensures "store." + k in Needles(name, changed) {
      var i :| 0 <= i < |changed| && changed[i] == k;
      assert Needles(name, changed)[|head| + i] == "store." + k;
    }
    assert name != "" ==> Needles(name, changed)[0] == "provisioner." + name + ".";
    if n :| n in Needles(name, changed) && Contains(text, n) {
      var i :| 0 <= i < |Needles(name, changed)| && Needles(name, changed)[i] == n;
      if i >= |head| {
        assert changed[i - |head|] in changed;
      }
    }
  }

  /** A value of the env block or the start command refers to what changed. */
  ghost predicate ServiceRefers(svc: ServiceConfig, name: string, changed: seq<string>) {
    Refers(svc.start, name, changed)
    || (svc.env.Some? && exists v :: v in svc.env.value.Values && Refers(v, name, changed))
  }

  /** A service is affected exactly when one in its directory, perhaps itself, refers to what changed, and the
      compose file is made again exactly when a start command does. */
  lemma AffectedExactly(cfg: ProjectConfig, name: string, changed: seq<string>)
    ensures forall n :: n in Affected(cfg, Needles(name, changed)) <==>
      n in cfg.services && exists d :: d in cfg.services && cfg.services[d].path == cfg.services[n].path
                                       && ServiceRefers(cfg.services[d], name, changed)
    ensures StartMentions(cfg, Needles(name, changed)) <==>
      exists n :: n in cfg.services && Refers(cfg.services[n].start, name, changed)
  {
    hide Mentions, Refers, Needles;
    forall text: string ensures Mentions(text, Needles(name, changed)) <==> Refers(text, name, changed) {
      MentionsIsRefers(text, name, changed);
    }
    forall n | n in cfg.services
      ensures n in Direct(cfg, Needles(name, changed)) <==> ServiceRefers(cfg.services[n], name, changed)
    {
      EnvRefers(cfg.services[n], name, changed);
    }
  }

  lemma EnvRefers(svc: ServiceConfig, name: string, changed: seq<string>)
    ensures EnvMentions(svc, Needles(name, changed)) <==>
      svc.env.Some? && exists v :: v in svc.env.value.Values && Refers(v, name, changed)
  {
    hide Mentions, Refers, Needles;
    forall text: string ensures Mentions(text, Needles(name, changed)) <==> Refers(text, name, changed) {
      MentionsIsRefers(text, name, changed);
    }
    if k :| k in svc.EnvVars() && Mentions(svc.EnvVars()[k], Needles(name, changed)) {
      assert svc.env.value[k] in svc.env.value.Values;
    }
    if svc.env.Some? {
      forall v | v in svc.env.value.Values && Refers(v, name, changed)
        ensures EnvMentions(svc, Needles(name, changed))
      {
        var k :| k in svc.env.value && svc.env.value[k] == v;
        assert svc.EnvVars()[k] == v;
      }
    }
  }

  // ---------- Changed store keys ----------

  function ValueOf(m: EnvMap, k: string): string {
    if k in m then m[k] else ""
  }

  /** The keys that DiffStoreKeys reports. A Go map yields "" for a key it does not have. */
  function Reported(before: EnvMap, after: EnvMap): set<string> {
    (set k | k in after && ValueOf(before, k) != after[k]) + set k | k in before && k !in after
  }

  method DiffStoreKeys(before: EnvMap, after: EnvMap) returns (changed: seq<string>)
    ensures changed == Listing(Reported(before, after))
  {
    changed := [];
    var seen: set<string> := {};
    var left := after.Keys;
    while left != {}
      invariant left <= after.Keys
      invariant seen == (set k | k in after && ValueOf(before, k) != after[k]) - left
      invariant Distinct(changed) && forall k :: k in changed <==> k in seen
    {
      var k :| k in left;
      left := left - {k};
      if ValueOf(before, k) != after[k] {
        assert k !in changed;
        changed, seen := changed + [k], seen + {k};
      }
    }
    left := before.Keys;
    while left != {}
      invariant left <= before.Keys
      invariant Distinct(changed)
      invariant forall k :: k in changed <==> k in seen || (k in before && k !in after && k !in left)
    {
      var k :| k in left;
      left := left - {k};
      if k !in after && k !in seen {
        assert k !in changed;
        changed := changed + [k];
      }
    }
    SortGivesListing(changed, Reported(before, after));
    changed := Sort(changed);
  }

  predicate SameAt(before: EnvMap, after: EnvMap, k: string) {
    (k in before <==> k in after) && ValueOf(before, k) == ValueOf(after, k)
  }

  /** Every difference between the two stores is reported, except a key that was added with value "". */
  lemma WhatIsReported(before: EnvMap, after: EnvMap)
    ensures forall k :: k in Reported(before, after) <==>
      !SameAt(before, after, k) && !(k !in before && k in after && after[k] == "")
  {
  }

  /** An input: a key that comes with the value "" is a difference that is not reported. */
  lemma EmptyAdditionIsMissed()
    ensures !SameAt(map[], map["KEY" := ""], "KEY") && Reported(map[], map["KEY" := ""]) == {}
  {
  }

  // ---------- What a template that mentions no needle sees ----------

  /** The contexts differ at most in the outputs of one provisioner service, and in the store by keys
      that are listed or new. */
  ghost predicate DifferAt(ctx: TemplateContext, ctx': TemplateContext, name: string, changed: seq<string>) {
    ctx'.servicePorts == ctx.servicePorts && ctx'.infraPorts == ctx.infraPorts
    && ctx'.currentService == ctx.currentService && ctx'.envName == ctx.envName
    && ctx'.proxyDomain == ctx.proxyDomain
    && OutputsDifferAt(ctx.provisionerOutputs, ctx'.provisionerOutputs, name)
    && StoreDiffersAt(ctx.store, ctx'.store, changed)
  }

  ghost predicate OutputsDifferAt(outputs: Outputs, outputs': Outputs, name: string) {
    forall p :: p in outputs && (p != name || name == "") ==> p in outputs' && outputs'[p] == outputs[p]
  }

  ghost predicate StoreDiffersAt(store: EnvMap, store': EnvMap, changed: seq<string>) {
    forall k :: k in store && k !in changed ==> k in store' && store'[k] == store[k]
  }

  /** The comparison of two stores lists enough. */
  lemma ReportedIsEnough(before: EnvMap, after: EnvMap)
    ensures StoreDiffersAt(before, after, Listing(Reported(before, after)))
  {
  }

  /** The path of a variable stands in the template, dots included. */
  lemma PathOccurs(tmpl: string, m: string)
    requires Match(m) in Scan(tmpl, VARIABLE)
    ensures |Path(m)| >= 1 && Contains(tmpl, Join(Path(m), '.'))
  {
    MatchOccurs(tmpl, VARIABLE, m);
    var inner := if |m| < 4 then m else m[2..|m| - 2];
    assert m[0..|m|] == m;
    ContainsSlice(m, if |m| < 4 then 0 else 2, if |m| < 4 then |m| else |m| - 2);
    var a, b := TrimIsSlice(inner);
    ContainsSlice(inner, a, b);
    ContainsIsTransitive(m, inner, TrimSpace(inner));
    ContainsIsTransitive(tmpl, m, TrimSpace(inner));
    JoinSplit(TrimSpace(inner), '.');
  }

  lemma JoinTwo(a: string, b: string)
    ensures Join([a, b], '.') == a + "." + b
  {
    assert [a, b][1..] == [b];
  }

  lemma JoinThree(a: string, b: string, c: string)
    ensures Join([a, b, c], '.') == a + "." + b + "." + c
  {
    assert [a, b, c][1..] == [b, c];
    JoinTwo(b, c);
    Associative(a + ".", b + ".", c);
    Associative(a + ".", b, ".");
  }

  lemma ProvisionerNeedle(path: seq<string>)
    requires |path| == 3 && path[0] == "provisioner"
    ensures Contains(Join(path, '.'), "provisioner." + path[1] + ".")
  {
    assert path == ["provisioner", path[1], path[2]];
    JoinThree("provisioner", path[1], path[2]);
    var needle := "provisioner." + path[1] + ".";
    assert "provisioner" + "." == "provisioner.";
    assert Join(path, '.') == needle + path[2] == "" + needle + path[2];
    ContainsMiddle("", needle, path[2]);
  }

  lemma StoreNeedle(path: seq<string>)
    requires |path| == 2 && path[0] == "store"
    ensures Contains(Join(path, '.'), "store." + path[1])
  {
    assert path == ["store", path[1]];
    JoinTwo("store", path[1]);
    assert "store" + "." == "store.";
    var needle := "store." + path[1];
    assert "" + needle + "" == needle;
    ContainsMiddle("", needle, "");
  }

  lemma ListedNeedle(name: string, changed: seq<string>, k: string)
    ensures k in changed ==> "store." + k in Needles(name, changed)
    ensures name != "" ==> "provisioner." + name + "." in Needles(name, changed)
  {
    var head := if name != "" then ["provisioner." + name + "."] else [];
    if k in changed {
      var i :| 0 <= i < |changed| && changed[i] == k;
      assert Needles(name, changed)[|head| + i] == "store." + k;
    }
    assert name != "" ==> Needles(name, changed)[0] == "provisioner." + name + ".";
  }

  lemma PathUntouched(path: seq<string>, ctx: TemplateContext, ctx': TemplateContext, name: string,
                      changed: seq<string>)
    requires |path| >= 1 && DifferAt(ctx, ctx', name, changed) && ResolveVar(path, ctx).Ok?
    requires !Mentions(Join(path, '.'), Needles(name, changed))
    ensures ResolveVar(path, ctx') == ResolveVar(path, ctx)
  {
    hide Join, Needles, Contains;
    if path[0] == "provisioner" {
      ProvisionerNeedle(path);
      ListedNeedle(name, changed, "");
      assert path[1..][0] == path[1];
    } else if path[0] == "store" {
      StoreNeedle(path);
      ListedNeedle(name, changed, path[1]);
    }
  }

  /** Non-interference: a template that rendered before and mentions no needle renders the same. */
  lemma UnmentionedIsUntouched(tmpl: string, ctx: TemplateContext, ctx': TemplateContext, name: string,
                               changed: seq<string>)
    requires DifferAt(ctx, ctx', name, changed) && Render(tmpl, ctx).Ok?
    requires !Mentions(tmpl, Needles(name, changed))
    ensures Render(tmpl, ctx') == Render(tmpl, ctx)
  {
    hide Path, ResolveVar, Needles, DifferAt, Join, Contains, Render, Scan;
    RenderSucceeds(tmpl, ctx);
    forall m | Match(m) in Scan(tmpl, VARIABLE) ensures ResolveVar(Path(m), ctx') == ResolveVar(Path(m), ctx) {
      PathOccurs(tmpl, m);
      forall n | n in Needles(name, changed) ensures !Contains(Join(Path(m), '.'), n) {
        if Contains(Join(Path(m), '.'), n) {
          ContainsIsTransitive(tmpl, Join(Path(m), '.'), n);
        }
      }
      PathUntouched(Path(m), ctx, ctx', name, changed);
    }
    RenderAgrees(tmpl, ctx, ctx');
  }

  // ---------- Services and their files ----------

  /** The sources differ at most by the change that name and changed describe. */
  ghost predicate SourcesDifferAt(src: Source, src': Source, name: string, changed: seq<string>) {
    src'.cfg == src.cfg && src'.envName == src.envName && src'.branch == src.branch && src'.mode == src.mode
    && src'.ports == src.ports
    && OutputsDifferAt(src.outputs, src'.outputs, name) && StoreDiffersAt(src.store, src'.store, changed)
  }

  lemma ServiceUntouched(src: Source, src': Source, name: string, changed: seq<string>, n: string)
    requires SourcesDifferAt(src, src', name, changed) && n in src.cfg.services && src.Service(n).Ok?
    requires !EnvMentions(src.cfg.services[n], Needles(name, changed))
    ensures src'.Service(n) == src.Service(n)
  {
    hide Render, Mentions, Needles;
    var svc, ctx, ctx' := src.cfg.services[n], src.Context(n), src'.Context(n);
    if svc.env.Some? {
      var env := svc.env.value;
      assert svc.EnvVars() == env;
      assert RenderEnv(env, ctx).Ok?;
      forall k | k in env ensures Render(env[k], ctx') == Render(env[k], ctx) {
        assert !Mentions(svc.EnvVars()[k], Needles(name, changed));
        UnmentionedIsUntouched(env[k], ctx, ctx', name, changed);
      }
      RenderEnvAgrees(env, ctx, ctx');
    }
  }

  /** A service outside the affected set, and every service in its directory, keep their env. */
  lemma NeighboursUntouched(src: Source, src': Source, name: string, changed: seq<string>, n: string, s: string)
    requires SourcesDifferAt(src, src', name, changed) && src.Manifest().Ok? && src'.Manifest().Ok?
    requires n in src.cfg.services && n !in Affected(src.cfg, Needles(name, changed))
    requires s in src.cfg.services && src.cfg.services[s].path == src.cfg.services[n].path
    ensures src.Manifest().value.services[s] == src'.Manifest().value.services[s]
  {
    hide Needles, Mentions, EnvMentions;
    assert s !in Direct(src.cfg, Needles(name, changed));
    ServiceUntouched(src, src', name, changed, s);
  }

  /** Every service that writes file t is in the directory of service n. */
  ghost predicate OnlyNeighboursWrite(src: Source, join: Joiner, n: string, t: string)
    requires src.Manifest().Ok? && n in src.cfg.services
  {
    forall s :: HasFile(src.Manifest().value, s, t, join) ==> src.cfg.services[s].path == src.cfg.services[n].path
  }

  lemma SetsAgree(src: Source, src': Source, name: string, changed: seq<string>, join: Joiner, n: string, s: string,
                  t: string)
    requires SourcesDifferAt(src, src', name, changed) && src.Manifest().Ok? && src'.Manifest().Ok?
    requires n in src.cfg.services && n !in Affected(src.cfg, Needles(name, changed))
    requires OnlyNeighboursWrite(src, join, n, t)
    ensures HasFile(src.Manifest().value, s, t, join) <==> HasFile(src'.Manifest().value, s, t, join)
    ensures HasFile(src.Manifest().value, s, t, join) ==>
      src.Manifest().value.services[s] == src'.Manifest().value.services[s]
  {
    hide Needles, Mentions, EnvMentions, Affected, Render;
    var m, m' := src.Manifest().value, src'.Manifest().value;
    if s in src.cfg.services {
      assert m.services[s] == src.Service(s).value && m'.services[s] == src'.Service(s).value;
      assert m.services[s].path == src.cfg.services[s].path;
      if HasFile(m, s, t, join) {
        NeighboursUntouched(src, src', name, changed, n, s);
      }
    }
  }

  /** The file t is in both with the same content, or in neither. */
  predicate SameFile<T(==)>(f: map<string, T>, g: map<string, T>, t: string) {
    (t in f <==> t in g) && (t in f ==> g[t] == f[t])
  }

  /** A file that only services in the directory of an unaffected service write is the same after the
      change, whether or not that service writes it, in whatever order the services were visited. */
  lemma EnvFileUntouched(src: Source, src': Source, name: string, changed: seq<string>, join: Joiner, n: string,
                         t: string, p: seq<string>, q: seq<string>)
    requires SourcesDifferAt(src, src', name, changed) && src.Manifest().Ok? && src'.Manifest().Ok?
    requires n in src.cfg.services && n !in Affected(src.cfg, Needles(name, changed))
    requires OnlyNeighboursWrite(src, join, n, t)
    requires NoConflicts(src.Manifest().value, join)
    requires IsOrder(src.Manifest().value, p) && IsOrder(src'.Manifest().value, q)
    ensures SameFile(FilesInOrder(src.Manifest().value, p, join), FilesInOrder(src'.Manifest().value, q, join), t)
  {
    hide Needles, Mentions, EnvMentions, Affected, Render, FilesInOrder, OnlyNeighboursWrite, SourcesDifferAt;
    var m, m' := src.Manifest().value, src'.Manifest().value;
    forall s
      ensures HasFile(m, s, t, join) <==> HasFile(m', s, t, join)
      ensures HasFile(m, s, t, join) ==> m.services[s] == m'.services[s]
    {
      SetsAgree(src, src', name, changed, join, n, s, t);
    }
    assert m'.services.Keys == src'.cfg.services.Keys == m.services.Keys by {
      SourceStays(src, src', name, changed);
    }
    SameWritersSameFile(m, m', join, t, p, q);
  }

  lemma SourceStays(src: Source, src': Source, name: string, changed: seq<string>)
    requires SourcesDifferAt(src, src', name, changed)
    ensures src'.cfg == src.cfg
  {
  }

  /** Two manifests in which the same services write a file, with the same env, give it the same content. */
  lemma SameWritersSameFile(m: ManifestData, m': ManifestData, join: Joiner, t: string, p: seq<string>, q: seq<string>)
    requires IsOrder(m, p) && IsOrder(m', q) && m'.services.Keys == m.services.Keys && NoConflicts(m, join)
    requires forall s :: HasFile(m, s, t, join) <==> HasFile(m', s, t, join)
    requires forall s :: HasFile(m, s, t, join) ==> m.services[s] == m'.services[s]
    ensures SameFile(FilesInOrder(m, p, join), FilesInOrder(m', q, join), t)
  {
    hide FilesInOrder;
    var f, g := FilesInOrder(m, p, join), FilesInOrder(m', q, join);
    FileOrigin(m, p, t, join);
    FileOrigin(m', q, t, join);
    assert t in f <==> t in g by {
      assert forall s :: s in p <==> s in q;
    }
    if t in f {
      forall k
        ensures k in f[t] <==> k in g[t]
        ensures k in f[t] ==> g[t][k] == f[t][k]
      {
        ValueOrigin(m, p, t, k, join);
        ValueOrigin(m', q, t, k, join);
        if k in f[t] {
          var a :| a in p && Sets(m, a, t, k, join) && f[t][k] == m.services[a].env.value[k];
          assert Sets(m', a, t, k, join) && a in q;
        }
        if k in g[t] {
          var b :| b in q && Sets(m', b, t, k, join) && g[t][k] == m'.services[b].env.value[k];
          assert Sets(m, b, t, k, join) && b in p;
        }
      }
      assert f[t].Keys == g[t].Keys && f[t] == g[t];
    }
  }

  // ---------- Compose ----------

  lemma BlockUntouched(cfg: ProjectConfig, m: ManifestData, m': ManifestData, join: Joiner, name: string,
                       changed: seq<string>, n: string)
    requires m'.ports == m.ports && m'.envName == m.envName
    requires OutputsDifferAt(m.provisionerOutputs, m'.provisionerOutputs, name)
    requires n in cfg.services && !Mentions(cfg.services[n].start, Needles(name, changed))
    requires ComposeBlock(cfg, m, join, n).Ok?
    ensures ComposeBlock(cfg, m', join, n) == ComposeBlock(cfg, m, join, n)
  {
    hide Render, Mentions, Needles;
    UnmentionedIsUntouched(cfg.services[n].start, StartContext(cfg, m, n), StartContext(cfg, m', n), name, changed);
  }

  /** When no start command mentions a needle, the whole compose file stays as it was. */
  lemma ComposeUntouched(cfg: ProjectConfig, m: ManifestData, m': ManifestData, join: Joiner, name: string,
                         changed: seq<string>)
    requires m'.ports == m.ports && m'.envName == m.envName
    requires OutputsDifferAt(m.provisionerOutputs, m'.provisionerOutputs, name)
    requires !StartMentions(cfg, Needles(name, changed)) && ComposeOf(cfg, m, join).Ok?
    ensures ComposeOf(cfg, m', join) == ComposeOf(cfg, m, join)
  {
    hide ComposeBlock, Mentions, Needles, Listing;
    var names := Listing(Startable(cfg));
    var f, g := n => ComposeBlock(cfg, m, join, n), n => ComposeBlock(cfg, m', join, n);
    forall n | n in names ensures g(n) == f(n) {
      var k :| 0 <= k < |names| && names[k] == n;
      CollectAt(names, f, k);
      BlockUntouched(cfg, m, m', join, name, changed, n);
    }
    CollectAgrees(names, f, g);
  }
}
