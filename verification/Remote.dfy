/** The files of a remote environment: the generation steps (step_registry.go), running a list of them
    (manager.go), and bringing the environment up to date after a reset (propagate.go, manager.go). */
module Remote {
  import opened Prelude
  import opened Order
  import opened Config
  import opened Manifest
  import opened Generators
  import opened Propagate
  import EnvFile

  datatype Content =
    | ManifestFile(m: ManifestData)
    | EnvText(text: string)
    | ComposeText(compose: ComposeFile)
    | NginxText(nginx: NginxFile)
    | ErrorPage(page: string, envName: string)

  type Files = map<string, Content>

  const MANIFEST_PATH := ".previewctl.json"
  const COMPOSE_PATH := ".previewctl.compose.yaml"
  const NGINX_PATH := "preview/nginx.conf"
  const ERROR_PAGES := {"preview/error-pages/previewctl_404.html", "preview/error-pages/previewctl_502.html",
                        "preview/error-pages/previewctl_503.html"}

  datatype Step = GenerateManifest | GenerateEnv | GenerateCompose | GenerateNginx

  /** What the steps work from: the manifest's source, the services enabled, and filepath.Join. */
  datatype Inputs = Inputs(src: Source, enabled: seq<string>, join: Joiner) {
    function EnabledServices(): seq<string> {
      if enabled != [] then enabled
      else if src.cfg.Compose().Some? then src.cfg.Compose().value.autostart else []
    }

    predicate ProxyOn() {
      src.cfg.Compose().Some? && src.cfg.Compose().value.ProxyEnabled()
    }
  }

  /** The registry's manifest, which generate_manifest overwrites, and the files. */
  datatype VM = VM(manifest: ManifestData, files: Files)

  // ---------- What one step does ----------

  ghost function EnvTexts(m: ManifestData, order: seq<string>, join: Joiner): Files
    requires IsOrder(m, order)
  {
    var files := FilesInOrder(m, order, join);
    map t | t in files :: EnvText(EnvFile.Content(files[t]))
  }

  function NginxFiles(inp: Inputs, m: ManifestData, nginx: NginxFile): Files {
    map[NGINX_PATH := NginxText(nginx)] + Pages(m)
  }

  function Pages(m: ManifestData): Files {
    map p | p in ERROR_PAGES :: ErrorPage(p, m.envName)
  }

  lemma NoPart(all: Files)
    ensures IsPart(map[], all)
  {
  }

  lemma NginxIsNoPage(m: ManifestData)
    ensures NGINX_PATH !in Pages(m)
  {
    assert NGINX_PATH[8] == 'n' && forall p :: p in ERROR_PAGES ==> p[8] == 'e';
  }

  lemma FirstAndPart(path: string, content: Content, part: Files, all: Files)
    requires IsPart(part, all) && path !in all
    ensures IsPart(map[path := content] + part, map[path := content] + all)
  {
  }

  ghost predicate StepTo(inp: Inputs, step: Step, a: VM, b: VM) {
    match step
    case GenerateManifest =>
      inp.src.Manifest().Ok?
      && b.manifest == inp.src.Manifest().value.(enabledServices := inp.enabled)
      && b.files == a.files[MANIFEST_PATH := ManifestFile(b.manifest)]
    case GenerateEnv =>
      b.manifest == a.manifest
      && exists order :: IsOrder(a.manifest, order) && b.files == a.files + EnvTexts(a.manifest, order, inp.join)
    case GenerateCompose =>
      b.manifest == a.manifest && ComposeOf(inp.src.cfg, a.manifest, inp.join).Ok?
      && b.files == a.files[COMPOSE_PATH := ComposeText(ComposeOf(inp.src.cfg, a.manifest, inp.join).value)]
    case GenerateNginx =>
      if !inp.ProxyOn() then b == a
      else
        inp.src.cfg.ProxyDomain() != ""
        && b.manifest == a.manifest.(enabledServices := inp.EnabledServices())
        && NginxOf(inp.src.cfg, b.manifest, inp.src.cfg.ProxyDomain()).Ok?
        && b.files == a.files
                      + NginxFiles(inp, b.manifest, NginxOf(inp.src.cfg, b.manifest, inp.src.cfg.ProxyDomain()).value)
  }

  /** Some of these files. */
  predicate IsPart(part: Files, all: Files) {
    forall p :: p in part ==> p in all && part[p] == all[p]
  }

  /** What a step that fails leaves: the files it did not get to write are as they were. */
  ghost predicate FailsAt(inp: Inputs, step: Step, a: VM, b: VM) {
    match step
    case GenerateManifest => b == a
    case GenerateEnv =>
      b.manifest == a.manifest
      && exists order, part :: IsOrder(a.manifest, order) && IsPart(part, EnvTexts(a.manifest, order, inp.join))
                               && b.files == a.files + part
    case GenerateCompose => b == a
    case GenerateNginx =>
      inp.ProxyOn()
      && (b == a
          || (b.manifest == a.manifest.(enabledServices := inp.EnabledServices())
              && exists part :: IsNginxPart(inp, b.manifest, part) && b.files == a.files + part))
  }

  ghost predicate IsNginxPart(inp: Inputs, m: ManifestData, part: Files) {
    var nginx := NginxOf(inp.src.cfg, m, inp.src.cfg.ProxyDomain());
    part == map[] || (nginx.Ok? && IsPart(part, NginxFiles(inp, m, nginx.value)))
  }

  /** The step failed, or succeeded and its checkpoint could not be saved. */
  ghost predicate EndsAt(inp: Inputs, step: Step, a: VM, b: VM) {
    FailsAt(inp, step, a, b) || StepTo(inp, step, a, b)
  }

  /** A list of steps that ends early, at one of them, after those before it have succeeded. */
  ghost predicate Breaks(inp: Inputs, steps: seq<Step>, a: VM, b: VM) {
    exists k, mid :: 0 <= k < |steps| && Runs(inp, steps[..k], a, mid) && EndsAt(inp, steps[k], mid, b)
  }

  ghost predicate Runs(inp: Inputs, steps: seq<Step>, a: VM, b: VM)
    decreases |steps|
  {
    if steps == [] then b == a
    else exists mid :: StepTo(inp, steps[0], a, mid) && Runs(inp, steps[1..], mid, b)
  }

  lemma {:induction false} RunsOneMore(inp: Inputs, steps: seq<Step>, step: Step, a: VM, mid: VM, b: VM)
    requires Runs(inp, steps, a, mid) && StepTo(inp, step, mid, b)
    ensures Runs(inp, steps + [step], a, b)
    decreases |steps|
  {
    if steps == [] {
      assert steps + [step] == [step] && [step][1..] == [];
      assert Runs(inp, [step][1..], b, b);
    } else {
      var next :| StepTo(inp, steps[0], a, next) && Runs(inp, steps[1..], next, mid);
      RunsOneMore(inp, steps[1..], step, next, mid, b);
      assert (steps + [step])[1..] == steps[1..] + [step];
    }
  }

  const FULL := [GenerateManifest, GenerateEnv, GenerateCompose, GenerateNginx]

  /** The steps that a change of one provisioner service and some store keys calls for. */
  function Incremental(cfg: ProjectConfig, name: string, changed: seq<string>): seq<Step> {
    [GenerateManifest, GenerateEnv] + if StartMentions(cfg, Needles(name, changed)) then [GenerateCompose] else []
  }

  // ---------- The registry at work ----------

  /** The manifest as read back from its file: an empty env block is dropped when it is written. */
  function Loaded(m: ManifestData): ManifestData {
    m.(services := map s | s in m.services ::
      if m.services[s].env == Some(map[]) then m.services[s].(env := None) else m.services[s])
  }

  /** Reading the manifest back changes nothing but that no service has an empty env block. */
  lemma ReadingBackKeeps(m: ManifestData)
    ensures var read := Loaded(m);
      && read == m.(services := read.services) && read.services.Keys == m.services.Keys
      && forall s :: s in m.services ==>
           && read.services[s].path == m.services[s].path && read.services[s].envFile == m.services[s].envFile
           && read.services[s].env.GetOr(map[]) == m.services[s].env.GetOr(map[])
           && (read.services[s].env.Some? <==> m.services[s].env.Some? && m.services[s].env.value != map[])
  {
  }

  /** How an update of the machine ends: its manifest could not be read, a step failed, the services could not
      be restarted, or all went well. */
  datatype Update = Unreadable | Broken | NotRestarted | Restarted

  class StepRegistry {
    const inp: Inputs
    var manifest: ManifestData
    var files: Files

    constructor (inp: Inputs, manifest: ManifestData, files: Files)
      ensures this.inp == inp && State() == VM(manifest, files)
    {
      this.inp, this.manifest, this.files := inp, manifest, files;
    }

    function State(): VM
      reads this
    {
      VM(manifest, files)
    }

    /** A write to the machine, which may fail. */
    method WriteFile(path: string, content: Content) returns (ok: bool)
      modifies this`files
      ensures files == if ok then old(files)[path := content] else old(files)
    {
      ok := *;
      if ok {
        files := files[path := content];
      }
    }

    method DoGenerateManifest() returns (ok: bool)
      modifies this
      ensures if ok then StepTo(inp, GenerateManifest, old(State()), State())
              else FailsAt(inp, GenerateManifest, old(State()), State())
    {
      var built := BuildManifest(inp.src);
      if built.Err? {
        return false;
      }
      var m := built.value.(enabledServices := inp.enabled);
      ok := WriteFile(MANIFEST_PATH, ManifestFile(m));
      if ok {
        manifest := m;
      }
    }

    /** Several writes, in any order, up to the first that fails. */
    method WriteFiles(all: Files) returns (ok: bool, ghost part: Files)
      modifies this`files
      ensures files == old(files) + part && IsPart(part, all) && (ok ==> part == all)
    {
      var left := all.Keys;
      ghost var done: Files := map[];
      while left != {}
        invariant left !! done.Keys && left + done.Keys == all.Keys
        invariant forall p :: p in done ==> done[p] == all[p]
        invariant files == old(files) + done
      {
        var path :| path in left;
        ok := WriteFile(path, all[path]);
        if !ok {
          return false, done;
        }
        left, done := left - {path}, done[path := all[path]];
      }
      assert done == all;
      return true, done;
    }

    method EnvScript(envFiles: EnvFiles) returns (texts: Files)
      ensures texts == map t | t in envFiles :: EnvText(EnvFile.Content(envFiles[t]))
    {
      texts := map[];
      var left := envFiles.Keys;
      while left != {}
        invariant left <= envFiles.Keys && texts.Keys == envFiles.Keys - left
        invariant forall t :: t in texts ==> texts[t] == EnvText(EnvFile.Content(envFiles[t]))
      {
        var relPath :| relPath in left;
        var content := EnvFile.RenderEnvFileContent(envFiles[relPath]);
        left, texts := left - {relPath}, texts[relPath := EnvText(content)];
      }
    }

    method DoGenerateEnv() returns (ok: bool)
      modifies this
      ensures if ok then StepTo(inp, GenerateEnv, old(State()), State())
              else FailsAt(inp, GenerateEnv, old(State()), State())
    {
      var envFiles, order := EnvFilePaths(manifest, inp.join);
      var texts := EnvScript(envFiles);
      assert texts == EnvTexts(manifest, order, inp.join);
      ghost var part;
      ok, part := WriteFiles(texts);
    }

    method DoGenerateCompose() returns (ok: bool)
      modifies this
      ensures if ok then StepTo(inp, GenerateCompose, old(State()), State())
              else FailsAt(inp, GenerateCompose, old(State()), State())
    {
      var data := GenerateComposeFile(inp.src.cfg, manifest, inp.join);
      if data.Err? {
        return false;
      }
      ok := WriteFile(COMPOSE_PATH, ComposeText(data.value));
    }

    /** The config and the error pages, up to the first write that fails. */
    method WriteNginx(nginx: NginxFile) returns (ok: bool, ghost part: Files)
      modifies this`files
      ensures files == old(files) + part && IsPart(part, NginxFiles(inp, manifest, nginx))
      ensures ok ==> part == NginxFiles(inp, manifest, nginx)
    {
      hide Pages, IsPart;
      assert IsPart(map[], NginxFiles(inp, manifest, nginx)) by { NoPart(NginxFiles(inp, manifest, nginx)); }
      ok := WriteFile(NGINX_PATH, NginxText(nginx));
      if !ok {
        assert files + map[] == files;
        return false, map[];
      }
      ghost var written;
      ok, written := WriteFiles(Pages(manifest));
      part := map[NGINX_PATH := NginxText(nginx)] + written;
      NginxIsNoPage(manifest);
      FirstAndPart(NGINX_PATH, NginxText(nginx), written, Pages(manifest));
      assert files == old(files) + part;
    }

    method DoGenerateNginx() returns (ok: bool)
      modifies this
      ensures if ok then StepTo(inp, GenerateNginx, old(State()), State())
              else FailsAt(inp, GenerateNginx, old(State()), State())
    {
      hide NginxOf, ComposeOf, EnvTexts, Source.Manifest, IsOrder, NginxFiles, IsPart;
      if !inp.ProxyOn() {
        return true;
      }
      var domain := inp.src.cfg.ProxyDomain();
      if domain == "" {
        return false;
      }
      manifest := manifest.(enabledServices := inp.EnabledServices());
      var data := GenerateNginxConfig(inp.src.cfg, manifest, domain);
      ghost var part := map[];
      if data.Err? {
        assert files + part == files && IsNginxPart(inp, manifest, part);
        return false;
      }
      ok, part := WriteNginx(data.value);
      assert IsNginxPart(inp, manifest, part);
    }

    method Do(step: Step) returns (ok: bool)
      modifies this
      ensures if ok then StepTo(inp, step, old(State()), State()) else FailsAt(inp, step, old(State()), State())
    {
      match step
      case GenerateManifest => ok := DoGenerateManifest();
      case GenerateEnv => ok := DoGenerateEnv();
      case GenerateCompose => ok := DoGenerateCompose();
      case GenerateNginx => ok := DoGenerateNginx();
    }

    /** The manifest on the machine can be read. */
    predicate Readable()
      reads this
    {
      MANIFEST_PATH in files && files[MANIFEST_PATH].ManifestFile?
    }

    /** What the steps start from. */
    function Start(): VM
      requires Readable()
      reads this
    {
      VM(Loaded(files[MANIFEST_PATH].m), files)
    }

    /** Reads the manifest from the machine, then runs the steps in order up to the first that fails or whose
        checkpoint cannot be saved. */
    method RunSteps(steps: seq<Step>) returns (ok: bool)
      modifies this
      ensures ok ==> old(Readable()) && Runs(inp, steps, old(Start()), State())
      ensures !ok ==> if old(Readable()) then Breaks(inp, steps, old(Start()), State()) else State() == old(State())
    {
      hide StepTo, FailsAt;
      if !Readable() {
        return false;
      }
      manifest := Loaded(files[MANIFEST_PATH].m);
      ghost var start := State();
      for n := 0 to |steps|
        invariant Runs(inp, steps[..n], start, State())
      {
        ghost var mid := State();
        ok := Do(steps[n]);
        var saved := *;
        if !ok || !saved {
          assert Runs(inp, steps[..n], start, mid) && EndsAt(inp, steps[n], mid, State());
          return false;
        }
        RunsOneMore(inp, steps[..n], steps[n], start, mid, State());
        assert steps[..n + 1] == steps[..n] + [steps[n]];
      }
      assert steps[..|steps|] == steps;
      return true;
    }

    /** Docker is asked to restart services, which may fail. */
    method Restart(names: seq<string>) returns (ok: bool)
      ensures names == [] ==> ok
    {
      ok := *;
      ok := ok || names == [];
    }

    /** Regenerates what the change calls for and restarts the services that are enabled and affected. */
    method PropagateProvisionerChange(name: string, changed: seq<string>) returns (u: Update, restarted: seq<string>)
      modifies this
      ensures u == Unreadable ==> !old(Readable()) && State() == old(State())
      ensures u != Unreadable ==> old(Readable())
      ensures u == Broken ==> Breaks(inp, Incremental(inp.src.cfg, name, changed), old(Start()), State())
      ensures u in {NotRestarted, Restarted} ==>
        Runs(inp, Incremental(inp.src.cfg, name, changed), old(Start()), State())
      ensures u in {NotRestarted, Restarted} ==> Sorted(restarted) && forall s :: s in restarted <==>
        s in inp.enabled && s in Affected(inp.src.cfg, Needles(name, changed))
      ensures u == NotRestarted ==> restarted != []
    {
      hide Runs, Affected, Needles, StartMentions, Sorted, Breaks;
      restarted := [];
      var needsCompose, affected := ServicesAffectedByChange(inp.src.cfg, name, changed);
      var steps := [GenerateManifest, GenerateEnv];
      if needsCompose {
        steps := steps + [GenerateCompose];
      }
      assert steps == Incremental(inp.src.cfg, name, changed);
      u := Regenerate(steps);
      if u != Restarted {
        return;
      }
      for n := 0 to |inp.enabled|
        invariant forall s :: s in restarted <==> s in inp.enabled[..n] && s in affected
      {
        assert inp.enabled[..n + 1] == inp.enabled[..n] + [inp.enabled[n]];
        if inp.enabled[n] in affected {
          restarted := restarted + [inp.enabled[n]];
        }
      }
      assert inp.enabled[..|inp.enabled|] == inp.enabled;
      SortSorts(restarted);
      SortKeepsElements(restarted);
      restarted := Sort(restarted);
      var ok := Restart(restarted);
      u := if ok then Restarted else NotRestarted;
    }

    /** The steps, seen as an update in which nothing has to be restarted. */
    method Regenerate(steps: seq<Step>) returns (u: Update)
      modifies this
      ensures u == Unreadable ==> !old(Readable()) && State() == old(State())
      ensures u != Unreadable ==> old(Readable())
      ensures u == Broken ==> Breaks(inp, steps, old(Start()), State())
      ensures u == Restarted ==> Runs(inp, steps, old(Start()), State())
      ensures u != NotRestarted
    {
      var readable := Readable();
      var ok := RunSteps(steps);
      u := if ok then Restarted else if readable then Broken else Unreadable;
    }

    /** Regenerates everything and restarts every enabled service. */
    method SyncRemote() returns (u: Update, restarted: seq<string>)
      modifies this
      ensures u == Unreadable ==> !old(Readable()) && State() == old(State())
      ensures u != Unreadable ==> old(Readable())
      ensures u == Broken ==> Breaks(inp, FULL, old(Start()), State())
      ensures u in {NotRestarted, Restarted} ==>
        Runs(inp, FULL, old(Start()), State()) && restarted == Sort(inp.enabled)
      ensures u == NotRestarted ==> restarted != []
    {
      hide Runs, Breaks;
      restarted := [];
      u := Regenerate(FULL);
      if u != Restarted {
        return;
      }
      restarted := Sort(inp.enabled);
      var ok := Restart(restarted);
      u := if ok then Restarted else NotRestarted;
    }
  }
}
