/** A reset followed by propagation leaves the remote files as a full synchronisation does, and the
    services it does not restart have nothing new to see. */
module Convergence {
  import opened Prelude
  import opened Order
  import opened Config
  import opened Template
  import opened Manifest
  import opened Generators
  import opened Propagate
  import opened Remote
  import HookOutput

  /** The files that hold env variables. */
  ghost function Targets(m: ManifestData, join: Joiner): set<string> {
    set n | n in m.services && m.services[n].env.Some? :: Target(m.services[n], join)
  }

  /** The files that a full run writes after the env files and the incremental one does not. */
  ghost function Skipped(inp: Inputs, name: string, changed: seq<string>): set<string> {
    (if StartMentions(inp.src.cfg, Needles(name, changed)) then {} else {COMPOSE_PATH})
    + (if inp.ProxyOn() then {NGINX_PATH} + ERROR_PAGES else {})
  }

  ghost function Built(inp: Inputs): ManifestData
    requires inp.src.Manifest().Ok?
  {
    inp.src.Manifest().value.(enabledServices := inp.enabled)
  }

  ghost function ForNginx(inp: Inputs): ManifestData
    requires inp.src.Manifest().Ok?
  {
    inp.src.Manifest().value.(enabledServices := inp.EnabledServices())
  }

  /** What nginx generation adds to the files. */
  ghost function NginxPart(inp: Inputs): Files
    requires inp.src.Manifest().Ok?
  {
    var nginx := NginxOf(inp.src.cfg, ForNginx(inp), inp.src.cfg.ProxyDomain());
    if !inp.ProxyOn() || nginx.Err? then map[] else NginxFiles(inp, ForNginx(inp), nginx.value)
  }

  ghost function ComposePart(inp: Inputs): Files
    requires inp.src.Manifest().Ok?
  {
    var compose := ComposeOf(inp.src.cfg, Built(inp), inp.join);
    if compose.Err? then map[] else map[COMPOSE_PATH := ComposeText(compose.value)]
  }

  ghost function ManifestPart(inp: Inputs): Files
    requires inp.src.Manifest().Ok?
  {
    map[MANIFEST_PATH := ManifestFile(Built(inp))]
  }

  /** The manifest and the compose file can be generated. */
  ghost predicate Composes(inp: Inputs) {
    inp.src.Manifest().Ok? && ComposeOf(inp.src.cfg, Built(inp), inp.join).Ok?
  }

  /** So can the nginx config, if there is to be one. */
  ghost predicate Serves(inp: Inputs)
    requires inp.src.Manifest().Ok?
  {
    inp.ProxyOn() ==>
      inp.src.cfg.ProxyDomain() != "" && NginxOf(inp.src.cfg, ForNginx(inp), inp.src.cfg.ProxyDomain()).Ok?
  }

  // ---------- The runs, spelled out ----------

  /** The first step of a run, and the run from there. */
  lemma FirstOfRun(inp: Inputs, step: Step, rest: seq<Step>, a: VM, b: VM) returns (mid: VM)
    requires Runs(inp, [step] + rest, a, b)
    ensures StepTo(inp, step, a, mid) && Runs(inp, rest, mid, b)
  {
    hide StepTo;
    var steps := [step] + rest;
    mid :| StepTo(inp, steps[0], a, mid) && Runs(inp, steps[1..], mid, b);
    assert steps[1..] == rest;
  }

  lemma OneManifest(inp: Inputs, rest: seq<Step>, a: VM, b: VM) returns (mid: VM)
    requires Runs(inp, [GenerateManifest] + rest, a, b)
    ensures inp.src.Manifest().Ok? && mid.manifest == Built(inp)
    ensures mid.files == a.files + ManifestPart(inp) && Runs(inp, rest, mid, b)
  {
    hide ComposeOf, NginxOf, Runs, Source.Manifest;
    mid := FirstOfRun(inp, GenerateManifest, rest, a, b);
  }

  lemma OneEnv(inp: Inputs, rest: seq<Step>, a: VM, b: VM) returns (order: seq<string>, mid: VM)
    requires Runs(inp, [GenerateEnv] + rest, a, b)
    ensures IsOrder(a.manifest, order) && mid.manifest == a.manifest
    ensures mid.files == a.files + EnvTexts(a.manifest, order, inp.join) && Runs(inp, rest, mid, b)
  {
    hide ComposeOf, NginxOf, IsOrder, EnvTexts, Runs, Source.Manifest;
    mid := FirstOfRun(inp, GenerateEnv, rest, a, b);
    order :| IsOrder(a.manifest, order) && mid.files == a.files + EnvTexts(a.manifest, order, inp.join);
  }

  lemma FirstTwo(inp: Inputs, rest: seq<Step>, a: VM, b: VM) returns (order: seq<string>, mid: VM)
    requires Runs(inp, [GenerateManifest, GenerateEnv] + rest, a, b)
    ensures inp.src.Manifest().Ok? && IsOrder(Built(inp), order) && mid.manifest == Built(inp)
    ensures mid.files == a.files + ManifestPart(inp) + EnvTexts(Built(inp), order, inp.join)
    ensures Runs(inp, rest, mid, b)
  {
    hide Runs, IsOrder, EnvTexts, Built, ManifestPart;
    assert [GenerateManifest, GenerateEnv] + rest == [GenerateManifest] + ([GenerateEnv] + rest);
    var one := OneManifest(inp, [GenerateEnv] + rest, a, b);
    order, mid := OneEnv(inp, rest, one, b);
  }

  lemma OneCompose(inp: Inputs, rest: seq<Step>, a: VM, b: VM) returns (mid: VM)
    requires Runs(inp, [GenerateCompose] + rest, a, b)
    requires inp.src.Manifest().Ok? && a.manifest == Built(inp)
    ensures mid.manifest == a.manifest && ComposeOf(inp.src.cfg, Built(inp), inp.join).Ok?
    ensures mid.files == a.files + ComposePart(inp) && Runs(inp, rest, mid, b)
  {
    hide ComposeOf, NginxOf, Runs, Source.Manifest, Built;
    mid := FirstOfRun(inp, GenerateCompose, rest, a, b);
  }

  lemma OneNginx(inp: Inputs, a: VM, b: VM)
    requires Runs(inp, [GenerateNginx], a, b)
    requires inp.src.Manifest().Ok? && a.manifest == Built(inp)
    ensures b.files == a.files + NginxPart(inp)
    ensures Serves(inp)
  {
    hide ComposeOf, NginxOf, Runs, Source.Manifest, NginxFiles;
    assert [GenerateNginx] == [GenerateNginx] + [];
    var mid := FirstOfRun(inp, GenerateNginx, [], a, b);
    NothingMore(inp, mid, b);
    assert a.files + map[] == a.files;
  }

  lemma FullRun(inp: Inputs, a: VM, b: VM) returns (order: seq<string>)
    requires Runs(inp, FULL, a, b)
    ensures inp.src.Manifest().Ok? && IsOrder(Built(inp), order)
    ensures ComposeOf(inp.src.cfg, Built(inp), inp.join).Ok?
    ensures Serves(inp)
    ensures b.files == a.files + ManifestPart(inp) + EnvTexts(Built(inp), order, inp.join)
                       + ComposePart(inp) + NginxPart(inp)
  {
    assert FULL == [GenerateManifest, GenerateEnv] + [GenerateCompose, GenerateNginx];
    assert [GenerateCompose, GenerateNginx] == [GenerateCompose] + [GenerateNginx];
    var mid, later;
    order, mid := FirstTwo(inp, [GenerateCompose, GenerateNginx], a, b);
    later := OneCompose(inp, [GenerateNginx], mid, b);
    OneNginx(inp, later, b);
  }

  lemma IncrementalRun(inp: Inputs, name: string, changed: seq<string>, a: VM, b: VM) returns (order: seq<string>)
    requires Runs(inp, Incremental(inp.src.cfg, name, changed), a, b)
    ensures inp.src.Manifest().Ok? && IsOrder(Built(inp), order)
    ensures b.files == a.files + ManifestPart(inp) + EnvTexts(Built(inp), order, inp.join)
                       + if StartMentions(inp.src.cfg, Needles(name, changed)) then ComposePart(inp) else map[]
    ensures StartMentions(inp.src.cfg, Needles(name, changed)) ==> Composes(inp)
  {
    hide StartMentions, Needles, Runs, EnvTexts, ComposePart, ManifestPart, Built, IsOrder, ComposeOf;
    var mid;
    if StartMentions(inp.src.cfg, Needles(name, changed)) {
      order, mid := FirstTwo(inp, [GenerateCompose], a, b);
      assert [GenerateCompose] == [GenerateCompose] + [];
      mid := OneCompose(inp, [], mid, b);
    } else {
      assert [GenerateManifest, GenerateEnv] + [] == [GenerateManifest, GenerateEnv];
      order, mid := FirstTwo(inp, [], a, b);
    }
    NothingMore(inp, mid, b);
  }

  lemma NothingMore(inp: Inputs, a: VM, b: VM)
    requires Runs(inp, [], a, b)
    ensures b == a
  {
  }

  // ---------- Incremental agrees with full ----------

  /** The inputs differ at most by the change that name and changed describe. */
  ghost predicate InputsDifferAt(before: Inputs, after: Inputs, name: string, changed: seq<string>) {
    SourcesDifferAt(before.src, after.src, name, changed)
    && after.enabled == before.enabled && after.join == before.join
  }

  lemma TargetsAreFiles(m: ManifestData, order: seq<string>, join: Joiner)
    requires IsOrder(m, order)
    ensures EnvTexts(m, order, join).Keys == Targets(m, join)
  {
    hide FilesInOrder;
    forall t ensures t in EnvTexts(m, order, join) <==> t in Targets(m, join) {
      FileOrigin(m, order, t, join);
      if t in Targets(m, join) {
        var n :| n in m.services && m.services[n].env.Some? && Target(m.services[n], join) == t;
        assert n in order && HasFile(m, n, t, join);
      }
    }
  }

  /** What the change leaves alone: the nginx part always, the compose part if no start command mentions it. */
  lemma SkippedPartsStay(before: Inputs, after: Inputs, name: string, changed: seq<string>)
    requires InputsDifferAt(before, after, name, changed)
    requires before.src.Manifest().Ok? && after.src.Manifest().Ok?
    requires ComposeOf(before.src.cfg, Built(before), before.join).Ok?
    ensures NginxPart(after) == NginxPart(before)
    ensures !StartMentions(before.src.cfg, Needles(name, changed)) ==> ComposePart(after) == ComposePart(before)
  {
    hide ComposeOf, NginxOf, StartMentions, Needles;
    NginxDependsOn(before.src.cfg, ForNginx(before), ForNginx(after), before.src.cfg.ProxyDomain());
    if !StartMentions(before.src.cfg, Needles(name, changed)) {
      ComposeUntouched(before.src.cfg, Built(before), Built(after), before.join, name, changed);
    }
  }

  /** Adding what is there already changes nothing. */
  lemma Absorbs(files: Files, part: Files)
    ensures files + part == files <==> forall p :: p in part ==> p in files && files[p] == part[p]
  {
    if files + part == files {
      forall p | p in part ensures p in files && files[p] == part[p] {
        assert p in files + part && (files + part)[p] == part[p];
      }
    }
  }

  /** base already holds what last adds, so putting texts and then last over it matters only where a text
      takes a place of last. */
  lemma Overwriting(base: Files, texts: Files, last: Files)
    requires forall p :: p in last ==> p in base && base[p] == last[p]
    requires forall p :: p in texts ==> texts[p].EnvText?
    requires forall p :: p in last ==> !last[p].EnvText?
    ensures base + texts + last == base + texts <==> texts.Keys !! last.Keys
  {
    Absorbs(base + texts, last);
  }

  /** As before, with another part put between that last does not overlap. */
  lemma OverwritingAfter(base: Files, texts: Files, part: Files, last: Files)
    requires forall p :: p in last ==> p in base && base[p] == last[p]
    requires forall p :: p in texts ==> texts[p].EnvText?
    requires forall p :: p in last ==> !last[p].EnvText?
    requires part.Keys !! last.Keys
    ensures base + texts + part + last == base + texts + part <==> texts.Keys !! last.Keys
  {
    Absorbs(base + texts + part, last);
  }

  lemma PathsDiffer()
    ensures MANIFEST_PATH != COMPOSE_PATH && MANIFEST_PATH != NGINX_PATH && COMPOSE_PATH != NGINX_PATH
    ensures MANIFEST_PATH !in ERROR_PAGES && COMPOSE_PATH !in ERROR_PAGES
  {
    assert |MANIFEST_PATH| == 16 && |COMPOSE_PATH| == 24 && |NGINX_PATH| == 18;
    assert forall p :: p in ERROR_PAGES ==> |p| == 39;
  }

  /** When the old state was generated in full, the incremental run leaves the same files as another full
      run, exactly when no env file takes the place of a generated file that the incremental run skips. */
  lemma IncrementalAgreesWithFull(before: Inputs, after: Inputs, name: string, changed: seq<string>,
                                  v0: VM, v1: VM, start: VM, incremental: VM, full: VM)
    requires InputsDifferAt(before, after, name, changed)
    requires Runs(before, FULL, v0, v1) && start.files == v1.files
    requires Runs(after, Incremental(after.src.cfg, name, changed), start, incremental)
    requires Runs(after, FULL, start, full)
    requires after.src.Manifest().Ok? && NoConflicts(Built(after), after.join)
    ensures incremental.files == full.files <==>
      Targets(Built(after), after.join) !! Skipped(after, name, changed)
  {
    hide Runs, ComposeOf, NginxOf, StartMentions, Needles, FilesInOrder, NoConflicts, SourcesDifferAt;
    var p := FullRun(before, v0, v1);
    var q := IncrementalRun(after, name, changed, start, incremental);
    var r := FullRun(after, start, full);
    SameFiles(Built(after), q, r, after.join);
    SkippedAgrees(before, after, name, changed, v1.files, q);
  }

  lemma PartKeys(inp: Inputs)
    requires inp.src.Manifest().Ok? && ComposeOf(inp.src.cfg, Built(inp), inp.join).Ok?
    requires inp.ProxyOn() ==> NginxOf(inp.src.cfg, ForNginx(inp), inp.src.cfg.ProxyDomain()).Ok?
    ensures ComposePart(inp).Keys == {COMPOSE_PATH} && !ComposePart(inp)[COMPOSE_PATH].EnvText?
    ensures NginxPart(inp).Keys == if inp.ProxyOn() then {NGINX_PATH} + ERROR_PAGES else {}
    ensures forall p :: p in NginxPart(inp) ==> !NginxPart(inp)[p].EnvText?
    ensures ManifestPart(inp).Keys == {MANIFEST_PATH}
    ensures ManifestPart(inp).Keys !! ComposePart(inp).Keys !! NginxPart(inp).Keys
  {
    hide ComposeOf, NginxOf, Source.Manifest;
    PathsDiffer();
    if inp.ProxyOn() {
      NginxKeys(inp);
    }
  }

  lemma NginxKeys(inp: Inputs)
    requires inp.src.Manifest().Ok? && inp.ProxyOn()
    requires NginxOf(inp.src.cfg, ForNginx(inp), inp.src.cfg.ProxyDomain()).Ok?
    ensures NginxPart(inp).Keys == {NGINX_PATH} + ERROR_PAGES
    ensures forall p :: p in NginxPart(inp) ==> !NginxPart(inp)[p].EnvText?
  {
    hide NginxOf, Source.Manifest;
  }

  lemma EnvTextsAreTexts(m: ManifestData, order: seq<string>, join: Joiner)
    requires IsOrder(m, order)
    ensures forall p :: p in EnvTexts(m, order, join) ==> EnvTexts(m, order, join)[p].EnvText?
  {
    hide FilesInOrder;
  }

  /** The files of a full run hold both parts, also after a new manifest has been written. */
  lemma PartsHold(files: Files, older: Files, manifest: Files, compose: Files, nginx: Files)
    requires files == older + compose + nginx && manifest.Keys !! compose.Keys !! nginx.Keys
    ensures forall p :: p in nginx ==> p in files + manifest && (files + manifest)[p] == nginx[p]
    ensures forall p :: p in compose ==> p in files + manifest && (files + manifest)[p] == compose[p]
  {
  }

  /** The comparison of the two runs in terms of the parts they are put together from. */
  lemma CompareParts(files: Files, older: Files, manifest: Files, texts: Files, composeBefore: Files, compose: Files,
                     nginx: Files, again: bool)
    requires files == older + composeBefore + nginx
    requires compose.Keys == composeBefore.Keys && (!again ==> compose == composeBefore)
    requires manifest.Keys !! compose.Keys !! nginx.Keys
    requires forall p :: p in texts ==> texts[p].EnvText?
    requires forall p :: p in compose ==> !compose[p].EnvText?
    requires forall p :: p in nginx ==> !nginx[p].EnvText?
    ensures files + manifest + texts + compose + nginx == files + manifest + texts + (if again then compose else map[])
      <==> texts.Keys !! (if again then {} else compose.Keys) + nginx.Keys
  {
    PartsHold(files, older, manifest, composeBefore, nginx);
    var base := files + manifest;
    if again {
      OverwritingAfter(base, texts, compose, nginx);
    } else {
      assert base + texts + compose + nginx == base + texts + (compose + nginx);
      assert (compose + nginx).Keys == compose.Keys + nginx.Keys;
      assert base + texts + map[] == base + texts;
      Overwriting(base, texts, compose + nginx);
    }
  }

  lemma SkippedAgrees(before: Inputs, after: Inputs, name: string, changed: seq<string>, files: Files,
                      order: seq<string>)
    requires InputsDifferAt(before, after, name, changed)
    requires before.src.Manifest().Ok? && after.src.Manifest().Ok? && IsOrder(Built(after), order)
    requires ComposeOf(before.src.cfg, Built(before), before.join).Ok?
    requires ComposeOf(after.src.cfg, Built(after), after.join).Ok?
    requires before.ProxyOn() ==> NginxOf(before.src.cfg, ForNginx(before), before.src.cfg.ProxyDomain()).Ok?
    requires after.ProxyOn() ==> NginxOf(after.src.cfg, ForNginx(after), after.src.cfg.ProxyDomain()).Ok?
    requires exists older: Files :: files == older + ComposePart(before) + NginxPart(before)
    ensures var env := files + ManifestPart(after) + EnvTexts(Built(after), order, after.join);
      env + ComposePart(after) + NginxPart(after)
        == env + (if StartMentions(after.src.cfg, Needles(name, changed)) then ComposePart(after) else map[])
      <==> Targets(Built(after), after.join) !! Skipped(after, name, changed)
  {
    hide ComposeOf, NginxOf, StartMentions, Needles, FilesInOrder, OutputsDifferAt, StoreDiffersAt, ComposePart,
         NginxPart, ManifestPart, Built, EnvTexts;
    SkippedPartsStay(before, after, name, changed);
    TargetsAreFiles(Built(after), order, after.join);
    PartKeys(after);
    PartKeys(before);
    var older: Files :| files == older + ComposePart(before) + NginxPart(before);
    EnvTextsAreTexts(Built(after), order, after.join);
    CompareParts(files, older, ManifestPart(after), EnvTexts(Built(after), order, after.join), ComposePart(before),
                 ComposePart(after), NginxPart(after), StartMentions(after.src.cfg, Needles(name, changed)));
  }

  // ---------- Which runs are possible ----------

  lemma RunsFirst(inp: Inputs, step: Step, rest: seq<Step>, a: VM, mid: VM, b: VM)
    requires StepTo(inp, step, a, mid) && Runs(inp, rest, mid, b)
    ensures Runs(inp, [step] + rest, a, b)
  {
    hide StepTo;
    assert ([step] + rest)[1..] == rest && ([step] + rest)[0] == step;
  }

  lemma RunsNothing(inp: Inputs, a: VM)
    ensures Runs(inp, [], a, a)
  {
  }

  /** The manifest and env files can be generated when the manifest can. */
  lemma TwoSteps(inp: Inputs, a: VM) returns (mid: VM, b: VM)
    requires inp.src.Manifest().Ok?
    ensures StepTo(inp, GenerateManifest, a, mid) && StepTo(inp, GenerateEnv, mid, b) && b.manifest == Built(inp)
  {
    hide ComposeOf, NginxOf, IsOrder, EnvTexts, Source.Manifest;
    var m := Built(inp);
    mid := VM(m, a.files[MANIFEST_PATH := ManifestFile(m)]);
    var order := AnyOrder(m.services.Keys);
    assert IsOrder(m, order) by { AnyOrderIsOrder(m); }
    b := VM(m, mid.files + EnvTexts(m, order, inp.join));
  }

  lemma AnyOrderIsOrder(m: ManifestData)
    ensures IsOrder(m, AnyOrder(m.services.Keys))
  {
  }

  lemma ComposeStep(inp: Inputs, a: VM) returns (b: VM)
    requires Composes(inp) && a.manifest == Built(inp)
    ensures StepTo(inp, GenerateCompose, a, b) && b.manifest == a.manifest
  {
    hide ComposeOf, NginxOf, Source.Manifest;
    b := a.(files := a.files[COMPOSE_PATH := ComposeText(ComposeOf(inp.src.cfg, a.manifest, inp.join).value)]);
  }

  lemma NginxStep(inp: Inputs, a: VM) returns (b: VM)
    requires inp.src.Manifest().Ok? && Serves(inp) && a.manifest == Built(inp)
    ensures StepTo(inp, GenerateNginx, a, b)
  {
    hide ComposeOf, NginxOf, Source.Manifest;
    if inp.ProxyOn() {
      var m := ForNginx(inp);
      b := VM(m, a.files + NginxFiles(inp, m, NginxOf(inp.src.cfg, m, inp.src.cfg.ProxyDomain()).value));
    } else {
      b := a;
    }
  }

  /** A full run can succeed exactly when manifest, compose and nginx files can be generated. */
  lemma FullRunIsPossible(inp: Inputs, a: VM)
    ensures (exists b :: Runs(inp, FULL, a, b)) <==> Composes(inp) && Serves(inp)
  {
    hide Runs, StepTo, ComposeOf, NginxOf, Source.Manifest, Built, ForNginx;
    if Composes(inp) && Serves(inp) {
      var one, two := TwoSteps(inp, a);
      var three := ComposeStep(inp, two);
      var four := NginxStep(inp, three);
      RunsNothing(inp, four);
      RunsFirst(inp, GenerateNginx, [], three, four, four);
      RunsFirst(inp, GenerateCompose, [GenerateNginx] + [], two, three, four);
      RunsFirst(inp, GenerateEnv, [GenerateCompose] + ([GenerateNginx] + []), one, two, four);
      RunsFirst(inp, GenerateManifest, [GenerateEnv] + ([GenerateCompose] + ([GenerateNginx] + [])), a, one, four);
      assert FULL == [GenerateManifest] + ([GenerateEnv] + ([GenerateCompose] + ([GenerateNginx] + [])));
    }
    if b :| Runs(inp, FULL, a, b) {
      var order := FullRun(inp, a, b);
    }
  }

  /** After a full run, an incremental one can succeed exactly when another full one can. */
  lemma IncrementalIsPossible(before: Inputs, after: Inputs, name: string, changed: seq<string>,
                              v0: VM, v1: VM, start: VM)
    requires InputsDifferAt(before, after, name, changed) && Runs(before, FULL, v0, v1)
    ensures (exists b :: Runs(after, Incremental(after.src.cfg, name, changed), start, b)) <==>
      (exists b :: Runs(after, FULL, start, b))
  {
    hide Runs, StepTo, ComposeOf, NginxOf, Source.Manifest, StartMentions, Needles, InputsDifferAt, Serves;
    var steps := Incremental(after.src.cfg, name, changed);
    var again := StartMentions(after.src.cfg, Needles(name, changed));
    var order := FullRun(before, v0, v1);
    FullRunIsPossible(after, start);
    if b :| Runs(after, steps, start, b) {
      var other := IncrementalRun(after, name, changed, start, b);
      StillPossible(before, after, name, changed);
    }
    if Composes(after) && Serves(after) {
      var one, two := TwoSteps(after, start);
      if again {
        var three := ComposeStep(after, two);
        RunsNothing(after, three);
        RunsFirst(after, GenerateCompose, [], two, three, three);
        RunsFirst(after, GenerateEnv, [GenerateCompose] + [], one, two, three);
        RunsFirst(after, GenerateManifest, [GenerateEnv] + ([GenerateCompose] + []), start, one, three);
        assert steps == [GenerateManifest] + ([GenerateEnv] + ([GenerateCompose] + []));
      } else {
        RunsNothing(after, two);
        RunsFirst(after, GenerateEnv, [], one, two, two);
        RunsFirst(after, GenerateManifest, [GenerateEnv] + [], start, one, two);
        assert steps == [GenerateManifest] + ([GenerateEnv] + []);
      }
    }
  }

  lemma StillPossible(before: Inputs, after: Inputs, name: string, changed: seq<string>)
    requires InputsDifferAt(before, after, name, changed) && Composes(before) && Serves(before)
    requires after.src.Manifest().Ok?
    ensures Serves(after)
    ensures !StartMentions(after.src.cfg, Needles(name, changed)) ==> Composes(after)
  {
    hide ComposeOf, NginxOf, StartMentions, Needles;
    NginxDependsOn(before.src.cfg, ForNginx(before), ForNginx(after), before.src.cfg.ProxyDomain());
    if !StartMentions(before.src.cfg, Needles(name, changed)) {
      ComposeUntouched(before.src.cfg, Built(before), Built(after), before.join, name, changed);
    }
  }

  // ---------- A run that differs ----------

  /** A service whose env file has the path of the nginx config. */
  const IN_THE_WAY := ServiceConfig("preview", 0, "", [], Some(map[]), "nginx.conf", "", "", [])

  const WITH_PROXY :=
    RunnerConfig(NO_HOOK, NO_HOOK, NO_HOOK, NO_HOOK, NO_HOOK,
                 Some(ComposeConfig([], "node", Some(ProxyConfig(None, "example.com", "")))))

  const CLASH :=
    Inputs(Source(ProjectConfig(1, "example", ProvisionerConfig("", "", None, map[]), None, map["web" := IN_THE_WAY],
                                Some(WITH_PROXY), "", map[]),
                  "env", "main", "local", map[], map[], map[]),
           [], (dir, file) => dir + "/" + file)

  lemma ClashGenerates()
    ensures CLASH.src.Manifest().Ok? && ComposeOf(CLASH.src.cfg, Built(CLASH), CLASH.join).Ok?
    ensures NginxOf(CLASH.src.cfg, ForNginx(CLASH), CLASH.src.cfg.ProxyDomain()).Ok?
  {
    hide Listing, Render, Locations;
    assert CLASH.src.Service("web").Ok?;
    var cfg := CLASH.src.cfg;
    var names, all := Listing(Startable(cfg)), Listing(cfg.services.Keys);
    assert Startable(cfg) == {};
    CollectSucceeds(names, n => ComposeBlock(cfg, Built(CLASH), CLASH.join, n));
    CollectSucceeds(all, n => ServerBlock(cfg, ForNginx(CLASH), cfg.ProxyDomain(), n));
  }

  lemma ClashTarget()
    requires CLASH.src.Manifest().Ok?
    ensures NGINX_PATH in Targets(Built(CLASH), CLASH.join)
  {
    hide Render;
    var m := Built(CLASH);
    assert "web" in m.services && m.services["web"].env.Some?;
    assert m.services["web"].path == "preview" && m.services["web"].envFile == "nginx.conf";
    assert "preview" + "/" + "nginx.conf" == NGINX_PATH;
    assert Target(m.services["web"], CLASH.join) == NGINX_PATH;
  }

  lemma ClashHasNoConflicts()
    requires CLASH.src.Manifest().Ok?
    ensures NoConflicts(Built(CLASH), CLASH.join)
  {
    hide Render, Target;
    assert forall s :: s in Built(CLASH).services && Built(CLASH).services[s].env.Some? ==>
      Built(CLASH).services[s].env.value == map[];
  }

  lemma ClashIsServed(name: string, changed: seq<string>)
    ensures CLASH.ProxyOn() && CLASH.src.cfg.ProxyDomain() != "" && NGINX_PATH in Skipped(CLASH, name, changed)
  {
    hide StartMentions, Needles;
  }

  /** An input: after the env file has taken the place of the nginx config, the incremental run leaves it there
      and the full run does not. */
  lemma ClashingRunsDiffer(v0: VM) returns (v1: VM, incremental: VM, full: VM)
    ensures Runs(CLASH, FULL, v0, v1) && Runs(CLASH, FULL, v1, full)
    ensures Runs(CLASH, Incremental(CLASH.src.cfg, "db", []), v1, incremental)
    ensures incremental.files != full.files
  {
    hide Runs, StepTo, ComposeOf, NginxOf, Source.Manifest, Built, ForNginx, StartMentions, Needles, Targets,
         NoConflicts, Skipped, Incremental;
    ClashGenerates();
    ClashTarget();
    ClashHasNoConflicts();
    ClashIsServed("db", []);
    assert NGINX_PATH in Targets(Built(CLASH), CLASH.join) * Skipped(CLASH, "db", []);
    FullRunIsPossible(CLASH, v0);
    v1 :| Runs(CLASH, FULL, v0, v1);
    FullRunIsPossible(CLASH, v1);
    full :| Runs(CLASH, FULL, v1, full);
    IncrementalIsPossible(CLASH, CLASH, "db", [], v0, v1, v1);
    incremental :| Runs(CLASH, Incremental(CLASH.src.cfg, "db", []), v1, incremental);
    IncrementalAgreesWithFull(CLASH, CLASH, "db", [], v0, v1, v1, incremental, full);
  }

  // ---------- Nothing stale ----------

  lemma BuiltFiles(inp: Inputs, order: seq<string>)
    requires inp.src.Manifest().Ok? && IsOrder(Built(inp), order)
    ensures IsOrder(inp.src.Manifest().value, order)
    ensures FilesInOrder(Built(inp), order, inp.join) == FilesInOrder(inp.src.Manifest().value, order, inp.join)
  {
    FilesDependOnServices(inp.src.Manifest().value, Built(inp), order, inp.join);
  }

  /** The texts of such a file are the same before and after. */
  lemma TextUntouched(before: Inputs, after: Inputs, name: string, changed: seq<string>, n: string, t: string,
                      p: seq<string>, q: seq<string>)
    requires InputsDifferAt(before, after, name, changed)
    requires before.src.Manifest().Ok? && after.src.Manifest().Ok?
    requires n in before.src.cfg.services && n !in Affected(before.src.cfg, Needles(name, changed))
    requires OnlyNeighboursWrite(before.src, before.join, n, t)
    requires NoConflicts(before.src.Manifest().value, before.join)
    requires IsOrder(Built(before), p) && IsOrder(Built(after), q)
    ensures SameFile(EnvTexts(Built(before), p, before.join), EnvTexts(Built(after), q, after.join), t)
  {
    hide FilesInOrder, NoConflicts, OnlyNeighboursWrite, Affected, SourcesDifferAt;
    BuiltFiles(before, p);
    BuiltFiles(after, q);
    EnvFileUntouched(before.src, after.src, name, changed, before.join, n, t, p, q);
  }

  /** The files that the generation steps write beside the env files. */
  const GENERATED := {MANIFEST_PATH, COMPOSE_PATH, NGINX_PATH} + ERROR_PAGES

  lemma PartPaths(inp: Inputs)
    requires inp.src.Manifest().Ok?
    ensures ComposePart(inp).Keys <= {COMPOSE_PATH} && NginxPart(inp).Keys <= {NGINX_PATH} + ERROR_PAGES
  {
    hide ComposeOf, NginxOf;
  }

  /** What a run leaves at a path that only env files take. */
  lemma TextOnTop(files: Files, manifest: Files, texts: Files, a: Files, b: Files, t: string)
    requires t !in manifest && t !in a && t !in b
    ensures SameFile(files + manifest + texts + a + b, files + texts, t)
    ensures SameFile(files + manifest + texts + a, files + texts, t)
  {
  }

  lemma FullText(inp: Inputs, a: VM, b: VM, t: string) returns (order: seq<string>)
    requires Runs(inp, FULL, a, b) && t !in GENERATED
    ensures inp.src.Manifest().Ok? && IsOrder(Built(inp), order)
    ensures SameFile(b.files, a.files + EnvTexts(Built(inp), order, inp.join), t)
  {
    hide Runs, EnvTexts, ComposePart, NginxPart, Built, IsOrder;
    order := FullRun(inp, a, b);
    PartPaths(inp);
    TextOnTop(a.files, ManifestPart(inp), EnvTexts(Built(inp), order, inp.join), ComposePart(inp), NginxPart(inp), t);
  }

  lemma IncrementalText(inp: Inputs, name: string, changed: seq<string>, a: VM, b: VM, t: string)
    returns (order: seq<string>)
    requires Runs(inp, Incremental(inp.src.cfg, name, changed), a, b) && t !in GENERATED
    ensures inp.src.Manifest().Ok? && IsOrder(Built(inp), order)
    ensures SameFile(b.files, a.files + EnvTexts(Built(inp), order, inp.join), t)
  {
    hide Runs, EnvTexts, ComposePart, NginxPart, Built, StartMentions, Needles, IsOrder;
    order := IncrementalRun(inp, name, changed, a, b);
    PartPaths(inp);
    var compose := if StartMentions(inp.src.cfg, Needles(name, changed)) then ComposePart(inp) else map[];
    TextOnTop(a.files, ManifestPart(inp), EnvTexts(Built(inp), order, inp.join), compose, map[], t);
  }

  /** Whatever an unaffected service reads and only services in its directory write is after the incremental
      run what it was before, also when it is written by its neighbours alone, or not at all. */
  lemma NoStaleEnvFile(before: Inputs, after: Inputs, name: string, changed: seq<string>, n: string, t: string,
                       v0: VM, v1: VM, start: VM, v2: VM)
    requires InputsDifferAt(before, after, name, changed)
    requires Runs(before, FULL, v0, v1) && start.files == v1.files
    requires Runs(after, Incremental(after.src.cfg, name, changed), start, v2)
    requires before.src.Manifest().Ok?
    requires n in before.src.cfg.services && n !in Affected(before.src.cfg, Needles(name, changed))
    requires OnlyNeighboursWrite(before.src, before.join, n, t)
    requires NoConflicts(before.src.Manifest().value, before.join)
    requires t !in GENERATED
    ensures SameFile(v1.files, v2.files, t)
  {
    hide Runs, Needles, NoConflicts, OnlyNeighboursWrite, EnvTexts, InputsDifferAt, Affected, IsOrder, Built;
    var p := FullText(before, v0, v1, t);
    var q := IncrementalText(after, name, changed, start, v2, t);
    TextUntouched(before, after, name, changed, n, t, p, q);
  }

  /** And its block in a compose file made from the new manifest is the one made from the old. */
  lemma NoStaleCommand(before: Inputs, after: Inputs, name: string, changed: seq<string>, n: string)
    requires InputsDifferAt(before, after, name, changed)
    requires before.src.Manifest().Ok? && after.src.Manifest().Ok?
    requires n in before.src.cfg.services && n !in Affected(before.src.cfg, Needles(name, changed))
    requires ComposeBlock(before.src.cfg, Built(before), before.join, n).Ok?
    ensures ComposeBlock(after.src.cfg, Built(after), after.join, n) ==
      ComposeBlock(before.src.cfg, Built(before), before.join, n)
  {
    hide ComposeBlock, Needles, Mentions, EnvMentions;
    assert n !in Direct(before.src.cfg, Needles(name, changed));
    BlockUntouched(before.src.cfg, Built(before), Built(after), before.join, name, changed, n);
  }

  /** No stale container: of a service that is enabled and not restarted, the block in the compose file is as
      before, and so is each of the env files that its container reads. */
  lemma NoStaleContainer(before: Inputs, after: Inputs, name: string, changed: seq<string>, restarted: seq<string>,
                         n: string, v0: VM, v1: VM, start: VM, v2: VM)
    requires InputsDifferAt(before, after, name, changed)
    requires Runs(before, FULL, v0, v1) && start.files == v1.files
    requires Runs(after, Incremental(after.src.cfg, name, changed), start, v2)
    requires before.src.Manifest().Ok? && after.src.Manifest().Ok?
    requires NoConflicts(before.src.Manifest().value, before.join)
    requires forall s :: s in restarted <==> s in after.enabled && s in Affected(after.src.cfg, Needles(name, changed))
    requires n in after.enabled && n !in restarted
    requires ComposeBlock(before.src.cfg, Built(before), before.join, n).Ok?
    ensures var block := ComposeBlock(before.src.cfg, Built(before), before.join, n);
      ComposeBlock(after.src.cfg, Built(after), after.join, n) == block
      && forall t :: t in block.value.envFiles && t !in GENERATED
                     && OnlyNeighboursWrite(before.src, before.join, n, t) ==>
           SameFile(v1.files, v2.files, t)
  {
    hide Runs, Needles, NoConflicts, OnlyNeighboursWrite, Affected, Built, ComposeBlock, SameFile;
    BlockNamesService(before.src.cfg, Built(before), before.join, n);
    NoStaleCommand(before, after, name, changed, n);
    forall t | t !in GENERATED && OnlyNeighboursWrite(before.src, before.join, n, t)
      ensures SameFile(v1.files, v2.files, t)
    {
      NoStaleEnvFile(before, after, name, changed, n, t, v0, v1, start, v2);
    }
  }

  lemma BlockNamesService(cfg: ProjectConfig, m: ManifestData, join: Joiner, n: string)
    requires ComposeBlock(cfg, m, join, n).Ok?
    ensures n in cfg.services
  {
  }

  // ---------- Reset ----------

  /** The inputs once a reset hook of service svc has printed these outputs. */
  function AfterReset(inp: Inputs, svc: string, outputs: EnvMap): Inputs {
    inp.(src := inp.src.(outputs := inp.src.outputs[svc := outputs],
                         store := inp.src.store + HookOutput.Globals(outputs)))
  }

  /** After a reset the outputs of the service are what its hook printed, the store has what it printed as GLOBAL_k
      under k, and nothing else changed. */
  ghost predicate TakenOver(before: Inputs, after: Inputs, svc: string, printed: EnvMap) {
    && svc in after.src.outputs && after.src.outputs[svc] == printed
    && (forall s :: s != svc ==>
          (s in after.src.outputs <==> s in before.src.outputs)
          && (s in after.src.outputs ==> after.src.outputs[s] == before.src.outputs[s]))
    && (forall k :: "GLOBAL_" + k in printed ==> k in after.src.store && after.src.store[k] == printed["GLOBAL_" + k])
    && (forall k :: "GLOBAL_" + k !in printed ==>
          (k in after.src.store <==> k in before.src.store)
          && (k in after.src.store ==> after.src.store[k] == before.src.store[k]))
    && after == before.(src := before.src.(outputs := after.src.outputs, store := after.src.store))
  }

  lemma AfterResetTakesOver(inp: Inputs, svc: string, printed: EnvMap)
    ensures TakenOver(inp, AfterReset(inp, svc, printed), svc, printed)
  {
    assert HookOutput.GLOBAL == "GLOBAL_";
  }

  /** The keys that CoreReset hands to propagation. */
  ghost function ResetKeys(inp: Inputs, svc: string, outputs: EnvMap): seq<string> {
    Listing(Reported(inp.src.store, AfterReset(inp, svc, outputs).src.store))
  }

  /** The keys handed over are those that the hook exported with another value than they had, "" for those not there. */
  lemma ResetKeysExactly(inp: Inputs, svc: string, printed: EnvMap)
    ensures forall k :: k in ResetKeys(inp, svc, printed) <==>
      "GLOBAL_" + k in printed && printed["GLOBAL_" + k] != if k in inp.src.store then inp.src.store[k] else ""
  {
    AfterResetTakesOver(inp, svc, printed);
    var before, after := inp.src.store, AfterReset(inp, svc, printed).src.store;
    assert forall k :: "GLOBAL_" + k !in printed ==> (k in after <==> k in before);
    forall k
      ensures k in Reported(before, after) <==>
        "GLOBAL_" + k in printed && printed["GLOBAL_" + k] != if k in before then before[k] else ""
    {
      if "GLOBAL_" + k in printed {
        assert k in after && after[k] == printed["GLOBAL_" + k];
      }
    }
  }

  /** A reset changes no more than what it reports, unless the service has the empty name, for which no
      needle is made, and its outputs were there before with other values. */
  lemma ResetReportsEnough(inp: Inputs, svc: string, outputs: EnvMap)
    ensures InputsDifferAt(inp, AfterReset(inp, svc, outputs), svc, ResetKeys(inp, svc, outputs)) <==>
      (svc == "" && svc in inp.src.outputs ==> inp.src.outputs[svc] == outputs)
  {
    var after := AfterReset(inp, svc, outputs);
    ReportedIsEnough(inp.src.store, after.src.store);
    assert svc in after.src.outputs && after.src.outputs[svc] == outputs;
  }

  /** After a reset of a service, propagating the change and synchronising in full leave the same files. */
  lemma ResetThenPropagate(before: Inputs, svc: string, outputs: EnvMap, v0: VM, v1: VM, start: VM, propagated: VM,
                           synced: VM)
    requires svc != "" && Runs(before, FULL, v0, v1) && start.files == v1.files
    requires var after := AfterReset(before, svc, outputs); var changed := ResetKeys(before, svc, outputs);
      Runs(after, Incremental(after.src.cfg, svc, changed), start, propagated)
      && Runs(after, FULL, start, synced)
      && after.src.Manifest().Ok? && NoConflicts(Built(after), after.join)
      && Targets(Built(after), after.join) !! {COMPOSE_PATH, NGINX_PATH} + ERROR_PAGES
    ensures propagated.files == synced.files
  {
    hide Runs, FilesInOrder, NoConflicts, Targets, InputsDifferAt;
    var after, changed := AfterReset(before, svc, outputs), ResetKeys(before, svc, outputs);
    ResetReportsEnough(before, svc, outputs);
    IncrementalAgreesWithFull(before, after, svc, changed, v0, v1, start, propagated, synced);
  }

  /** And after a reset no container that is not restarted has anything new to read. */
  lemma ResetLeavesNothingStale(before: Inputs, svc: string, outputs: EnvMap, restarted: seq<string>, n: string,
                                v0: VM, v1: VM, start: VM, v2: VM)
    requires svc == "" && svc in before.src.outputs ==> before.src.outputs[svc] == outputs
    requires Runs(before, FULL, v0, v1) && start.files == v1.files
    requires var after := AfterReset(before, svc, outputs); var changed := ResetKeys(before, svc, outputs);
      Runs(after, Incremental(after.src.cfg, svc, changed), start, v2) && after.src.Manifest().Ok?
      && forall s :: s in restarted <==> s in after.enabled && s in Affected(after.src.cfg, Needles(svc, changed))
    requires before.src.Manifest().Ok? && NoConflicts(before.src.Manifest().value, before.join)
    requires n in before.enabled && n !in restarted
    requires ComposeBlock(before.src.cfg, Built(before), before.join, n).Ok?
    ensures var after := AfterReset(before, svc, outputs);
      var block := ComposeBlock(before.src.cfg, Built(before), before.join, n);
      ComposeBlock(after.src.cfg, Built(after), after.join, n) == block
      && forall t :: t in block.value.envFiles && t !in GENERATED
                     && OnlyNeighboursWrite(before.src, before.join, n, t) ==>
           SameFile(v1.files, v2.files, t)
  {
    hide Runs, Needles, NoConflicts, OnlyNeighboursWrite, Affected, Built, ComposeBlock, SameFile, InputsDifferAt,
         ResetKeys;
    var after, changed := AfterReset(before, svc, outputs), ResetKeys(before, svc, outputs);
    ResetReportsEnough(before, svc, outputs);
    NoStaleContainer(before, after, svc, changed, restarted, n, v0, v1, start, v2);
  }
}
