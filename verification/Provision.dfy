/** The provisioner phase: a pipeline of checkpointed steps that can be resumed (manager.go). */
module Provision {
  import opened Prelude
  import opened Config
  import opened Manifest
  import opened Entry
  import opened Checkpoint
  import opened AuditTrail
  import HookOutput

  /** Where the environment runs: on compute made by a hook, in a worktree that exists, or in one to be made. */
  datatype Mode = Hook | Attached | Worktree

  datatype Target = Target(cfg: ProjectConfig, envName: string, branch: string, mode: Mode) {
    function Seeds(): set<string> {
      set s | s in cfg.provisioner.services && cfg.provisioner.services[s].seed != ""
    }

    function Source(ports: PortMap, outs: Outputs, store: EnvMap): Manifest.Source {
      Manifest.Source(cfg, envName, branch, cfg.ResolvedMode(), ports, outs, store)
    }
  }

  // ---------- The steps ----------

  datatype Phase = Before | Compute | Allocate | Seed(svc: string) | Build | Write | After {
    function Name(): string {
      match this
      case Before => "provisioner_before"
      case Compute => "create_compute"
      case Allocate => "allocate_ports"
      case Seed(svc) => "seed_" + svc
      case Build => "build_manifest"
      case Write => "write_manifest"
      case After => "provisioner_after"
    }

    /** Earlier and later in the pipeline; the seeds are not ordered among themselves. */
    function Rank(): nat {
      match this
      case Before => 0
      case Compute => 1
      case Allocate => 2
      case Seed(_) => 3
      case Build => 4
      case Write => 5
      case After => 6
    }

    function Opts(): StepOpts { StepOpts(Name(), true, Compute?) }
  }

  lemma NamesTellPhases(p: Phase, q: Phase)
    ensures p.Name() == q.Name() <==> p == q
  {
    if p.Seed? && q.Seed? {
      assert p.Name()[5..] == p.svc && q.Name()[5..] == q.svc;
    } else if p.Seed? {
      assert p.Name()[0] == 's' && q.Name()[0] != 's';
    } else if q.Seed? {
      assert q.Name()[0] == 's' && p.Name()[0] != 's';
    } else {
      assert |p.Name()| == |q.Name()| ==> p.Name()[0] == q.Name()[0] ==> p == q;
    }
  }

  /** The steps of a provisioner phase, for an order in which Go's map yields the seeds. */
  function Plan(t: Target, seedOrder: seq<string>): seq<Phase> {
    (if t.cfg.provisioner.before != "" then [Before] else [])
    + (if t.mode != Attached then [Compute] else [])
    + [Allocate] + SeedPhases(seedOrder) + [Build, Write]
    + if t.cfg.provisioner.after != "" then [After] else []
  }

  function SeedPhases(seedOrder: seq<string>): seq<Phase> {
    seq(|seedOrder|, i requires 0 <= i < |seedOrder| => Seed(seedOrder[i]))
  }

  /** BuildProvisionerStepOrder: all steps, configured or not. */
  function StepOrder(seedOrder: seq<string>): seq<string> {
    ["provisioner_before", "create_compute", "allocate_ports"]
    + seq(|seedOrder|, i requires 0 <= i < |seedOrder| => "seed_" + seedOrder[i])
    + ["build_manifest", "write_manifest", "provisioner_after"]
  }

  predicate InPlan(t: Target, p: Phase) {
    match p
    case Before => t.cfg.provisioner.before != ""
    case Compute => t.mode != Attached
    case Seed(svc) => svc in t.Seeds()
    case After => t.cfg.provisioner.after != ""
    case _ => true
  }

  // ---------- One attempt ----------

  /** Everything one attempt meets: whether state can be read and saved, the --from option with the order
      of its step list, the order of the seeds, the steps' answers, the ports that are free, what the
      hooks print, the compute that is made, or attached to, and what other commands do later, before the
      next attempt. */
  datatype Attempt = Attempt(loadOk: bool, createSave: Save, fromStep: string, fromSeeds: seq<string>, fromSave: Save,
                             noCache: bool, seedOrder: seq<string>, answers: string -> Answer, ports: PortMap,
                             printed: string -> EnvMap, compute: ComputeInfo, finalSave: Save, later: seq<Op>)

  /** The locals of runProvisioner beside the entry. store is what the manifest was built with. */
  datatype Local = Local(w: World, ports: PortMap, outs: Outputs, store: EnvMap, manifest: Option<ManifestData>)

  function WithFixed(cfg: ProjectConfig, ports: PortMap): PortMap {
    ports + map s | s in cfg.services && cfg.services[s].port != 0 :: cfg.services[s].port
  }

  /** Compute access can be made from the entry. */
  predicate HasCompute(t: Target, e: EntryData) {
    e.compute.Some? && e.compute.value.ssh == (t.mode == Hook) && (t.mode == Worktree ==> e.compute.value.path != "")
  }

  /** What a completed step left in its checkpoint is loaded before the step itself is considered. */
  function Restored(p: Phase, l: Local): Local {
    var cached := l.w.entry.StepOutputs(p.Name());
    match p
    case Allocate =>
      if cached.Some? && "ports" in cached.value then l.(ports := PortsIn(cached.value["ports"]).GetOr(map[])) else l
    case Seed(svc) =>
      if cached.Some? && "outputs" in cached.value then
        l.(outs := l.outs[svc := StringsIn(cached.value["outputs"]).GetOr(map[])])
      else l
    case _ => l
  }

  /** What is kept of the outputs of the hook that makes the machine. */
  function MachineOutputs(printed: EnvMap): StepOutputs {
    map k | k in {"VM_IP", "SSH_USER", "REMOTE_ROOT"} :: Text(if k in printed then printed[k] else "")
  }

  /** What a step meets, given the locals at that point. */
  function Facing(t: Target, x: Attempt, p: Phase, l: Local): Answer {
    var a := x.answers(p.Name()).(outputs := map[], globals := map[], enable := None);
    match p
    case Compute =>
      a.(verifyOk := a.verifyOk && HasCompute(t, l.w.entry),
         outputs := if t.mode == Hook then MachineOutputs(x.printed(p.Name()))
                    else map["worktreePath" := Text(x.compute.path)],
         globals := if t.mode == Hook then HookOutput.Globals(x.printed(p.Name())) else map[])
    case Allocate => a.(outputs := map["ports" := Ports(WithFixed(t.cfg, x.ports))])
    case Seed(svc) =>
      a.(outputs := map["outputs" := Strings(x.printed(p.Name()))], globals := HookOutput.Globals(x.printed(p.Name())))
    case Build => a.(fnOk := t.Source(l.ports, l.outs, l.w.entry.env.GetOr(map[])).Manifest().Ok?)
    case _ => a
  }

  predicate Skips(noCache: bool, o: StepOpts, a: Answer, e: EntryData) {
    CacheHit(noCache, o, e) && (o.hasVerify ==> a.verifyOk)
  }

  /** What a step that succeeded leaves in the locals: the values of its Fn, if it was executed. */
  function Learned(t: Target, x: Attempt, p: Phase, l: Local, after: World): (Local, Outcome) {
    var skipped := Skips(x.noCache, p.Opts(), Facing(t, x, p, l), l.w.entry);
    match p
    case Compute =>
      (l.(w := if skipped then after else after.(entry := after.entry.(compute := Some(x.compute)))), Done)
    case Allocate => (l.(w := after, ports := if skipped then l.ports else WithFixed(t.cfg, x.ports)), Done)
    case Seed(svc) => (l.(w := after, outs := if skipped then l.outs else l.outs[svc := x.printed(p.Name())]), Done)
    case Build =>
      // built by Fn, or again when the step was skipped
      var store := (if skipped then after else l.w).entry.env.GetOr(map[]);
      var built := t.Source(l.ports, l.outs, store).Manifest();
      if built.Err? then (l.(w := after), Failure)
      else (l.(w := after, store := store, manifest := Some(built.value)), Done)
    case _ => (l.(w := after), Done)
  }

  function RunPhase(t: Target, x: Attempt, p: Phase, l0: Local): (Local, Outcome) {
    var l := Restored(p, l0);
    var stepped := Stepped(x.noCache, p.Opts(), Facing(t, x, p, l), l.w);
    if stepped.1 != Done then (l.(w := stepped.0), stepped.1) else Learned(t, x, p, l, stepped.0)
  }

  function RunPhases(t: Target, x: Attempt, plan: seq<Phase>, l: Local): (Local, Outcome) {
    if plan == [] then (l, Done)
    else
      var first := RunPhase(t, x, plan[0], l);
      if first.1 != Done then first else RunPhases(t, x, plan[1..], first.0)
  }

  /** Loading or creating the entry, and the --from option. */
  function Begin(t: Target, x: Attempt, w: World): (World, Outcome) {
    if !x.loadOk then (w, Failure)
    else
      var info := Info(t.cfg.mode, t.branch, "creating", map[], map[]);
      var loaded := Apply(Create(info), Apply(Load, w));
      var created := if w.stored.Some? then loaded else Apply(DoSave(x.createSave), loaded);
      if w.stored.None? && x.createSave != Saved then (created, Failure)
      else if x.fromStep == "" then (created, Done)
      else
        var invalidated := Apply(DoInvalidateFrom(x.fromStep, StepOrder(x.fromSeeds)), created);
        (Apply(DoSave(x.fromSave), invalidated), if x.fromSave == Saved then Done else Failure)
  }

  function Fresh(w: World): Local {
    Local(w, map[], map[], map[], None)
  }

  /** The last save, with the manifest's values taken over into the entry. */
  function Finish(t: Target, x: Attempt, l: Local): (Local, Outcome)
    requires l.manifest.Some?
  {
    var m := l.manifest.value;
    var info := Info(m.mode, t.branch, "provisioned", m.ports, m.provisionerOutputs);
    var compute := if t.mode == Attached then Some(x.compute) else l.w.entry.compute;
    var updated := Apply(DoUpdate(info, compute, l.w.entry.env, l.w.entry.enabledServices), l.w);
    (l.(w := Apply(DoSave(x.finalSave), updated)), if x.finalSave == Saved then Done else Failure)
  }

  function Provisioned(t: Target, x: Attempt, w: World): (Local, Outcome) {
    var begun := Begin(t, x, w);
    if begun.1 != Done then (Fresh(begun.0), begun.1)
    else
      var ran := RunPhases(t, x, Plan(t, x.seedOrder), Fresh(begun.0));
      if ran.1 != Done || ran.0.manifest.None? then ran else Finish(t, x, ran.0)
  }

  // ---------- The program ----------

  /** The locals of runProvisioner, apart from the entry. */
  datatype Vars = Vars(ports: PortMap, outs: Outputs, store: EnvMap, manifest: Option<ManifestData>)

  function Joined(w: World, v: Vars): Local {
    Local(w, v.ports, v.outs, v.store, v.manifest)
  }

  method Restore(entry: EnvironmentEntry, p: Phase, v0: Vars, ghost w: World) returns (v: Vars)
    requires entry.Data() == w.entry
    ensures Joined(w, v) == Restored(p, Joined(w, v0))
  {
    v := v0;
    var cached := entry.Data().StepOutputs(p.Name());
    if p.Allocate? && cached.Some? && "ports" in cached.value {
      var ports := DeserializePortMap(cached.value["ports"]);
      v := v.(ports := ports.GetOr(map[]));
    }
    if p.Seed? && cached.Some? && "outputs" in cached.value {
      var outputs := DeserializeStringMap(cached.value["outputs"]);
      v := v.(outs := v.outs[p.svc := outputs.GetOr(map[])]);
    }
  }

  /** One block of runProvisioner: load the checkpoint's values, then the step. */
  method DoPhase(m: Manager, entry: EnvironmentEntry, t: Target, x: Attempt, p: Phase, v0: Vars)
    returns (v: Vars, outcome: Outcome)
    requires m.noCache == x.noCache
    modifies m`events, m.state, entry
    ensures (Joined(m.Now(entry), v), outcome) == RunPhase(t, x, p, Joined(old(m.Now(entry)), v0))
  {
    hide Stepped, EntryData.Normal, Source.Manifest, Restored, HasCompute;
    v := Restore(entry, p, v0, m.Now(entry));
    ghost var l := Joined(m.Now(entry), v);
    var a := PrepareAnswer(entry, t, x, p, v, m.Now(entry));
    var skipped := Skips(x.noCache, p.Opts(), a, entry.Data());
    var storeBefore := entry.env.GetOr(map[]);
    outcome := m.Step(entry, p.Opts(), a);
    if outcome != Done {
      return;
    }
    match p
    case Compute =>
      if !skipped {
        entry.compute := Some(x.compute);
      }
    case Allocate =>
      if !skipped {
        v := v.(ports := WithFixed(t.cfg, x.ports));
      }
    case Seed(svc) =>
      if !skipped {
        v := v.(outs := v.outs[svc := x.printed(p.Name())]);
      }
    case Build =>
      var store := if skipped then entry.env.GetOr(map[]) else storeBefore;
      var built := BuildManifest(t.Source(v.ports, v.outs, store));
      if built.Err? {
        return v, Failure;
      }
      v := v.(store := store, manifest := Some(built.value));
    case _ =>
  }

  method PrepareAnswer(entry: EnvironmentEntry, t: Target, x: Attempt, p: Phase, v: Vars, ghost w: World)
    returns (a: Answer)
    requires entry.Data() == w.entry
    ensures a == Facing(t, x, p, Joined(w, v))
  {
    a := x.answers(p.Name()).(outputs := map[], globals := map[], enable := None);
    match p
    case Compute =>
      a := a.(verifyOk := a.verifyOk && HasCompute(t, entry.Data()));
      if t.mode == Hook {
        var globals := HookOutput.ExtractGlobalOutputs(x.printed(p.Name()));
        a := a.(outputs := MachineOutputs(x.printed(p.Name())), globals := globals);
      } else {
        a := a.(outputs := map["worktreePath" := Text(x.compute.path)]);
      }
    case Allocate =>
      a := a.(outputs := map["ports" := Ports(WithFixed(t.cfg, x.ports))]);
    case Seed(svc) =>
      var globals := HookOutput.ExtractGlobalOutputs(x.printed(p.Name()));
      a := a.(outputs := map["outputs" := Strings(x.printed(p.Name()))], globals := globals);
    case Build =>
      var built := BuildManifest(t.Source(v.ports, v.outs, entry.env.GetOr(map[])));
      a := a.(fnOk := built.Ok?);
    case _ =>
  }

  method LoadOrCreate(m: Manager, t: Target, x: Attempt) returns (entry: EnvironmentEntry, outcome: Outcome)
    modifies m.state
    ensures fresh(entry)
    ensures (m.Now(entry), outcome) == Begin(t, x, World(NewEntry(StartInfo(t)), old(m.state.Stored(m.name)), m.events))
  {
    hide EntryData.Normal, InvalidatedFrom;
    var stored := m.state.Stored(m.name);
    if !x.loadOk || stored.None? {
      entry := new EnvironmentEntry(NewEntry(StartInfo(t)));
    } else {
      entry := new EnvironmentEntry(stored.value);
    }
    if !x.loadOk {
      return entry, Failure;
    }
    if stored.None? {
      var ok := m.state.SetEnvironment(m.name, entry.Data(), x.createSave);
      if !ok {
        return entry, Failure;
      }
    }
    if x.fromStep != "" {
      entry.InvalidateStepsFrom(x.fromStep, StepOrder(x.fromSeeds));
      var ok := m.state.SetEnvironment(m.name, entry.Data(), x.fromSave);
      if !ok {
        return entry, Failure;
      }
    }
    return entry, Done;
  }

  function StartInfo(t: Target): Info {
    Info(t.cfg.mode, t.branch, "creating", map[], map[])
  }

  lemma NextPhase(t: Target, x: Attempt, p: Phase, rest: seq<Phase>, l: Local)
    ensures RunPhases(t, x, [p] + rest, l) ==
      var first := RunPhase(t, x, p, l);
      if first.1 != Done then first else RunPhases(t, x, rest, first.0)
  {
    assert ([p] + rest)[1..] == rest;
  }

  method DoSeeds(m: Manager, entry: EnvironmentEntry, t: Target, x: Attempt, v0: Vars, ghost rest: seq<Phase>)
    returns (v: Vars, outcome: Outcome)
    requires m.noCache == x.noCache
    modifies m`events, m.state, entry
    ensures RunPhases(t, x, SeedPhases(x.seedOrder) + rest, Joined(old(m.Now(entry)), v0)) ==
      if outcome != Done then (Joined(m.Now(entry), v), outcome) else RunPhases(t, x, rest, Joined(m.Now(entry), v))
  {
    hide RunPhase, RunPhases;
    v, outcome := v0, Done;
    ghost var all := RunPhases(t, x, SeedPhases(x.seedOrder) + rest, Joined(m.Now(entry), v0));
    ghost var todo := SeedPhases(x.seedOrder);
    for n := 0 to |x.seedOrder|
      invariant outcome == Done
      invariant all == RunPhases(t, x, todo[n..] + rest, Joined(m.Now(entry), v))
    {
      assert todo[n..] + rest == [Seed(x.seedOrder[n])] + (todo[n + 1..] + rest);
      NextPhase(t, x, Seed(x.seedOrder[n]), todo[n + 1..] + rest, Joined(m.Now(entry), v));
      v, outcome := DoPhase(m, entry, t, x, Seed(x.seedOrder[n]), v);
      if outcome != Done {
        return;
      }
    }
    assert todo[|x.seedOrder|..] + rest == rest;
  }

  /** From the ports on. */
  function Middle(t: Target, x: Attempt): seq<Phase> {
    var after := if t.cfg.provisioner.after != "" then [After] else [];
    [Allocate] + (SeedPhases(x.seedOrder) + ([Build] + ([Write] + after)))
  }

  lemma PlanInParts(t: Target, x: Attempt)
    ensures var late := if t.mode != Attached then [Compute] + Middle(t, x) else Middle(t, x);
      Plan(t, x.seedOrder) == if t.cfg.provisioner.before != "" then [Before] + late else late
  {
    hide SeedPhases;
  }

  /** Allocating ports, the seeds and the manifest. */
  method DoMiddle(m: Manager, entry: EnvironmentEntry, t: Target, x: Attempt, v0: Vars)
    returns (v: Vars, outcome: Outcome)
    requires m.noCache == x.noCache
    modifies m`events, m.state, entry
    ensures (Joined(m.Now(entry), v), outcome) == RunPhases(t, x, Middle(t, x), Joined(old(m.Now(entry)), v0))
  {
    hide RunPhase, RunPhases, SeedPhases;
    ghost var tail := [Build] + ([Write] + if t.cfg.provisioner.after != "" then [After] else []);
    NextPhase(t, x, Allocate, SeedPhases(x.seedOrder) + tail, Joined(m.Now(entry), v0));
    v, outcome := DoPhase(m, entry, t, x, Allocate, v0);
    if outcome != Done {
      return;
    }
    v, outcome := DoSeeds(m, entry, t, x, v, tail);
    if outcome != Done {
      return;
    }
    v, outcome := DoManifest(m, entry, t, x, v);
  }

  method RunProvisioner(m: Manager, t: Target, x: Attempt)
    returns (entry: EnvironmentEntry, v: Vars, outcome: Outcome)
    requires m.noCache == x.noCache
    modifies m`events, m.state
    ensures fresh(entry)
    ensures var begun := Begin(t, x, World(NewEntry(StartInfo(t)), old(m.state.Stored(m.name)), old(m.events)));
      (Joined(m.Now(entry), v), outcome) ==
        if begun.1 != Done then (Fresh(begun.0), begun.1)
        else RunPhases(t, x, Plan(t, x.seedOrder), Fresh(begun.0))
  {
    hide Begin, RunPhase, RunPhases, Middle, Plan;
    v := Vars(map[], map[], map[], None);
    entry, outcome := LoadOrCreate(m, t, x);
    if outcome != Done {
      return;
    }
    PlanInParts(t, x);
    ghost var late := if t.mode != Attached then [Compute] + Middle(t, x) else Middle(t, x);
    if t.cfg.provisioner.before != "" {
      NextPhase(t, x, Before, late, Joined(m.Now(entry), v));
      v, outcome := DoPhase(m, entry, t, x, Before, v);
      if outcome != Done {
        return;
      }
    }
    if t.mode != Attached {
      NextPhase(t, x, Compute, Middle(t, x), Joined(m.Now(entry), v));
      v, outcome := DoPhase(m, entry, t, x, Compute, v);
      if outcome != Done {
        return;
      }
    }
    v, outcome := DoMiddle(m, entry, t, x, v);
  }

  /** Building and writing the manifest, and the hook after that. */
  method DoManifest(m: Manager, entry: EnvironmentEntry, t: Target, x: Attempt, v0: Vars)
    returns (v: Vars, outcome: Outcome)
    requires m.noCache == x.noCache
    modifies m`events, m.state, entry
    ensures (Joined(m.Now(entry), v), outcome) ==
      RunPhases(t, x, [Build] + ([Write] + if t.cfg.provisioner.after != "" then [After] else []),
                Joined(old(m.Now(entry)), v0))
  {
    hide RunPhase, RunPhases;
    ghost var after := if t.cfg.provisioner.after != "" then [After] else [];
    NextPhase(t, x, Build, [Write] + after, Joined(m.Now(entry), v0));
    v, outcome := DoPhase(m, entry, t, x, Build, v0);
    if outcome != Done {
      return;
    }
    NextPhase(t, x, Write, after, Joined(m.Now(entry), v));
    v, outcome := DoPhase(m, entry, t, x, Write, v);
    if outcome != Done {
      return;
    }
    if t.cfg.provisioner.after != "" {
      NextPhase(t, x, After, [], Joined(m.Now(entry), v));
      assert [After] + [] == [After];
      v, outcome := DoPhase(m, entry, t, x, After, v);
      if outcome != Done {
        return;
      }
    }
    NoPhases(t, x, Joined(m.Now(entry), v));
  }

  lemma NoPhases(t: Target, x: Attempt, l: Local)
    ensures RunPhases(t, x, [], l) == (l, Done)
  {
  }

  /** The whole provisioner command. */
  method DoProvision(m: Manager, t: Target, x: Attempt) returns (entry: EnvironmentEntry, v: Vars, outcome: Outcome)
    requires m.noCache == x.noCache
    modifies m`events, m.state
    ensures (Joined(m.Now(entry), v), outcome) ==
      Provisioned(t, x, World(NewEntry(StartInfo(t)), old(m.state.Stored(m.name)), old(m.events)))
  {
    hide Begin, RunPhases, EntryData.Normal, Plan;
    entry, v, outcome := RunProvisioner(m, t, x);
    if outcome != Done || v.manifest.None? {
      return;
    }
    var data := v.manifest.value;
    entry.info := Info(data.mode, t.branch, "provisioned", data.ports, data.provisionerOutputs);
    if t.mode == Attached {
      entry.compute := Some(x.compute);
    }
    var ok := m.state.SetEnvironment(m.name, entry.Data(), x.finalSave);
    outcome := if ok then Done else Failure;
  }
}
