/** What a provision that succeeds has done and what it says in the end (manager.go). */
module Success {
  import opened Prelude
  import opened Config
  import opened Manifest
  import opened Entry
  import opened Checkpoint
  import opened AuditTrail
  import opened Provision
  import opened Meanwhile
  import opened Resume
  import opened Records
  import opened Closure
  import opened Exports
  import opened Machine
  import opened Variables
  import HookOutput

  // ---------- The steps it goes through ----------

  function StepsOf(events: seq<Event>): seq<string> {
    seq(|events|, i requires 0 <= i < |events| => events[i].step)
  }

  /** What each step of a plan leaves, given the entry that decides. */
  ghost predicate LeavesOne(t: Target, x: Attempt, p: Phase, e: EntryData, event: Event) {
    if Executes(t, x, p, e) then event.RanOk? && event.step == p.Name() && Produces(t, x, p, event.outputs)
    else event == CacheUsed(p.Name())
  }

  /** The outputs that the checkpoint of an executed step keeps. */
  ghost predicate Produces(t: Target, x: Attempt, p: Phase, outputs: StepOutputs) {
    match p
    case Compute =>
      var printed := x.printed("create_compute");
      if t.mode != Hook then outputs == map["worktreePath" := Text(x.compute.path)]
      else
        outputs.Keys == {"VM_IP", "SSH_USER", "REMOTE_ROOT"}
        && forall k :: k in outputs ==> outputs[k] == Text(if k in printed then printed[k] else "")
    case Allocate =>
      outputs.Keys == {"ports"} && outputs["ports"].Ports? && Allocated(t, x.ports, outputs["ports"].ports)
    case Seed(svc) => outputs == map["outputs" := Strings(x.printed("seed_" + svc))]
    case _ => outputs == map[]
  }

  /** Every name has its free port, but a service with a configured port has that. */
  ghost predicate Allocated(t: Target, free: PortMap, ports: PortMap) {
    && (forall s :: s in t.cfg.services && t.cfg.services[s].port != 0 ==>
          s in ports && ports[s] == t.cfg.services[s].port)
    && (forall n :: !(n in t.cfg.services && t.cfg.services[n].port != 0) ==>
          (n in ports <==> n in free) && (n in free ==> ports[n] == free[n]))
  }

  lemma FixedAreAllocated(t: Target, free: PortMap)
    ensures Allocated(t, free, WithFixed(t.cfg, free))
  {
  }

  lemma FacingOutputs(t: Target, x: Attempt, p: Phase, l: Local)
    ensures Facing(t, x, p, l).outputs ==
      match p
      case Compute =>
        if t.mode == Hook then MachineOutputs(x.printed(p.Name())) else map["worktreePath" := Text(x.compute.path)]
      case Allocate => map["ports" := Ports(WithFixed(t.cfg, x.ports))]
      case Seed(svc) => map["outputs" := Strings(x.printed(p.Name()))]
      case _ => map[]
  {
    hide Source.Manifest, WithFixed, MachineOutputs, HookOutput.Globals;
  }

  lemma MachineSays(printed: EnvMap)
    ensures var outputs := MachineOutputs(printed);
      outputs.Keys == {"VM_IP", "SSH_USER", "REMOTE_ROOT"}
      && forall k :: k in outputs ==> outputs[k] == Text(if k in printed then printed[k] else "")
  {
  }

  lemma FacingProduces(t: Target, x: Attempt, p: Phase, l: Local)
    ensures Produces(t, x, p, Facing(t, x, p, l).outputs)
  {
    hide Facing, WithFixed, Allocated, MachineOutputs;
    FacingOutputs(t, x, p, l);
    FixedAreAllocated(t, x.ports);
    MachineSays(x.printed("create_compute"));
  }

  lemma PhaseLeavesOne(t: Target, x: Attempt, p: Phase, l: Local) returns (event: Event)
    requires RunPhase(t, x, p, l).1 == Done
    ensures RunPhase(t, x, p, l).0.w.events == l.w.events + [event]
    ensures LeavesOne(t, x, p, l.w.entry, event)
  {
    hide RunPhase, Facing, Restored, Executes, Produces, Phase.Name, Has;
    PhaseEvents(t, x, p, l);
    PhaseHas(t, x, p, l);
    FacingAsks(t, x, p, l);
    FacingProduces(t, x, p, Restored(p, l));
    var a := Facing(t, x, p, Restored(p, l));
    event := if Executes(t, x, p, l.w.entry) then RanOk(p.Name(), a.outputs) else CacheUsed(p.Name());
  }

  ghost predicate AllLeave(t: Target, x: Attempt, plan: seq<Phase>, e: EntryData, events: seq<Event>) {
    |events| == |plan| && forall i :: 0 <= i < |plan| ==> LeavesOne(t, x, plan[i], e, events[i])
  }

  lemma LeavesAlike(t: Target, x: Attempt, p: Phase, plan: seq<Phase>, e: EntryData, e': EntryData, event: Event)
    requires p in plan && DecidesAlike(t, e, e', plan)
    ensures LeavesOne(t, x, p, e', event) <==> LeavesOne(t, x, p, e, event)
  {
    hide Produces, Phase.Name;
    AlikeExecutes(t, x, p, plan, e, e');
  }

  lemma OneMoreLeft(t: Target, x: Attempt, plan: seq<Phase>, e: EntryData, event: Event, rest: seq<Event>)
    requires plan != [] && LeavesOne(t, x, plan[0], e, event) && AllLeave(t, x, plan[1..], e, rest)
    ensures AllLeave(t, x, plan, e, [event] + rest)
  {
    hide LeavesOne;
    forall i | 0 <= i < |plan| ensures LeavesOne(t, x, plan[i], e, ([event] + rest)[i]) {
      if i > 0 {
        assert plan[i] == plan[1..][i - 1];
      }
    }
  }

  lemma {:induction false} PhasesLeave(t: Target, x: Attempt, plan: seq<Phase>, l: Local, e: EntryData)
    returns (events: seq<Event>)
    requires InOrder(plan) && DecidesAlike(t, e, l.w.entry, plan) && RunPhases(t, x, plan, l).1 == Done
    ensures RunPhases(t, x, plan, l).0.w.events == l.w.events + events && AllLeave(t, x, plan, e, events)
  {
    hide RunPhase, DecidesAlike, LeavesOne, AllLeave, InOrder;
    events := [];
    if plan == [] {
      NoneLeft(t, x, e);
      assert l.w.events + [] == l.w.events;
    } else {
      var first := RunPhase(t, x, plan[0], l).0;
      var event := PhaseLeavesOne(t, x, plan[0], l);
      LeavesAlike(t, x, plan[0], plan, e, l.w.entry, event);
      StillDecidesAlike(t, x, plan, l, e);
      FirstIsFirst(plan);
      var rest := PhasesLeave(t, x, plan[1..], first, e);
      events := [event] + rest;
      OneMoreLeft(t, x, plan, e, event, rest);
      assert l.w.events + [event] + rest == l.w.events + events;
    }
  }

  lemma NoneLeft(t: Target, x: Attempt, e: EntryData)
    ensures AllLeave(t, x, [], e, [])
  {
  }

  /** The steps as --from knows them, and whether it starts over at this one or before. */
  ghost predicate StartsOver(x: Attempt, name: string) {
    var order :=
      ["provisioner_before", "create_compute", "allocate_ports"]
      + seq(|x.fromSeeds|, i requires 0 <= i < |x.fromSeeds| => "seed_" + x.fromSeeds[i])
      + ["build_manifest", "write_manifest", "provisioner_after"];
    x.fromStep != "" && exists i, j :: 0 <= i <= j < |order| && order[i] == x.fromStep && order[j] == name
  }

  /** An attempt at what is stored takes the step from its checkpoint: it is completed there, not to be started over,
      and for create_compute the compute is known, of the right kind, and verified. */
  ghost predicate Reused(t: Target, x: Attempt, stored: Option<EntryData>, name: string) {
    && !x.noCache && stored.Some? && stored.value.StepCompleted(name) && !StartsOver(x, name)
    && (name == "create_compute" ==>
          var compute := stored.value.compute;
          x.answers(name).verifyOk && compute.Some? && compute.value.ssh == (t.mode == Hook)
          && (t.mode == Worktree ==> compute.value.path != ""))
  }

  /** What the checkpoint of an executed step keeps, by its name. */
  ghost predicate Keeps(t: Target, x: Attempt, step: string, outputs: StepOutputs) {
    var printed := x.printed(step);
    && (step == "create_compute" ==>
          if t.mode != Hook then outputs == map["worktreePath" := Text(x.compute.path)]
          else
            outputs.Keys == {"VM_IP", "SSH_USER", "REMOTE_ROOT"}
            && forall k :: k in outputs ==> outputs[k] == Text(if k in printed then printed[k] else ""))
    && (step == "allocate_ports" ==>
          outputs.Keys == {"ports"} && outputs["ports"].Ports? && Allocated(t, x.ports, outputs["ports"].ports))
    && (forall svc :: svc in t.Seeds() && step == "seed_" + svc ==> outputs == map["outputs" := Strings(printed)])
    && (step in {"provisioner_before", "build_manifest", "write_manifest", "provisioner_after"} ==> outputs == map[])
  }

  lemma ProducesKeeps(t: Target, x: Attempt, p: Phase, outputs: StepOutputs)
    requires Produces(t, x, p, outputs)
    ensures Keeps(t, x, p.Name(), outputs)
  {
    hide Allocated, Target.Seeds, Phase.Name;
    NamesTellPhases(p, Before);
    NamesTellPhases(p, Compute);
    NamesTellPhases(p, Allocate);
    NamesTellPhases(p, Build);
    NamesTellPhases(p, Write);
    NamesTellPhases(p, After);
    FixedNames();
    forall svc: string ensures Seed(svc).Name() == "seed_" + svc && (p.Name() == Seed(svc).Name() ==> p == Seed(svc)) {
      SeedNamed(svc);
      NamesTellPhases(p, Seed(svc));
    }
  }

  lemma FixedNames()
    ensures Before.Name() == "provisioner_before" && Compute.Name() == "create_compute"
    ensures Allocate.Name() == "allocate_ports" && Build.Name() == "build_manifest"
    ensures Write.Name() == "write_manifest" && After.Name() == "provisioner_after"
  {
  }

  lemma SeedNamed(svc: string)
    ensures Seed(svc).Name() == "seed_" + svc
  {
  }

  lemma {:induction false} FromMeans(step: string, order: seq<string>, name: string)
    ensures name in From(step, order) <==>
      exists i, j :: 0 <= i <= j < |order| && order[i] == step && order[j] == name
  {
    if order != [] {
      if order[0] == step {
        if name in order {
          var j :| 0 <= j < |order| && order[j] == name;
          assert order[0] == step;
        }
      } else {
        FromMeans(step, order[1..], name);
        if i, j :| 0 <= i <= j < |order| && order[i] == step && order[j] == name {
          assert order[1..][i - 1] == step && order[1..][j - 1] == name;
        }
        if i, j :| 0 <= i <= j < |order[1..]| && order[1..][i] == step && order[1..][j] == name {
          assert order[i + 1] == step && order[j + 1] == name;
        }
      }
    }
  }

  lemma BeginIs(t: Target, x: Attempt, w: World)
    requires w.entry == NewEntry(StartInfo(t)) && Begin(t, x, w).1 == Done
    ensures var created := if w.stored.Some? then w.stored.value else NewEntry(StartInfo(t));
      Begin(t, x, w).0.entry ==
        if x.fromStep == "" then created else InvalidatedFrom(created, x.fromStep, StepOrder(x.fromSeeds))
  {
    hide EntryData.Normal, InvalidatedFrom, StepOrder;
  }

  lemma StartsOverMeans(x: Attempt, name: string)
    ensures StartsOver(x, name) <==> x.fromStep != "" && name in From(x.fromStep, StepOrder(x.fromSeeds))
  {
    hide From;
    var order :=
      ["provisioner_before", "create_compute", "allocate_ports"]
      + seq(|x.fromSeeds|, i requires 0 <= i < |x.fromSeeds| => "seed_" + x.fromSeeds[i])
      + ["build_manifest", "write_manifest", "provisioner_after"];
    assert order == StepOrder(x.fromSeeds);
    FromMeans(x.fromStep, order, name);
  }

  /** The entry that decides, in terms of what is stored. */
  lemma StartMeans(t: Target, x: Attempt, w: World, name: string)
    requires w.entry == NewEntry(StartInfo(t)) && Begin(t, x, w).1 == Done
    ensures var e := Begin(t, x, w).0.entry;
      && (e.StepCompleted(name) <==> w.stored.Some? && w.stored.value.StepCompleted(name) && !StartsOver(x, name))
      && e.compute == if w.stored.Some? then w.stored.value.compute else None
  {
    hide Begin, From, DroppedAll, StartsOver, StepOrder;
    BeginIs(t, x, w);
    var created := if w.stored.Some? then w.stored.value else NewEntry(StartInfo(t));
    var gone := From(x.fromStep, StepOrder(x.fromSeeds));
    DroppingKeeps(created, gone);
    DroppingKeepsEnv(created, gone);
    StartsOverMeans(x, name);
  }

  lemma ExecutesMeans(t: Target, x: Attempt, w: World, p: Phase)
    requires w.entry == NewEntry(StartInfo(t)) && Begin(t, x, w).1 == Done
    ensures Executes(t, x, p, Begin(t, x, w).0.entry) <==> !Reused(t, x, w.stored, p.Name())
  {
    hide Begin, StartsOver, Phase.Name;
    StartMeans(t, x, w, p.Name());
    FixedNames();
    NamesTellPhases(p, Compute);
  }

  lemma StepNames(t: Target, x: Attempt, e: EntryData, events: seq<Event>)
    requires AllLeave(t, x, Plan(t, x.seedOrder), e, events)
    ensures StepsOf(events) ==
      (if t.cfg.provisioner.before != "" then ["provisioner_before"] else [])
      + (if t.mode != Attached then ["create_compute"] else [])
      + ["allocate_ports"]
      + seq(|x.seedOrder|, i requires 0 <= i < |x.seedOrder| => "seed_" + x.seedOrder[i])
      + ["build_manifest", "write_manifest"]
      + (if t.cfg.provisioner.after != "" then ["provisioner_after"] else [])
  {
    hide Plan, Produces, Executes;
    NamesOfPlan(t, x);
    var plan := Plan(t, x.seedOrder);
    forall i | 0 <= i < |plan| ensures events[i].step == plan[i].Name() {
      assert LeavesOne(t, x, plan[i], e, events[i]);
    }
    assert StepsOf(events) == seq(|plan|, i requires 0 <= i < |plan| => plan[i].Name());
  }

  lemma NamesOfPlan(t: Target, x: Attempt)
    ensures var plan := Plan(t, x.seedOrder);
      seq(|plan|, i requires 0 <= i < |plan| => plan[i].Name()) ==
        (if t.cfg.provisioner.before != "" then ["provisioner_before"] else [])
        + (if t.mode != Attached then ["create_compute"] else [])
        + ["allocate_ports"]
        + seq(|x.seedOrder|, i requires 0 <= i < |x.seedOrder| => "seed_" + x.seedOrder[i])
        + ["build_manifest", "write_manifest"]
        + (if t.cfg.provisioner.after != "" then ["provisioner_after"] else [])
  {
  }

  /** A provision that succeeds goes through these steps, in this order, and no others. It takes exactly those from
      their checkpoints that it may, and the checkpoint of each that it executes keeps what the step yielded. */
  lemma ProvisionGoesThrough(t: Target, x: Attempt, w: World)
    requires ListsSeeds(t, x.seedOrder) && w.entry == NewEntry(StartInfo(t)) && Provisioned(t, x, w).1 == Done
    ensures var events := Provisioned(t, x, w).0.w.events;
      && w.events <= events
      && StepsOf(events[|w.events|..]) ==
           (if t.cfg.provisioner.before != "" then ["provisioner_before"] else [])
           + (if t.mode != Attached then ["create_compute"] else [])
           + ["allocate_ports"]
           + seq(|x.seedOrder|, i requires 0 <= i < |x.seedOrder| => "seed_" + x.seedOrder[i])
           + ["build_manifest", "write_manifest"]
           + (if t.cfg.provisioner.after != "" then ["provisioner_after"] else [])
      && forall e :: e in events[|w.events|..] ==>
           if Reused(t, x, w.stored, e.step) then e == CacheUsed(e.step)
           else e.RanOk? && Keeps(t, x, e.step, e.outputs)
  {
    hide Begin, RunPhases, Plan, Provisioned, LeavesOne, StepsOf, DecidesAlike, Reused, Keeps, Executes, ListsSeeds;
    var plan, l := Plan(t, x.seedOrder), Fresh(Begin(t, x, w).0);
    SuccessRanThePlan(t, x, w);
    PlanIsInAnyOrder(t, x);
    BeginTells(t, x, w);
    DecidesItself(t, l.w.entry, plan);
    var left := PhasesLeave(t, x, plan, l, l.w.entry);
    var events := Provisioned(t, x, w).0.w.events;
    assert events == w.events + left && events[|w.events|..] == left;
    StepNames(t, x, l.w.entry, left);
    forall e | e in left
      ensures if Reused(t, x, w.stored, e.step) then e == CacheUsed(e.step)
              else e.RanOk? && Keeps(t, x, e.step, e.outputs)
    {
      var i :| 0 <= i < |plan| && left[i] == e;
      OneLeft(t, x, w, plan[i], e);
    }
  }

  lemma OneLeft(t: Target, x: Attempt, w: World, p: Phase, e: Event)
    requires w.entry == NewEntry(StartInfo(t)) && Begin(t, x, w).1 == Done
    requires LeavesOne(t, x, p, Begin(t, x, w).0.entry, e)
    ensures if Reused(t, x, w.stored, e.step) then e == CacheUsed(e.step)
            else e.RanOk? && Keeps(t, x, e.step, e.outputs)
  {
    hide Begin, Produces, Keeps, Executes, Reused, Phase.Name;
    ExecutesMeans(t, x, w, p);
    if Executes(t, x, p, Begin(t, x, w).0.entry) {
      ProducesKeeps(t, x, p, e.outputs);
    }
  }

  // ---------- How it begins ----------

  /** An attempt gets going exactly when the state can be read, and a new entry and the steps dropped can be saved. A
      new entry says where it belongs, and that it is being created; one that is found stays what it is, but for the
      steps to start over. */
  lemma BeginSays(t: Target, x: Attempt, w: World)
    requires w.entry == NewEntry(StartInfo(t))
    ensures Begin(t, x, w).1 == Done <==>
      x.loadOk && (w.stored.None? ==> x.createSave == Saved) && (x.fromStep != "" ==> x.fromSave == Saved)
    ensures Begin(t, x, w).1 == Done ==>
      var e := Begin(t, x, w).0.entry;
      if w.stored.Some? then
        e.info == w.stored.value.info && e.compute == w.stored.value.compute && e.env == w.stored.value.env
        && e.enabledServices == w.stored.value.enabledServices
      else
        e.info == Info(t.cfg.mode, t.branch, "creating", map[], map[]) && e.compute == None && e.env == None
        && e.enabledServices == []
  {
    hide EntryData.Normal, InvalidatedFrom, StepOrder;
    var created := if w.stored.Some? then w.stored.value else NewEntry(StartInfo(t));
    DroppingRest(created, x.fromStep, StepOrder(x.fromSeeds));
  }

  lemma DroppingRest(e: EntryData, step: string, order: seq<string>)
    ensures var after := InvalidatedFrom(e, step, order);
      after.info == e.info && after.compute == e.compute && after.env == e.env
      && after.enabledServices == e.enabledServices
  {
    hide From, DroppedAll;
    DroppingStays(e, From(step, order));
  }

  lemma {:induction false} DroppingStays(e: EntryData, gone: seq<string>)
    ensures var after := DroppedAll(e, gone);
      after.info == e.info && after.compute == e.compute && after.env == e.env
      && after.enabledServices == e.enabledServices
  {
    if gone != [] {
      DroppingStays(e, gone[..|gone| - 1]);
    }
  }

  // ---------- What it says in the end ----------

  /** The entry, in memory and saved, says what was built, and where. */
  lemma SuccessIsSaved(t: Target, x: Attempt, w: World)
    requires Orderly(t, x) && Provisioned(t, x, w).1 == Done
    ensures var l := Provisioned(t, x, w).0; l.manifest.Some?
    ensures var l := Provisioned(t, x, w).0; var m := l.manifest.value;
      && l.w.entry.info == Info(m.mode, t.branch, "provisioned", m.ports, m.provisionerOutputs)
      && (t.mode == Attached ==> l.w.entry.compute == Some(x.compute))
      && l.w.stored.Some? && l.w.stored.value.info == l.w.entry.info && l.w.stored.value.compute == l.w.entry.compute
  {
    hide Begin, RunPhases, Plan, RoundTrip, Orderly;
    SuccessIsBuilt(t, x, w);
  }

  /** The manifest names the environment, and is built for it from the outputs of its seeds. */
  lemma SuccessIsNamed(t: Target, xs: seq<Attempt>, x: Attempt)
    requires Orderly(t, x) && forall y :: y in xs ==> Orderly(t, y)
    requires Provisioned(t, x, Attempts(t, xs)).1 == Done
    ensures Provisioned(t, x, Attempts(t, xs)).0.manifest.Some?
    ensures var l := Provisioned(t, x, Attempts(t, xs)).0; var m := l.manifest.value;
      && m.envName == t.envName && m.projectName == t.cfg.name && m.branch == t.branch
      && m.mode == (if t.cfg.mode != "" then t.cfg.mode else "local")
      && m.ports == l.ports && m.services.Keys == t.cfg.services.Keys
      && (forall s :: s in m.provisionerOutputs <==>
            s in t.cfg.provisioner.services && t.cfg.provisioner.services[s].seed != "")
      && forall s :: s in m.provisionerOutputs ==>
           Last(l.w.events, "seed_" + s) == Some(map["outputs" := Strings(m.provisionerOutputs[s])])
  {
    hide Provisioned, Attempts, Orderly, Last, Source.Manifest;
    ResumeRestoresWhatWasProduced(t, xs, x);
    var l := Provisioned(t, x, Attempts(t, xs)).0;
    ManifestSays(t.Source(l.ports, l.outs, l.store));
  }

  // ---------- The ports it says ----------

  predicate Allocates(events: seq<Event>) {
    exists e :: e in events && e.RanOk? && e.step == "allocate_ports"
  }

  /** The ports that were free when ports were last allocated. */
  function LastFree(t: Target, xs: seq<Attempt>): Option<PortMap> {
    if xs == [] then None
    else
      var before, x := xs[..|xs| - 1], xs[|xs| - 1];
      var w := Attempts(t, before);
      if Allocates(NewEvents(w.events, Provisioned(t, x, w).0.w.events)) then Some(x.ports) else LastFree(t, before)
  }

  ghost predicate Gives(t: Target, free: PortMap, last: Option<StepOutputs>) {
    && last.Some? && last.value.Keys == {"ports"} && last.value["ports"].Ports?
    && Allocated(t, free, last.value["ports"].ports)
  }

  /** From events a to b there was an allocation, which is then the last, or there was none. */
  ghost predicate Grown(t: Target, free: PortMap, a: seq<Event>, b: seq<Event>) {
    a <= b
    && if Allocates(b[|a|..]) then Gives(t, free, Last(b, "allocate_ports"))
       else Last(b, "allocate_ports") == Last(a, "allocate_ports")
  }

  lemma GrownTwice(t: Target, free: PortMap, a: seq<Event>, b: seq<Event>, c: seq<Event>)
    requires Grown(t, free, a, b) && Grown(t, free, b, c)
    ensures Grown(t, free, a, c)
  {
    hide Last, Gives;
    assert c[|a|..] == b[|a|..] + c[|b|..];
  }

  lemma GrownByOne(t: Target, free: PortMap, a: seq<Event>, e: Event)
    requires e.RanOk? && e.step == "allocate_ports" ==> Gives(t, free, Some(e.outputs))
    ensures Grown(t, free, a, a + [e]) && Grown(t, free, a, a)
  {
    hide Last, Gives;
    LastOne(a, e, "allocate_ports");
    assert (a + [e])[|a|..] == [e] && a[|a|..] == [];
  }

  lemma PhaseGrows(t: Target, x: Attempt, p: Phase, l: Local)
    ensures Grown(t, x.ports, l.w.events, RunPhase(t, x, p, l).0.w.events)
  {
    hide RunPhase, Facing, Restored, Executes, Grown, Allocated, Phase.Name;
    PhaseEvents(t, x, p, l);
    FacingProduces(t, x, p, Restored(p, l));
    FixedNames();
    NamesTellPhases(p, Allocate);
    var a := Facing(t, x, p, Restored(p, l));
    GrownByOne(t, x.ports, l.w.events, CacheUsed(p.Name()));
    GrownByOne(t, x.ports, l.w.events, if a.fnOk then RanOk(p.Name(), a.outputs) else RanFailed(p.Name()));
  }

  lemma {:induction false} PhasesGrow(t: Target, x: Attempt, plan: seq<Phase>, l: Local)
    ensures Grown(t, x.ports, l.w.events, RunPhases(t, x, plan, l).0.w.events)
  {
    hide RunPhase, Grown;
    if plan == [] {
      GrownByOne(t, x.ports, l.w.events, CacheUsed(""));
    } else {
      var first := RunPhase(t, x, plan[0], l);
      PhaseGrows(t, x, plan[0], l);
      if first.1 == Done {
        PhasesGrow(t, x, plan[1..], first.0);
        GrownTwice(t, x.ports, l.w.events, first.0.w.events, RunPhases(t, x, plan[1..], first.0).0.w.events);
      }
    }
  }

  lemma ProvisionGrows(t: Target, x: Attempt, w: World)
    ensures Grown(t, x.ports, w.events, Provisioned(t, x, w).0.w.events)
  {
    hide Begin, RunPhases, Plan, Provisioned, Grown;
    ProvisionEvents(t, x, w);
    BeginTells(t, x, w);
    GrownByOne(t, x.ports, w.events, CacheUsed(""));
    PhasesGrow(t, x, Plan(t, x.seedOrder), Fresh(Begin(t, x, w).0));
  }

  lemma {:induction false} RunKeepsLast(ops: seq<Op>, w: World, p: Phase)
    requires forall op :: op in ops ==> Leaves(op)
    ensures Last(Run(ops, w).events, p.Name()) == Last(w.events, p.Name())
  {
    hide Apply, Leaves, Last, Phase.Name;
    if ops != [] {
      var before := Run(ops[..|ops| - 1], w);
      RunKeepsLast(ops[..|ops| - 1], w, p);
      OpLeaves(ops[|ops| - 1], before);
      BesideIsNotLast(before.events, Apply(ops[|ops| - 1], before).events, p);
    }
  }

  lemma SinceKeepsLast(t: Target, x: Attempt, w: World)
    requires Orderly(t, x)
    ensures Last(Since(t, x.later, w).events, "allocate_ports") == Last(w.events, "allocate_ports")
  {
    hide Run, Last, Leaves;
    FixedNames();
    RunKeepsLast(x.later, w.(entry := NewEntry(StartInfo(t))), Allocate);
  }

  /** What the last allocation gave. */
  ghost predicate Given(t: Target, free: Option<PortMap>, last: Option<StepOutputs>) {
    if free.None? then last.None? else Gives(t, free.value, last)
  }

  lemma {:induction false} AttemptsGive(t: Target, xs: seq<Attempt>)
    requires forall x :: x in xs ==> Orderly(t, x)
    ensures Given(t, LastFree(t, xs), Last(Attempts(t, xs).events, "allocate_ports"))
  {
    hide Provisioned, Orderly, Since, Allocates, Gives;
    if xs == [] {
      NothingLast();
    } else {
      var before, x := xs[..|xs| - 1], xs[|xs| - 1];
      AttemptsGive(t, before);
      var w := Attempts(t, before);
      ProvisionGrows(t, x, w);
      SinceKeepsLast(t, x, Provisioned(t, x, w).0.w);
    }
  }

  lemma NothingLast()
    ensures Last([], "allocate_ports") == None
  {
  }

  /** A provision that succeeds has given every service with a configured port that port, every other name the port
      that was free for it when ports were last allocated, and no name else a port. */
  lemma PortsOfSuccess(t: Target, xs: seq<Attempt>, x: Attempt)
    requires Orderly(t, x) && forall y :: y in xs ==> Orderly(t, y)
    requires Provisioned(t, x, Attempts(t, xs)).1 == Done
    ensures var l := Provisioned(t, x, Attempts(t, xs)).0; l.manifest.Some? && LastFree(t, xs + [x]).Some?
    ensures var ports, free := Provisioned(t, x, Attempts(t, xs)).0.manifest.value.ports, LastFree(t, xs + [x]).value;
      && (forall s :: s in t.cfg.services && t.cfg.services[s].port != 0 ==>
            s in ports && ports[s] == t.cfg.services[s].port)
      && forall n :: !(n in t.cfg.services && t.cfg.services[n].port != 0) ==>
           (n in ports <==> n in free) && (n in free ==> ports[n] == free[n])
  {
    hide Provisioned, Attempts, Orderly, Last, Allocates, Source.Manifest, LastFree;
    var w := Attempts(t, xs);
    SuccessIsNamed(t, xs, x);
    ResumeRestoresWhatWasProduced(t, xs, x);
    AttemptsGive(t, xs);
    ProvisionGrows(t, x, w);
    OneMoreFree(t, xs, x);
  }

  lemma OneMoreFree(t: Target, xs: seq<Attempt>, x: Attempt)
    ensures var w := Attempts(t, xs);
      LastFree(t, xs + [x]) ==
        if Allocates(NewEvents(w.events, Provisioned(t, x, w).0.w.events)) then Some(x.ports) else LastFree(t, xs)
  {
    hide Provisioned, Attempts, Allocates;
    assert (xs + [x])[..|xs|] == xs;
  }
}
