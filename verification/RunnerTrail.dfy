/** Runner phases and reconciliations leave the provisioner's checkpoints alone, so they may come between the
    attempts of a history (manager.go, reconcile.go). */
module RunnerTrail {
  import opened Config
  import opened Entry
  import opened Checkpoint
  import opened AuditTrail
  import opened Meanwhile
  import opened Runner
  import Provision

  /** The operation does none of the provisioner's steps, and does not regenerate the manifest. */
  ghost predicate Apart(op: Op) {
    Leaves(op) && WritesNoManifest(op)
  }

  const FIXED := {18112101, 14099101, 14097115, 14098116, 14119116, 17112114}

  lemma MarksOfPhases(p: Provision.Phase)
    ensures if p.Seed? then |p.Name()| >= 5 && p.Name()[..5] == "seed_" else Mark(p.Name()) in FIXED
  {
  }

  lemma IsForeign(name: string)
    requires Mark(name) !in FIXED && (|name| < 5 || name[..5] != "seed_")
    ensures Foreign(name)
  {
    hide Mark;
    forall p: Provision.Phase ensures p.Name() != name {
      MarksOfPhases(p);
    }
  }

  predicate IsRunnerStep(name: string) {
    name in ["runner_before", "generate_env", "start_infra", "generate_compose", "generate_nginx", "build_services",
             "start_services", "runner_deploy", "runner_after", "sync_code"]
  }

  lemma RunnerStepIsForeign(name: string)
    requires IsRunnerStep(name)
    ensures Foreign(name) && name != "generate_manifest"
  {
    assert "start_infra"[1] == 't' && "start_services"[1] == 't' && "sync_code"[1] == 'y' && "seed_"[1] == 'e';
    assert "generate_compose"[9] == 'c' && "generate_nginx"[9] == 'n';
    assert |name| >= 5 && name[..5] != "seed_" by { assert name[..5][1] == name[1] && name[..5][0] == name[0]; }
    assert Mark(name) !in FIXED;
    hide *;
    IsForeign(name);
  }

  lemma PlanIsOfTheRunner(cfg: ProjectConfig)
    ensures forall o :: o in RunnerPlan(cfg) ==> IsRunnerStep(o.name)
  {
  }

  lemma OrderIsOfTheRunner(cfg: ProjectConfig)
    ensures forall n :: n in StepOrder(cfg) ==> IsRunnerStep(n)
  {
  }

  lemma {:induction false} SequenceIsARun(noCache: bool, plan: seq<StepOpts>, answers: string -> Answer, w: World)
    returns (ops: seq<Op>)
    requires forall o :: o in plan ==> IsRunnerStep(o.name)
    ensures Run(ops, w) == Sequence(noCache, plan, answers, w).0
    ensures Sequence(noCache, plan, answers, w).0.entry.compute == w.entry.compute
    ensures forall op :: op in ops ==> Apart(op)
  {
    hide Stepped, Apply, IsRunnerStep, Foreign, Run;
    ops := [];
    RunNothing(w);
    if plan != [] {
      var op := DoStep(noCache, plan[0], answers(plan[0].name));
      RunnerStepIsForeign(plan[0].name);
      AppliesStep(op, w);
      RunOne([], op, w);
      StepLeaves(noCache, plan[0], answers(plan[0].name), w);
      assert [] + [op] == [op];
      ops := [op];
      var first := Stepped(noCache, plan[0], answers(plan[0].name), w);
      if first.1 == Done {
        var rest := SequenceIsARun(noCache, plan[1..], answers, first.0);
        RunAppends(ops, rest, w);
        ops := ops + rest;
      }
    }
  }

  /** A runner phase that does not move the compute, wherever it stops, is such a sequence of operations. */
  lemma RunnerIsApart(cfg: ProjectConfig, noCache: bool, x: RunnerInput, w: World) returns (ops: seq<Op>)
    requires x.compute == w.entry.compute
    ensures Run(ops, w) == RunnerPhase(cfg, noCache, x, w).0
    ensures forall op :: op in ops ==> Apart(op)
  {
    hide Sequence, RunnerPlan, EntryData.Normal, Run, InvalidatedStep, Apart;
    RunNothing(w);
    var sync := DoUntracked("sync_code", x.syncOk);
    RunOne([], sync, w);
    SyncIsApart(x.syncOk);
    ops := [] + [sync];
    if x.syncOk {
      var marks := [DoInvalidate("runner_before"), DoInvalidate("build_services"), DoInvalidate("start_services")];
      ThreeOps(ops, marks, w);
      MarksAreApart(marks);
      ops := ops + marks;
      PlanIsOfTheRunner(cfg);
      var marked := Run(ops, w);
      var steps := SequenceIsARun(noCache, RunnerPlan(cfg), x.answers, marked);
      RunAppends(ops, steps, w);
      ops := ops + steps;
      var ran := Sequence(noCache, RunnerPlan(cfg), x.answers, marked);
      MarkingKeepsCompute(Apply(sync, w).entry);
      if ran.1 == Done {
        var last := DoDescribe(x.info, ran.0.entry.enabledServices);
        RunOne(ops, last, w);
        RunOne(ops + [last], DoSave(x.save), w);
        LastIsApart(last, x.save);
        ops := ops + [last] + [DoSave(x.save)];
      }
    }
  }

  lemma SyncIsApart(ok: bool)
    ensures Apart(DoUntracked("sync_code", ok))
  {
    hide Foreign;
    RunnerStepIsForeign("sync_code");
  }

  lemma MarksAreApart(marks: seq<Op>)
    requires marks == [DoInvalidate("runner_before"), DoInvalidate("build_services"), DoInvalidate("start_services")]
    ensures forall op :: op in marks ==> Apart(op)
  {
    hide Foreign;
    RunnerStepIsForeign("runner_before");
    RunnerStepIsForeign("build_services");
    RunnerStepIsForeign("start_services");
  }

  lemma MarkingKeepsCompute(e: EntryData)
    ensures RebuildMarked(e).compute == e.compute
  {
  }

  lemma LastIsApart(op: Op, save: Save)
    requires op.DoDescribe?
    ensures Apart(op) && Apart(DoSave(save))
  {
  }

  /** So is healing. */
  lemma {:induction false} HealingIsApart(cfg: ProjectConfig, e: EntryData, order: seq<string>,
                                          answers: string -> Answer, w: World)
    returns (ops: seq<Op>)
    requires forall n :: n in order ==> IsRunnerStep(n)
    ensures Run(ops, w) == Healing(cfg, Findings(e, order, false, answers), w)
    ensures forall op :: op in ops ==> Apart(op)
  {
    hide Find, Findings, Apply, IsRunnerStep, Foreign, Enabling, Run, HealOne;
    ops := [];
    RunNothing(w);
    if order == [] {
      NothingFound(cfg, e, answers, w);
    } else {
      var before, name := order[..|order| - 1], order[|order| - 1];
      FindingsOfMore(e, order, false, answers);
      ops := HealingIsApart(cfg, e, before, answers, w);
      var healed := Healing(cfg, Findings(e, before, false, answers), w);
      var more := HealOneIsApart(cfg, name, Find(e, name, false, answers(name)), healed);
      RunAppends(ops, more, w);
      ops := ops + more;
    }
  }

  lemma NothingFound(cfg: ProjectConfig, e: EntryData, answers: string -> Answer, w: World)
    ensures Healing(cfg, Findings(e, [], false, answers), w) == w
  {
  }

  lemma HealOneIsApart(cfg: ProjectConfig, name: string, found: Finding, w: World) returns (ops: seq<Op>)
    requires IsRunnerStep(name)
    ensures Run(ops, w) == HealOne(cfg, (name, found), w)
    ensures forall op :: op in ops ==> Apart(op)
  {
    hide Healed, Enabling, Foreign, IsRunnerStep, Run, Apply;
    RunnerStepIsForeign(name);
    ops := [];
    RunNothing(w);
    if found == HealedNow || found == HealFailed {
      var enabled := Enabling(cfg, name, w.entry.enabledServices);
      var op := DoHeal(name, found == HealedNow, enabled);
      RunOne([], op, w);
      HealApplies(name, found == HealedNow, enabled, w);
      ops := [] + [op];
    }
  }

  lemma HealApplies(name: string, fnOk: bool, enabled: seq<string>, w: World)
    ensures Apply(DoHeal(name, fnOk, enabled), w) == Healed(name, fnOk, enabled, w)
  {
    hide Healed;
  }

  /** And a reconciliation that heals and saves. */
  lemma ReconcileIsApart(cfg: ProjectConfig, answers: string -> Answer, save: Save, w: World) returns (ops: seq<Op>)
    ensures var healed := Healing(cfg, Findings(w.entry, StepOrder(cfg), false, answers), w);
      Run(ops, w) == healed.(stored := SaveTo(healed.stored, healed.entry, save))
    ensures forall op :: op in ops ==> Apart(op)
  {
    hide Findings, Healing, StepOrder, IsRunnerStep, Foreign, Run, EntryData.Normal;
    OrderIsOfTheRunner(cfg);
    ops := HealingIsApart(cfg, w.entry, StepOrder(cfg), answers, w);
    RunSave(ops, save, w);
    assert Apart(DoSave(save));
    ops := ops + [DoSave(save)];
  }
}
