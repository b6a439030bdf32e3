/** The runner phase and reconciliation (manager.go, step_registry.go, reconcile.go). */
module Runner {
  import opened Prelude
  import opened Config
  import opened Entry
  import opened Checkpoint
  import opened AuditTrail

  // ---------- Running a list of steps ----------

  /** Steps in order, up to the first that does not succeed. */
  function Sequence(noCache: bool, plan: seq<StepOpts>, answers: string -> Answer, w: World): (World, Outcome) {
    if plan == [] then (w, Done)
    else
      var first := Stepped(noCache, plan[0], answers(plan[0].name), w);
      if first.1 != Done then first else Sequence(noCache, plan[1..], answers, first.0)
  }

  method RunSequence(m: Manager, entry: EnvironmentEntry, plan: seq<StepOpts>, answers: string -> Answer)
    returns (outcome: Outcome, ghost ops: seq<Op>)
    modifies m`events, m.state, entry
    ensures (m.Now(entry), outcome) == Sequence(m.noCache, plan, answers, old(m.Now(entry)))
    ensures m.Now(entry) == Run(ops, old(m.Now(entry)))
  {
    hide Stepped, Apply;
    outcome, ops := Done, [];
    for n := 0 to |plan|
      invariant Sequence(m.noCache, plan, answers, old(m.Now(entry)))
             == Sequence(m.noCache, plan[n..], answers, m.Now(entry))
      invariant m.Now(entry) == Run(ops, old(m.Now(entry)))
      invariant outcome == Done
    {
      assert plan[n..][0] == plan[n] && plan[n..][1..] == plan[n + 1..];
      ghost var op := DoStep(m.noCache, plan[n], answers(plan[n].name));
      ghost var before := m.Now(entry);
      outcome := m.Step(entry, plan[n], answers(plan[n].name));
      AppliesStep(op, before);
      RunOne(ops, op, old(m.Now(entry)));
      ops := ops + [op];
      if outcome != Done {
        return;
      }
    }
  }

  lemma AppliesStep(op: Op, w: World)
    requires op.DoStep?
    ensures Apply(op, w) == Stepped(op.noCache, op.o, op.a, w).0
  {
    hide Stepped;
  }

  predicate Ran(e: Event, name: string) {
    e.RanOk? && e.step == name
  }

  /** A step that succeeds leaves one event, and was taken from its checkpoint only if it had one. */
  lemma StepLeavesOneEvent(noCache: bool, o: StepOpts, a: Answer, w: World)
    requires Stepped(noCache, o, a, w).1 == Done
    ensures var after := Stepped(noCache, o, a, w).0;
      |after.events| == |w.events| + 1 && after.events[..|w.events|] == w.events
      && (Ran(after.events[|w.events|], o.name)
          || (w.entry.StepCompleted(o.name) && after.events[|w.events|] == CacheUsed(o.name)))
      && forall n :: n != o.name ==> (after.entry.StepCompleted(n) <==> w.entry.StepCompleted(n))
  {
    hide EntryData.Normal;
  }

  /** Of a list of distinct steps that all succeed, each that was not completed at the start is executed,
      in the order of the list, and nothing else happens in between. */
  lemma {:induction false} SequenceExecutes(noCache: bool, plan: seq<StepOpts>, answers: string -> Answer, w: World)
    requires Sequence(noCache, plan, answers, w).1 == Done
    requires forall i, j :: 0 <= i < j < |plan| ==> plan[i].name != plan[j].name
    ensures var events := Sequence(noCache, plan, answers, w).0.events;
      |events| == |w.events| + |plan| && events[..|w.events|] == w.events
      && forall i :: 0 <= i < |plan| && !w.entry.StepCompleted(plan[i].name) ==>
           Ran(events[|w.events| + i], plan[i].name)
  {
    hide Stepped;
    if plan != [] {
      StepLeavesOneEvent(noCache, plan[0], answers(plan[0].name), w);
      var first := Stepped(noCache, plan[0], answers(plan[0].name), w).0;
      SequenceExecutes(noCache, plan[1..], answers, first);
      var events := Sequence(noCache, plan[1..], answers, first).0.events;
      assert events[..|w.events|] == events[..|first.events|][..|w.events|];
      assert events[|w.events|] == events[..|first.events|][|w.events|];
      forall i | 0 <= i < |plan| && !w.entry.StepCompleted(plan[i].name)
        ensures Ran(events[|w.events| + i], plan[i].name)
      {
        if i > 0 {
          assert plan[i] == plan[1..][i - 1];
        }
      }
    }
  }

  // ---------- The runner phase ----------

  function HookStep(name: string, hook: CommandHook): StepOpts {
    StepOpts(name, if hook.IsConfigured() then hook.allowCache.GetOr(true) else true, false)
  }

  const NO_RUNNER := RunnerConfig(NO_HOOK, NO_HOOK, NO_HOOK, NO_HOOK, NO_HOOK, None)

  function ComposeSteps(cfg: ProjectConfig): seq<StepOpts> {
    if cfg.Compose().None? then []
    else
      [StepOpts("generate_compose", true, true)]
      + (if cfg.Compose().value.ProxyEnabled() then [StepOpts("generate_nginx", true, true)] else [])
      + [HookStep("build_services", cfg.runner.GetOr(NO_RUNNER).build), StepOpts("start_services", true, true)]
  }

  /** The steps of runRunner after the code has been synced. */
  function RunnerPlan(cfg: ProjectConfig): seq<StepOpts> {
    var runner := cfg.runner.GetOr(NO_RUNNER);
    [HookStep("runner_before", runner.before), StepOpts("generate_env", true, true),
     StepOpts("start_infra", true, true)]
    + ComposeSteps(cfg)
    + [HookStep("runner_deploy", runner.deploy), HookStep("runner_after", runner.after)]
  }

  function RebuildMarked(e: EntryData): EntryData {
    InvalidatedStep(InvalidatedStep(InvalidatedStep(e, "runner_before"), "build_services"), "start_services")
  }

  /** Whether the sync worked, what the steps meet, what the entry is to say at the end and how saving it goes. */
  datatype RunnerInput = RunnerInput(syncOk: bool, answers: string -> Answer, info: Info,
                                     compute: Option<ComputeInfo>, save: Save)

  ghost function RunnerPhase(cfg: ProjectConfig, noCache: bool, x: RunnerInput, w: World): (World, Outcome) {
    var synced := Apply(DoUntracked("sync_code", x.syncOk), w);
    if !x.syncOk then (synced, Failure)
    else
      var ran := Sequence(noCache, RunnerPlan(cfg), x.answers, synced.(entry := RebuildMarked(synced.entry)));
      if ran.1 != Done then ran
      else
        var final := ran.0.entry.(info := x.info, compute := x.compute);
        (World(final, SaveTo(ran.0.stored, final, x.save), ran.0.events), if x.save == Saved then Done else Failure)
  }

  /** Syncs the code and marks what has to be built again. */
  method SyncAndMark(m: Manager, entry: EnvironmentEntry, syncOk: bool) returns (ghost ops: seq<Op>)
    modifies m`events, entry
    ensures var synced := Apply(DoUntracked("sync_code", syncOk), old(m.Now(entry)));
      m.Now(entry) == if syncOk then synced.(entry := RebuildMarked(synced.entry)) else synced
    ensures m.Now(entry) == Run(ops, old(m.Now(entry)))
  {
    hide InvalidatedStep, Run;
    ghost var start := m.Now(entry);
    m.events := m.events + [if syncOk then RanOk("sync_code", map[]) else RanFailed("sync_code")];
    ops := [] + [DoUntracked("sync_code", syncOk)];
    RunNothing(start);
    RunOne([], DoUntracked("sync_code", syncOk), start);
    if syncOk {
      var changed := entry.InvalidateStep("runner_before");
      changed := entry.InvalidateStep("build_services");
      changed := entry.InvalidateStep("start_services");
      ghost var marks :=
        [DoInvalidate("runner_before"), DoInvalidate("build_services"), DoInvalidate("start_services")];
      ThreeOps(ops, marks, start);
      ops := ops + marks;
    }
  }

  method RunRunner(m: Manager, entry: EnvironmentEntry, cfg: ProjectConfig, x: RunnerInput)
    returns (outcome: Outcome, ghost ops: seq<Op>)
    modifies m`events, m.state, entry
    ensures (m.Now(entry), outcome) == RunnerPhase(cfg, m.noCache, x, old(m.Now(entry)))
    ensures m.Now(entry) == Run(ops, old(m.Now(entry)))
  {
    hide Sequence, RunnerPlan, RebuildMarked, EntryData.Normal, Run;
    ghost var start := m.Now(entry);
    ops := SyncAndMark(m, entry, x.syncOk);
    if !x.syncOk {
      return Failure, ops;
    }
    ghost var steps;
    outcome, steps := RunSequence(m, entry, RunnerPlan(cfg), x.answers);
    RunAppends(ops, steps, start);
    ops := ops + steps;
    if outcome != Done {
      return;
    }
    entry.info, entry.compute := x.info, x.compute;
    var ok := m.state.SetEnvironment(m.name, entry.Data(), x.save);
    ghost var update := DoUpdate(x.info, x.compute, entry.env, entry.enabledServices);
    RunOne(ops, update, start);
    RunOne(ops + [update], DoSave(x.save), start);
    ops := ops + [update] + [DoSave(x.save)];
    outcome := if ok then Done else Failure;
  }

  lemma ThreeOps(ops: seq<Op>, three: seq<Op>, w: World)
    requires |three| == 3
    ensures Run(ops + three, w) == Apply(three[2], Apply(three[1], Apply(three[0], Run(ops, w))))
  {
    hide Apply;
    RunOne(ops, three[0], w);
    RunOne(ops + [three[0]], three[1], w);
    RunOne(ops + [three[0]] + [three[1]], three[2], w);
    assert ops + three == ops + [three[0]] + [three[1]] + [three[2]];
  }

  lemma NamesDiffer()
    ensures "runner_before" != "build_services" && "runner_before" != "start_services"
    ensures "build_services" != "start_services"
  {
    assert "runner_before"[0] != "build_services"[0] && "runner_before"[0] != "start_services"[0];
    assert "build_services"[0] != "start_services"[0];
  }

  lemma RebuildIsMarked(e: EntryData)
    ensures var marked := RebuildMarked(e);
      !marked.StepCompleted("runner_before") && !marked.StepCompleted("build_services")
      && !marked.StepCompleted("start_services")
  {
    NamesDiffer();
  }

  /** What tells the runner's steps apart: the length, and the first and last letter. */
  function Mark(name: string): int {
    if name == "" then 0 else 1000000 * |name| + 1000 * (name[0] as int) + name[|name| - 1] as int
  }

  lemma MarksOfHooks()
    ensures Mark("runner_before") == 13114101 && Mark("runner_deploy") == 13114121 && Mark("runner_after") == 12114114
    ensures Mark("build_services") == 14098115
  {
  }

  lemma MarksOfSteps()
    ensures Mark("generate_env") == 12103118 && Mark("start_infra") == 11115097 && Mark("generate_compose") == 16103101
    ensures Mark("generate_nginx") == 14103120 && Mark("start_services") == 14115115
  {
  }

  lemma PlanIsDistinct(cfg: ProjectConfig)
    ensures forall i, j :: 0 <= i < j < |RunnerPlan(cfg)| ==> RunnerPlan(cfg)[i].name != RunnerPlan(cfg)[j].name
  {
    hide Mark;
    MarksOfHooks();
    MarksOfSteps();
    var plan := RunnerPlan(cfg);
    forall i, j | 0 <= i < j < |plan| ensures plan[i].name != plan[j].name {
      assert Mark(plan[i].name) != Mark(plan[j].name);
    }
  }

  /** Where build_services stands in the plan of a configuration with compose. */
  function BuildIndex(cfg: ProjectConfig): nat {
    if cfg.Compose().Some? && cfg.Compose().value.ProxyEnabled() then 5 else 4
  }

  lemma PlanHasRebuild(cfg: ProjectConfig)
    ensures |RunnerPlan(cfg)| > 0 && RunnerPlan(cfg)[0].name == "runner_before"
    ensures cfg.Compose().Some? ==>
      |RunnerPlan(cfg)| > BuildIndex(cfg) + 1 && RunnerPlan(cfg)[BuildIndex(cfg)].name == "build_services"
      && RunnerPlan(cfg)[BuildIndex(cfg) + 1].name == "start_services"
  {
  }

  /** Whatever happened before, a runner phase that succeeds syncs the code and then executes
      runner_before, and with compose configured build_services and start_services in this order; none of
      them is taken from a checkpoint. */
  lemma RunnerAlwaysRebuilds(cfg: ProjectConfig, noCache: bool, x: RunnerInput, w: World)
    requires RunnerPhase(cfg, noCache, x, w).1 == Done
    ensures var events := RunnerPhase(cfg, noCache, x, w).0.events; var n := |w.events|;
      |events| == n + 1 + |RunnerPlan(cfg)| && events[..n] == w.events
      && Ran(events[n], "sync_code") && Ran(events[n + 1], "runner_before")
      && (cfg.Compose().Some? ==>
            Ran(events[n + 1 + BuildIndex(cfg)], "build_services")
            && Ran(events[n + 2 + BuildIndex(cfg)], "start_services"))
  {
    hide Sequence, RunnerPlan, RebuildMarked, BuildIndex;
    var synced := Apply(DoUntracked("sync_code", x.syncOk), w);
    var marked := synced.(entry := RebuildMarked(synced.entry));
    var n := |w.events|;
    RebuildIsMarked(synced.entry);
    PlanIsDistinct(cfg);
    PlanHasRebuild(cfg);
    SequenceExecutes(noCache, RunnerPlan(cfg), x.answers, marked);
    var events := RunnerPhase(cfg, noCache, x, w).0.events;
    assert events[..n] == events[..n + 1][..n] && events[n] == events[..n + 1][n];
    if cfg.Compose().Some? {
      assert Ran(events[n + 1 + BuildIndex(cfg)], RunnerPlan(cfg)[BuildIndex(cfg)].name);
      assert Ran(events[n + 1 + (BuildIndex(cfg) + 1)], RunnerPlan(cfg)[BuildIndex(cfg) + 1].name);
    }
  }

  // ---------- Exactly these steps ----------

  /** The step is taken from its checkpoint. */
  predicate Cached(noCache: bool, o: StepOpts, a: Answer, e: EntryData) {
    CacheHit(noCache, o, e) && (o.hasVerify ==> a.verifyOk)
  }

  lemma OneStepLeaves(noCache: bool, o: StepOpts, a: Answer, w: World)
    requires Stepped(noCache, o, a, w).1 == Done
    ensures var after := Stepped(noCache, o, a, w).0;
      && after.events ==
           w.events + [if Cached(noCache, o, a, w.entry) then CacheUsed(o.name) else RanOk(o.name, a.outputs)]
      && forall n :: n != o.name ==> (after.entry.StepCompleted(n) <==> w.entry.StepCompleted(n))
  {
    hide EntryData.Normal;
  }

  /** Of a list of distinct steps that all succeed, each leaves one event, which tells whether it was executed. */
  lemma {:induction false} SequenceLeaves(noCache: bool, plan: seq<StepOpts>, answers: string -> Answer, w: World)
    requires Sequence(noCache, plan, answers, w).1 == Done
    requires forall i, j :: 0 <= i < j < |plan| ==> plan[i].name != plan[j].name
    ensures Sequence(noCache, plan, answers, w).0.events == w.events + Left(noCache, plan, answers, w.entry)
  {
    hide Stepped;
    if plan == [] {
      assert w.events + [] == w.events;
    } else {
      var o, a := plan[0], answers(plan[0].name);
      OneStepLeaves(noCache, o, a, w);
      var first := Stepped(noCache, o, a, w).0;
      SequenceLeaves(noCache, plan[1..], answers, first);
      var one := if Cached(noCache, o, a, w.entry) then CacheUsed(o.name) else RanOk(o.name, a.outputs);
      forall i | 0 <= i < |plan[1..]| ensures plan[1..][i].name != plan[0].name {
        assert plan[1..][i] == plan[i + 1];
      }
      LeftAgrees(noCache, plan[1..], answers, first.entry, w.entry);
      assert Left(noCache, plan, answers, w.entry) == [one] + Left(noCache, plan[1..], answers, w.entry);
    }
  }

  lemma LeftAgrees(noCache: bool, plan: seq<StepOpts>, answers: string -> Answer, e: EntryData, e': EntryData)
    requires forall i :: 0 <= i < |plan| ==> (e.StepCompleted(plan[i].name) <==> e'.StepCompleted(plan[i].name))
    ensures Left(noCache, plan, answers, e) == Left(noCache, plan, answers, e')
  {
    var left, right := Left(noCache, plan, answers, e), Left(noCache, plan, answers, e');
    assert |left| == |right|;
    forall i | 0 <= i < |left| ensures left[i] == right[i] {
      var o, a := plan[i], answers(plan[i].name);
      assert Cached(noCache, o, a, e) <==> Cached(noCache, o, a, e');
    }
  }

  function Left(noCache: bool, plan: seq<StepOpts>, answers: string -> Answer, e: EntryData): seq<Event> {
    seq(|plan|, i requires 0 <= i < |plan| =>
      if Cached(noCache, plan[i], answers(plan[i].name), e) then CacheUsed(plan[i].name)
      else RanOk(plan[i].name, answers(plan[i].name).outputs))
  }

  function StepsOf(events: seq<Event>): seq<string> {
    seq(|events|, i requires 0 <= i < |events| => events[i].step)
  }

  function NamesOf(plan: seq<StepOpts>): seq<string> {
    seq(|plan|, i requires 0 <= i < |plan| => plan[i].name)
  }

  /** The hook is configured, and its result is not to be reused. */
  predicate NeverReused(hook: CommandHook) {
    hook.command != "" && hook.allowCache == Some(false)
  }

  /** A runner phase that finds entry e takes the step from its checkpoint. */
  predicate Reused(cfg: ProjectConfig, noCache: bool, x: RunnerInput, e: EntryData, name: string) {
    && !noCache && e.StepCompleted(name)
    && name !in {"sync_code", "runner_before", "build_services", "start_services"}
    && (name in {"generate_env", "start_infra", "generate_compose", "generate_nginx"} ==> x.answers(name).verifyOk)
    && (name == "runner_deploy" && cfg.runner.Some? ==> !NeverReused(cfg.runner.value.deploy))
    && (name == "runner_after" && cfg.runner.Some? ==> !NeverReused(cfg.runner.value.after))
  }

  /** A runner phase that succeeds goes through these steps, in this order, and no others. Each is executed or taken
      from its checkpoint; the code is always synced, and what reads it, and a hook that is not to be reused, always
      executed. In the end the entry, in memory and saved, says what it was to say. */
  lemma RunnerGoesThrough(cfg: ProjectConfig, noCache: bool, x: RunnerInput, w: World)
    requires RunnerPhase(cfg, noCache, x, w).1 == Done
    ensures var events := RunnerPhase(cfg, noCache, x, w).0.events;
      && w.events <= events
      && StepsOf(events[|w.events|..]) ==
           ["sync_code", "runner_before", "generate_env", "start_infra"]
           + (if cfg.runner.Some? && cfg.runner.value.compose.Some? then
                var proxy := cfg.runner.value.compose.value.proxy;
                ["generate_compose"]
                + (if proxy.Some? && proxy.value.enabled != Some(false) then ["generate_nginx"] else [])
                + ["build_services", "start_services"]
              else [])
           + ["runner_deploy", "runner_after"]
      && forall e :: e in events[|w.events|..] ==>
           if Reused(cfg, noCache, x, w.entry, e.step) then e == CacheUsed(e.step) else e.RanOk?
    ensures var r := RunnerPhase(cfg, noCache, x, w).0;
      && r.entry.info == x.info && r.entry.compute == x.compute
      && r.stored.Some? && r.stored.value.info == x.info && r.stored.value.compute == x.compute
  {
    hide RunnerPhase, RunnerPlan, Left, Reused, StepsOf, NamesOf, RebuildMarked;
    RunnerSaves(cfg, noCache, x, w);
    RunnerLeaves(cfg, noCache, x, w);
    var e := RebuildMarked(w.entry);
    var later := Left(noCache, RunnerPlan(cfg), x.answers, e);
    var events := RunnerPhase(cfg, noCache, x, w).0.events;
    assert events[|w.events|..] == [RanOk("sync_code", map[])] + later;
    PlanNames(cfg);
    LeftSteps(noCache, RunnerPlan(cfg), x.answers, e);
    FirstStep("sync_code", later);
    SyncIsNotReused(cfg, noCache, x, w.entry);
    forall e | e in later
      ensures if Reused(cfg, noCache, x, w.entry, e.step) then e == CacheUsed(e.step) else e.RanOk?
    {
      LeftIsReused(cfg, noCache, x, w.entry, e);
    }
  }

  lemma FirstStep(name: string, later: seq<Event>)
    ensures StepsOf([RanOk(name, map[])] + later) == [name] + StepsOf(later)
  {
  }

  lemma SyncIsNotReused(cfg: ProjectConfig, noCache: bool, x: RunnerInput, e: EntryData)
    ensures !Reused(cfg, noCache, x, e, "sync_code")
  {
  }

  lemma RunnerSaves(cfg: ProjectConfig, noCache: bool, x: RunnerInput, w: World)
    requires RunnerPhase(cfg, noCache, x, w).1 == Done
    ensures var r := RunnerPhase(cfg, noCache, x, w).0;
      && r.entry.info == x.info && r.entry.compute == x.compute
      && r.stored.Some? && r.stored.value.info == x.info && r.stored.value.compute == x.compute
  {
    hide Sequence, RunnerPlan, RebuildMarked, RoundTrip;
  }

  lemma RunnerLeaves(cfg: ProjectConfig, noCache: bool, x: RunnerInput, w: World)
    requires RunnerPhase(cfg, noCache, x, w).1 == Done
    ensures RunnerPhase(cfg, noCache, x, w).0.events ==
      w.events + ([RanOk("sync_code", map[])] + Left(noCache, RunnerPlan(cfg), x.answers, RebuildMarked(w.entry)))
  {
    hide Sequence, RunnerPlan, RebuildMarked, Left, Cached, EntryData.Normal;
    var synced := Apply(DoUntracked("sync_code", x.syncOk), w);
    var marked := synced.(entry := RebuildMarked(synced.entry));
    PlanIsDistinct(cfg);
    SequenceLeaves(noCache, RunnerPlan(cfg), x.answers, marked);
    var later := Left(noCache, RunnerPlan(cfg), x.answers, marked.entry);
    assert w.events + [RanOk("sync_code", map[])] + later == w.events + ([RanOk("sync_code", map[])] + later);
  }

  lemma LeftSteps(noCache: bool, plan: seq<StepOpts>, answers: string -> Answer, e: EntryData)
    ensures StepsOf(Left(noCache, plan, answers, e)) == NamesOf(plan)
  {
    hide Cached;
  }

  lemma PlanNames(cfg: ProjectConfig)
    ensures NamesOf(RunnerPlan(cfg)) ==
      ["runner_before", "generate_env", "start_infra"]
      + (if cfg.runner.Some? && cfg.runner.value.compose.Some? then
           var proxy := cfg.runner.value.compose.value.proxy;
           ["generate_compose"]
           + (if proxy.Some? && proxy.value.enabled != Some(false) then ["generate_nginx"] else [])
           + ["build_services", "start_services"]
         else [])
      + ["runner_deploy", "runner_after"]
  {
  }

  lemma LeftIsReused(cfg: ProjectConfig, noCache: bool, x: RunnerInput, e: EntryData, event: Event)
    requires event in Left(noCache, RunnerPlan(cfg), x.answers, RebuildMarked(e))
    ensures if Reused(cfg, noCache, x, e, event.step) then event == CacheUsed(event.step) else event.RanOk?
  {
    hide RebuildMarked, RunnerPlan;
    var plan := RunnerPlan(cfg);
    var i :| 0 <= i < |plan| && Left(noCache, plan, x.answers, RebuildMarked(e))[i] == event;
    PlanOptions(cfg, i);
    MarkedCompletes(e, plan[i].name);
    assert plan[i].name == event.step;
    if plan[i].name in {"runner_before", "build_services", "start_services"} {
      assert !Cached(noCache, plan[i], x.answers(plan[i].name), RebuildMarked(e));
    } else {
      assert Cached(noCache, plan[i], x.answers(plan[i].name), RebuildMarked(e)) <==>
        Reused(cfg, noCache, x, e, plan[i].name);
    }
  }

  lemma MarkedCompletes(e: EntryData, name: string)
    ensures RebuildMarked(e).StepCompleted(name) <==>
      e.StepCompleted(name) && name !in {"runner_before", "build_services", "start_services"}
  {
    NamesDiffer();
  }

  /** How the steps of the plan can be reused. */
  lemma PlanOptions(cfg: ProjectConfig, i: nat)
    requires i < |RunnerPlan(cfg)|
    ensures var o := RunnerPlan(cfg)[i];
      && o.name != "sync_code"
      && (o.name !in {"runner_before", "build_services"} ==>
            (o.allowCache <==>
               (o.name == "runner_deploy" && cfg.runner.Some? ==> !NeverReused(cfg.runner.value.deploy))
               && (o.name == "runner_after" && cfg.runner.Some? ==> !NeverReused(cfg.runner.value.after))))
      && (o.name !in {"runner_before", "build_services", "start_services"} ==>
            (o.hasVerify <==> o.name in {"generate_env", "start_infra", "generate_compose", "generate_nginx"}))
  {
    hide Mark;
    MarksOfHooks();
    MarksOfSteps();
    assert "sync_code"[1] == 'y';
  }

  // ---------- Reconcile ----------

  datatype Finding = Healthy | HealedNow | HealFailed | Broken | NotVerifiable | NotRun

  /** The steps previewctl cannot verify: hooks, and the build. */
  predicate HookOwned(name: string) {
    name in ["runner_before", "runner_deploy", "runner_after", "sync_code", "build_services"]
  }

  function StepOrder(cfg: ProjectConfig): seq<string> {
    ["runner_before", "generate_env", "start_infra"]
    + (if cfg.Compose().Some? then ["generate_compose", "generate_nginx", "build_services", "start_services"] else [])
    + ["runner_deploy", "runner_after"]
  }

  function Find(e: EntryData, name: string, dryRun: bool, a: Answer): Finding {
    if !e.StepCompleted(name) then NotRun
    else if HookOwned(name) then NotVerifiable
    else if a.verifyOk then Healthy
    else if dryRun then Broken
    else if a.fnOk then HealedNow else HealFailed
  }

  /** What is found step by step, all as of the start. */
  function Findings(e: EntryData, order: seq<string>, dryRun: bool, answers: string -> Answer): seq<(string, Finding)> {
    if order == [] then []
    else
      var name := order[|order| - 1];
      Findings(e, order[..|order| - 1], dryRun, answers) + [(name, Find(e, name, dryRun, answers(name)))]
  }

  ghost predicate SameCheckpoints(e: EntryData, e': EntryData) {
    forall n :: e.StepCompleted(n) <==> e'.StepCompleted(n)
  }

  /** start_services enables the services to start on its first run, whether or not it then fails. */
  function Enabling(cfg: ProjectConfig, name: string, enabled: seq<string>): seq<string> {
    if name == "start_services" && cfg.Compose().Some? && enabled == [] then cfg.Compose().value.autostart else enabled
  }

  function HealOne(cfg: ProjectConfig, result: (string, Finding), w: World): World {
    if result.1 != HealedNow && result.1 != HealFailed then w
    else Healed(result.0, result.1 == HealedNow, Enabling(cfg, result.0, w.entry.enabledServices), w)
  }

  /** What healing does, for the findings in order. */
  function Healing(cfg: ProjectConfig, results: seq<(string, Finding)>, w: World): World {
    if results == [] then w
    else HealOne(cfg, results[|results| - 1], Healing(cfg, results[..|results| - 1], w))
  }

  /** The executions that findings stand for. */
  function HealEvents(results: seq<(string, Finding)>): seq<Event> {
    if results == [] then []
    else
      var before, last := HealEvents(results[..|results| - 1]), results[|results| - 1];
      if last.1 == HealedNow then before + [RanOk(last.0, map[])]
      else if last.1 == HealFailed then before + [RanFailed(last.0)]
      else before
  }

  lemma HealOneRuns(cfg: ProjectConfig, e: EntryData, name: string, a: Answer, w: World)
    requires SameCheckpoints(w.entry, e)
    ensures var found := Find(e, name, false, a); var healed := HealOne(cfg, (name, found), w);
      && healed.stored == w.stored && SameCheckpoints(healed.entry, e)
      && healed.events == w.events
           + (if found == HealedNow then [RanOk(name, map[])]
              else if found == HealFailed then [RanFailed(name)] else [])
  {
    hide HookOwned, Enabling;
    assert w.events + [] == w.events;
  }

  /** Exactly the steps found broken are executed, each with the result that is reported, and the completed
      steps stay what they are. */
  lemma {:induction false} HealingRunsTheBroken(cfg: ProjectConfig, order: seq<string>, answers: string -> Answer,
                                                w: World)
    ensures var healed := Healing(cfg, Findings(w.entry, order, false, answers), w);
      && healed.events == w.events + HealEvents(Findings(w.entry, order, false, answers))
      && healed.stored == w.stored && SameCheckpoints(healed.entry, w.entry)
  {
    if order == [] {
      assert w.events + [] == w.events;
    } else {
      hide Find, Findings, HealOne, SameCheckpoints;
      var before, name := order[..|order| - 1], order[|order| - 1];
      FindingsOfMore(w.entry, order, false, answers);
      HealingRunsTheBroken(cfg, before, answers, w);
      HealOneRuns(cfg, w.entry, name, answers(name), Healing(cfg, Findings(w.entry, before, false, answers), w));
    }
  }

  lemma {:induction false} FindingsInOrder(e: EntryData, order: seq<string>, dryRun: bool, answers: string -> Answer)
    ensures var found := Findings(e, order, dryRun, answers);
      |found| == |order|
      && forall i :: 0 <= i < |order| ==> found[i] == (order[i], Find(e, order[i], dryRun, answers(order[i])))
  {
    hide Find;
    if order != [] {
      FindingsInOrder(e, order[..|order| - 1], dryRun, answers);
    }
  }

  /** A reconciliation looks at these steps, in this order, and finds of each: that it has not run, that it cannot be
      verified, that it is healthy, or that it is broken, and then, unless it is a dry run, whether running it again
      healed it. */
  lemma WhatIsFound(cfg: ProjectConfig, e: EntryData, dryRun: bool, answers: string -> Answer)
    ensures var found := Findings(e, StepOrder(cfg), dryRun, answers);
      && seq(|found|, i requires 0 <= i < |found| => found[i].0) ==
           ["runner_before", "generate_env", "start_infra"]
           + (if cfg.runner.Some? && cfg.runner.value.compose.Some? then
                ["generate_compose", "generate_nginx", "build_services", "start_services"]
              else [])
           + ["runner_deploy", "runner_after"]
      && forall f :: f in found ==>
           var name := f.0;
           f.1 == if !e.StepCompleted(name) then NotRun
                  else if name in {"runner_before", "build_services", "runner_deploy", "runner_after"} then
                    NotVerifiable
                  else if answers(name).verifyOk then Healthy
                  else if dryRun then Broken
                  else if answers(name).fnOk then HealedNow
                  else HealFailed
  {
    hide Find;
    FindingsInOrder(e, StepOrder(cfg), dryRun, answers);
    var found := Findings(e, StepOrder(cfg), dryRun, answers);
    forall f | f in found ensures f.1 == Find(e, f.0, dryRun, answers(f.0)) && f.0 in StepOrder(cfg) {
      var i :| 0 <= i < |found| && found[i] == f;
      assert StepOrder(cfg)[i] in StepOrder(cfg);
    }
    forall f | f in found
      ensures HookOwned(f.0) <==> f.0 in {"runner_before", "build_services", "runner_deploy", "runner_after"}
    {
      OrderHasNoSync(cfg, f.0);
    }
    forall name | HookOwned(name) <==> name in {"runner_before", "build_services", "runner_deploy", "runner_after"}
      ensures Find(e, name, dryRun, answers(name)) ==
                if !e.StepCompleted(name) then NotRun
                else if name in {"runner_before", "build_services", "runner_deploy", "runner_after"} then NotVerifiable
                else if answers(name).verifyOk then Healthy
                else if dryRun then Broken
                else if answers(name).fnOk then HealedNow
                else HealFailed
    {
      FindIs(e, name, dryRun, answers(name));
    }
  }

  lemma OrderHasNoSync(cfg: ProjectConfig, name: string)
    requires name in StepOrder(cfg)
    ensures HookOwned(name) <==> name in {"runner_before", "build_services", "runner_deploy", "runner_after"}
  {
    assert "sync_code"[1] == 'y' && name[1] != 'y';
  }

  lemma FindIs(e: EntryData, name: string, dryRun: bool, a: Answer)
    ensures Find(e, name, dryRun, a) ==
      if !e.StepCompleted(name) then NotRun
      else if HookOwned(name) then NotVerifiable
      else if a.verifyOk then Healthy
      else if dryRun then Broken
      else if a.fnOk then HealedNow
      else HealFailed
  {
    hide HookOwned;
  }

  /** A step that was healed is recorded as completed, without outputs; either way the attempt is logged. */
  lemma HealingIsRecorded(cfg: ProjectConfig, name: string, found: Finding, w: World)
    ensures var e := HealOne(cfg, (name, found), w).entry;
      && e.auditLog == w.entry.auditLog
           + (if found == HealedNow then [AuditEntry(name, Reconciled)]
              else if found == HealFailed then [AuditEntry(name, ReconcileFailed)] else [])
      && e.steps == (if found == HealedNow then w.entry.steps[name := StepRecord(Completed, map[])] else w.entry.steps)
      && e.info == w.entry.info && e.compute == w.entry.compute && e.env == w.entry.env
  {
    hide Enabling;
    assert w.entry.auditLog + [] == w.entry.auditLog;
  }

  /** Healing start_services for the first time enables the services that are to start by themselves. */
  lemma {:induction false} HealingEnables(cfg: ProjectConfig, results: seq<(string, Finding)>, w: World)
    ensures Healing(cfg, results, w).entry.enabledServices ==
      if w.entry.enabledServices == [] && cfg.runner.Some? && cfg.runner.value.compose.Some?
         && exists r :: r in results && r.0 == "start_services" && r.1 in {HealedNow, HealFailed}
      then cfg.runner.value.compose.value.autostart
      else w.entry.enabledServices
  {
    if results != [] {
      var last := |results| - 1;
      HealingEnables(cfg, results[..last], w);
      assert results == results[..last] + [results[last]];
      assert results[last] in results;
    }
  }

  method CheckStep(m: Manager, entry: EnvironmentEntry, cfg: ProjectConfig, name: string, dryRun: bool, a: Answer)
    returns (found: Finding, ghost ops: seq<Op>)
    modifies m`events, entry
    ensures found == Find(old(entry.Data()), name, dryRun, a)
    ensures SameCheckpoints(entry.Data(), old(entry.Data()))
    ensures m.Now(entry) == HealOne(cfg, (name, found), old(m.Now(entry))) == Run(ops, old(m.Now(entry)))
  {
    hide HookOwned;
    ops := [];
    found := Find(entry.Data(), name, dryRun, a);
    RunNothing(m.Now(entry));
    if found == HealedNow || found == HealFailed {
      var enabled := Enabling(cfg, name, entry.enabledServices);
      RunOne([], DoHeal(name, a.fnOk, enabled), m.Now(entry));
      Heal(m, entry, name, a.fnOk, enabled);
      ops := [] + [DoHeal(name, a.fnOk, enabled)];
    }
  }

  method CheckSteps(m: Manager, entry: EnvironmentEntry, cfg: ProjectConfig, order: seq<string>, dryRun: bool,
                    answers: string -> Answer)
    returns (results: seq<(string, Finding)>, ghost ops: seq<Op>)
    modifies m`events, entry
    ensures results == Findings(old(entry.Data()), order, dryRun, answers)
    ensures SameCheckpoints(entry.Data(), old(entry.Data()))
    ensures m.Now(entry) == Healing(cfg, results, old(m.Now(entry))) == Run(ops, old(m.Now(entry)))
  {
    hide Apply, HookOwned, Run, HealOne;
    results, ops := [], [];
    RunNothing(m.Now(entry));
    for i := 0 to |order|
      invariant results == Findings(old(entry.Data()), order[..i], dryRun, answers)
      invariant SameCheckpoints(entry.Data(), old(entry.Data()))
      invariant m.Now(entry) == Healing(cfg, results, old(m.Now(entry))) == Run(ops, old(m.Now(entry)))
    {
      assert order[..i + 1][..i] == order[..i];
      var found;
      ghost var more;
      found, more := CheckStep(m, entry, cfg, order[i], dryRun, answers(order[i]));
      RunAppends(ops, more, old(m.Now(entry)));
      ops := ops + more;
      assert (results + [(order[i], found)])[..|results|] == results;
      results := results + [(order[i], found)];
    }
    assert order[..|order|] == order;
  }

  lemma RunNothing(w: World)
    ensures Run([], w) == w
  {
  }

  lemma FindingsOfMore(e: EntryData, order: seq<string>, dryRun: bool, answers: string -> Answer)
    requires order != []
    ensures var all, name := Findings(e, order, dryRun, answers), order[|order| - 1];
      |all| > 0 && all[..|all| - 1] == Findings(e, order[..|order| - 1], dryRun, answers)
      && all[|all| - 1] == (name, Find(e, name, dryRun, answers(name)))
  {
    hide Find;
  }

  lemma DryRunFindsNoHealing(e: EntryData, name: string, a: Answer)
    ensures Find(e, name, true, a) != HealedNow && Find(e, name, true, a) != HealFailed
  {
    hide HookOwned;
  }

  lemma {:induction false} NothingToHeal(cfg: ProjectConfig, e: EntryData, order: seq<string>,
                                         answers: string -> Answer, w: World)
    ensures Healing(cfg, Findings(e, order, true, answers), w) == w
  {
    if order != [] {
      hide Find, Findings, Healed, Enabling;
      var name := order[|order| - 1];
      FindingsOfMore(e, order, true, answers);
      DryRunFindsNoHealing(e, name, answers(name));
      NothingToHeal(cfg, e, order[..|order| - 1], answers, w);
    }
  }

  /** Steps that are verified and broken are run again, the others left alone, and the result is saved. A dry
      run reports the same steps and changes nothing at all. */
  method Reconcile(m: Manager, entry: EnvironmentEntry, cfg: ProjectConfig, dryRun: bool, answers: string -> Answer,
                   save: Save)
    returns (outcome: Outcome, results: seq<(string, Finding)>, ghost ops: seq<Op>)
    modifies m`events, m.state, entry
    ensures results == Findings(old(entry.Data()), StepOrder(cfg), dryRun, answers)
    ensures var healed := Healing(cfg, results, old(m.Now(entry)));
      m.Now(entry) == if dryRun then old(m.Now(entry)) else healed.(stored := SaveTo(healed.stored, healed.entry, save))
    ensures !dryRun ==> m.events == old(m.events) + HealEvents(results)
    ensures entry.Data().CompletedSteps() == old(entry.Data().CompletedSteps())
    ensures m.Now(entry) == Run(ops, old(m.Now(entry)))
    ensures outcome == if dryRun || save == Saved then Done else Failure
  {
    hide StepOrder, EntryData.Normal, Findings, Apply, Run, EntryData.CompletedSteps, EntryData.StepCompleted, Healing,
         HealEvents, SameCheckpoints;
    ghost var start := m.Now(entry);
    outcome := Done;
    results, ops := CheckSteps(m, entry, cfg, StepOrder(cfg), dryRun, answers);
    CheckpointsGiveSteps(entry.Data(), start.entry);
    if dryRun {
      NothingToHeal(cfg, start.entry, StepOrder(cfg), answers, start);
    } else {
      HealingRunsTheBroken(cfg, StepOrder(cfg), answers, start);
      RunSave(ops, save, start);
      var ok := m.state.SetEnvironment(m.name, entry.Data(), save);
      ops := ops + [DoSave(save)];
      outcome := if ok then Done else Failure;
    }
  }

  lemma RunSave(ops: seq<Op>, save: Save, w: World)
    ensures Run(ops + [DoSave(save)], w) ==
      Run(ops, w).(stored := SaveTo(Run(ops, w).stored, Run(ops, w).entry, save))
  {
    RunOne(ops, DoSave(save), w);
  }

  lemma CheckpointsGiveSteps(e: EntryData, e': EntryData)
    requires SameCheckpoints(e, e')
    ensures e.CompletedSteps() == e'.CompletedSteps()
  {
    assert forall n :: n in e.CompletedSteps() <==> e.StepCompleted(n);
    assert forall n :: n in e'.CompletedSteps() <==> e'.StepCompleted(n);
  }

  method Heal(m: Manager, entry: EnvironmentEntry, name: string, fnOk: bool, enabled: seq<string>)
    modifies m`events, entry
    ensures m.Now(entry) == Healed(name, fnOk, enabled, old(m.Now(entry)))
  {
    entry.enabledServices := enabled;
    if fnOk {
      entry.SetStepRecord(name, Completed, map[]);
      entry.AppendAudit(name, Reconciled);
      m.events := m.events + [RanOk(name, map[])];
    } else {
      entry.AppendAudit(name, ReconcileFailed);
      m.events := m.events + [RanFailed(name)];
    }
  }
}
