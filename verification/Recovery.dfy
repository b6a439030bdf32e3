/** Provisioning recovers: an attempt in which nothing fails succeeds, whatever the attempts before it left
    behind (manager.go). */
module Recovery {
  import opened Prelude
  import opened Manifest
  import opened Entry
  import opened Checkpoint
  import opened Provision
  import opened Resume
  import HookOutput

  /** Nothing goes wrong in this attempt; what create_compute finds of the machine may still be anything. */
  ghost predicate Smooth(x: Attempt) {
    && x.loadOk && x.createSave == Saved && x.fromSave == Saved && x.finalSave == Saved
    && forall n :: x.answers(n).fnOk && x.answers(n).crash == NoCrash && x.answers(n).save == Saved
  }

  lemma SmoothStep(noCache: bool, o: StepOpts, a: Answer, w: World)
    requires a.fnOk && a.crash == NoCrash && a.save == Saved
    ensures Stepped(noCache, o, a, w).1 == Done
  {
    hide EntryData.Normal;
  }

  lemma SmoothPhase(t: Target, x: Attempt, q: Phase, l: Local)
    requires Smooth(x) && q != Build
    ensures RunPhase(t, x, q, l).1 == Done
  {
    hide Stepped, Source.Manifest, PortsIn, StringsIn;
    SmoothStep(x.noCache, q.Opts(), Facing(t, x, q, Restored(q, l)), l.w);
  }

  lemma {:induction false} SmoothPhases(t: Target, x: Attempt, plan: seq<Phase>, l: Local)
    requires Smooth(x) && Build !in plan
    ensures RunPhases(t, x, plan, l).1 == Done
  {
    hide RunPhase, Smooth;
    if plan != [] {
      SmoothPhase(t, x, plan[0], l);
      SmoothPhases(t, x, plan[1..], RunPhase(t, x, plan[0], l).0);
    }
  }

  lemma {:induction false} PhasesAppend(t: Target, x: Attempt, front: seq<Phase>, back: seq<Phase>, l: Local)
    requires RunPhases(t, x, front, l).1 == Done
    ensures RunPhases(t, x, front + back, l) == RunPhases(t, x, back, RunPhases(t, x, front, l).0)
  {
    hide RunPhase;
    if front == [] {
      assert front + back == back;
    } else {
      assert (front + back)[1..] == front[1..] + back;
      PhasesAppend(t, x, front[1..], back, RunPhase(t, x, front[0], l).0);
    }
  }

  /** The steps before the manifest, and those from it on. */
  function Front(t: Target, x: Attempt): seq<Phase> {
    (if t.cfg.provisioner.before != "" then [Before] else [])
    + (if t.mode != Attached then [Compute] else []) + [Allocate] + SeedPhases(x.seedOrder)
  }

  function Back(t: Target): seq<Phase> {
    [Write] + if t.cfg.provisioner.after != "" then [After] else []
  }

  lemma PlanSplits(t: Target, x: Attempt)
    ensures Plan(t, x.seedOrder) == Front(t, x) + ([Build] + Back(t))
    ensures Build !in Front(t, x) && Build !in Back(t)
  {
  }

  /** When the manifest's turn comes, the locals hold what the hooks yield. */
  lemma FrontCarries(t: Target, h: Hooks, xs: seq<Attempt>, x: Attempt, p: Phase)
    requires forall y :: y in xs ==> Orderly(t, y) && Follows(y, Some(h))
    requires Orderly(t, x) && Follows(x, Some(h)) && ReadBack(p) && InPlan(t, p)
    requires Begin(t, x, Attempts(t, xs)).1 == Done
    requires var l := Fresh(Begin(t, x, Attempts(t, xs)).0); RunPhases(t, x, Front(t, x), l).1 == Done
    ensures var l := RunPhases(t, x, Front(t, x), Fresh(Begin(t, x, Attempts(t, xs)).0)).0;
      Carries(l, p) && Fits(t, Some(h), p, Last(l.w.events, p.Name()).GetOr(map[]))
  {
    hide Begin, RunPhases, InPlan, Fits, Last, Attempts, SeedPhases, Plan;
    var w := Attempts(t, xs);
    var start, front := Fresh(Begin(t, x, w).0), Front(t, x);
    AttemptsSound(t, Some(h), xs, p);
    BeginSound(t, Some(h), x, w, p);
    PlanIsInOrder(t, x);
    PlanSplits(t, x);
    assert p in Plan(t, x.seedOrder) && p != Build && p !in Back(t);
    var i :| 0 <= i < |front| && front[i] == p;
    forall j | 0 <= j < |front| && front[j] == front[i] ensures j == i {
      assert Plan(t, x.seedOrder)[j] == front[j] && Plan(t, x.seedOrder)[i] == front[i];
    }
    PhasesCarry(t, Some(h), x, front, start, i);
    PhasesSound(t, Some(h), x, front, start, p);
    PhasesComplete(t, x, front, start);
  }

  lemma FrontFits(t: Target, h: Hooks, x: Attempt, l: Local)
    requires Orderly(t, x) && Quiet(t, x, h) && StoresFit(Exports(t, h), l.w)
    requires RunPhases(t, x, Front(t, x), l).1 == Done
    ensures RunPhases(t, x, Front(t, x), l).0.w.entry.env.GetOr(map[]) == Exports(t, h)
  {
    hide RunPhases, StoresFit, Quiet, InPlan, SeedPhases, Exports;
    PlanIsInOrder(t, x);
    PlanSplits(t, x);
    var rest := [Allocate] + SeedPhases(x.seedOrder);
    assert Front(t, x) == Early(t, rest);
    assert forall q :: q in rest ==> q in Plan(t, x.seedOrder);
    EarlyFits(t, h, x, rest, l);
  }

  lemma FrontOuts(t: Target, x: Attempt, l: Local)
    requires Orderly(t, x) && l.outs == map[]
    ensures RunPhases(t, x, Front(t, x), l).0.outs.Keys <= t.Seeds()
  {
    hide RunPhases, SeedPhases, Plan, Orderly, Target.Seeds;
    PhasesOuts(t, x, Front(t, x), l);
    PlanIsInOrder(t, x);
    PlanSplits(t, x);
    forall s | s in RunPhases(t, x, Front(t, x), l).0.outs ensures s in t.Seeds() {
      assert Seed(s) in Front(t, x) && InPlan(t, Seed(s));
    }
  }

  /** What the manifest is to be built from. */
  function Expected(t: Target, h: Hooks): Source {
    t.Source(WithFixed(t.cfg, h.ports), SeedOutputs(t, h), Exports(t, h))
  }

  /** So the manifest's step has the source it should have. */
  lemma FrontIsExpected(t: Target, h: Hooks, xs: seq<Attempt>, x: Attempt)
    requires Orderly(t, x) && Quiet(t, x, h) && forall y :: y in xs ==> Orderly(t, y) && Quiet(t, y, h)
    requires Begin(t, x, Attempts(t, xs)).1 == Done
    requires RunPhases(t, x, Front(t, x), Fresh(Begin(t, x, Attempts(t, xs)).0)).1 == Done
    ensures var l := RunPhases(t, x, Front(t, x), Fresh(Begin(t, x, Attempts(t, xs)).0)).0;
      t.Source(l.ports, l.outs, l.w.entry.env.GetOr(map[])) == Expected(t, h)
  {
    hide Begin, RunPhases, Orderly, Last, Attempts, Target.Seeds, Exports, Front, Fits, WithFixed, StoresFit;
    var start := Fresh(Begin(t, x, Attempts(t, xs)).0);
    var l := RunPhases(t, x, Front(t, x), start).0;
    AttemptsFit(t, h, xs);
    BeginFits(t, x, Exports(t, h), Attempts(t, xs));
    FrontFits(t, h, x, start);
    FrontOuts(t, x, start);
    FrontCarries(t, h, xs, x, Allocate);
    PortsFit(t, h, l);
    forall s | s in t.Seeds() ensures s in l.outs && l.outs[s] == h.printed("seed_" + s) {
      FrontCarries(t, h, xs, x, Seed(s));
      SeedFits(t, h, l, s);
    }
    assert l.outs == SeedOutputs(t, h);
  }

  lemma SmoothBegin(t: Target, x: Attempt, w: World)
    requires Smooth(x)
    ensures Begin(t, x, w).1 == Done
  {
    hide EntryData.Normal, InvalidatedFrom;
  }

  /** Building succeeds if the source gives a manifest, before the step and after it. */
  lemma SmoothBuild(t: Target, x: Attempt, l: Local)
    requires Smooth(x) && t.Source(l.ports, l.outs, l.w.entry.env.GetOr(map[])).Manifest().Ok?
    ensures RunPhase(t, x, Build, l).1 == Done
  {
    hide Source.Manifest, EntryData.Normal;
  }

  /** An attempt in which nothing fails succeeds exactly when the configuration can be rendered, whatever the
      attempts before it were, and then it ends with the manifest of an uninterrupted run. */
  lemma RecoveryIsCertain(t: Target, h: Hooks, xs: seq<Attempt>, x: Attempt)
    requires Orderly(t, x) && Quiet(t, x, h) && forall y :: y in xs ==> Orderly(t, y) && Quiet(t, y, h)
    requires Smooth(x)
    ensures var r := Provisioned(t, x, Attempts(t, xs)); var manifest := Expected(t, h).Manifest();
      (r.1 == Done <==> manifest.Ok?) && (r.1 == Done ==> r.0.manifest == Some(manifest.value))
  {
    hide Begin, RunPhases, RunPhase, Attempts, Orderly, Quiet, Source.Manifest, Plan, Front, Back, EntryData.Normal;
    var w := Attempts(t, xs);
    var start := Fresh(Begin(t, x, w).0);
    if Expected(t, h).Manifest().Ok? {
      SmoothBegin(t, x, w);
      PlanSplits(t, x);
      SmoothPhases(t, x, Front(t, x), start);
      FrontIsExpected(t, h, xs, x);
      var l := RunPhases(t, x, Front(t, x), start).0;
      PhasesAppend(t, x, Front(t, x), [Build] + Back(t), start);
      NextPhase(t, x, Build, Back(t), l);
      SmoothBuild(t, x, l);
      SmoothPhases(t, x, Back(t), RunPhase(t, x, Build, l).0);
    }
    if Provisioned(t, x, w).1 == Done {
      ResumedManifest(t, h, xs, x);
    }
  }

  /** There is such an attempt for every configuration and all hooks whose seeds export nothing. */
  lemma SmoothAttempt(t: Target, h: Hooks) returns (x: Attempt)
    requires forall s :: s in t.Seeds() ==> HookOutput.Globals(h.printed("seed_" + s)) == map[]
    ensures Orderly(t, x) && Quiet(t, x, h) && Smooth(x)
  {
    var order, compute := AnyOrder(t.Seeds()), ComputeInfo(false, "");
    x := Attempt(true, Saved, "", [], Saved, false, order, n => QUIET, h.ports, h.printed, compute, Saved, []);
  }

  lemma WithoutServicesItSucceeds(t: Target, x: Attempt, w: World)
    requires Smooth(x) && t.cfg.services == map[]
    ensures Provisioned(t, x, w).1 == Done
  {
    hide Begin, RunPhases, RunPhase, Front, Back, Plan, EntryData.Normal;
    var start := Fresh(Begin(t, x, w).0);
    SmoothBegin(t, x, w);
    PlanSplits(t, x);
    SmoothPhases(t, x, Front(t, x), start);
    var l := RunPhases(t, x, Front(t, x), start).0;
    PhasesAppend(t, x, Front(t, x), [Build] + Back(t), start);
    NextPhase(t, x, Build, Back(t), l);
    SmoothBuild(t, x, l);
    SmoothPhases(t, x, Back(t), RunPhase(t, x, Build, l).0);
  }
}
