/** Provision attempts are runs in the sense of AuditTrail, so what every run keeps holds for them. */
module ProvisionTrail {
  import opened Prelude
  import opened Manifest
  import opened Entry
  import opened Checkpoint
  import opened AuditTrail
  import opened Provision
  import opened Resume

  lemma PhaseIsARun(t: Target, x: Attempt, p: Phase, l: Local) returns (ops: seq<Op>)
    ensures Run(ops, l.w) == RunPhase(t, x, p, l).0.w
  {
    hide Stepped, Source.Manifest, Facing, PortsIn, StringsIn;
    var step := DoStep(x.noCache, p.Opts(), Facing(t, x, p, Restored(p, l)));
    var stepped := Apply(step, l.w);
    RunOne([], step, l.w);
    assert [] + [step] == [step];
    ops := [step];
    if RunPhase(t, x, p, l).0.w != stepped {
      var e := stepped.entry;
      var update := DoUpdate(e.info, Some(x.compute), e.env, e.enabledServices);
      RunOne(ops, update, l.w);
      ops := ops + [update];
    }
  }

  lemma {:induction false} PhasesAreARun(t: Target, x: Attempt, plan: seq<Phase>, l: Local) returns (ops: seq<Op>)
    ensures Run(ops, l.w) == RunPhases(t, x, plan, l).0.w
  {
    hide RunPhase, Apply;
    ops := [];
    if plan != [] {
      ops := PhaseIsARun(t, x, plan[0], l);
      var first := RunPhase(t, x, plan[0], l);
      if first.1 == Done {
        var rest := PhasesAreARun(t, x, plan[1..], first.0);
        RunAppends(ops, rest, l.w);
        ops := ops + rest;
      }
    }
  }

  lemma BeginIsARun(t: Target, x: Attempt, w: World) returns (ops: seq<Op>)
    ensures Run(ops, w) == Begin(t, x, w).0
  {
    hide Apply;
    ops := [];
    if x.loadOk {
      var create := Create(StartInfo(t));
      RunOne([], Load, w);
      RunOne([Load], create, w);
      assert [] + [Load] == [Load];
      ops := [Load] + [create];
      if w.stored.None? {
        RunOne(ops, DoSave(x.createSave), w);
        ops := ops + [DoSave(x.createSave)];
      }
      if (w.stored.Some? || x.createSave == Saved) && x.fromStep != "" {
        var invalidate := DoInvalidateFrom(x.fromStep, StepOrder(x.fromSeeds));
        RunOne(ops, invalidate, w);
        RunOne(ops + [invalidate], DoSave(x.fromSave), w);
        ops := ops + [invalidate] + [DoSave(x.fromSave)];
      }
    }
  }

  lemma ProvisionIsARun(t: Target, x: Attempt, w: World) returns (ops: seq<Op>)
    ensures Run(ops, w) == Provisioned(t, x, w).0.w
  {
    hide Apply, Begin, RunPhases, Plan;
    ops := BeginIsARun(t, x, w);
    var begun := Begin(t, x, w);
    if begun.1 == Done {
      var plan := Plan(t, x.seedOrder);
      var steps := PhasesAreARun(t, x, plan, Fresh(begun.0));
      RunAppends(ops, steps, w);
      ops := ops + steps;
      var ran := RunPhases(t, x, plan, Fresh(begun.0));
      if ran.1 == Done && ran.0.manifest.Some? {
        var m, e := ran.0.manifest.value, ran.0.w.entry;
        var info := Info(m.mode, t.branch, "provisioned", m.ports, m.provisionerOutputs);
        var compute := if t.mode == Attached then Some(x.compute) else e.compute;
        var update := DoUpdate(info, compute, e.env, e.enabledServices);
        RunOne(ops, update, w);
        RunOne(ops + [update], DoSave(x.finalSave), w);
        ops := ops + [update] + [DoSave(x.finalSave)];
      }
    }
  }

  /** After any provision attempts and whatever other commands did between them, wherever they stopped: the
      audit log tells the completed steps, and every checkpoint was preceded by the effects it records. */
  lemma {:induction false} AttemptsAreTraced(t: Target, xs: seq<Attempt>, x: Attempt)
    ensures AllConsistent(Provisioned(t, x, Attempts(t, xs)).0.w)
    ensures AllBacked(Provisioned(t, x, Attempts(t, xs)).0.w)
  {
    hide Provisioned, Consistent, Backed, Run;
    NewConsistent(StartInfo(t));
    NewBacked(StartInfo(t), Attempts(t, xs).events);
    if xs != [] {
      var before, last := xs[..|xs| - 1], xs[|xs| - 1];
      AttemptsAreTraced(t, before, last);
      SinceIsTraced(t, last.later, Provisioned(t, last, Attempts(t, before)).0.w);
    }
    var ops := ProvisionIsARun(t, x, Attempts(t, xs));
    RunConsistent(ops, Attempts(t, xs));
    RunBacked(ops, Attempts(t, xs));
  }

  lemma SinceIsTraced(t: Target, later: seq<Op>, w: World)
    requires AllConsistent(w) && AllBacked(w)
    ensures AllConsistent(Since(t, later, w)) && AllBacked(Since(t, later, w))
  {
    hide Consistent, Backed, Run;
    var start := w.(entry := NewEntry(StartInfo(t)));
    NewConsistent(StartInfo(t));
    NewBacked(StartInfo(t), w.events);
    RunConsistent(later, start);
    RunBacked(later, start);
    NewBacked(StartInfo(t), Run(later, start).events);
  }
}
