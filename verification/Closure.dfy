/** Gaps in the completed steps of a provision: exactly when a step is completed and one that comes before it
    in the pipeline is not (manager.go). */
module Closure {
  import opened Prelude
  import opened Order
  import opened Config
  import opened Manifest
  import opened Entry
  import opened Checkpoint
  import opened AuditTrail
  import opened Provision
  import opened Meanwhile
  import opened Resume
  import opened Records
  import opened Recovery

  ghost predicate Closed(t: Target, e: EntryData) {
    forall p, q :: InPlan(t, p) && InPlan(t, q) && p.Rank() < q.Rank() && Has(e, q) ==> Has(e, p)
  }

  /** Steps after create_compute are completed only in entries that say where the compute is. */
  ghost predicate ComputeKnown(t: Target, e: EntryData) {
    forall q :: InPlan(t, q) && q.Rank() > 1 && Has(e, q) && t.mode != Attached ==> HasCompute(t, e)
  }

  ghost predicate Gapless(t: Target, e: EntryData) {
    Closed(t, e) && ComputeKnown(t, e)
  }

  ghost predicate BothGapless(t: Target, w: World) {
    Gapless(t, w.entry) && (w.stored.Some? ==> Gapless(t, w.stored.value))
  }

  // ---------- Order ----------

  /** All steps but create_compute are completed in the order of the pipeline. */
  ghost predicate Ordered(t: Target, e: EntryData) {
    forall p, q :: InPlan(t, p) && InPlan(t, q) && p.Rank() < q.Rank() && p != Compute && Has(e, q) ==> Has(e, p)
  }

  ghost predicate BothOrdered(t: Target, w: World) {
    Ordered(t, w.entry) && (w.stored.Some? ==> Ordered(t, w.stored.value))
  }

  /** The one gap there can be. */
  predicate Gap(t: Target, e: EntryData) {
    t.mode != Attached && Has(e, Allocate) && !Has(e, Compute)
  }

  lemma GapMeans(t: Target, e: EntryData)
    requires Ordered(t, e)
    ensures Closed(t, e) <==> !Gap(t, e)
  {
    hide Has;
    assert InPlan(t, Allocate) && (t.mode != Attached ==> InPlan(t, Compute));
  }

  /** Once ports are allocated, the compute was made and the entry says where it is. */
  predicate Known(t: Target, e: EntryData) {
    t.mode != Attached && Has(e, Allocate) ==> Has(e, Compute) && HasCompute(t, e)
  }

  predicate BothKnown(t: Target, w: World) {
    Known(t, w.entry) && (w.stored.Some? ==> Known(t, w.stored.value))
  }

  lemma KnownMeans(t: Target, e: EntryData)
    requires Ordered(t, e)
    ensures Gapless(t, e) <==> Known(t, e)
  {
    hide Has, HasCompute;
    GapMeans(t, e);
    assert InPlan(t, Allocate);
  }

  // ---------- The order is kept ----------

  /** The steps before q are completed, create_compute aside. */
  ghost predicate UpTo(t: Target, e: EntryData, q: Phase) {
    forall p :: InPlan(t, p) && p.Rank() < q.Rank() && p != Compute ==> Has(e, p)
  }

  lemma OrderedBut(t: Target, e: EntryData, e': EntryData, q: Phase, v: bool)
    requires Ordered(t, e) && UpTo(t, e, q) && HasBut(e, e', q, v) && (q == Compute || v || !Has(e, q))
    ensures Ordered(t, e')
  {
    hide InPlan, Has;
  }

  lemma OrderedSame(t: Target, e: EntryData, e': EntryData)
    requires Ordered(t, e) && SameHas(e, e')
    ensures Ordered(t, e')
  {
    hide InPlan, Has;
  }

  lemma PhaseOrdered(t: Target, x: Attempt, q: Phase, l: Local)
    requires !x.noCache && InPlan(t, q) && BothOrdered(t, l.w) && UpTo(t, l.w.entry, q)
    ensures BothOrdered(t, RunPhase(t, x, q, l).0.w)
  {
    hide RunPhase, Facing, Restored, Ordered, UpTo, HasBut, SameHas, InPlan;
    var r := RunPhase(t, x, q, l).0.w;
    PhaseHas(t, x, q, l);
    var run := Executes(t, x, q, l.w.entry) && x.answers(q.Name()).crash == NoCrash;
    OrderedBut(t, l.w.entry, r.entry, q,
      if run then Facing(t, x, q, Restored(q, l)).fnOk else Has(l.w.entry, q));
    if run && x.answers(q.Name()).save != NotSaved {
      OrderedSame(t, r.entry, r.stored.value);
    } else if l.w.stored.Some? {
      OrderedSame(t, l.w.stored.value, r.stored.value);
    }
  }

  /** Every step but create_compute is completed or still to come. */
  ghost predicate Pending(t: Target, plan: seq<Phase>, e: EntryData) {
    forall p :: InPlan(t, p) && p != Compute ==> Has(e, p) || p in plan
  }

  lemma FirstIsUpTo(t: Target, plan: seq<Phase>, e: EntryData)
    requires plan != [] && InOrder(plan) && Pending(t, plan, e)
    ensures UpTo(t, e, plan[0])
  {
    hide InPlan, Has;
  }

  lemma PendingLess(t: Target, x: Attempt, plan: seq<Phase>, l: Local)
    requires plan != [] && Pending(t, plan, l.w.entry) && RunPhase(t, x, plan[0], l).1 == Done
    ensures Pending(t, plan[1..], RunPhase(t, x, plan[0], l).0.w.entry)
  {
    hide RunPhase, InPlan, Facing, Restored, Has, Executes;
    PhaseHas(t, x, plan[0], l);
    SkippedIsHad(t, x, plan[0], l.w.entry);
    assert plan == [plan[0]] + plan[1..];
  }

  lemma {:induction false} PhasesOrdered(t: Target, x: Attempt, plan: seq<Phase>, l: Local)
    requires !x.noCache && InOrder(plan) && (forall p :: p in plan ==> InPlan(t, p))
    requires BothOrdered(t, l.w) && Pending(t, plan, l.w.entry)
    ensures BothOrdered(t, RunPhases(t, x, plan, l).0.w)
  {
    hide RunPhase, InPlan, Has, BothOrdered, Pending, UpTo;
    if plan != [] {
      var first := RunPhase(t, x, plan[0], l);
      FirstIsUpTo(t, plan, l.w.entry);
      PhaseOrdered(t, x, plan[0], l);
      if first.1 == Done {
        PendingLess(t, x, plan, l);
        assert InOrder(plan[1..]);
        PhasesOrdered(t, x, plan[1..], first.0);
      }
    }
  }

  lemma PlanIsPending(t: Target, plan: seq<Phase>, e: EntryData)
    requires forall p :: InPlan(t, p) ==> p in plan
    ensures Pending(t, plan, e)
  {
  }

  // ---------- Starting over from a step ----------

  /** --from lists the seeds that are configured, in some order. */
  ghost predicate ListsSeeds(t: Target, seeds: seq<string>) {
    Distinct(seeds) && forall s :: s in seeds <==> s in t.Seeds()
  }

  ghost predicate IsSuffix(gone: seq<string>, order: seq<string>) {
    |gone| <= |order| && gone == order[|order| - |gone|..]
  }

  lemma {:induction false} FromIsSuffix(step: string, order: seq<string>)
    ensures IsSuffix(From(step, order), order)
  {
    if order != [] && order[0] != step {
      FromIsSuffix(step, order[1..]);
    }
  }

  function AllPhases(seeds: seq<string>): seq<Phase> {
    [Before, Compute, Allocate] + SeedPhases(seeds) + [Build, Write, After]
  }

  lemma NamesInOrder(seeds: seq<string>)
    ensures |StepOrder(seeds)| == |AllPhases(seeds)|
    ensures forall i :: 0 <= i < |AllPhases(seeds)| ==> StepOrder(seeds)[i] == AllPhases(seeds)[i].Name()
  {
  }

  lemma AllIsAPlan(t: Target, seeds: seq<string>)
    requires t.cfg.provisioner.before != "" && t.cfg.provisioner.after != "" && t.mode != Attached
    ensures Plan(t, seeds) == AllPhases(seeds)
  {
    hide SeedPhases;
  }

  lemma StepOrderNames(t: Target, x: Attempt)
    requires ListsSeeds(t, x.fromSeeds)
    ensures InOrder(AllPhases(x.fromSeeds)) && forall p :: InPlan(t, p) ==> p in AllPhases(x.fromSeeds)
    ensures |StepOrder(x.fromSeeds)| == |AllPhases(x.fromSeeds)|
    ensures forall i :: 0 <= i < |AllPhases(x.fromSeeds)| ==>
      StepOrder(x.fromSeeds)[i] == AllPhases(x.fromSeeds)[i].Name()
  {
    hide InOrder, Target.Seeds, InPlan, Plan, StepOrder, AllPhases, Phase.Name;
    var provisioner := t.cfg.provisioner.(before := "hook", after := "hook");
    var full := t.(cfg := t.cfg.(provisioner := provisioner), mode := Hook);
    var y := x.(noCache := false, seedOrder := x.fromSeeds, later := []);
    SameSeeds(t, full);
    NamesInOrder(x.fromSeeds);
    AllIsAPlan(full, y.seedOrder);
    PlanIsInOrder(full, y);
    forall p | InPlan(t, p) ensures p in AllPhases(x.fromSeeds) {
      assert InPlan(full, p) by { MoreInPlan(t, full, p); }
    }
  }

  lemma SameSeeds(t: Target, t': Target)
    requires t'.cfg.provisioner.services == t.cfg.provisioner.services
    ensures t'.Seeds() == t.Seeds()
  {
  }

  lemma MoreInPlan(t: Target, t': Target, p: Phase)
    requires InPlan(t, p) && t'.Seeds() == t.Seeds() && t'.mode == Hook
    requires t'.cfg.provisioner.before != "" && t'.cfg.provisioner.after != ""
    ensures InPlan(t', p)
  {
    hide Target.Seeds;
  }

  /** Later steps of the pipeline are dropped with earlier ones. */
  ghost predicate DroppedLate(t: Target, e: EntryData, e': EntryData) {
    && e'.compute == e.compute
    && (forall p: Phase :: Has(e', p) ==> Has(e, p))
    && forall p, q :: InPlan(t, p) && InPlan(t, q) && p.Rank() < q.Rank() && Has(e', q) && Has(e, p) ==> Has(e', p)
  }

  lemma DroppingIsLate(t: Target, x: Attempt, e: EntryData)
    requires ListsSeeds(t, x.fromSeeds)
    ensures DroppedLate(t, e, InvalidatedFrom(e, x.fromStep, StepOrder(x.fromSeeds)))
  {
    hide From, DroppedAll, StepOrder, InPlan, AllPhases, Phase.Name, Phase.Rank, InOrder;
    var order, all := StepOrder(x.fromSeeds), AllPhases(x.fromSeeds);
    var gone := From(x.fromStep, order);
    FromIsSuffix(x.fromStep, order);
    StepOrderNames(t, x);
    DroppingKeeps(e, gone);
    DroppingKeepsEnv(e, gone);
    forall p, q | InPlan(t, p) && InPlan(t, q) && p.Rank() < q.Rank() ensures p.Name() in gone ==> q.Name() in gone {
      LaterIsDropped(all, order, |order| - |gone|, p, q);
    }
  }

  lemma LaterIsDropped(all: seq<Phase>, order: seq<string>, k: nat, p: Phase, q: Phase)
    requires InOrder(all) && q in all && p.Rank() < q.Rank()
    requires |order| == |all| && (forall i :: 0 <= i < |all| ==> order[i] == all[i].Name()) && k <= |order|
    ensures p.Name() in order[k..] ==> q.Name() in order[k..]
  {
    hide Phase.Name, Phase.Rank;
    if p.Name() in order[k..] {
      var i :| k <= i < |order| && order[i] == p.Name();
      NamesTellPhases(p, all[i]);
      var j :| 0 <= j < |all| && all[j] == q;
      assert i < j;
      assert order[k..][j - k] == q.Name();
    }
  }

  /** Dropping a step and those after it in the list leaves no gap. */
  lemma DroppingGapless(t: Target, x: Attempt, e: EntryData)
    requires ListsSeeds(t, x.fromSeeds) && Gapless(t, e)
    ensures Gapless(t, InvalidatedFrom(e, x.fromStep, StepOrder(x.fromSeeds)))
  {
    hide InvalidatedFrom, StepOrder, InPlan, Has;
    DroppingIsLate(t, x, e);
  }

  lemma DroppingOrdered(t: Target, x: Attempt, e: EntryData)
    requires ListsSeeds(t, x.fromSeeds)
    ensures Ordered(t, e) ==> Ordered(t, InvalidatedFrom(e, x.fromStep, StepOrder(x.fromSeeds)))
    ensures Known(t, e) ==> Known(t, InvalidatedFrom(e, x.fromStep, StepOrder(x.fromSeeds)))
  {
    hide InvalidatedFrom, StepOrder, Has;
    DroppingIsLate(t, x, e);
  }

  // ---------- Attempts ----------

  /** What an attempt starts from: the entry in the store, or a new one, perhaps with steps dropped. */
  lemma BeginHas(t: Target, x: Attempt, w: World)
    requires w.entry == NewEntry(StartInfo(t))
    ensures var b := Begin(t, x, w); var created := if w.stored.Some? then w.stored.value else w.entry;
      var dropped := InvalidatedFrom(created, x.fromStep, StepOrder(x.fromSeeds));
      && Whence(b.0.entry, w.entry, created, dropped)
      && (b.0.stored.Some? ==> Whence(b.0.stored.value, w.entry, created, dropped))
      && (b.1 == Done ==> b.0.stored.Some? && Like(b.0.entry, b.0.stored.value))
  {
    hide EntryData.Normal, InvalidatedFrom, StepOrder, Has;
    var created := if w.stored.Some? then w.stored.value else w.entry;
    var dropped := InvalidatedFrom(created, x.fromStep, StepOrder(x.fromSeeds));
    SameStepsNormal(created);
    SameStepsNormal(dropped);
    NormalCompute(created);
    NormalCompute(dropped);
  }

  ghost predicate Whence(e: EntryData, a: EntryData, b: EntryData, c: EntryData) {
    Like(a, e) || Like(b, e) || Like(c, e)
  }

  lemma LikeKeeps(t: Target, e: EntryData, e': EntryData)
    requires Like(e, e')
    ensures (Ordered(t, e) ==> Ordered(t, e')) && (Known(t, e) ==> Known(t, e'))
  {
    hide InPlan, Has;
  }

  lemma EmptyKeeps(t: Target, e: EntryData)
    requires forall p: Phase :: !Has(e, p)
    ensures Ordered(t, e) && Known(t, e)
  {
    hide InPlan, Has;
  }

  lemma BeginOrdered(t: Target, x: Attempt, w: World)
    requires ListsSeeds(t, x.fromSeeds) && w.entry == NewEntry(StartInfo(t))
    ensures (w.stored.Some? ==> Ordered(t, w.stored.value)) ==> BothOrdered(t, Begin(t, x, w).0)
    ensures (w.stored.Some? ==> Known(t, w.stored.value)) ==> BothKnown(t, Begin(t, x, w).0)
  {
    hide Begin, InvalidatedFrom, StepOrder, Ordered, Known, Like, ListsSeeds;
    BeginHas(t, x, w);
    var created := if w.stored.Some? then w.stored.value else w.entry;
    var dropped := InvalidatedFrom(created, x.fromStep, StepOrder(x.fromSeeds));
    NewIsEmpty(t, StartInfo(t));
    EmptyKeeps(t, w.entry);
    DroppingOrdered(t, x, created);
    var b := Begin(t, x, w).0;
    forall e, e' | e in {w.entry, created, dropped} && Like(e, e')
      ensures (Ordered(t, e) ==> Ordered(t, e')) && (Known(t, e) ==> Known(t, e'))
    {
      LikeKeeps(t, e, e');
    }
  }

  /** The last save: the records and, unless attached, the compute are those that the phases left. */
  lemma FinishHas(t: Target, x: Attempt, w: World)
    ensures var b := Begin(t, x, w); var ran := RunPhases(t, x, Plan(t, x.seedOrder), Fresh(b.0));
      var r := Provisioned(t, x, w);
      if b.1 != Done then r.0.w == b.0 && r.1 != Done
      else if ran.1 != Done then r.0.w == ran.0.w && r.1 != Done
      else
        SameHas(ran.0.w.entry, r.0.w.entry) && (t.mode != Attached ==> r.0.w.entry.compute == ran.0.w.entry.compute)
        && (r.0.w.stored == ran.0.w.stored
            || (r.0.w.stored.Some? && Like(r.0.w.entry, r.0.w.stored.value)))
  {
    hide Begin, RunPhases, Plan, EntryData.Normal;
    var ran := RunPhases(t, x, Plan(t, x.seedOrder), Fresh(Begin(t, x, w).0));
    var e := Provisioned(t, x, w).0.w.entry;
    SameStepsNormal(e);
    NormalCompute(e);
    if e.steps == ran.0.w.entry.steps {
      SameSteps(ran.0.w.entry, e);
    }
  }

  lemma ProvisionOrdered(t: Target, x: Attempt, w: World)
    requires Orderly(t, x) && ListsSeeds(t, x.fromSeeds) && w.entry == NewEntry(StartInfo(t))
    requires w.stored.Some? ==> Ordered(t, w.stored.value)
    ensures BothOrdered(t, Begin(t, x, w).0) && BothOrdered(t, Provisioned(t, x, w).0.w)
  {
    hide Begin, RunPhases, Plan, Provisioned, Ordered, ListsSeeds;
    BeginOrdered(t, x, w);
    FinishHas(t, x, w);
    var begun, r := Begin(t, x, w), Provisioned(t, x, w).0.w;
    if begun.1 == Done {
      var plan := Plan(t, x.seedOrder);
      PlanIsInOrder(t, x);
      PlanIsPending(t, plan, begun.0.entry);
      PhasesOrdered(t, x, plan, Fresh(begun.0));
      var ran := RunPhases(t, x, plan, Fresh(begun.0));
      if ran.1 == Done {
        OrderedSame(t, ran.0.w.entry, r.entry);
        if r.stored != ran.0.w.stored {
          OrderedSame(t, r.entry, r.stored.value);
        }
      }
    }
  }

  lemma SinceOrdered(t: Target, x: Attempt, w: World)
    requires Orderly(t, x)
    ensures var r := Since(t, x.later, w);
      && r.entry == NewEntry(StartInfo(t))
      && ((w.stored.Some? ==> Ordered(t, w.stored.value)) && r.stored.Some? ==> Ordered(t, r.stored.value))
      && ((w.stored.Some? ==> Known(t, w.stored.value)) && r.stored.Some? ==> Known(t, r.stored.value))
  {
    hide Since, Ordered, Known, Like, Has, Orderly;
    SinceOffspring(t, x, w);
    var r := Since(t, x.later, w);
    if r.stored.Some? {
      if forall p: Phase :: !Has(r.stored.value, p) {
        EmptyKeeps(t, r.stored.value);
      } else {
        LikeKeeps(t, w.stored.value, r.stored.value);
      }
    }
  }

  ghost predicate AttemptListed(t: Target, x: Attempt) {
    Orderly(t, x) && ListsSeeds(t, x.fromSeeds)
  }

  /** In every history the order is kept. */
  lemma {:induction false} AttemptsOrdered(t: Target, xs: seq<Attempt>)
    requires forall x :: x in xs ==> AttemptListed(t, x)
    ensures var w := Attempts(t, xs);
      w.entry == NewEntry(StartInfo(t)) && (w.stored.Some? ==> Ordered(t, w.stored.value))
  {
    hide Provisioned, Orderly, ListsSeeds, Ordered, Since;
    if xs != [] {
      var before, x := xs[..|xs| - 1], xs[|xs| - 1];
      assert AttemptListed(t, x);
      AttemptsOrdered(t, before);
      ProvisionOrdered(t, x, Attempts(t, before));
      SinceOrdered(t, x, Provisioned(t, x, Attempts(t, before)).0.w);
    }
  }

  // ---------- The gap ----------

  /** create_compute is not verified, and making the compute again does not end with the step completed. recorded
      says whether how that went got into the record. */
  predicate Misses(t: Target, x: Attempt, e: EntryData, recorded: bool) {
    var a := x.answers("create_compute");
    && Has(e, Allocate)
    && !(Has(e, Compute) && a.verifyOk && HasCompute(t, e))
    && if recorded then !a.fnOk else !Has(e, Compute)
  }

  /** The attempt runs create_compute's function to its end, and so records how it went in memory. */
  predicate Recorded(x: Attempt) {
    x.answers("create_compute").crash == NoCrash
  }

  predicate Stored(x: Attempt) {
    Recorded(x) && x.answers("create_compute").save != NotSaved
  }

  lemma {:induction false} LateKeeps(t: Target, x: Attempt, plan: seq<Phase>, l: Local)
    requires Compute !in plan && Has(l.w.entry, Compute) && l.w.stored.Some? && Has(l.w.stored.value, Compute)
    ensures var w := RunPhases(t, x, plan, l).0.w;
      Has(w.entry, Compute) && w.stored.Some? && Has(w.stored.value, Compute)
  {
    hide RunPhase, Has, Facing, Restored, Executes;
    if plan != [] {
      PhaseHas(t, x, plan[0], l);
      var first := RunPhase(t, x, plan[0], l);
      assert plan[0] != Compute && Has(first.0.w.entry, Compute) && Has(first.0.w.stored.value, Compute);
      if first.1 == Done {
        LateKeeps(t, x, plan[1..], first.0);
      }
    }
  }

  /** What has a gap after a pipeline that starts from entry e. */
  ghost predicate GapsAre(t: Target, x: Attempt, e: EntryData, r: (Local, Outcome)) {
    && r.0.w.stored.Some?
    && (Gap(t, r.0.w.entry) <==> Misses(t, x, e, Recorded(x)))
    && (Gap(t, r.0.w.stored.value) <==> Misses(t, x, e, Stored(x)))
    && (r.1 == Done ==> Has(r.0.w.entry, Compute) && !Misses(t, x, e, Recorded(x)) && !Misses(t, x, e, Stored(x)))
  }

  /** Of the steps that decide about a gap, the same are completed. */
  predicate Alike(e: EntryData, e': EntryData) {
    (Has(e', Allocate) <==> Has(e, Allocate)) && (Has(e', Compute) <==> Has(e, Compute))
  }

  lemma ComputeGap(t: Target, x: Attempt, rest: seq<Phase>, l: Local)
    requires t.mode != Attached && !x.noCache && Compute !in rest
    requires l.w.stored.Some? && Alike(l.w.entry, l.w.stored.value)
    ensures GapsAre(t, x, l.w.entry, RunPhases(t, x, [Compute] + rest, l))
  {
    hide RunPhase, RunPhases, Has, Facing, Restored, Executes, HasCompute;
    var first := RunPhase(t, x, Compute, l);
    NextPhase(t, x, Compute, rest, l);
    PhaseHas(t, x, Compute, l);
    ExecutesCompute(t, x, l.w.entry);
    if first.1 == Done {
      assert Has(first.0.w.entry, Compute) && Has(first.0.w.stored.value, Compute);
      LateKeeps(t, x, rest, first.0);
    }
  }

  lemma ExecutesCompute(t: Target, x: Attempt, e: EntryData)
    requires !x.noCache
    ensures Compute.Name() == "create_compute"
    ensures Executes(t, x, Compute, e) <==>
      !(Has(e, Compute) && x.answers("create_compute").verifyOk && HasCompute(t, e))
  {
  }

  lemma PlanStartsEarly(t: Target, x: Attempt) returns (rest: seq<Phase>)
    requires t.mode != Attached
    ensures Compute !in rest
    ensures Plan(t, x.seedOrder) ==
      if t.cfg.provisioner.before != "" then [Before] + ([Compute] + rest) else [Compute] + rest
  {
    var after := if t.cfg.provisioner.after != "" then [After] else [];
    rest := [Allocate] + SeedPhases(x.seedOrder) + [Build, Write] + after;
  }

  lemma PlanGap(t: Target, x: Attempt, l: Local)
    requires t.mode != Attached && !x.noCache && Ordered(t, l.w.entry)
    requires l.w.stored.Some? && Alike(l.w.entry, l.w.stored.value)
    ensures GapsAre(t, x, l.w.entry, RunPhases(t, x, Plan(t, x.seedOrder), l))
  {
    hide RunPhase, RunPhases, Plan, Has, Facing, Restored, Executes, Ordered;
    var rest := PlanStartsEarly(t, x);
    if t.cfg.provisioner.before == "" {
      ComputeGap(t, x, rest, l);
    } else {
      NextPhase(t, x, Before, [Compute] + rest, l);
      var first := RunPhase(t, x, Before, l);
      PhaseHas(t, x, Before, l);
      assert Alike(l.w.entry, first.0.w.entry) && Alike(l.w.entry, first.0.w.stored.value);
      if first.1 == Done {
        ComputeGap(t, x, rest, first.0);
        ComputeOnly(t, l.w.entry, first.0.w.entry);
      } else {
        NotBefore(t, x, l);
      }
    }
  }

  lemma ComputeOnly(t: Target, e: EntryData, e': EntryData)
    requires e'.compute == e.compute
    ensures HasCompute(t, e') == HasCompute(t, e)
  {
  }

  /** A hook before that fails has not run before, and so no step has. */
  lemma NotBefore(t: Target, x: Attempt, l: Local)
    requires t.cfg.provisioner.before != "" && !x.noCache && Ordered(t, l.w.entry)
    requires RunPhase(t, x, Before, l).1 != Done
    ensures !Has(l.w.entry, Allocate)
  {
    hide Source.Manifest, PortsIn, StringsIn, Execute;
    assert InPlan(t, Before) && InPlan(t, Allocate) && Before.Rank() < Allocate.Rank();
    assert !Has(l.w.entry, Before);
  }

  /** Where an attempt leaves a gap, given the entry that it starts from. */
  predicate LeavesGap(t: Target, x: Attempt, w: World, begun: EntryData, recorded: bool) {
    if Begin(t, x, w).1 != Done then Gap(t, begun) else t.mode != Attached && Misses(t, x, begun, recorded)
  }

  lemma ProvisionGap(t: Target, x: Attempt, w: World)
    requires AttemptListed(t, x) && w.entry == NewEntry(StartInfo(t))
    requires w.stored.Some? ==> Ordered(t, w.stored.value)
    ensures Begin(t, x, w).1 == Done && t.mode != Attached ==> Provisioned(t, x, w).0.w.stored.Some?
    ensures var b := Begin(t, x, w).0; var r := Provisioned(t, x, w).0.w;
      && (Gap(t, r.entry) <==> LeavesGap(t, x, w, b.entry, Recorded(x)))
      && (r.stored.Some? ==>
            b.stored.Some? && (Gap(t, r.stored.value) <==>
              LeavesGap(t, x, w, if Begin(t, x, w).1 == Done then b.entry else b.stored.value, Stored(x))))
  {
    hide Begin, RunPhases, Plan, Provisioned, Ordered, Has, Misses, ListsSeeds;
    ProvisionOrdered(t, x, w);
    BeginHas(t, x, w);
    FinishHas(t, x, w);
    var begun := Begin(t, x, w);
    if begun.1 == Done && t.mode != Attached {
      PlanGap(t, x, Fresh(begun.0));
    }
  }

  /** The gaps of every history of attempts, whatever failed, was killed, not saved or could not be reached: in
      memory and in the store there is none unless create_compute is missing while ports are allocated, and an
      attempt that gets past loading leaves that exactly when it starts with ports allocated and create_compute is
      not verified and fails, or, if how that went is not recorded, was missing before. */
  lemma GapOfAnAttempt(t: Target, xs: seq<Attempt>, x: Attempt)
    requires forall y :: y in xs + [x] ==> AttemptListed(t, y)
    ensures var w := Attempts(t, xs); var b := Begin(t, x, w).0; var r := Provisioned(t, x, w).0.w;
      && (!Closed(t, r.entry) <==> Gap(t, r.entry))
      && (Gap(t, r.entry) <==> LeavesGap(t, x, w, b.entry, Recorded(x)))
      && (r.stored.Some? ==>
            && (!Closed(t, r.stored.value) <==> Gap(t, r.stored.value))
            && b.stored.Some?
            && (Gap(t, r.stored.value) <==>
                  LeavesGap(t, x, w, if Begin(t, x, w).1 == Done then b.entry else b.stored.value, Stored(x))))
  {
    hide Begin, Provisioned, Attempts, Ordered, Orderly, ListsSeeds, Closed, Gap, LeavesGap;
    assert x in xs + [x] && forall y :: y in xs ==> y in xs + [x];
    assert AttemptListed(t, x);
    AttemptsOrdered(t, xs);
    var w := Attempts(t, xs);
    ProvisionOrdered(t, x, w);
    ProvisionGap(t, x, w);
    var r := Provisioned(t, x, w).0.w;
    GapMeans(t, r.entry);
    if r.stored.Some? {
      GapMeans(t, r.stored.value);
    }
  }

  // ---------- Without a loss ----------

  predicate WellMade(t: Target, c: ComputeInfo) {
    c.ssh == (t.mode == Hook) && (t.mode == Worktree ==> c.path != "")
  }

  /** The compute that create_compute makes is of the kind that the configuration asks for. */
  predicate MakesCompute(t: Target, x: Attempt) {
    t.mode != Attached ==> WellMade(t, x.compute)
  }

  /** The compute that was made can be reached whenever it is asked for. */
  predicate Reachable(t: Target, x: Attempt) {
    t.mode != Attached ==> x.answers("create_compute").verifyOk
  }

  /** With later steps completed, create_compute is neither verified nor done again, and that is recorded. */
  predicate Loses(x: Attempt, e: EntryData) {
    var a := x.answers("create_compute");
    Has(e, Compute) && Has(e, Allocate) && !a.verifyOk && !a.fnOk && Recorded(x)
  }

  ghost predicate AttemptAllowed(t: Target, x: Attempt) {
    AttemptListed(t, x) && MakesCompute(t, x)
  }

  lemma PhaseKnown(t: Target, x: Attempt, q: Phase, l: Local)
    requires !x.noCache && MakesCompute(t, x) && InPlan(t, q) && BothKnown(t, l.w)
    requires q == Allocate && t.mode != Attached ==> Has(l.w.entry, Compute) && HasCompute(t, l.w.entry)
    ensures var r := RunPhase(t, x, q, l); var lost := q == Compute && Loses(x, l.w.entry);
      && (!lost ==> Known(t, r.0.w.entry))
      && (lost ==> r.1 != Done)
      && (r.0.w.stored.Some? && !(lost && Stored(x)) ==> Known(t, r.0.w.stored.value))
      && (r.1 == Done && q == Compute ==> Has(r.0.w.entry, Compute) && HasCompute(t, r.0.w.entry))
  {
    hide RunPhase, Has, Facing, Restored, Executes;
    PhaseHas(t, x, q, l);
    ExecutesCompute(t, x, l.w.entry);
    if q == Compute && RunPhase(t, x, q, l).1 == Done {
      ComputeTakenOver(t, x, l);
    }
  }

  /** Ports are allocated where the compute is known by then. */
  predicate Ready(t: Target, plan: seq<Phase>, e: EntryData) {
    t.mode != Attached && Allocate in plan && Compute !in plan ==> Has(e, Compute) && HasCompute(t, e)
  }

  lemma ReadyLess(t: Target, x: Attempt, plan: seq<Phase>, l: Local)
    requires plan != [] && InOrder(plan) && InPlan(t, plan[0]) && Ready(t, plan, l.w.entry)
    requires RunPhase(t, x, plan[0], l).1 == Done
    requires plan[0] == Compute ==>
      Has(RunPhase(t, x, plan[0], l).0.w.entry, Compute) && HasCompute(t, RunPhase(t, x, plan[0], l).0.w.entry)
    ensures Ready(t, plan[1..], RunPhase(t, x, plan[0], l).0.w.entry)
    ensures plan[0] == Allocate ==> Compute !in plan
    ensures Compute in plan[1..] ==> plan[0] == Before
  {
    hide RunPhase, Has, Facing, Restored, Executes;
    PhaseHas(t, x, plan[0], l);
    assert plan == [plan[0]] + plan[1..];
    if Compute in plan[1..] {
      var i :| 0 <= i < |plan[1..]| && plan[1..][i] == Compute;
      assert plan[i + 1] == Compute;
    }
  }

  lemma {:induction false} PhasesKnown(t: Target, x: Attempt, plan: seq<Phase>, l: Local)
    requires !x.noCache && MakesCompute(t, x) && InOrder(plan) && (forall p :: p in plan ==> InPlan(t, p))
    requires BothKnown(t, l.w) && Ready(t, plan, l.w.entry)
    ensures var r := RunPhases(t, x, plan, l); var lost := Compute in plan && Loses(x, l.w.entry);
      && (!lost ==> Known(t, r.0.w.entry))
      && (lost ==> r.1 != Done)
      && (r.0.w.stored.Some? && !(lost && Stored(x)) ==> Known(t, r.0.w.stored.value))
  {
    hide RunPhase, Has, Known, Loses, InPlan, MakesCompute, Ready, HasCompute;
    if plan != [] {
      var first := RunPhase(t, x, plan[0], l);
      AllocateIsLate(t, plan, l.w.entry);
      PhaseKnown(t, x, plan[0], l);
      if first.1 == Done {
        ReadyLess(t, x, plan, l);
        assert InOrder(plan[1..]);
        if plan[0] == Before {
          LosesLater(t, x, l);
        }
        PhasesKnown(t, x, plan[1..], first.0);
      }
    }
  }

  lemma AllocateIsLate(t: Target, plan: seq<Phase>, e: EntryData)
    requires plan != [] && InOrder(plan) && Ready(t, plan, e)
    ensures plan[0] == Allocate && t.mode != Attached ==> Has(e, Compute) && HasCompute(t, e)
  {
    hide Has, HasCompute;
    if Compute in plan {
      var i :| 0 <= i < |plan| && plan[i] == Compute;
    }
  }

  /** The hook before does not decide what create_compute meets. */
  lemma LosesLater(t: Target, x: Attempt, l: Local)
    ensures Loses(x, RunPhase(t, x, Before, l).0.w.entry) <==> Loses(x, l.w.entry)
  {
    hide RunPhase, Has, Facing, Restored, Executes;
    PhaseHas(t, x, Before, l);
  }

  /** The attempt gets as far as create_compute, and loses it with later steps completed. */
  predicate LosesCompute(t: Target, x: Attempt, w: World) {
    t.mode != Attached && Begin(t, x, w).1 == Done && Loses(x, Begin(t, x, w).0.entry)
  }

  /** And records that in the store. */
  predicate SavesLoss(t: Target, x: Attempt, w: World) {
    LosesCompute(t, x, w) && Stored(x)
  }

  lemma ProvisionKnown(t: Target, x: Attempt, w: World)
    requires AttemptAllowed(t, x) && w.entry == NewEntry(StartInfo(t))
    requires w.stored.Some? ==> Known(t, w.stored.value)
    ensures var r := Provisioned(t, x, w).0.w;
      && BothKnown(t, Begin(t, x, w).0)
      && (!LosesCompute(t, x, w) ==> Known(t, r.entry))
      && (r.stored.Some? && !SavesLoss(t, x, w) ==> Known(t, r.stored.value))
  {
    hide Begin, RunPhases, Plan, Provisioned, Has, Known, ListsSeeds, Loses, MakesCompute;
    BeginOrdered(t, x, w);
    FinishHas(t, x, w);
    var begun, r := Begin(t, x, w), Provisioned(t, x, w).0.w;
    if begun.1 == Done {
      var plan := Plan(t, x.seedOrder);
      PlanIsInOrder(t, x);
      assert Compute in plan <==> t.mode != Attached;
      PhasesKnown(t, x, plan, Fresh(begun.0));
      var ran := RunPhases(t, x, plan, Fresh(begun.0));
      if ran.1 == Done {
        KnownSame(t, ran.0.w.entry, r.entry);
        if r.stored != ran.0.w.stored {
          LikeKeeps(t, r.entry, r.stored.value);
        }
      }
    }
  }

  lemma KnownSame(t: Target, e: EntryData, e': EntryData)
    requires Known(t, e) && SameHas(e, e') && (t.mode != Attached ==> e'.compute == e.compute)
    ensures Known(t, e')
  {
    hide Has;
  }

  lemma {:induction false} AttemptsKnown(t: Target, xs: seq<Attempt>)
    requires forall x :: x in xs ==> AttemptAllowed(t, x)
    requires forall i :: 0 <= i < |xs| ==> !SavesLoss(t, xs[i], Attempts(t, xs[..i]))
    ensures var w := Attempts(t, xs);
      w.entry == NewEntry(StartInfo(t)) && (w.stored.Some? ==> Known(t, w.stored.value))
  {
    hide Provisioned, AttemptListed, MakesCompute, Known, SavesLoss, Since;
    if xs != [] {
      var k := |xs| - 1;
      forall i | 0 <= i < k ensures !SavesLoss(t, xs[..k][i], Attempts(t, xs[..k][..i])) {
        assert xs[..k][..i] == xs[..i];
      }
      AttemptsKnown(t, xs[..k]);
      assert AttemptAllowed(t, xs[k]) && Orderly(t, xs[k]) by { Allowed(t, xs[k]); }
      ProvisionKnown(t, xs[k], Attempts(t, xs[..k]));
      SinceOrdered(t, xs[k], Provisioned(t, xs[k], Attempts(t, xs[..k])).0.w);
    }
  }

  lemma Allowed(t: Target, x: Attempt)
    requires AttemptAllowed(t, x)
    ensures AttemptListed(t, x) && Orderly(t, x) && ListsSeeds(t, x.fromSeeds) && MakesCompute(t, x)
  {
  }

  /** So, as long as no earlier attempt has saved the loss of create_compute with later steps completed, an attempt
      leaves the entry in memory without a gap unless it loses create_compute, and the stored entry unless it
      saves that. */
  lemma GapExactlyWhenComputeIsLost(t: Target, xs: seq<Attempt>, x: Attempt)
    requires forall y :: y in xs + [x] ==> AttemptAllowed(t, y)
    requires forall i :: 0 <= i < |xs| ==> !SavesLoss(t, xs[i], Attempts(t, xs[..i]))
    ensures var w := Attempts(t, xs); var r := Provisioned(t, x, w).0.w;
      && (Closed(t, r.entry) <==> !LosesCompute(t, x, w))
      && (r.stored.Some? ==> (Closed(t, r.stored.value) <==> !SavesLoss(t, x, w)))
  {
    hide Provisioned, AttemptListed, Closed, ComputeKnown, Attempts, Begin, MakesCompute;
    assert x in xs + [x] && forall y :: y in xs ==> y in xs + [x];
    AttemptsKnown(t, xs);
    GapOfAnAttempt(t, xs, x);
    ProvisionKnown(t, x, Attempts(t, xs));
  }

  /** With caching on and the compute reachable, no run of provision attempts leaves a gap: wherever an
      attempt failed or was killed, in memory and in the store a step is completed only if all steps of the
      plan that come before it are, the seeds not being ordered among themselves. */
  lemma CompletedStepsHaveNoGap(t: Target, xs: seq<Attempt>, x: Attempt)
    requires forall y :: y in xs + [x] ==> AttemptAllowed(t, y) && Reachable(t, y)
    ensures BothGapless(t, Provisioned(t, x, Attempts(t, xs)).0.w)
  {
    hide Provisioned, AttemptListed, Gapless, Begin, Has, Attempts, Known, Ordered;
    assert x in xs + [x] && forall y :: y in xs ==> y in xs + [x];
    forall i | 0 <= i < |xs| ensures !SavesLoss(t, xs[i], Attempts(t, xs[..i])) {
      assert xs[i] in xs;
    }
    AttemptsKnown(t, xs);
    AttemptsOrdered(t, xs);
    Allowed(t, x);
    var w := Attempts(t, xs);
    ProvisionKnown(t, x, w);
    ProvisionOrdered(t, x, w);
    var r := Provisioned(t, x, w).0.w;
    KnownMeans(t, r.entry);
    if r.stored.Some? {
      KnownMeans(t, r.stored.value);
    }
  }

  // ---------- A gap ----------

  /** A worktree to be made, and nothing to run in it. */
  const BARE := Target(
    ProjectConfig(1, "example", ProvisionerConfig("", "", None, map[]), None, map[], None, "", map[]),
    "example", "main", Worktree)

  const WORKS :=
    Attempt(true, Saved, "", [], Saved, false, [], n => QUIET, map[], n => map[], ComputeInfo(false, "/work"), Saved,
            [])

  /** The worktree is gone, and making it again fails. */
  const GONE := WORKS.(answers := n => QUIET.(verifyOk := false, fnOk := false))

  /** After an attempt in which nothing failed, its steps are completed in the store. */
  lemma SuccessIsStored(t: Target, x: Attempt, w: World, p: Phase)
    requires Orderly(t, x) && Smooth(x) && Provisioned(t, x, w).1 == Done && InPlan(t, p)
    ensures Provisioned(t, x, w).0.w.stored.Some? && Has(Provisioned(t, x, w).0.w.stored.value, p)
  {
    hide Begin, RunPhases, Plan, EntryData.Normal, Orderly, InPlan;
    SuccessRanThePlan(t, x, w);
    SuccessIsBuilt(t, x, w);
    PlanIsInOrder(t, x);
    PhasesComplete(t, x, Plan(t, x.seedOrder), Fresh(Begin(t, x, w).0));
    var e := Provisioned(t, x, w).0.w.entry;
    assert p in Plan(t, x.seedOrder) && p.Name() == p.Name();
    SameSteps(RunPhases(t, x, Plan(t, x.seedOrder), Fresh(Begin(t, x, w).0)).0.w.entry, e);
    SameStepsNormal(e);
  }

  lemma ExampleIsAllowed()
    ensures Orderly(BARE, WORKS) && Smooth(WORKS) && AttemptAllowed(BARE, WORKS) && AttemptAllowed(BARE, GONE)
    ensures InPlan(BARE, Compute) && InPlan(BARE, Allocate) && BARE.cfg.services == map[]
    ensures WORKS.later == [] && GONE.later == []
  {
    assert BARE.Seeds() == {};
  }

  lemma ListedAre(t: Target, x: Attempt)
    requires AttemptAllowed(t, x)
    ensures AttemptListed(t, x)
  {
  }

  lemma GoneMisses(w: World)
    requires w.stored.Some? && Has(w.stored.value, Allocate)
    ensures var b := Begin(BARE, GONE, w);
      b.1 == Done && LeavesGap(BARE, GONE, w, b.0.entry, Recorded(GONE))
      && LeavesGap(BARE, GONE, w, b.0.entry, Stored(GONE))
      && (!Has(w.stored.value, Compute) ==> !LosesCompute(BARE, GONE, w))
  {
    hide Has;
  }

  /** What is stored after the last attempt is what the next one finds. */
  lemma AfterOneMore(t: Target, xs: seq<Attempt>, x: Attempt)
    requires x.later == []
    ensures Attempts(t, xs + [x]).stored == Provisioned(t, x, Attempts(t, xs)).0.w.stored
    ensures Attempts(t, xs + [x]).entry == NewEntry(StartInfo(t))
  {
    hide Provisioned;
    assert (xs + [x])[..|xs|] == xs;
  }

  /** A history from nothing: one attempt that succeeds, one that finds the worktree gone and cannot make it
      again. What it leaves in memory and in the store has a gap, and so has what the same failure leaves once
      more, although by then nothing is lost. */
  lemma GapFromNothing()
    ensures Provisioned(BARE, WORKS, Attempts(BARE, [])).1 == Done
    ensures var r := Provisioned(BARE, GONE, Attempts(BARE, [WORKS])).0.w;
      !Closed(BARE, r.entry) && r.stored.Some? && !Closed(BARE, r.stored.value)
    ensures var w := Attempts(BARE, [WORKS, GONE]); var r := Provisioned(BARE, GONE, w).0.w;
      !LosesCompute(BARE, GONE, w) && !Closed(BARE, r.entry) && r.stored.Some? && !Closed(BARE, r.stored.value)
  {
    hide *;
    ExampleIsAllowed();
    ListedAre(BARE, WORKS);
    ListedAre(BARE, GONE);
    WithoutServicesItSucceeds(BARE, WORKS, Attempts(BARE, []));
    SuccessIsStored(BARE, WORKS, Attempts(BARE, []), Allocate);
    AfterOneMore(BARE, [], WORKS);
    assert [] + [WORKS] == [WORKS];
    GoneLeavesGap([WORKS]);
    AfterOneMore(BARE, [WORKS], GONE);
    assert [WORKS] + [GONE] == [WORKS, GONE];
    GapHas(Attempts(BARE, [WORKS, GONE]).stored.value);
    GoneLeavesGap([WORKS, GONE]);
  }

  lemma GapHas(e: EntryData)
    requires Gap(BARE, e)
    ensures Has(e, Allocate) && !Has(e, Compute)
  {
  }

  lemma BareIsMade()
    ensures BARE.mode != Attached
  {
  }

  lemma GoneLeavesGap(xs: seq<Attempt>)
    requires forall y :: y in xs + [GONE] ==> AttemptListed(BARE, y)
    requires Attempts(BARE, xs).stored.Some? && Has(Attempts(BARE, xs).stored.value, Allocate)
    ensures var w := Attempts(BARE, xs); var r := Provisioned(BARE, GONE, w).0.w;
      && !Closed(BARE, r.entry) && r.stored.Some? && !Closed(BARE, r.stored.value) && Gap(BARE, r.stored.value)
      && (!Has(w.stored.value, Compute) ==> !LosesCompute(BARE, GONE, w))
  {
    hide *;
    GoneMisses(Attempts(BARE, xs));
    GapOfAnAttempt(BARE, xs, GONE);
    AttemptsOrdered(BARE, xs) by { assert forall y :: y in xs ==> y in xs + [GONE]; }
    ProvisionGap(BARE, GONE, Attempts(BARE, xs)) by { assert GONE in xs + [GONE]; }
    assert BARE.mode != Attached by { BareIsMade(); }
  }
}
