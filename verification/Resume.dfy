/** What a provision resumed from checkpoints ends with (manager.go): the values first produced, and with
    hooks that answer the same each time the same manifest as one uninterrupted run. */
module Resume {
  import opened Prelude
  import opened Order
  import opened Config
  import opened Manifest
  import opened Entry
  import opened Checkpoint
  import opened AuditTrail
  import opened Provision
  import opened Meanwhile
  import HookOutput

  // ---------- Histories ----------

  /** Attempts one after the other, each followed by what other commands do. When a process ends the entry in
      memory is lost. */
  function Attempts(t: Target, xs: seq<Attempt>): World {
    if xs == [] then World(NewEntry(StartInfo(t)), None, [])
    else
      var x := xs[|xs| - 1];
      Since(t, x.later, Provisioned(t, x, Attempts(t, xs[..|xs| - 1])).0.w)
  }

  function Since(t: Target, later: seq<Op>, w: World): World {
    Run(later, w.(entry := NewEntry(StartInfo(t)))).(entry := NewEntry(StartInfo(t)))
  }

  /** Caching is on, the seeds run in some order, and other commands leave the provisioner's checkpoints alone. */
  ghost predicate Orderly(t: Target, x: Attempt) {
    && !x.noCache
    && Distinct(x.seedOrder) && (forall s :: s in x.seedOrder <==> s in t.Seeds())
    && forall op :: op in x.later ==> Leaves(op)
  }

  /** What the hooks and the port allocation yield, when they yield the same each time. */
  datatype Hooks = Hooks(ports: PortMap, printed: string -> EnvMap)

  ghost predicate Follows(x: Attempt, h: Option<Hooks>) {
    h.Some? ==> x.ports == h.value.ports && x.printed == h.value.printed
  }

  /** The outputs of the last execution of a step that succeeded. */
  function Last(events: seq<Event>, name: string): Option<StepOutputs> {
    if events == [] then None
    else
      var e := events[|events| - 1];
      if e.RanOk? && e.step == name then Some(e.outputs) else Last(events[..|events| - 1], name)
  }

  lemma LastOne(events: seq<Event>, e: Event, name: string)
    ensures Last(events + [e], name) == if e.RanOk? && e.step == name then Some(e.outputs) else Last(events, name)
  {
    assert (events + [e])[..|events|] == events;
  }

  // ---------- Checkpoints hold the last outputs ----------

  /** Allocation and seeding: steps whose values are read back from their checkpoints. */
  predicate ReadBack(p: Phase) {
    p.Allocate? || p.Seed?
  }

  predicate Fits(t: Target, h: Option<Hooks>, p: Phase, o: StepOutputs) {
    match p
    case Allocate =>
      o.Keys == {"ports"} && o["ports"].Ports?
      && (h.Some? ==> o["ports"].ports == WithFixed(t.cfg, h.value.ports))
    case Seed(svc) =>
      o.Keys == {"outputs"} && o["outputs"].Strings?
      && (h.Some? ==> o["outputs"].strings == h.value.printed(p.Name()))
    case _ => true
  }

  /** A completed step was last executed with the outputs recorded, up to a round trip through JSON. */
  predicate Agrees(t: Target, h: Option<Hooks>, e: EntryData, events: seq<Event>, p: Phase) {
    e.StepCompleted(p.Name()) ==>
      var last := Last(events, p.Name());
      last.Some? && Fits(t, h, p, last.value) && RoundTrip(e.steps[p.Name()].outputs) == RoundTrip(last.value)
  }

  /** The step's outputs in the entry are as read from the store. */
  predicate IsRead(e: EntryData, p: Phase) {
    e.StepCompleted(p.Name()) ==> RoundTrip(e.steps[p.Name()].outputs) == e.steps[p.Name()].outputs
  }

  predicate StoredSound(t: Target, h: Option<Hooks>, w: World, p: Phase) {
    w.stored.Some? ==> Agrees(t, h, w.stored.value, w.events, p) && IsRead(w.stored.value, p)
  }

  predicate Sound(t: Target, h: Option<Hooks>, w: World, p: Phase) {
    && Agrees(t, h, w.entry, w.events, p)
    && StoredSound(t, h, w, p)
    && (w.stored.Some? && w.stored.value.StepCompleted(p.Name()) ==> w.entry.StepCompleted(p.Name()))
  }

  lemma NormalAgrees(t: Target, h: Option<Hooks>, e: EntryData, events: seq<Event>, p: Phase)
    requires Agrees(t, h, e, events, p)
    ensures Agrees(t, h, e.Normal(), events, p) && IsRead(e.Normal(), p)
    ensures e.Normal().StepCompleted(p.Name()) <==> e.StepCompleted(p.Name())
  {
    hide Last, Fits;
    if e.StepCompleted(p.Name()) {
      RoundTripTwice(e.steps[p.Name()].outputs);
    }
  }

  /** A change that leaves the step's record and its last execution alone. */
  lemma Unaffected(t: Target, h: Option<Hooks>, e: EntryData, e': EntryData, events: seq<Event>,
                   events': seq<Event>, p: Phase)
    requires Agrees(t, h, e, events, p) && Last(events', p.Name()) == Last(events, p.Name())
    requires e'.StepCompleted(p.Name()) ==> e.StepCompleted(p.Name()) && e'.steps[p.Name()] == e.steps[p.Name()]
    ensures Agrees(t, h, e', events', p)
    ensures IsRead(e, p) ==> IsRead(e', p)
  {
    hide Last, Fits, RoundTrip;
  }

  lemma ExecuteSound(t: Target, h: Option<Hooks>, q: Phase, a: Answer, w: World, p: Phase)
    requires Sound(t, h, w, p) && (q == p ==> !w.entry.StepCompleted(p.Name()) && Fits(t, h, p, a.outputs))
    ensures Sound(t, h, Execute(q.Opts(), a, w).0, p)
    ensures q != p && IsRead(w.entry, p) ==> IsRead(Execute(q.Opts(), a, w).0.entry, p)
  {
    hide Last, Fits, RoundTrip, EntryData.Normal, Execute, StoreSet, Phase.Name;
    if a.crash == BeforeFn {
      assert Execute(q.Opts(), a, w).0 == w by { NotStarted(q.Opts(), a, w); }
    } else {
      NamesTellPhases(p, q);
      ExecuteRecords(q.Opts(), a, w);
      var r := Execute(q.Opts(), a, w).0;
      LastOne(w.events, r.events[|w.events|], p.Name());
      if q != p {
        Unaffected(t, h, w.entry, r.entry, w.events, r.events, p);
      }
      NormalAgrees(t, h, r.entry, r.events, p);
      if w.stored.Some? {
        StoreSetKeeps(w.stored, a.storeSet);
        AgreesOrNot(t, h, w.stored.value, StoreSet(w.stored, a.storeSet).value, w.events, r.events, p);
      } else {
        StoreSetKeeps(w.stored, a.storeSet);
      }
    }
  }

  lemma AgreesOrNot(t: Target, h: Option<Hooks>, e: EntryData, e': EntryData, events: seq<Event>,
                    events': seq<Event>, p: Phase)
    requires Agrees(t, h, e, events, p) && IsRead(e, p) && e'.steps == e.steps
    requires e.StepCompleted(p.Name()) ==> Last(events', p.Name()) == Last(events, p.Name())
    ensures Agrees(t, h, e', events', p) && IsRead(e', p)
  {
    hide Last, Fits, RoundTrip;
  }

  lemma StepSound(t: Target, h: Option<Hooks>, q: Phase, a: Answer, w: World, p: Phase)
    requires ReadBack(p) && Sound(t, h, w, p) && (q == p ==> Fits(t, h, p, a.outputs))
    ensures Sound(t, h, Stepped(false, q.Opts(), a, w).0, p)
    ensures q != p && IsRead(w.entry, p) ==> IsRead(Stepped(false, q.Opts(), a, w).0.entry, p)
  {
    hide Execute, Last, Fits, RoundTrip;
    NamesTellPhases(p, q);
    if !CacheHit(false, q.Opts(), w.entry) {
      ExecuteSound(t, h, q, a, w, p);
    } else if q.Opts().hasVerify && !a.verifyOk {
      ExecuteSound(t, h, q, a, w.(entry := w.entry.WithAudit(q.Name(), VerifyFailed)), p);
    } else {
      var after := Stepped(false, q.Opts(), a, w).0;
      LastOne(w.events, CacheUsed(q.Name()), p.Name());
      Unaffected(t, h, w.entry, after.entry, w.events, after.events, p);
      if w.stored.Some? {
        Unaffected(t, h, w.stored.value, w.stored.value, w.events, after.events, p);
      }
    }
  }

  /** A step that succeeds was executed, or taken from its checkpoint. */
  lemma StepDone(noCache: bool, o: StepOpts, a: Answer, w: World)
    requires Stepped(noCache, o, a, w).1 == Done
    ensures Stepped(noCache, o, a, w).0.events ==
      w.events + [if Skips(noCache, o, a, w.entry) then CacheUsed(o.name) else RanOk(o.name, a.outputs)]
    ensures Stepped(noCache, o, a, w).0.entry.CompletedSteps() == w.entry.CompletedSteps() + {o.name}
  {
    hide EntryData.Normal, RoundTrip, EntryData.CompletedSteps;
    if !Skips(noCache, o, a, w.entry) {
      RecordOne(w.entry, o.name, Completed, a.outputs);
      EnvKeeps(w.entry.WithRecord(o.name, Completed, a.outputs), Stepped(noCache, o, a, w).0.entry);
    } else {
      EnvKeeps(w.entry, Stepped(noCache, o, a, w).0.entry);
      assert o.name in w.entry.CompletedSteps() by { CompletedMeans(w.entry, o.name); }
    }
  }

  lemma CompletedMeans(e: EntryData, name: string)
    ensures e.StepCompleted(name) <==> name in e.CompletedSteps()
  {
  }

  // ---------- One phase ----------

  /** What a phase does beside the step. */
  lemma PhaseLeaves(t: Target, x: Attempt, q: Phase, l: Local)
    ensures var s := Stepped(x.noCache, q.Opts(), Facing(t, x, q, Restored(q, l)), l.w); var r := RunPhase(t, x, q, l);
      && (r.0.w == s.0 || (q == Compute && r.0.w == s.0.(entry := s.0.entry.(compute := Some(x.compute)))))
      && (r.1 == Done ==> s.1 == Done)
  {
    hide Stepped, Source.Manifest, Facing, PortsIn, StringsIn;
  }

  /** b is a, or a with an entry at k. */
  predicate SameBut(a: Outputs, b: Outputs, k: string) {
    b == a || (k in b && b == a[k := b[k]])
  }

  lemma RestoredLocals(p: Phase, l: Local)
    ensures var r := Restored(p, l);
      && r.w == l.w && r.store == l.store && r.manifest == l.manifest
      && (!p.Allocate? ==> r.ports == l.ports) && (!p.Seed? ==> r.outs == l.outs)
      && (p.Seed? ==> SameBut(l.outs, r.outs, p.svc))
  {
    hide PortsIn, StringsIn, EntryData.StepOutputs;
  }

  lemma LearnedLocals(t: Target, x: Attempt, p: Phase, l: Local, after: World)
    ensures var r := Learned(t, x, p, l, after).0;
      && (!p.Build? ==> r.store == l.store && r.manifest == l.manifest)
      && (!p.Allocate? ==> r.ports == l.ports) && (!p.Seed? ==> r.outs == l.outs)
      && (p.Seed? ==> SameBut(l.outs, r.outs, p.svc))
  {
    hide Source.Manifest, Facing, Skips;
  }

  lemma SetAtMostTwice(a: Outputs, b: Outputs, c: Outputs, k: string)
    requires SameBut(a, b, k) && SameBut(b, c, k)
    ensures c - {k} == a - {k} && c.Keys - {k} == a.Keys - {k}
  {
  }

  /** The locals that a phase does not touch. */
  lemma PhaseLocals(t: Target, x: Attempt, q: Phase, l: Local)
    ensures var r := RunPhase(t, x, q, l);
      && (!q.Allocate? ==> r.0.ports == l.ports)
      && (if q.Seed? then r.0.outs.Keys - {q.svc} == l.outs.Keys - {q.svc} && r.0.outs - {q.svc} == l.outs - {q.svc}
          else r.0.outs == l.outs)
      && (!q.Build? ==> r.0.store == l.store && r.0.manifest == l.manifest)
  {
    hide Stepped, Facing, Restored, Learned;
    var l1 := Restored(q, l);
    var s := Stepped(x.noCache, q.Opts(), Facing(t, x, q, l1), l1.w);
    RestoredLocals(q, l);
    LearnedLocals(t, x, q, l1, s.0);
    if q.Seed? {
      SetAtMostTwice(l.outs, l1.outs, l1.outs, q.svc);
      SetAtMostTwice(l.outs, l1.outs, Learned(t, x, q, l1, s.0).0.outs, q.svc);
    }
  }

  /** The locals hold what the step last produced. */
  predicate Carries(l: Local, p: Phase) {
    match p
    case Allocate => Last(l.w.events, p.Name()) == Some(map["ports" := Ports(l.ports)])
    case Seed(svc) => svc in l.outs && Last(l.w.events, p.Name()) == Some(map["outputs" := Strings(l.outs[svc])])
    case _ => true
  }

  lemma FacingFits(t: Target, h: Option<Hooks>, x: Attempt, p: Phase, l: Local)
    requires Follows(x, h) && ReadBack(p)
    ensures Fits(t, h, p, Facing(t, x, p, l).outputs)
  {
  }

  /** Reading a checkpoint back gives the values of the last execution. */
  lemma RestoredCarries(t: Target, h: Option<Hooks>, p: Phase, l: Local)
    requires ReadBack(p) && l.w.entry.StepCompleted(p.Name())
    requires Agrees(t, h, l.w.entry, l.w.events, p) && IsRead(l.w.entry, p)
    ensures Carries(Restored(p, l), p)
  {
    hide Last;
    var outputs := Last(l.w.events, p.Name()).value;
    match p
    case Allocate =>
      SavedPortsComeBack(outputs["ports"].ports);
      assert outputs == map["ports" := outputs["ports"]];
      assert RoundTrip(outputs)["ports"] == Decoded(Encode(outputs["ports"]));
    case Seed(svc) =>
      SavedStringsComeBack(outputs["outputs"].strings);
      assert outputs == map["outputs" := outputs["outputs"]];
      assert RoundTrip(outputs)["outputs"] == Decoded(Encode(outputs["outputs"]));
  }

  lemma PhaseSound(t: Target, h: Option<Hooks>, x: Attempt, q: Phase, l: Local, p: Phase)
    requires !x.noCache && Follows(x, h) && ReadBack(p) && Sound(t, h, l.w, p)
    ensures var r := RunPhase(t, x, q, l);
      Sound(t, h, r.0.w, p) && (q != p && IsRead(l.w.entry, p) ==> IsRead(r.0.w.entry, p))
  {
    hide Stepped, Last, Fits, RoundTrip, RunPhase, Facing, Restored;
    PhaseLeaves(t, x, q, l);
    var a := Facing(t, x, q, Restored(q, l));
    if q == p {
      FacingFits(t, h, x, p, Restored(q, l));
    }
    StepSound(t, h, q, a, l.w, p);
    var stepped := Stepped(false, q.Opts(), a, l.w);
    var r := RunPhase(t, x, q, l);
    Unaffected(t, h, stepped.0.entry, r.0.w.entry, r.0.w.events, r.0.w.events, p);
  }

  lemma PhaseCarries(t: Target, h: Option<Hooks>, x: Attempt, l: Local, p: Phase)
    requires !x.noCache && ReadBack(p) && Sound(t, h, l.w, p) && IsRead(l.w.entry, p)
    requires RunPhase(t, x, p, l).1 == Done
    ensures Carries(RunPhase(t, x, p, l).0, p)
  {
    hide Stepped, Last, RoundTrip, Source.Manifest, Agrees, PortsIn, StringsIn;
    var l1 := Restored(p, l);
    var a := Facing(t, x, p, l1);
    StepDone(false, p.Opts(), a, l.w);
    LastOne(l.w.events, RanOk(p.Name(), a.outputs), p.Name());
    LastOne(l.w.events, CacheUsed(p.Name()), p.Name());
    if l.w.entry.StepCompleted(p.Name()) {
      RestoredCarries(t, h, p, l);
    }
  }

  lemma PhaseKeepsCarried(t: Target, x: Attempt, q: Phase, l: Local, p: Phase)
    requires q != p && Carries(l, p) && RunPhase(t, x, q, l).1 == Done
    ensures Carries(RunPhase(t, x, q, l).0, p)
  {
    hide Stepped, Last, RunPhase, Facing, Restored, Phase.Name;
    PhaseLeaves(t, x, q, l);
    PhaseLocals(t, x, q, l);
    if p.Seed? && q.Seed? {
      assert p.svc in l.outs - {q.svc};
    }
    var a := Facing(t, x, q, Restored(q, l));
    StepDone(x.noCache, q.Opts(), a, l.w);
    NamesTellPhases(p, q);
    LastOne(l.w.events, RanOk(q.Name(), a.outputs), p.Name());
    LastOne(l.w.events, CacheUsed(q.Name()), p.Name());
  }

  // ---------- A pipeline ----------

  lemma {:induction false} PhasesSound(t: Target, h: Option<Hooks>, x: Attempt, plan: seq<Phase>, l: Local, p: Phase)
    requires !x.noCache && Follows(x, h) && ReadBack(p) && Sound(t, h, l.w, p)
    ensures Sound(t, h, RunPhases(t, x, plan, l).0.w, p)
  {
    hide RunPhase, Sound;
    if plan != [] {
      PhaseSound(t, h, x, plan[0], l, p);
      PhasesSound(t, h, x, plan[1..], RunPhase(t, x, plan[0], l).0, p);
    }
  }

  lemma {:induction false} PhasesKeepCarried(t: Target, x: Attempt, plan: seq<Phase>, l: Local, p: Phase)
    requires p !in plan && Carries(l, p) && RunPhases(t, x, plan, l).1 == Done
    ensures Carries(RunPhases(t, x, plan, l).0, p)
  {
    hide RunPhase, Carries;
    if plan != [] {
      PhaseKeepsCarried(t, x, plan[0], l, p);
      PhasesKeepCarried(t, x, plan[1..], RunPhase(t, x, plan[0], l).0, p);
    }
  }

  lemma {:induction false} PhasesCarry(t: Target, h: Option<Hooks>, x: Attempt, plan: seq<Phase>, l: Local, i: nat)
    requires i < |plan| && ReadBack(plan[i]) && (forall j :: 0 <= j < |plan| && plan[j] == plan[i] ==> j == i)
    requires !x.noCache && Follows(x, h) && Sound(t, h, l.w, plan[i]) && IsRead(l.w.entry, plan[i])
    requires RunPhases(t, x, plan, l).1 == Done
    ensures Carries(RunPhases(t, x, plan, l).0, plan[i])
  {
    hide RunPhase, Sound, IsRead, Carries;
    var next := RunPhase(t, x, plan[0], l).0;
    if i == 0 {
      PhaseCarries(t, h, x, l, plan[0]);
      PhasesKeepCarried(t, x, plan[1..], next, plan[0]);
    } else {
      PhaseSound(t, h, x, plan[0], l, plan[i]);
      assert plan[0] != plan[i];
      PhasesCarry(t, h, x, plan[1..], next, i - 1);
    }
  }

  lemma PhaseCompletes(t: Target, x: Attempt, q: Phase, l: Local)
    requires RunPhase(t, x, q, l).1 == Done
    ensures RunPhase(t, x, q, l).0.w.entry.CompletedSteps() == l.w.entry.CompletedSteps() + {q.Name()}
  {
    hide RunPhase, Facing, Restored, Stepped, EntryData.CompletedSteps;
    PhaseLeaves(t, x, q, l);
    var a := Facing(t, x, q, Restored(q, l));
    StepDone(x.noCache, q.Opts(), a, l.w);
    EnvKeeps(Stepped(x.noCache, q.Opts(), a, l.w).0.entry, RunPhase(t, x, q, l).0.w.entry);
  }

  /** After a pipeline that succeeds exactly its steps are completed beside the earlier ones. */
  lemma {:induction false} PhasesComplete(t: Target, x: Attempt, plan: seq<Phase>, l: Local)
    requires RunPhases(t, x, plan, l).1 == Done
    ensures forall n :: RunPhases(t, x, plan, l).0.w.entry.StepCompleted(n) <==>
      l.w.entry.StepCompleted(n) || exists q :: q in plan && q.Name() == n
  {
    hide RunPhase;
    if plan != [] {
      var first := RunPhase(t, x, plan[0], l).0;
      PhaseCompletes(t, x, plan[0], l);
      assert forall n :: first.w.entry.StepCompleted(n) <==> n in first.w.entry.CompletedSteps();
      PhasesComplete(t, x, plan[1..], first);
    }
  }

  // ---------- The plan ----------

  ghost predicate InOrder(plan: seq<Phase>) {
    forall i, j :: 0 <= i < j < |plan| ==>
      plan[i] != plan[j] && plan[i].Rank() <= plan[j].Rank() && (plan[i].Rank() == plan[j].Rank() ==> plan[i].Seed?)
  }

  ghost predicate Between(plan: seq<Phase>, lo: nat, hi: nat) {
    InOrder(plan) && forall p :: p in plan ==> lo <= p.Rank() < hi
  }

  lemma Appended(a: seq<Phase>, b: seq<Phase>, k: nat, hi: nat)
    requires Between(a, 0, k) && Between(b, k, hi) && k <= hi
    ensures Between(a + b, 0, hi)
  {
    forall i, j | 0 <= i < |a| <= j < |a + b| ensures (a + b)[i].Rank() < (a + b)[j].Rank() {
      assert (a + b)[i] in a && (a + b)[j] in b;
    }
  }

  lemma ShortInOrder(p: Phase, there: bool)
    ensures Between(When(p, there), p.Rank(), p.Rank() + 1)
  {
  }

  lemma SeedsInOrder(t: Target, x: Attempt)
    requires Orderly(t, x)
    ensures Between(SeedPhases(x.seedOrder), 3, 4)
    ensures forall p :: p in SeedPhases(x.seedOrder) <==> p.Seed? && p.svc in t.Seeds()
  {
    hide Target.Seeds;
    forall svc | svc in t.Seeds() ensures Seed(svc) in SeedPhases(x.seedOrder) {
      var i :| 0 <= i < |x.seedOrder| && x.seedOrder[i] == svc;
      assert SeedPhases(x.seedOrder)[i] == Seed(svc);
    }
  }

  lemma PlanHolds(t: Target, x: Attempt)
    requires Orderly(t, x)
    ensures forall p :: p in Plan(t, x.seedOrder) <==> InPlan(t, p)
  {
    hide Target.Seeds, SeedPhases, InOrder, Orderly;
    SeedsInOrder(t, x);
  }

  function When(p: Phase, there: bool): seq<Phase> {
    if there then [p] else []
  }

  lemma PlanPieces(t: Target, seedOrder: seq<string>)
    ensures Plan(t, seedOrder) ==
      When(Before, t.cfg.provisioner.before != "") + When(Compute, t.mode != Attached) + When(Allocate, true)
      + SeedPhases(seedOrder) + When(Build, true) + When(Write, true) + When(After, t.cfg.provisioner.after != "")
  {
    hide SeedPhases;
  }

  /** The plan holds the phases that are configured, each once, and earlier ones first. */
  lemma PlanIsInOrder(t: Target, x: Attempt)
    requires Orderly(t, x)
    ensures InOrder(Plan(t, x.seedOrder)) && forall p :: p in Plan(t, x.seedOrder) <==> InPlan(t, p)
  {
    hide Target.Seeds, Between, Orderly, SeedPhases, InPlan, When, Plan;
    PlanHolds(t, x);
    PlanPieces(t, x.seedOrder);
    var before, compute := When(Before, t.cfg.provisioner.before != ""), When(Compute, t.mode != Attached);
    var after, seeds := When(After, t.cfg.provisioner.after != ""), SeedPhases(x.seedOrder);
    ShortInOrder(Before, t.cfg.provisioner.before != "");
    ShortInOrder(Compute, t.mode != Attached);
    ShortInOrder(Allocate, true);
    SeedsInOrder(t, x);
    ShortInOrder(Build, true);
    ShortInOrder(Write, true);
    ShortInOrder(After, t.cfg.provisioner.after != "");
    Appended(before, compute, 1, 2);
    var upTo2 := before + compute;
    Appended(upTo2, When(Allocate, true), 2, 3);
    var upTo3 := upTo2 + When(Allocate, true);
    Appended(upTo3, seeds, 3, 4);
    Appended(upTo3 + seeds, When(Build, true), 4, 5);
    var upTo5 := upTo3 + seeds + When(Build, true);
    Appended(upTo5, When(Write, true), 5, 6);
    Appended(upTo5 + When(Write, true), after, 6, 7);
    BetweenIsInOrder(Plan(t, x.seedOrder));
  }

  lemma BetweenIsInOrder(plan: seq<Phase>)
    requires Between(plan, 0, 7)
    ensures InOrder(plan)
  {
  }

  /** The manifest is the one the locals give. */
  predicate Built(t: Target, l: Local) {
    l.manifest.Some? && t.Source(l.ports, l.outs, l.store).Manifest() == Ok(l.manifest.value)
  }

  lemma {:induction false} LatePhasesKeep(t: Target, x: Attempt, plan: seq<Phase>, l: Local)
    requires forall q :: q in plan ==> q.Rank() > Build.Rank()
    ensures var r := RunPhases(t, x, plan, l).0;
      r.ports == l.ports && r.outs == l.outs && r.store == l.store && r.manifest == l.manifest
  {
    hide RunPhase;
    if plan != [] {
      assert plan[0] in plan && (plan[0].Write? || plan[0].After?);
      PhaseLocals(t, x, plan[0], l);
      LatePhasesKeep(t, x, plan[1..], RunPhase(t, x, plan[0], l).0);
    }
  }

  lemma {:induction false} PhasesBuild(t: Target, x: Attempt, plan: seq<Phase>, l: Local, i: nat)
    requires InOrder(plan) && i < |plan| && plan[i] == Build && RunPhases(t, x, plan, l).1 == Done
    ensures Built(t, RunPhases(t, x, plan, l).0)
  {
    hide Stepped, Source.Manifest, Facing, Restored;
    var next := RunPhase(t, x, plan[0], l).0;
    if i == 0 {
      assert forall q :: q in plan[1..] ==> q.Rank() > Build.Rank();
      LatePhasesKeep(t, x, plan[1..], next);
    } else {
      assert InOrder(plan[1..]);
      PhasesBuild(t, x, plan[1..], next, i - 1);
    }
  }

  /** Only seeds of the plan put outputs into the locals. */
  lemma {:induction false} PhasesOuts(t: Target, x: Attempt, plan: seq<Phase>, l: Local)
    ensures forall svc :: svc in RunPhases(t, x, plan, l).0.outs ==> svc in l.outs || Seed(svc) in plan
  {
    hide RunPhase, Stepped;
    if plan != [] {
      var first := RunPhase(t, x, plan[0], l).0;
      PhaseLocals(t, x, plan[0], l);
      forall svc | svc in first.outs ensures svc in l.outs || Seed(svc) == plan[0] {
        assert plan[0].Seed? && svc != plan[0].svc ==> svc in first.outs.Keys - {plan[0].svc};
      }
      PhasesOuts(t, x, plan[1..], first);
    }
  }

  // ---------- Attempts ----------

  /** Loading or creating, and the sound store it leaves. */
  lemma CreatedSound(t: Target, h: Option<Hooks>, x: Attempt, w: World, p: Phase)
    requires w.entry == NewEntry(StartInfo(t)) && StoredSound(t, h, w, p)
    ensures var created := if w.stored.Some? then w.stored.value else w.entry;
      && Agrees(t, h, created, w.events, p) && IsRead(created, p)
      && Sound(t, h, World(created, w.stored, w.events), p)
      && Sound(t, h, World(created, Some(created.Normal()), w.events), p)
  {
    hide Agrees, IsRead, EntryData.Normal;
    var created := if w.stored.Some? then w.stored.value else w.entry;
    NothingCompleted(t, h, w, p);
    NormalAgrees(t, h, created, w.events, p);
  }

  lemma InvalidatedSound(t: Target, h: Option<Hooks>, x: Attempt, e: EntryData, events: seq<Event>, p: Phase)
    requires Agrees(t, h, e, events, p) && IsRead(e, p)
    ensures var e' := InvalidatedFrom(e, x.fromStep, StepOrder(x.fromSeeds));
      IsRead(e', p) && Sound(t, h, World(e', Some(e'.Normal()), events), p)
  {
    hide Agrees, IsRead, EntryData.Normal, InvalidatedFrom, StepOrder;
    InvalidatedAgrees(t, h, x, e, events, p);
    NormalAgrees(t, h, InvalidatedFrom(e, x.fromStep, StepOrder(x.fromSeeds)), events, p);
  }

  lemma BeginSound(t: Target, h: Option<Hooks>, x: Attempt, w: World, p: Phase)
    requires w.entry == NewEntry(StartInfo(t)) && StoredSound(t, h, w, p)
    ensures var r := Begin(t, x, w);
      && StoredSound(t, h, r.0, p)
      && (r.1 == Done ==> Sound(t, h, r.0, p) && IsRead(r.0.entry, p))
  {
    hide EntryData.Normal, InvalidatedFrom, StepOrder, Agrees, IsRead;
    if x.loadOk {
      var created := if w.stored.Some? then w.stored.value else w.entry;
      CreatedSound(t, h, x, w, p);
      InvalidatedSound(t, h, x, created, w.events, p);
    }
  }

  lemma NothingCompleted(t: Target, h: Option<Hooks>, w: World, p: Phase)
    requires w.entry == NewEntry(StartInfo(t))
    ensures Agrees(t, h, w.entry, w.events, p) && IsRead(w.entry, p)
  {
  }

  lemma InvalidatedAgrees(t: Target, h: Option<Hooks>, x: Attempt, e: EntryData, events: seq<Event>, p: Phase)
    requires Agrees(t, h, e, events, p)
    ensures var e' := InvalidatedFrom(e, x.fromStep, StepOrder(x.fromSeeds));
      Agrees(t, h, e', events, p) && (IsRead(e, p) ==> IsRead(e', p))
  {
    hide DroppedAll, From, StepOrder, Agrees, IsRead;
    var gone := From(x.fromStep, StepOrder(x.fromSeeds));
    DroppingKeeps(e, gone);
    Unaffected(t, h, e, DroppedAll(e, gone), events, events, p);
  }

  lemma ProvisionSound(t: Target, h: Option<Hooks>, x: Attempt, w: World, p: Phase)
    requires Orderly(t, x) && Follows(x, h) && ReadBack(p)
    requires w.entry == NewEntry(StartInfo(t)) && StoredSound(t, h, w, p)
    ensures StoredSound(t, h, Provisioned(t, x, w).0.w, p)
  {
    hide Last, Fits, RoundTrip, EntryData.Normal, Begin, RunPhases, Plan;
    BeginSound(t, h, x, w, p);
    var begun := Begin(t, x, w);
    if begun.1 == Done {
      PhasesSound(t, h, x, Plan(t, x.seedOrder), Fresh(begun.0), p);
      var ran := RunPhases(t, x, Plan(t, x.seedOrder), Fresh(begun.0));
      if ran.1 == Done && ran.0.manifest.Some? {
        var e := ran.0.w.entry;
        var r := Provisioned(t, x, w).0;
        NormalAgrees(t, h, e, ran.0.w.events, p);
        Unaffected(t, h, e, r.w.entry, ran.0.w.events, ran.0.w.events, p);
        NormalAgrees(t, h, r.w.entry, ran.0.w.events, p);
      }
    }
  }

  /** What other commands do leaves the checkpoints sound. */
  lemma OpSound(t: Target, h: Option<Hooks>, op: Op, w: World, p: Phase)
    requires Leaves(op) && Agrees(t, h, w.entry, w.events, p) && StoredSound(t, h, w, p)
    ensures var r := Apply(op, w); Agrees(t, h, r.entry, r.events, p) && StoredSound(t, h, r, p)
  {
    hide Apply, Last, Fits, RoundTrip, EntryData.Normal, Phase.Name;
    var r := Apply(op, w);
    OpLeaves(op, w);
    assert Last(r.events, p.Name()) == Last(w.events, p.Name()) by { BesideIsNotLast(w.events, r.events, p); }
    if Kin(w.entry, r.entry) {
      Unaffected(t, h, w.entry, r.entry, w.events, r.events, p);
    }
    if w.stored.Some? && Kin(w.stored.value, r.entry) {
      Unaffected(t, h, w.stored.value, r.entry, w.events, r.events, p);
    }
    if r.stored.Some? && w.stored.Some? && Kin(w.stored.value, r.stored.value) {
      Unaffected(t, h, w.stored.value, r.stored.value, w.events, r.events, p);
    }
    if r.stored.Some? && Kin(w.entry.Normal(), r.stored.value) {
      NormalAgrees(t, h, w.entry, w.events, p);
      Unaffected(t, h, w.entry.Normal(), r.stored.value, w.events, r.events, p);
    }
  }

  lemma BesideIsNotLast(events: seq<Event>, events': seq<Event>, p: Phase)
    requires Beside(events, events')
    ensures Last(events', p.Name()) == Last(events, p.Name())
  {
    hide Phase.Name;
  }

  lemma {:induction false} RunSound(t: Target, h: Option<Hooks>, ops: seq<Op>, w: World, p: Phase)
    requires forall op :: op in ops ==> Leaves(op)
    requires Agrees(t, h, w.entry, w.events, p) && StoredSound(t, h, w, p)
    ensures var r := Run(ops, w); Agrees(t, h, r.entry, r.events, p) && StoredSound(t, h, r, p)
  {
    hide Apply, Leaves, Agrees, StoredSound;
    if ops != [] {
      RunSound(t, h, ops[..|ops| - 1], w, p);
      OpSound(t, h, ops[|ops| - 1], Run(ops[..|ops| - 1], w), p);
    }
  }

  lemma SinceSound(t: Target, h: Option<Hooks>, x: Attempt, w: World, p: Phase)
    requires Orderly(t, x) && StoredSound(t, h, w, p)
    ensures StoredSound(t, h, Since(t, x.later, w), p)
  {
    hide Agrees, IsRead, Run, Leaves;
    NothingCompleted(t, h, w.(entry := NewEntry(StartInfo(t))), p);
    RunSound(t, h, x.later, w.(entry := NewEntry(StartInfo(t))), p);
  }

  lemma {:induction false} AttemptsSound(t: Target, h: Option<Hooks>, xs: seq<Attempt>, p: Phase)
    requires ReadBack(p) && forall x :: x in xs ==> Orderly(t, x) && Follows(x, h)
    ensures StoredSound(t, h, Attempts(t, xs), p) && Attempts(t, xs).entry == NewEntry(StartInfo(t))
  {
    hide Provisioned, Last, Fits, RoundTrip, Orderly, Follows, Run;
    if xs != [] {
      var before, x := xs[..|xs| - 1], xs[|xs| - 1];
      AttemptsSound(t, h, before, p);
      ProvisionSound(t, h, x, Attempts(t, before), p);
      SinceSound(t, h, x, Provisioned(t, x, Attempts(t, before)).0.w, p);
    }
  }

  /** A successful attempt finishes its pipeline. */
  lemma SuccessRanThePlan(t: Target, x: Attempt, w: World)
    requires Provisioned(t, x, w).1 == Done
    ensures var begun := Begin(t, x, w); var ran := RunPhases(t, x, Plan(t, x.seedOrder), Fresh(begun.0));
      begun.1 == Done && ran.1 == Done && Provisioned(t, x, w).0.w.events == ran.0.w.events
      && Provisioned(t, x, w).0 == ran.0.(w := Provisioned(t, x, w).0.w)
  {
    hide Begin, RunPhases, Plan, EntryData.Normal;
  }

  lemma SuccessCarries(t: Target, h: Option<Hooks>, xs: seq<Attempt>, x: Attempt, p: Phase)
    requires forall y :: y in xs ==> Orderly(t, y) && Follows(y, h)
    requires Orderly(t, x) && Follows(x, h) && ReadBack(p) && InPlan(t, p)
    requires Provisioned(t, x, Attempts(t, xs)).1 == Done
    ensures Carries(Provisioned(t, x, Attempts(t, xs)).0, p)
    ensures Fits(t, h, p, Last(Provisioned(t, x, Attempts(t, xs)).0.w.events, p.Name()).GetOr(map[]))
  {
    hide Provisioned, Begin, RunPhases, Plan, InPlan, Follows, Fits, Last, Attempts;
    var w := Attempts(t, xs);
    SuccessRanThePlan(t, x, w);
    AttemptsSound(t, h, xs, p);
    BeginSound(t, h, x, w, p);
    PlanIsInOrder(t, x);
    var plan := Plan(t, x.seedOrder);
    var i :| 0 <= i < |plan| && plan[i] == p;
    PhasesCarry(t, h, x, plan, Fresh(Begin(t, x, w).0), i);
    PhasesSound(t, h, x, plan, Fresh(Begin(t, x, w).0), p);
    PhasesComplete(t, x, plan, Fresh(Begin(t, x, w).0));
  }

  /** Whatever attempts failed, were killed, could not save or started over from a step: the attempt that
      succeeds builds its manifest from the ports last allocated and the outputs each seed last produced. */
  lemma ResumeRestoresWhatWasProduced(t: Target, xs: seq<Attempt>, x: Attempt)
    requires Orderly(t, x) && forall y :: y in xs ==> Orderly(t, y)
    requires Provisioned(t, x, Attempts(t, xs)).1 == Done
    ensures var l := Provisioned(t, x, Attempts(t, xs)).0;
      && Built(t, l)
      && Last(l.w.events, "allocate_ports") == Some(map["ports" := Ports(l.ports)])
      && l.outs.Keys == t.Seeds()
      && forall s :: s in t.Seeds() ==> Last(l.w.events, "seed_" + s) == Some(map["outputs" := Strings(l.outs[s])])
  {
    hide Provisioned, Begin, RunPhases, Plan, Orderly, Last, Attempts, Built, Target.Seeds;
    var w := Attempts(t, xs);
    var l := Provisioned(t, x, w).0;
    SuccessIsBuilt(t, x, w);
    SuccessCarries(t, None, xs, x, Allocate);
    forall s | s in t.Seeds()
      ensures s in l.outs && Last(l.w.events, "seed_" + s) == Some(map["outputs" := Strings(l.outs[s])])
    {
      SuccessCarries(t, None, xs, x, Seed(s));
    }
  }

  lemma SuccessIsBuilt(t: Target, x: Attempt, w: World)
    requires Orderly(t, x) && Provisioned(t, x, w).1 == Done
    ensures Built(t, Provisioned(t, x, w).0) && Provisioned(t, x, w).0.outs.Keys <= t.Seeds()
  {
    hide Provisioned, Begin, RunPhases, Plan, Orderly, Source.Manifest, Target.Seeds;
    SuccessRanThePlan(t, x, w);
    PlanIsInOrder(t, x);
    var plan, l := Plan(t, x.seedOrder), Fresh(Begin(t, x, w).0);
    assert Build in plan;
    var i :| 0 <= i < |plan| && plan[i] == Build;
    PhasesBuild(t, x, plan, l, i);
    PhasesOuts(t, x, plan, l);
    forall s | s in RunPhases(t, x, plan, l).0.outs ensures s in t.Seeds() {
      assert Seed(s) in plan && InPlan(t, Seed(s));
    }
  }

  // ---------- The store ----------

  /** What create_compute exports. */
  function Exports(t: Target, h: Hooks): EnvMap {
    if t.mode == Hook then HookOutput.Globals(h.printed("create_compute")) else map[]
  }

  function StoreOf(exports: EnvMap): Option<EnvMap> {
    if exports == map[] then None else Some(exports)
  }

  /** The operation does not write to the store. */
  predicate StoresNothing(op: Op) {
    match op
    case DoStep(_, _, a) => a.storeSet == map[] && a.globals == map[]
    case Elsewhere(vars) => vars == map[]
    case _ => true
  }

  /** Nothing but create_compute's hook writes to the store. */
  ghost predicate Quiet(t: Target, x: Attempt, h: Hooks) {
    && Follows(x, Some(h))
    && (forall n :: x.answers(n).storeSet == map[])
    && (forall s :: s in t.Seeds() ==> HookOutput.Globals(h.printed("seed_" + s)) == map[])
    && forall op :: op in x.later ==> StoresNothing(op)
  }

  predicate StoreFits(exports: EnvMap, e: EntryData) {
    (e.env == None || e.env == StoreOf(exports))
    && (e.StepCompleted("create_compute") ==> e.env == StoreOf(exports))
  }

  predicate StoresFit(exports: EnvMap, w: World) {
    StoreFits(exports, w.entry) && (w.stored.Some? ==> StoreFits(exports, w.stored.value))
  }

  lemma ExecuteFits(exports: EnvMap, o: StepOpts, a: Answer, w: World)
    requires StoresFit(exports, w) && a.storeSet == map[]
    requires a.globals == if o.name == "create_compute" then exports else map[]
    ensures var r := Execute(o, a, w).0;
      StoresFit(exports, r) && (w.entry.env == StoreOf(exports) ==> r.entry.env == StoreOf(exports))
  {
    hide RoundTrip, Execute, EntryData.Normal;
    if a.crash == BeforeFn {
      NotStarted(o, a, w);
    } else {
      ExecuteRecords(o, a, w);
      ExecuteEnv(exports, o, a, w);
      NormalFits(exports, Execute(o, a, w).0.entry);
    }
  }

  lemma ExecuteEnv(exports: EnvMap, o: StepOpts, a: Answer, w: World)
    requires StoresFit(exports, w) && a.storeSet == map[] && a.globals in {exports, map[]}
    ensures var r := Execute(o, a, w).0;
      && (r.entry.env == w.entry.env || r.entry.env == StoreOf(exports))
      && (a.crash == NoCrash && a.fnOk && a.globals == exports ==> r.entry.env == StoreOf(exports))
      && StoreSet(w.stored, a.storeSet) == w.stored
  {
    hide RoundTrip, EntryData.Normal;
    assert map[] + exports == exports && exports + exports == exports;
  }

  lemma NormalFits(exports: EnvMap, e: EntryData)
    requires StoreFits(exports, e)
    ensures StoreFits(exports, e.Normal())
  {
    hide RoundTrip;
  }

  lemma StepFits(exports: EnvMap, noCache: bool, o: StepOpts, a: Answer, w: World)
    requires StoresFit(exports, w) && a.storeSet == map[]
    requires a.globals == if o.name == "create_compute" then exports else map[]
    ensures var r := Stepped(noCache, o, a, w).0;
      StoresFit(exports, r) && (w.entry.env == StoreOf(exports) ==> r.entry.env == StoreOf(exports))
  {
    hide Execute;
    ExecuteFits(exports, o, a, w);
    ExecuteFits(exports, o, a, w.(entry := w.entry.WithAudit(o.name, VerifyFailed)));
  }

  lemma PhaseFits(t: Target, h: Hooks, x: Attempt, q: Phase, l: Local)
    requires Quiet(t, x, h) && InPlan(t, q) && StoresFit(Exports(t, h), l.w)
    ensures var r := RunPhase(t, x, q, l); var store := StoreOf(Exports(t, h));
      && StoresFit(Exports(t, h), r.0.w)
      && (r.1 == Done && (l.w.entry.env == store || q == Compute) ==> r.0.w.entry.env == store)
      && (r.1 == Done && l.w.entry.env == store && q == Build ==> r.0.store == store.GetOr(map[]))
      && (q != Build ==> r.0.store == l.store)
  {
    hide Stepped, RunPhase, Restored, Facing, Exports, Quiet, StoreOf, InPlan, Phase.Name;
    PhaseLeaves(t, x, q, l);
    PhaseLocals(t, x, q, l);
    var a := Facing(t, x, q, Restored(q, l));
    FacingExports(t, h, x, q, Restored(q, l));
    StepFits(Exports(t, h), x.noCache, q.Opts(), a, l.w);
    if q == Compute && Stepped(x.noCache, q.Opts(), a, l.w).1 == Done {
      StepDone(x.noCache, q.Opts(), a, l.w);
      ComputeStepName();
      CompletedMeans(Stepped(x.noCache, q.Opts(), a, l.w).0.entry, q.Name());
    }
    if q == Build && RunPhase(t, x, q, l).1 == Done {
      BuildTakesStore(t, x, l);
    }
  }

  lemma ComputeStepName()
    ensures Compute.Name() == "create_compute"
  {
  }

  lemma BuildTakesStore(t: Target, x: Attempt, l: Local)
    requires RunPhase(t, x, Build, l).1 == Done
    ensures RunPhase(t, x, Build, l).0.store in
      {l.w.entry.env.GetOr(map[]), RunPhase(t, x, Build, l).0.w.entry.env.GetOr(map[])}
  {
    hide Stepped, Source.Manifest, Facing;
  }

  lemma FacingExports(t: Target, h: Hooks, x: Attempt, q: Phase, l: Local)
    requires Quiet(t, x, h) && InPlan(t, q)
    ensures Facing(t, x, q, l).storeSet == map[]
    ensures Facing(t, x, q, l).globals == if q.Name() == "create_compute" then Exports(t, h) else map[]
  {
    hide Source.Manifest, Target.Seeds;
    NamesTellPhases(q, Compute);
  }

  /** Once the exports are in the store they stay, and the manifest is built with them. */
  lemma {:induction false} PhasesFit(t: Target, h: Hooks, x: Attempt, plan: seq<Phase>, l: Local)
    requires Quiet(t, x, h) && StoresFit(Exports(t, h), l.w) && forall q :: q in plan ==> InPlan(t, q)
    ensures var r := RunPhases(t, x, plan, l); var store := StoreOf(Exports(t, h));
      && StoresFit(Exports(t, h), r.0.w)
      && (r.1 == Done && l.w.entry.env == store ==>
            r.0.w.entry.env == store
            && (Build in plan || l.store == store.GetOr(map[]) ==> r.0.store == store.GetOr(map[])))
  {
    hide RunPhase, StoresFit, Quiet, InPlan, StoreOf, Exports;
    if plan != [] {
      PhaseFits(t, h, x, plan[0], l);
      PhasesFit(t, h, x, plan[1..], RunPhase(t, x, plan[0], l).0);
    }
  }

  /** The steps that come before the ports, as far as they are configured, and then others. */
  function Early(t: Target, rest: seq<Phase>): seq<Phase> {
    var late := if t.mode != Attached then [Compute] + rest else rest;
    if t.cfg.provisioner.before != "" then [Before] + late else late
  }

  /** The first steps are enough to fill the store. */
  lemma EarlyFits(t: Target, h: Hooks, x: Attempt, rest: seq<Phase>, l: Local)
    requires Quiet(t, x, h) && StoresFit(Exports(t, h), l.w) && forall q :: q in rest ==> InPlan(t, q)
    ensures var r := RunPhases(t, x, Early(t, rest), l);
      && StoresFit(Exports(t, h), r.0.w)
      && (r.1 == Done ==>
            r.0.w.entry.env == StoreOf(Exports(t, h)) && (Build in rest ==> r.0.store == Exports(t, h)))
  {
    hide RunPhase, RunPhases, StoresFit, Quiet, Exports, StoreOf;
    var late := if t.mode != Attached then [Compute] + rest else rest;
    if t.cfg.provisioner.before == "" {
      ComputeFits(t, h, x, rest, l);
    } else {
      PhaseFits(t, h, x, Before, l);
      NextPhase(t, x, Before, late, l);
      var first := RunPhase(t, x, Before, l);
      if first.1 == Done {
        ComputeFits(t, h, x, rest, first.0);
      }
    }
  }

  lemma ComputeFits(t: Target, h: Hooks, x: Attempt, rest: seq<Phase>, l: Local)
    requires Quiet(t, x, h) && StoresFit(Exports(t, h), l.w) && forall q :: q in rest ==> InPlan(t, q)
    ensures var r := RunPhases(t, x, if t.mode != Attached then [Compute] + rest else rest, l);
      && StoresFit(Exports(t, h), r.0.w)
      && (r.1 == Done ==>
            r.0.w.entry.env == StoreOf(Exports(t, h)) && (Build in rest ==> r.0.store == Exports(t, h)))
  {
    hide RunPhase, RunPhases, StoresFit, Quiet, Exports, StoreOf;
    StoreStarts(t, h, l.w);
    if t.mode == Attached {
      PhasesFit(t, h, x, rest, l);
    } else {
      PhaseFits(t, h, x, Compute, l);
      NextPhase(t, x, Compute, rest, l);
      PhasesFit(t, h, x, rest, RunPhase(t, x, Compute, l).0);
    }
  }

  lemma PlanFits(t: Target, h: Hooks, x: Attempt, l: Local)
    requires Orderly(t, x) && Quiet(t, x, h) && StoresFit(Exports(t, h), l.w)
    ensures var r := RunPhases(t, x, Plan(t, x.seedOrder), l);
      StoresFit(Exports(t, h), r.0.w) && (r.1 == Done ==> r.0.store == Exports(t, h))
  {
    hide RunPhase, RunPhases, StoresFit, Quiet, InPlan, SeedPhases, Exports, StoreOf;
    PlanIsInOrder(t, x);
    var tail := [Build, Write] + if t.cfg.provisioner.after != "" then [After] else [];
    var rest := [Allocate] + (SeedPhases(x.seedOrder) + tail);
    assert Plan(t, x.seedOrder) == Early(t, rest);
    assert Build in rest && forall q :: q in rest ==> q in Plan(t, x.seedOrder);
    EarlyFits(t, h, x, rest, l);
  }

  lemma StoreStarts(t: Target, h: Hooks, w: World)
    requires StoresFit(Exports(t, h), w)
    ensures t.mode != Hook ==> w.entry.env == StoreOf(Exports(t, h))
    ensures StoreOf(Exports(t, h)).GetOr(map[]) == Exports(t, h)
  {
  }

  lemma BeginFits(t: Target, x: Attempt, exports: EnvMap, w: World)
    requires w.entry == NewEntry(StartInfo(t)) && StoresFit(exports, w)
    ensures StoresFit(exports, Begin(t, x, w).0)
  {
    hide RoundTrip, EntryData.Normal, DroppedAll, From, StepOrder;
    if x.loadOk {
      var created := if w.stored.Some? then w.stored.value else w.entry;
      NormalFits(exports, created);
      var gone := From(x.fromStep, StepOrder(x.fromSeeds));
      DroppingKeeps(created, gone);
      DroppingKeepsEnv(created, gone);
      NormalFits(exports, DroppedAll(created, gone));
    }
  }

  lemma ProvisionFits(t: Target, h: Hooks, x: Attempt, w: World)
    requires Orderly(t, x) && Quiet(t, x, h)
    requires w.entry == NewEntry(StartInfo(t)) && StoresFit(Exports(t, h), w)
    ensures StoresFit(Exports(t, h), Provisioned(t, x, w).0.w)
    ensures Provisioned(t, x, w).1 == Done ==> Provisioned(t, x, w).0.store == Exports(t, h)
  {
    hide EntryData.Normal, Begin, RunPhases, Plan, Quiet, Exports, Orderly;
    BeginFits(t, x, Exports(t, h), w);
    var begun := Begin(t, x, w);
    if begun.1 == Done {
      PlanFits(t, h, x, Fresh(begun.0));
      var ran := RunPhases(t, x, Plan(t, x.seedOrder), Fresh(begun.0));
      if ran.1 == Done && ran.0.manifest.Some? {
        NormalFits(Exports(t, h), Provisioned(t, x, w).0.w.entry);
      }
    }
    if Provisioned(t, x, w).1 == Done {
      SuccessRanThePlan(t, x, w);
    }
  }

  lemma OpFits(exports: EnvMap, op: Op, w: World)
    requires Leaves(op) && StoresNothing(op) && StoresFit(exports, w)
    ensures StoresFit(exports, Apply(op, w))
  {
    hide RoundTrip, EntryData.Normal, Stepped, DroppedAll, From;
    assert "create_compute" == Compute.Name();
    match op
    case DoStep(noCache, o, a) => StepFits(exports, noCache, o, a, w);
    case DoInvalidateFrom(step, order) =>
      DroppingKeeps(w.entry, From(step, order));
      DroppingKeepsEnv(w.entry, From(step, order));
    case DoSave(save) => NormalFits(exports, w.entry);
    case _ =>
  }

  lemma {:induction false} RunFits(exports: EnvMap, ops: seq<Op>, w: World)
    requires (forall op :: op in ops ==> Leaves(op) && StoresNothing(op)) && StoresFit(exports, w)
    ensures StoresFit(exports, Run(ops, w))
  {
    hide Apply, Leaves, StoresNothing, StoresFit;
    if ops != [] {
      RunFits(exports, ops[..|ops| - 1], w);
      OpFits(exports, ops[|ops| - 1], Run(ops[..|ops| - 1], w));
    }
  }

  lemma SinceFits(t: Target, h: Hooks, x: Attempt, w: World)
    requires Orderly(t, x) && Quiet(t, x, h) && StoresFit(Exports(t, h), w)
    ensures StoresFit(Exports(t, h), Since(t, x.later, w))
  {
    hide Run, Leaves, StoresNothing, Exports;
    RunFits(Exports(t, h), x.later, w.(entry := NewEntry(StartInfo(t))));
  }

  lemma {:induction false} AttemptsFit(t: Target, h: Hooks, xs: seq<Attempt>)
    requires forall x :: x in xs ==> Orderly(t, x) && Quiet(t, x, h)
    ensures StoresFit(Exports(t, h), Attempts(t, xs)) && Attempts(t, xs).entry == NewEntry(StartInfo(t))
  {
    hide Provisioned, Quiet, Orderly, Exports, Run;
    if xs != [] {
      var before, x := xs[..|xs| - 1], xs[|xs| - 1];
      AttemptsFit(t, h, before);
      ProvisionFits(t, h, x, Attempts(t, before));
      SinceFits(t, h, x, Provisioned(t, x, Attempts(t, before)).0.w);
    }
  }

  // ---------- Resuming changes nothing ----------

  function SeedOutputs(t: Target, h: Hooks): Outputs {
    map s | s in t.Seeds() :: h.printed("seed_" + s)
  }

  /** With hooks that answer the same each time and do not write to the store, but for what create_compute
      exports, any attempts that failed and one that succeeds build the manifest of those answers. */
  lemma ResumedManifest(t: Target, h: Hooks, xs: seq<Attempt>, x: Attempt)
    requires Orderly(t, x) && Quiet(t, x, h) && forall y :: y in xs ==> Orderly(t, y) && Quiet(t, y, h)
    requires Provisioned(t, x, Attempts(t, xs)).1 == Done
    ensures var built := t.Source(WithFixed(t.cfg, h.ports), SeedOutputs(t, h), Exports(t, h)).Manifest();
      built.Ok? && Provisioned(t, x, Attempts(t, xs)).0.manifest == Some(built.value)
  {
    hide Provisioned, Begin, RunPhases, Plan, Orderly, Last, Attempts, Target.Seeds, Source.Manifest, Exports;
    var w := Attempts(t, xs);
    var l := Provisioned(t, x, w).0;
    ResumeRestoresWhatWasProduced(t, xs, x);
    AttemptsFit(t, h, xs);
    ProvisionFits(t, h, x, w);
    SuccessCarries(t, Some(h), xs, x, Allocate);
    assert l.ports == WithFixed(t.cfg, h.ports) by { PortsFit(t, h, l); }
    forall s | s in t.Seeds() ensures l.outs[s] == h.printed("seed_" + s) {
      SuccessCarries(t, Some(h), xs, x, Seed(s));
      SeedFits(t, h, l, s);
    }
    assert l.outs == SeedOutputs(t, h);
  }

  lemma PortsFit(t: Target, h: Hooks, l: Local)
    requires Carries(l, Allocate) && Fits(t, Some(h), Allocate, Last(l.w.events, "allocate_ports").GetOr(map[]))
    ensures l.ports == WithFixed(t.cfg, h.ports)
  {
    hide Last;
  }

  lemma SeedFits(t: Target, h: Hooks, l: Local, svc: string)
    requires Carries(l, Seed(svc)) && Fits(t, Some(h), Seed(svc), Last(l.w.events, "seed_" + svc).GetOr(map[]))
    ensures l.outs[svc] == h.printed("seed_" + svc)
  {
    hide Last;
  }

  /** So an attempt after any number of failures ends with the manifest of a single uninterrupted one. */
  lemma ResumeEquivalence(t: Target, h: Hooks, xs: seq<Attempt>, x: Attempt, once: Attempt)
    requires Orderly(t, x) && Quiet(t, x, h) && Orderly(t, once) && Quiet(t, once, h)
    requires forall y :: y in xs ==> Orderly(t, y) && Quiet(t, y, h)
    requires Provisioned(t, x, Attempts(t, xs)).1 == Done && Provisioned(t, once, Attempts(t, [])).1 == Done
    ensures Provisioned(t, x, Attempts(t, xs)).0.manifest == Provisioned(t, once, Attempts(t, [])).0.manifest
  {
    hide Provisioned, Attempts, Orderly, Quiet, Source.Manifest;
    ResumedManifest(t, h, xs, x);
    ResumedManifest(t, h, [], once);
  }
}
