/** What becomes of the GLOBAL_ outputs that the hooks of a provision print (manager.go, hooks.md). */
module Exports {
  import opened Prelude
  import opened Config
  import opened Manifest
  import opened Entry
  import opened Checkpoint
  import opened AuditTrail
  import opened Provision
  import opened Meanwhile
  import opened Resume
  import opened Records
  import opened Recovery
  import opened Closure
  import HookOutput

  /** The exports that the hook of a step prints; some steps run no hook. */
  function Printed(t: Target, x: Attempt, p: Phase): EnvMap {
    if p.Before? || p.After? || p.Seed? || (p.Compute? && t.mode == Hook) then HookOutput.Globals(x.printed(p.Name()))
    else map[]
  }

  /** Those that the step takes over: of the hooks before and after, the outputs are dropped. */
  function Captured(t: Target, x: Attempt, p: Phase): EnvMap {
    if p.Before? || p.After? then map[] else Printed(t, x, p)
  }

  /** What subprocesses of the step set in the store. */
  function SetBy(x: Attempt, p: Phase): EnvMap {
    x.answers(p.Name()).storeSet
  }

  /** The exports of the first step that is executed and captures any or sets anything in the store, if it only
      captures. */
  function FirstCaptured(t: Target, x: Attempt, plan: seq<Phase>, e: EntryData): EnvMap {
    if plan == [] then map[]
    else if Executes(t, x, plan[0], e) && SetBy(x, plan[0]) != map[] then map[]
    else if Executes(t, x, plan[0], e) && Captured(t, x, plan[0]) != map[] then Captured(t, x, plan[0])
    else FirstCaptured(t, x, plan[1..], e)
  }

  /** All that is set by the steps that are executed, later values replacing earlier ones. */
  function AllSet(t: Target, x: Attempt, plan: seq<Phase>, e: EntryData): EnvMap {
    if plan == [] then map[]
    else (if Executes(t, x, plan[0], e) then SetBy(x, plan[0]) else map[]) + AllSet(t, x, plan[1..], e)
  }

  /** The store after such steps: one that was there, or otherwise the first exports, and what was set. */
  function StoreAfter(t: Target, x: Attempt, plan: seq<Phase>, e: EntryData): EnvMap {
    e.env.GetOr(FirstCaptured(t, x, plan, e)) + AllSet(t, x, plan, e)
  }

  /** The store can be read. */
  ghost predicate StoreReadable(x: Attempt) {
    forall n :: x.answers(n).reloadOk
  }

  /** The saved store is the one in memory, and not empty. */
  predicate Synced(w: World) {
    w.stored.Some? && w.stored.value.env == w.entry.env && w.entry.env != Some(map[])
  }

  /** What one step makes of the store. */
  function Taken(env: Option<EnvMap>, given: EnvMap, exports: EnvMap): Option<EnvMap> {
    if env.Some? || given != map[] then Some(env.GetOr(map[]) + given)
    else if exports != map[] then Some(exports)
    else None
  }

  /** One step: its exports become the store if there was none and it sets nothing itself. */
  lemma StepTakes(noCache: bool, o: StepOpts, a: Answer, w: World)
    requires Synced(w) && a.reloadOk && a.save == Saved
    requires Stepped(noCache, o, a, w).1 == Done
    ensures var r := Stepped(noCache, o, a, w).0;
      && Synced(r)
      && r.entry.env == if Skips(noCache, o, a, w.entry) then w.entry.env else Taken(w.entry.env, a.storeSet, a.globals)
  {
    hide Execute, Taken;
    if !Skips(noCache, o, a, w.entry) {
      ExecuteTakes(o, a, w);
      ExecuteTakes(o, a, w.(entry := w.entry.WithAudit(o.name, VerifyFailed)));
    }
  }

  lemma ExecuteTakes(o: StepOpts, a: Answer, w: World)
    requires Synced(w) && a.reloadOk && a.save == Saved
    ensures var r := Execute(o, a, w);
      r.1 == Done ==> Synced(r.0) && r.0.entry.env == Taken(w.entry.env, a.storeSet, a.globals)
  {
    hide RoundTrip;
    assert map[] + a.globals == a.globals;
    if w.entry.env.Some? {
      assert w.entry.env.value + map[] == w.entry.env.value;
      NotEmptied(w.entry.env.value, a.storeSet);
    }
    assert map[] + a.storeSet == a.storeSet == a.storeSet + map[];
  }

  lemma NotEmptied(a: EnvMap, b: EnvMap)
    requires a != map[]
    ensures a + b != map[]
  {
    var k :| k in a;
    assert k in a + b;
  }

  lemma PhaseTakes(t: Target, x: Attempt, p: Phase, l: Local)
    requires Synced(l.w) && StoreReadable(x) && x.answers(p.Name()).save == Saved && RunPhase(t, x, p, l).1 == Done
    ensures var r := RunPhase(t, x, p, l).0.w;
      Synced(r) && r.entry.env ==
        if Executes(t, x, p, l.w.entry) then Taken(l.w.entry.env, SetBy(x, p), Captured(t, x, p)) else l.w.entry.env
  {
    hide Stepped, RunPhase, Restored, Facing, Taken;
    PhaseLeaves(t, x, p, l);
    FacingCaptures(t, x, p, l);
    StepTakes(x.noCache, p.Opts(), Facing(t, x, p, Restored(p, l)), l.w);
  }

  lemma FacingCaptures(t: Target, x: Attempt, p: Phase, l: Local)
    ensures var a := Facing(t, x, p, Restored(p, l)); var given := x.answers(p.Name());
      && a.globals == Captured(t, x, p) && a.storeSet == given.storeSet && a.reloadOk == given.reloadOk
      && a.save == given.save
      && (Skips(x.noCache, p.Opts(), a, l.w.entry) <==> !Executes(t, x, p, l.w.entry))
  {
    hide Source.Manifest, PortsIn, StringsIn;
  }

  /** Entry e decides the steps of a plan as the entry e' does. */
  ghost predicate DecidesAlike(t: Target, e: EntryData, e': EntryData, plan: seq<Phase>) {
    (forall q :: q in plan ==> (Has(e, q) <==> Has(e', q))) && (Compute in plan ==> e'.compute == e.compute)
  }

  lemma StillDecidesAlike(t: Target, x: Attempt, plan: seq<Phase>, l: Local, e: EntryData)
    requires InOrder(plan) && plan != [] && DecidesAlike(t, e, l.w.entry, plan)
    ensures DecidesAlike(t, e, RunPhase(t, x, plan[0], l).0.w.entry, plan[1..])
  {
    hide RunPhase, Facing, Restored, Executes, Has;
    PhaseHas(t, x, plan[0], l);
    assert forall q :: q in plan[1..] ==> q in plan && q != plan[0];
  }

  lemma AlikeExecutes(t: Target, x: Attempt, p: Phase, plan: seq<Phase>, e: EntryData, e': EntryData)
    requires p in plan && DecidesAlike(t, e, e', plan)
    ensures Executes(t, x, p, e') <==> Executes(t, x, p, e)
  {
  }

  /** A pipeline that succeeds leaves the store that was there, or the first exports captured, and what was set. */
  lemma {:induction false} PhasesTake(t: Target, x: Attempt, plan: seq<Phase>, l: Local, e: EntryData)
    requires InOrder(plan) && DecidesAlike(t, e, l.w.entry, plan)
    requires Synced(l.w) && StoreReadable(x) && Smooth(x) && RunPhases(t, x, plan, l).1 == Done
    ensures var r := RunPhases(t, x, plan, l).0.w;
      Synced(r) && r.entry.env.GetOr(map[]) ==
        l.w.entry.env.GetOr(FirstCaptured(t, x, plan, e)) + AllSet(t, x, plan, e)
  {
    hide RunPhase, Executes, Captured, Synced, DecidesAlike, SetBy;
    if plan == [] {
      assert l.w.entry.env.GetOr(map[]) + map[] == l.w.entry.env.GetOr(map[]);
    } else {
      var first := RunPhase(t, x, plan[0], l).0;
      PhaseTakes(t, x, plan[0], l);
      AlikeExecutes(t, x, plan[0], plan, e, l.w.entry);
      StillDecidesAlike(t, x, plan, l, e);
      assert InOrder(plan[1..]);
      PhasesTake(t, x, plan[1..], first, e);
      OneMoreTaken(t, x, plan, e, l.w.entry.env);
    }
  }

  lemma OneMoreTaken(t: Target, x: Attempt, plan: seq<Phase>, e: EntryData, env: Option<EnvMap>)
    requires plan != []
    ensures var rest := plan[1..];
      var next := if Executes(t, x, plan[0], e) then Taken(env, SetBy(x, plan[0]), Captured(t, x, plan[0])) else env;
      next.GetOr(FirstCaptured(t, x, rest, e)) + AllSet(t, x, rest, e)
        == env.GetOr(FirstCaptured(t, x, plan, e)) + AllSet(t, x, plan, e)
  {
    hide Executes, Captured, SetBy, Taken;
    var first, later := FirstCaptured(t, x, plan[1..], e), AllSet(t, x, plan[1..], e);
    if Executes(t, x, plan[0], e) {
      TakenThenSet(env, SetBy(x, plan[0]), Captured(t, x, plan[0]), first, later);
    } else {
      assert map[] + later == later;
    }
  }

  lemma TakenThenSet(env: Option<EnvMap>, given: EnvMap, exports: EnvMap, first: EnvMap, later: EnvMap)
    ensures Taken(env, given, exports).GetOr(first) + later ==
      env.GetOr(if given != map[] then map[] else if exports != map[] then exports else first) + (given + later)
  {
    assert map[] + later == later && map[] + given == given;
    assert env.GetOr(map[]) + (given + later) == (env.GetOr(map[]) + given) + later;
  }

  lemma BeginSyncs(t: Target, x: Attempt, w: World)
    requires Smooth(x) && w.entry == NewEntry(StartInfo(t))
    requires w.stored.Some? ==> w.stored.value.env != Some(map[])
    ensures Begin(t, x, w).1 == Done && Synced(Begin(t, x, w).0)
  {
    hide RoundTrip, DroppedAll, From, StepOrder;
    var created := if w.stored.Some? then w.stored.value else w.entry;
    DroppingKeepsEnv(created, From(x.fromStep, StepOrder(x.fromSeeds)));
  }

  lemma PlanIsInAnyOrder(t: Target, x: Attempt)
    requires ListsSeeds(t, x.seedOrder)
    ensures InOrder(Plan(t, x.seedOrder)) && forall p :: p in Plan(t, x.seedOrder) <==> InPlan(t, p)
  {
    PlanIsInOrder(t, x.(noCache := false, later := []));
  }

  /** The entry that the steps of the attempt start from. */
  function StartEntry(t: Target, x: Attempt, w: World): EntryData {
    Begin(t, x, w).0.entry
  }

  /** In an attempt in which nothing fails, the store is in the end, in memory and saved, the one that was there,
      or else the exports of the first step that captured any before or without anything being set, and beside
      that all that was set. */
  lemma StoreOfAProvision(t: Target, x: Attempt, w: World)
    requires Smooth(x) && StoreReadable(x) && ListsSeeds(t, x.seedOrder)
    requires w.entry == NewEntry(StartInfo(t)) && (w.stored.Some? ==> w.stored.value.env != Some(map[]))
    requires Provisioned(t, x, w).1 == Done
    ensures var r := Provisioned(t, x, w).0.w;
      && r.entry.env.GetOr(map[]) == StoreAfter(t, x, Plan(t, x.seedOrder), StartEntry(t, x, w))
      && r.stored.Some? && r.stored.value.env.GetOr(map[]) == r.entry.env.GetOr(map[])
  {
    hide Begin, RunPhases, Plan, FirstCaptured, AllSet, EntryData.Normal, ListsSeeds;
    var plan, begun := Plan(t, x.seedOrder), Begin(t, x, w).0;
    BeginSyncs(t, x, w);
    SuccessRanThePlan(t, x, w);
    PlanIsInAnyOrder(t, x);
    PhasesTake(t, x, plan, Fresh(begun), begun.entry);
    var ran := RunPhases(t, x, plan, Fresh(begun)).0;
    if ran.manifest.Some? {
      NormalStore(Provisioned(t, x, w).0.w.entry);
    }
  }

  lemma NormalStore(e: EntryData)
    ensures e.Normal().env.GetOr(map[]) == e.env.GetOr(map[])
  {
    hide RoundTrip;
  }

  /** All exports of m are in the store. */
  predicate Holds(store: EnvMap, m: EnvMap) {
    forall k :: k in m ==> k in store && store[k] == m[k]
  }

  /** Every export that a hook printed in the attempt is in the store afterwards. */
  ghost predicate AllKept(t: Target, x: Attempt, w: World) {
    forall p :: p in Plan(t, x.seedOrder) && Executes(t, x, p, StartEntry(t, x, w)) ==>
      Holds(Provisioned(t, x, w).0.w.entry.env.GetOr(map[]), Printed(t, x, p))
  }

  /** So all printed exports are kept exactly when each is in that store. */
  lemma ExportsOfAProvisionAreKept(t: Target, x: Attempt, w: World)
    requires Smooth(x) && StoreReadable(x) && ListsSeeds(t, x.seedOrder)
    requires w.entry == NewEntry(StartInfo(t)) && (w.stored.Some? ==> w.stored.value.env != Some(map[]))
    requires Provisioned(t, x, w).1 == Done
    ensures AllKept(t, x, w) <==>
      forall p :: p in Plan(t, x.seedOrder) && Executes(t, x, p, StartEntry(t, x, w)) ==>
        Holds(StoreAfter(t, x, Plan(t, x.seedOrder), StartEntry(t, x, w)), Printed(t, x, p))
  {
    hide Provisioned, StoreAfter, Plan, StartEntry, Executes, Holds, Printed, ListsSeeds;
    StoreOfAProvision(t, x, w);
  }

  /** For a new environment, where every step is executed: exactly when each is one of the first exports captured,
      not set to anything else, or set to the same. */
  lemma ExportsOfANewEnvironment(t: Target, x: Attempt)
    requires Smooth(x) && StoreReadable(x) && ListsSeeds(t, x.seedOrder)
    requires Provisioned(t, x, Attempts(t, [])).1 == Done
    ensures var plan, e := Plan(t, x.seedOrder), NewEntry(StartInfo(t));
      AllKept(t, x, Attempts(t, [])) <==>
        forall p :: p in plan ==> Holds(FirstCaptured(t, x, plan, e) + AllSet(t, x, plan, e), Printed(t, x, p))
  {
    hide Provisioned, Plan, Holds, Printed, ListsSeeds, FirstCaptured, AllSet, AllKept;
    NewStart(t, x);
    ExportsOfAProvisionAreKept(t, x, Attempts(t, []));
  }

  lemma NothingIsSkipped(t: Target, x: Attempt, p: Phase, e: EntryData)
    requires e.steps == map[]
    ensures Executes(t, x, p, e)
  {
  }

  lemma NewStartHasNothing(t: Target, x: Attempt)
    requires Smooth(x)
    ensures var e := StartEntry(t, x, Attempts(t, [])); e.env == None && e.steps == map[]
  {
    hide EntryData.Normal, DroppedAll, From, StepOrder;
    var gone := From(x.fromStep, StepOrder(x.fromSeeds));
    DroppingKeeps(NewEntry(StartInfo(t)), gone);
    DroppingKeepsEnv(NewEntry(StartInfo(t)), gone);
  }

  lemma NewStart(t: Target, x: Attempt)
    requires Smooth(x)
    ensures var e := StartEntry(t, x, Attempts(t, []));
      && e.env == None && (forall p :: Executes(t, x, p, e))
      && (forall plan :: FirstCaptured(t, x, plan, e) == FirstCaptured(t, x, plan, NewEntry(StartInfo(t))))
      && forall plan :: AllSet(t, x, plan, e) == AllSet(t, x, plan, NewEntry(StartInfo(t)))
  {
    hide Executes;
    var e := StartEntry(t, x, Attempts(t, []));
    NewStartHasNothing(t, x);
    assert forall p :: Executes(t, x, p, e) && Executes(t, x, p, NewEntry(StartInfo(t))) by {
      forall p ensures Executes(t, x, p, e) && Executes(t, x, p, NewEntry(StartInfo(t))) {
        NothingIsSkipped(t, x, p, e);
        NothingIsSkipped(t, x, p, NewEntry(StartInfo(t)));
      }
    }
    forall plan
      ensures FirstCaptured(t, x, plan, e) == FirstCaptured(t, x, plan, NewEntry(StartInfo(t)))
      ensures AllSet(t, x, plan, e) == AllSet(t, x, plan, NewEntry(StartInfo(t)))
    {
      SameFirst(t, x, plan, e, NewEntry(StartInfo(t)));
    }
  }

  lemma {:induction false} SameFirst(t: Target, x: Attempt, plan: seq<Phase>, e: EntryData, e': EntryData)
    requires forall p :: Executes(t, x, p, e) && Executes(t, x, p, e')
    ensures FirstCaptured(t, x, plan, e) == FirstCaptured(t, x, plan, e')
    ensures AllSet(t, x, plan, e) == AllSet(t, x, plan, e')
  {
    if plan != [] {
      SameFirst(t, x, plan[1..], e, e');
    }
  }

  // ---------- Exports that are lost ----------

  const SEEDED := ProvisionerService([], "", "seed.sh", "", "")

  /** A hook before and two seeds, a and b. */
  const EXAMPLE := Target(
    ProjectConfig(1, "example", ProvisionerConfig("before.sh", "", None, map["a" := SEEDED, "b" := SEEDED]), None,
                  map[], None, "", map[]),
    "example", "main", Attached)

  /** Each exports a key of its own. */
  function PrintOne(step: string): EnvMap {
    if step == "provisioner_before" then map["GLOBAL_FIRST" := "1"]
    else if step == "seed_a" then map["GLOBAL_A" := "1"]
    else if step == "seed_b" then map["GLOBAL_B" := "1"]
    else map[]
  }

  const PRINTS_ONE :=
    Attempt(true, Saved, "", [], Saved, false, ["a", "b"], n => QUIET, map[], PrintOne, ComputeInfo(false, ""), Saved,
            [])

  /** Seed a also sets a key with "previewctl store set". */
  const SETS_ONE := PRINTS_ONE.(answers := n => if n == "seed_a" then QUIET.(storeSet := map["C" := "1"]) else QUIET)

  lemma OneExport(key: string, value: string)
    ensures HookOutput.Globals(map["GLOBAL_" + key := value]) == map[key := value]
  {
    HookOutput.GlobalsOfOneMore(map[], "GLOBAL_" + key, value);
    assert map[]["GLOBAL_" + key := value] == map["GLOBAL_" + key := value];
    assert ("GLOBAL_" + key)[7..] == key;
    assert HookOutput.Globals(map[]) == map[];
  }

  lemma PrintsOne(x: Attempt)
    requires x.printed == PrintOne
    ensures Printed(EXAMPLE, x, Before) == map["FIRST" := "1"]
    ensures Printed(EXAMPLE, x, Seed("a")) == map["A" := "1"]
    ensures Printed(EXAMPLE, x, Seed("b")) == map["B" := "1"]
  {
    hide HookOutput.Globals;
    assert "GLOBAL_" + "FIRST" == "GLOBAL_FIRST" && "GLOBAL_" + "A" == "GLOBAL_A" && "GLOBAL_" + "B" == "GLOBAL_B";
    assert "seed_" + "a" == "seed_a" && "seed_" + "b" == "seed_b";
    OneExport("FIRST", "1");
    OneExport("A", "1");
    OneExport("B", "1");
  }

  lemma ExamplePlan()
    ensures ListsSeeds(EXAMPLE, PRINTS_ONE.seedOrder)
    ensures Plan(EXAMPLE, PRINTS_ONE.seedOrder) == [Before] + ([Allocate] + ([Seed("a")] + [Seed("b"), Build, Write]))
  {
    assert EXAMPLE.Seeds() == {"a", "b"};
    assert "a" in PRINTS_ONE.seedOrder && "b" in PRINTS_ONE.seedOrder by {
      assert PRINTS_ONE.seedOrder[0] == "a" && PRINTS_ONE.seedOrder[1] == "b";
    }
  }

  lemma FirstOfMore(t: Target, x: Attempt, p: Phase, rest: seq<Phase>, e: EntryData)
    requires Executes(t, x, p, e)
    ensures FirstCaptured(t, x, [p] + rest, e) ==
      if SetBy(x, p) != map[] then map[]
      else if Captured(t, x, p) != map[] then Captured(t, x, p)
      else FirstCaptured(t, x, rest, e)
    ensures AllSet(t, x, [p] + rest, e) == SetBy(x, p) + AllSet(t, x, rest, e)
  {
    assert ([p] + rest)[1..] == rest;
  }

  lemma {:induction false} NothingSet(t: Target, x: Attempt, plan: seq<Phase>, e: EntryData)
    requires forall p :: p in plan ==> SetBy(x, p) == map[]
    ensures AllSet(t, x, plan, e) == map[]
  {
    if plan != [] {
      NothingSet(t, x, plan[1..], e);
    }
  }

  lemma NoHook(t: Target, x: Attempt)
    ensures Printed(t, x, Allocate) == map[]
  {
  }

  lemma CapturesOne(x: Attempt)
    requires x.printed == PrintOne
    ensures Captured(EXAMPLE, x, Before) == map[] && Captured(EXAMPLE, x, Allocate) == map[]
    ensures Captured(EXAMPLE, x, Seed("a")) == map["A" := "1"] != map[]
  {
    hide Printed;
    PrintsOne(x);
    NoHook(EXAMPLE, x);
    assert "A" in map["A" := "1"];
  }

  lemma ExampleIsSmooth()
    ensures Smooth(PRINTS_ONE) && StoreReadable(PRINTS_ONE) && EXAMPLE.cfg.services == map[]
    ensures Smooth(SETS_ONE) && StoreReadable(SETS_ONE) && SETS_ONE.seedOrder == PRINTS_ONE.seedOrder
    ensures PRINTS_ONE.printed == PrintOne && SETS_ONE.printed == PrintOne
  {
  }

  lemma SetsOne()
    ensures forall p: Phase :: SetBy(PRINTS_ONE, p) == map[]
    ensures forall p: Phase :: p != Seed("a") ==> SetBy(SETS_ONE, p) == map[]
    ensures SetBy(SETS_ONE, Seed("a")) == map["C" := "1"] != map[]
  {
    hide Phase.Name;
    assert Seed("a").Name() == "seed_a" by { SeedName(); }
    forall p: Phase | p != Seed("a") ensures SetBy(SETS_ONE, p) == map[] {
      NamesTellPhases(p, Seed("a"));
    }
    assert "C" in map["C" := "1"];
  }

  lemma SeedName()
    ensures Seed("a").Name() == "seed_a"
  {
    assert "seed_" + "a" == "seed_a";
  }

  /** With nothing stored, everything working and nobody else writing, of three exports only one is kept. */
  lemma TwoExportsAreLost()
    ensures var r := Provisioned(EXAMPLE, PRINTS_ONE, Attempts(EXAMPLE, []));
      && r.1 == Done && r.0.w.entry.env.GetOr(map[]) == map["A" := "1"]
      && Printed(EXAMPLE, PRINTS_ONE, Before) == map["FIRST" := "1"]
      && Printed(EXAMPLE, PRINTS_ONE, Seed("a")) == map["A" := "1"]
      && Printed(EXAMPLE, PRINTS_ONE, Seed("b")) == map["B" := "1"]
  {
    hide *;
    ExampleIsSmooth();
    PrintsOne(PRINTS_ONE);
    ExamplePlan();
    CapturesOne(PRINTS_ONE);
    SetsOne();
    EndsWith(EXAMPLE, PRINTS_ONE);
  }

  /** And when the hook that exports first also sets a key in the store, all three are lost. */
  lemma AllExportsAreLost()
    ensures var r := Provisioned(EXAMPLE, SETS_ONE, Attempts(EXAMPLE, []));
      && r.1 == Done && r.0.w.entry.env.GetOr(map[]) == SetBy(SETS_ONE, Seed("a")) == map["C" := "1"]
      && Printed(EXAMPLE, SETS_ONE, Before) == map["FIRST" := "1"]
      && Printed(EXAMPLE, SETS_ONE, Seed("a")) == map["A" := "1"]
      && Printed(EXAMPLE, SETS_ONE, Seed("b")) == map["B" := "1"]
  {
    hide *;
    ExampleIsSmooth();
    PrintsOne(SETS_ONE);
    ExamplePlan();
    CapturesOne(SETS_ONE);
    SetsOne();
    EndsWith(EXAMPLE, SETS_ONE);
  }

  /** Seed a decides: what it sets, or if that is nothing what it exports. */
  lemma EndsWith(t: Target, x: Attempt)
    requires Smooth(x) && StoreReadable(x) && t.cfg.services == map[] && ListsSeeds(t, x.seedOrder)
    requires Plan(t, x.seedOrder) == [Before] + ([Allocate] + ([Seed("a")] + [Seed("b"), Build, Write]))
    requires Captured(t, x, Before) == map[] && Captured(t, x, Allocate) == map[]
    requires Captured(t, x, Seed("a")) != map[]
    requires forall p: Phase :: p != Seed("a") ==> SetBy(x, p) == map[]
    ensures var r := Provisioned(t, x, Attempts(t, [])); var given := SetBy(x, Seed("a"));
      r.1 == Done && r.0.w.entry.env.GetOr(map[]) == if given != map[] then given else Captured(t, x, Seed("a"))
  {
    hide Provisioned, FirstCaptured, AllSet, SetBy, Captured, Plan, ListsSeeds, Smooth, StoreReadable, StartEntry,
         Executes;
    var w := Attempts(t, []);
    var e := StartEntry(t, x, w);
    WithoutServicesItSucceeds(t, x, w);
    StoreOfAProvision(t, x, w);
    NewStart(t, x);
    var rest := [Seed("b"), Build, Write];
    FirstOfMore(t, x, Before, [Allocate] + ([Seed("a")] + rest), e);
    FirstOfMore(t, x, Allocate, [Seed("a")] + rest, e);
    FirstOfMore(t, x, Seed("a"), rest, e);
    NothingSet(t, x, rest, e) by { assert Seed("b") != Seed("a"); }
  }
}
