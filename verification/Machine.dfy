/** The manifest files over a history of provision attempts: on which machines there is one, and when that is the
    manifest that the last attempt ended with (manager.go). */
module Machine {
  import opened Prelude
  import opened Manifest
  import opened Entry
  import opened Checkpoint
  import opened AuditTrail
  import opened Provision
  import opened Meanwhile
  import opened Resume
  import opened Records
  import opened Recovery
  import opened Closure
  import opened Exports

  // ---------- The files ----------

  /** The manifest files, by the compute they are on. */
  type Files = map<ComputeInfo, ManifestData>

  /** Where the steps of an attempt run, given its entry: an attached worktree is named by each attempt anew. */
  function Place(t: Target, x: Attempt, e: EntryData): Option<ComputeInfo> {
    if t.mode == Attached then Some(x.compute) else e.compute
  }

  /** What a step leaves of the files. A compute that create_compute makes has none, and a write that fails
      leaves none that is complete. */
  function FilesAfter(t: Target, x: Attempt, p: Phase, l: Local, files: Files): Files {
    var a := Facing(t, x, p, Restored(p, l));
    var place := Place(t, x, l.w.entry);
    if !Executes(t, x, p, l.w.entry) || a.crash == BeforeFn then files
    else if p.Write? && place.Some? then
      if a.fnOk && l.manifest.Some? then files[place.value := l.manifest.value] else files - {place.value}
    else if p.Compute? && a.fnOk then files - {x.compute}
    else files
  }

  function FilesPhases(t: Target, x: Attempt, plan: seq<Phase>, l: Local, files: Files): Files {
    if plan == [] then files
    else
      var first, after := RunPhase(t, x, plan[0], l), FilesAfter(t, x, plan[0], l, files);
      if first.1 != Done then after else FilesPhases(t, x, plan[1..], first.0, after)
  }

  function FilesAttempt(t: Target, x: Attempt, w: World, files: Files): Files {
    var begun := Begin(t, x, w);
    if begun.1 != Done then files else FilesPhases(t, x, Plan(t, x.seedOrder), Fresh(begun.0), files)
  }

  /** After attempts one after the other, from an environment of which there is nothing. */
  function FilesAttempts(t: Target, xs: seq<Attempt>): Files {
    if xs == [] then map[]
    else
      var before, x := xs[..|xs| - 1], xs[|xs| - 1];
      FilesAttempt(t, x, Attempts(t, before), FilesAttempts(t, before))
  }

  /** Between attempts the file is not written by other commands. */
  ghost predicate LeavesFiles(x: Attempt) {
    forall op :: op in x.later ==> WritesNoManifest(op)
  }

  // ---------- What the executions tell ----------

  /** What someone knows who watches the executions of an attempt: where it runs, and on what compute the last
      that happened, of making it and writing to it, is that the manifest was written. */
  datatype Watched = Watched(place: Option<ComputeInfo>, written: set<ComputeInfo>)

  function Watch(x: Attempt, s: Watched, e: Event): Watched {
    if e.RanOk? && e.step == "create_compute" then Watched(Some(x.compute), s.written - {x.compute})
    else if !e.CacheUsed? && e.step == "write_manifest" && s.place.Some? then
      s.(written := if e.RanOk? then s.written + {s.place.value} else s.written - {s.place.value})
    else s
  }

  function WatchAll(x: Attempt, s: Watched, events: seq<Event>): Watched {
    if events == [] then s else Watch(x, WatchAll(x, s, events[..|events| - 1]), events[|events| - 1])
  }

  function NewEvents(before: seq<Event>, after: seq<Event>): seq<Event> {
    if |before| <= |after| then after[|before|..] else []
  }

  /** The computes that were written to last, over attempts one after the other. */
  function WrittenLast(t: Target, xs: seq<Attempt>): set<ComputeInfo> {
    if xs == [] then {}
    else
      var before, x := xs[..|xs| - 1], xs[|xs| - 1];
      var w := Attempts(t, before);
      var start := Watched(Place(t, x, Begin(t, x, w).0.entry), WrittenLast(t, before));
      WatchAll(x, start, NewEvents(w.events, Provisioned(t, x, w).0.w.events)).written
  }

  /** The files are where the watcher says, and all are m. */
  ghost predicate Agree(written: set<ComputeInfo>, files: Files, m: ManifestData) {
    files.Keys == written && forall c :: c in files ==> files[c] == m
  }

  /** And the watcher knows where the attempt runs. s is what was known when there were n events. */
  ghost predicate Tracks(t: Target, x: Attempt, s: Watched, n: nat, w: World, files: Files, m: ManifestData) {
    n <= |w.events| && var now := WatchAll(x, s, w.events[n..]);
      now.place == Place(t, x, w.entry) && Agree(now.written, files, m)
  }

  /** The same, but for where it runs. */
  ghost predicate Told(x: Attempt, s: Watched, n: nat, w: World, files: Files, m: ManifestData) {
    n <= |w.events| && Agree(WatchAll(x, s, w.events[n..]).written, files, m)
  }

  /** The events of a step: none, the cache, or one execution. */
  lemma StepEvents(noCache: bool, o: StepOpts, a: Answer, w: World)
    ensures Stepped(noCache, o, a, w).0.events ==
      if Skips(noCache, o, a, w.entry) then w.events + [CacheUsed(o.name)]
      else if a.crash == BeforeFn then w.events
      else w.events + [if a.fnOk then RanOk(o.name, a.outputs) else RanFailed(o.name)]
  {
    hide EntryData.Normal, RoundTrip;
  }

  lemma PhaseEvents(t: Target, x: Attempt, p: Phase, l: Local)
    ensures var a := Facing(t, x, p, Restored(p, l));
      RunPhase(t, x, p, l).0.w.events ==
        if !Executes(t, x, p, l.w.entry) then l.w.events + [CacheUsed(p.Name())]
        else if a.crash == BeforeFn then l.w.events
        else l.w.events + [if a.fnOk then RanOk(p.Name(), a.outputs) else RanFailed(p.Name())]
  {
    hide RunPhase, Stepped, Facing, Restored, Executes, Skips, Phase.Name;
    PhaseLeaves(t, x, p, l);
    FacingAsks(t, x, p, l);
    StepEvents(x.noCache, p.Opts(), Facing(t, x, p, Restored(p, l)), l.w);
  }

  lemma WatchOne(x: Attempt, s: Watched, events: seq<Event>, n: nat, e: Event)
    requires n <= |events|
    ensures WatchAll(x, s, (events + [e])[n..]) == Watch(x, WatchAll(x, s, events[n..]), e)
  {
    assert (events + [e])[n..] == events[n..] + [e];
    assert (events[n..] + [e])[..|events[n..]|] == events[n..];
  }

  lemma TwoNames(p: Phase)
    ensures p.Name() == "write_manifest" <==> p == Write
    ensures p.Name() == "create_compute" <==> p == Compute
  {
    NamesTellPhases(p, Write);
    NamesTellPhases(p, Compute);
  }

  lemma PhaseTracks(t: Target, x: Attempt, p: Phase, l: Local, files: Files, m: ManifestData, s: Watched, n: nat)
    requires InPlan(t, p) && Tracks(t, x, s, n, l.w, files, m) && (p == Write ==> l.manifest == Some(m))
    ensures var r := RunPhase(t, x, p, l); var after := FilesAfter(t, x, p, l, files);
      Told(x, s, n, r.0.w, after, m) && (r.1 == Done ==> Tracks(t, x, s, n, r.0.w, after, m))
  {
    hide RunPhase, Facing, Restored, Executes, WatchAll, Phase.Name, Has;
    var a := Facing(t, x, p, Restored(p, l));
    TwoNames(p);
    PhaseEvents(t, x, p, l);
    WatchOne(x, s, l.w.events, n, CacheUsed(p.Name()));
    WatchOne(x, s, l.w.events, n, if a.fnOk then RanOk(p.Name(), a.outputs) else RanFailed(p.Name()));
    if RunPhase(t, x, p, l).1 == Done {
      PhasePlace(t, x, p, l);
      PhaseHas(t, x, p, l);
      FacingAsks(t, x, p, l);
    }
  }

  /** Where an attempt runs changes with making the compute alone. */
  lemma PhasePlace(t: Target, x: Attempt, p: Phase, l: Local)
    requires InPlan(t, p) && RunPhase(t, x, p, l).1 == Done
    ensures Place(t, x, RunPhase(t, x, p, l).0.w.entry) ==
      if p == Compute && Executes(t, x, p, l.w.entry) then Some(x.compute) else Place(t, x, l.w.entry)
  {
    hide RunPhase, Facing, Restored, Executes, Has;
    PhaseHas(t, x, p, l);
    if p == Compute {
      ComputeTakenOver(t, x, l);
    }
  }

  lemma {:induction false} PhasesTrack(t: Target, x: Attempt, plan: seq<Phase>, l: Local, files: Files, m: ManifestData,
                                       s: Watched, n: nat)
    requires (forall p :: p in plan ==> InPlan(t, p)) && Tracks(t, x, s, n, l.w, files, m)
    requires Build !in plan && (Write in plan ==> l.manifest == Some(m))
    ensures var r := RunPhases(t, x, plan, l); var after := FilesPhases(t, x, plan, l, files);
      Told(x, s, n, r.0.w, after, m) && (r.1 == Done ==> Tracks(t, x, s, n, r.0.w, after, m))
  {
    hide RunPhase, FilesAfter, Place, Agree, WatchAll, InPlan;
    if plan != [] {
      PhaseTracks(t, x, plan[0], l, files, m, s, n);
      PhaseLocals(t, x, plan[0], l);
      var first := RunPhase(t, x, plan[0], l);
      if first.1 == Done {
        PhasesTrack(t, x, plan[1..], first.0, FilesAfter(t, x, plan[0], l, files), m, s, n);
      }
    }
  }

  lemma {:induction false} FilesAppend(t: Target, x: Attempt, front: seq<Phase>, back: seq<Phase>, l: Local,
                                       files: Files)
    ensures var r := RunPhases(t, x, front, l);
      if r.1 != Done then
        RunPhases(t, x, front + back, l) == r
        && FilesPhases(t, x, front + back, l, files) == FilesPhases(t, x, front, l, files)
      else
        RunPhases(t, x, front + back, l) == RunPhases(t, x, back, r.0)
        && FilesPhases(t, x, front + back, l, files) == FilesPhases(t, x, back, r.0, FilesPhases(t, x, front, l, files))
  {
    hide RunPhase, FilesAfter;
    if front == [] {
      assert front + back == back;
    } else {
      assert (front + back)[1..] == front[1..] + back;
      var first := RunPhase(t, x, front[0], l);
      if first.1 == Done {
        FilesAppend(t, x, front[1..], back, first.0, FilesAfter(t, x, front[0], l, files));
      }
    }
  }

  /** Building the manifest succeeds only if its source gives one, and gives that. */
  lemma BuildGives(t: Target, x: Attempt, l: Local)
    requires RunPhase(t, x, Build, l).1 == Done
    ensures var built := t.Source(l.ports, l.outs, l.w.entry.env.GetOr(map[])).Manifest();
      built.Ok? && RunPhase(t, x, Build, l).0.manifest == Some(built.value)
  {
    hide Source.Manifest, EntryData.Normal;
  }

  /** The manifest is built before it is written. */
  lemma BuildTracks(t: Target, x: Attempt, rest: seq<Phase>, l: Local, files: Files, m: ManifestData, s: Watched,
                    n: nat)
    requires (forall p :: p in rest ==> InPlan(t, p)) && Tracks(t, x, s, n, l.w, files, m) && Build !in rest
    requires RunPhase(t, x, Build, l).1 == Done ==> RunPhase(t, x, Build, l).0.manifest == Some(m)
    ensures Told(x, s, n, RunPhases(t, x, [Build] + rest, l).0.w, FilesPhases(t, x, [Build] + rest, l, files), m)
  {
    hide RunPhase, FilesAfter, WatchAll, Place, Agree;
    assert ([Build] + rest)[1..] == rest;
    PhaseTracks(t, x, Build, l, files, m, s, n);
    if RunPhase(t, x, Build, l).1 == Done {
      PhasesTrack(t, x, rest, RunPhase(t, x, Build, l).0, FilesAfter(t, x, Build, l, files), m, s, n);
    }
  }

  lemma BeginTells(t: Target, x: Attempt, w: World)
    ensures Begin(t, x, w).0.events == w.events
  {
    hide EntryData.Normal, InvalidatedFrom;
  }

  lemma ProvisionEvents(t: Target, x: Attempt, w: World)
    ensures var begun := Begin(t, x, w);
      Provisioned(t, x, w).0.w.events == if begun.1 != Done then w.events
      else RunPhases(t, x, Plan(t, x.seedOrder), Fresh(begun.0)).0.w.events
  {
    hide Begin, RunPhases, Plan, EntryData.Normal;
    BeginTells(t, x, w);
  }

  lemma FrontInPlan(t: Target, x: Attempt)
    requires Orderly(t, x)
    ensures forall p :: p in Front(t, x) || p in Back(t) ==> InPlan(t, p)
    ensures Write !in Front(t, x)
  {
    hide Plan, SeedPhases, InPlan, Orderly;
    PlanIsInOrder(t, x);
    PlanSplits(t, x);
    SeedsInOrder(t, x);
    assert forall p :: p in Front(t, x) || p in Back(t) ==> p in Plan(t, x.seedOrder);
  }

  lemma AttemptTracks(t: Target, h: Hooks, xs: seq<Attempt>, x: Attempt, files: Files, m: ManifestData,
                      written: set<ComputeInfo>)
    requires Orderly(t, x) && Quiet(t, x, h) && forall y :: y in xs ==> Orderly(t, y) && Quiet(t, y, h)
    requires Expected(t, h).Manifest().Ok? ==> m == Expected(t, h).Manifest().value
    requires Agree(written, files, m)
    ensures var w := Attempts(t, xs); var start := Watched(Place(t, x, Begin(t, x, w).0.entry), written);
      Agree(WatchAll(x, start, NewEvents(w.events, Provisioned(t, x, w).0.w.events)).written,
            FilesAttempt(t, x, w, files), m)
  {
    hide Begin, RunPhases, RunPhase, Attempts, Orderly, Quiet, Source.Manifest, Plan, Front, Back, FilesPhases,
         EntryData.Normal, Place, Provisioned, InPlan, Agree;
    var w := Attempts(t, xs);
    var l := Fresh(Begin(t, x, w).0);
    var n, s := |w.events|, Watched(Place(t, x, l.w.entry), written);
    BeginTells(t, x, w);
    ProvisionEvents(t, x, w);
    if Begin(t, x, w).1 == Done {
      PlanSplits(t, x);
      FrontInPlan(t, x);
      var front, back := Front(t, x), [Build] + Back(t);
      FilesAppend(t, x, front, back, l, files);
      PhasesTrack(t, x, front, l, files, m, s, n);
      var r := RunPhases(t, x, front, l);
      if r.1 == Done {
        FrontIsExpected(t, h, xs, x);
        if RunPhase(t, x, Build, r.0).1 == Done {
          BuildGives(t, x, r.0);
        }
        BuildTracks(t, x, Back(t), r.0, FilesPhases(t, x, front, l, files), m, s, n);
      }
    }
  }

  lemma {:induction false} AttemptsTrack(t: Target, h: Hooks, xs: seq<Attempt>, m: ManifestData)
    requires forall y :: y in xs ==> Orderly(t, y) && Quiet(t, y, h)
    requires Expected(t, h).Manifest().Ok? ==> m == Expected(t, h).Manifest().value
    ensures Agree(WrittenLast(t, xs), FilesAttempts(t, xs), m)
  {
    hide Provisioned, Attempts, FilesAttempt, Orderly, Quiet, Source.Manifest, WatchAll, NewEvents, Begin, Place;
    if xs != [] {
      var before := xs[..|xs| - 1];
      AttemptsTrack(t, h, before, m);
      AttemptTracks(t, h, before, xs[|xs| - 1], FilesAttempts(t, before), m, WrittenLast(t, before));
    }
  }

  /** With making the compute, or where it is known, an attempt ends somewhere. */
  lemma {:induction false} PhasesPlace(t: Target, x: Attempt, plan: seq<Phase>, l: Local)
    requires !x.noCache && (forall p :: p in plan ==> InPlan(t, p)) && RunPhases(t, x, plan, l).1 == Done
    ensures Compute in plan || Place(t, x, l.w.entry).Some? ==> Place(t, x, RunPhases(t, x, plan, l).0.w.entry).Some?
    ensures Compute !in plan ==> Place(t, x, RunPhases(t, x, plan, l).0.w.entry) == Place(t, x, l.w.entry)
  {
    hide RunPhase, Place, InPlan, Executes;
    if plan != [] {
      var first := RunPhase(t, x, plan[0], l).0;
      PhasePlace(t, x, plan[0], l);
      if plan[0] == Compute {
        assert Place(t, x, first.w.entry).Some? by { ComputeIsSomewhere(t, x, l); }
      }
      PhasesPlace(t, x, plan[1..], first);
    }
  }

  lemma ComputeIsSomewhere(t: Target, x: Attempt, l: Local)
    requires RunPhase(t, x, Compute, l).1 == Done && !x.noCache
    ensures Place(t, x, RunPhase(t, x, Compute, l).0.w.entry).Some?
  {
    hide RunPhase, Executes;
    ComputeTakenOver(t, x, l);
    ExecutesCompute(t, x, l.w.entry);
  }

  /** An attempt that succeeds ends on the compute that its entry names. */
  lemma EndPlace(t: Target, x: Attempt, w: World)
    requires Orderly(t, x) && Provisioned(t, x, w).1 == Done && Provisioned(t, x, w).0.manifest.Some?
    ensures Provisioned(t, x, w).0.w.entry.compute.Some?
    ensures Provisioned(t, x, w).0.w.entry.compute ==
      Place(t, x, RunPhases(t, x, Plan(t, x.seedOrder), Fresh(Begin(t, x, w).0)).0.w.entry)
      == Place(t, x, Provisioned(t, x, w).0.w.entry)
  {
    hide Begin, RunPhases, Plan, EntryData.Normal, Orderly;
    var plan, l := Plan(t, x.seedOrder), Fresh(Begin(t, x, w).0);
    SuccessRanThePlan(t, x, w);
    PlanIsInOrder(t, x);
    assert Compute in plan || Place(t, x, l.w.entry).Some? by { assert t.mode != Attached ==> InPlan(t, Compute); }
    assert !x.noCache by { CachingIsOn(t, x); }
    PhasesPlace(t, x, plan, l);
  }

  lemma CachingIsOn(t: Target, x: Attempt)
    requires Orderly(t, x)
    ensures !x.noCache
  {
  }

  /** Exactly when the machine has it. With hooks that answer the same each time, an attempt that succeeds leaves
      on the machine it ends with the manifest it ends with, exactly when of what the executions tell about that
      machine the last is that the manifest was written; otherwise there is none. */
  lemma ManifestOnMachine(t: Target, h: Hooks, xs: seq<Attempt>, x: Attempt)
    requires forall y :: y in xs + [x] ==> Orderly(t, y) && Quiet(t, y, h) && LeavesFiles(y)
    requires Provisioned(t, x, Attempts(t, xs)).1 == Done
    ensures var r := Provisioned(t, x, Attempts(t, xs)).0; r.manifest.Some? && r.w.entry.compute.Some?
    ensures var r := Provisioned(t, x, Attempts(t, xs)).0; var files := FilesAttempts(t, xs + [x]);
      var place := r.w.entry.compute.value;
      && (place in files <==> place in WrittenLast(t, xs + [x]))
      && (place in files ==> files[place] == r.manifest.value)
  {
    hide Provisioned, FilesAttempts, Orderly, Quiet, Source.Manifest, Attempts, WrittenLast, LeavesFiles;
    assert x in xs + [x] && forall y :: y in xs ==> y in xs + [x];
    ResumedManifest(t, h, xs, x);
    EndPlace(t, x, Attempts(t, xs));
    AttemptsTrack(t, h, xs + [x], Expected(t, h).Manifest().value);
  }

  // ---------- One attempt ----------

  lemma PhaseFiles(t: Target, x: Attempt, q: Phase, l: Local, files: Files)
    requires RunPhase(t, x, q, l).1 == Done && (q == Write ==> l.manifest.Some? && Place(t, x, l.w.entry).Some?)
    ensures FilesAfter(t, x, q, l, files) ==
      if !Executes(t, x, q, l.w.entry) then files
      else if q == Write then files[Place(t, x, l.w.entry).value := l.manifest.value]
      else if q == Compute then files - {x.compute}
      else files
  {
    hide RunPhase, Facing, Restored, Executes, Place, Has;
    PhaseHas(t, x, q, l);
    FacingAsks(t, x, q, l);
  }

  /** Whether an attempt that starts from entry e ends with a manifest where it ends. */
  predicate Written(t: Target, x: Attempt, plan: seq<Phase>, e: EntryData, before: bool) {
    (Write in plan && Executes(t, x, Write, e)) || (!(Compute in plan && Executes(t, x, Compute, e)) && before)
  }

  lemma {:induction false} PhasesFiles(t: Target, x: Attempt, plan: seq<Phase>, l: Local, files: Files, e: EntryData)
    requires InOrder(plan) && (forall p :: p in plan ==> InPlan(t, p)) && DecidesAlike(t, e, l.w.entry, plan)
    requires !x.noCache && RunPhases(t, x, plan, l).1 == Done && (Compute in plan || Place(t, x, l.w.entry).Some?)
    requires Write in plan ==> Build in plan || l.manifest.Some?
    ensures var place := Place(t, x, RunPhases(t, x, plan, l).0.w.entry);
      var after := FilesPhases(t, x, plan, l, files);
      place.Some? && (place.value in after <==> Written(t, x, plan, e, place.value in files))
  {
    hide RunPhase, Executes, DecidesAlike, Place, InPlan, FilesAfter;
    PhasesPlace(t, x, plan, l);
    if plan != [] {
      var first := RunPhase(t, x, plan[0], l).0;
      FirstIsFirst(plan);
      assert plan == [plan[0]] + plan[1..];
      PhaseFiles(t, x, plan[0], l, files);
      PhasePlace(t, x, plan[0], l);
      if plan[0] == Compute {
        ComputeIsSomewhere(t, x, l);
      }
      PhaseLocals(t, x, plan[0], l);
      if plan[0] == Build {
        BuildGives(t, x, l);
      }
      AlikeExecutes(t, x, plan[0], plan, e, l.w.entry);
      StillDecidesAlike(t, x, plan, l, e);
      PhasesFiles(t, x, plan[1..], first, FilesAfter(t, x, plan[0], l, files), e);
      PhasesPlace(t, x, plan[1..], first);
    }
  }

  lemma FirstIsFirst(plan: seq<Phase>)
    requires InOrder(plan) && plan != []
    ensures InOrder(plan[1..]) && plan[0] !in plan[1..]
    ensures plan[0] == Write ==> Compute !in plan && Build !in plan
  {
    forall i | 0 <= i < |plan[1..]| ensures plan[1..][i] != plan[0] && plan[0].Rank() <= plan[1..][i].Rank() {
      assert plan[1..][i] == plan[i + 1];
    }
  }

  lemma BuiltBeforeWritten(t: Target, x: Attempt)
    requires Orderly(t, x)
    ensures var plan := Plan(t, x.seedOrder);
      Build in plan && Write in plan && (Compute in plan <==> t.mode != Attached)
  {
    hide Plan, Orderly;
    PlanIsInOrder(t, x);
  }

  /** What a caller can tell beforehand: the manifest is on the machine that an attempt that succeeds ends with
      exactly when the attempt writes it, or it was there and the attempt does not make the machine anew. */
  lemma ManifestStays(t: Target, xs: seq<Attempt>, x: Attempt)
    requires forall y :: y in xs + [x] ==> Orderly(t, y) && LeavesFiles(y)
    requires Provisioned(t, x, Attempts(t, xs)).1 == Done
    ensures Provisioned(t, x, Attempts(t, xs)).0.w.entry.compute.Some?
    ensures var e := StartEntry(t, x, Attempts(t, xs));
      var place := Provisioned(t, x, Attempts(t, xs)).0.w.entry.compute.value;
      place in FilesAttempts(t, xs + [x]) <==>
        Executes(t, x, Write, e)
        || (!(t.mode != Attached && Executes(t, x, Compute, e)) && place in FilesAttempts(t, xs))
  {
    hide Begin, RunPhases, Plan, Orderly, Attempts, Executes, Source.Manifest, EntryData.Normal, Provisioned,
         FilesPhases, Place, LeavesFiles, DecidesAlike, InPlan;
    assert x in xs + [x] && Orderly(t, x);
    var w := Attempts(t, xs);
    var plan, start := Plan(t, x.seedOrder), Fresh(Begin(t, x, w).0);
    SuccessRanThePlan(t, x, w);
    SuccessIsBuilt(t, x, w);
    EndPlace(t, x, w);
    PlanIsInOrder(t, x);
    BuiltBeforeWritten(t, x);
    CachingIsOn(t, x);
    assert DecidesAlike(t, start.w.entry, start.w.entry, plan) by { DecidesItself(t, start.w.entry, plan); }
    assert Compute in plan || Place(t, x, start.w.entry).Some? by { AttachedIsSomewhere(t, x, start.w.entry); }
    PhasesFiles(t, x, plan, start, FilesAttempts(t, xs), start.w.entry);
    assert (xs + [x])[..|xs|] == xs;
  }

  lemma DecidesItself(t: Target, e: EntryData, plan: seq<Phase>)
    ensures DecidesAlike(t, e, e, plan)
  {
  }

  lemma AttachedIsSomewhere(t: Target, x: Attempt, e: EntryData)
    ensures t.mode == Attached ==> Place(t, x, e).Some?
  {
  }

  // ---------- With the compute reachable ----------

  /** Where write_manifest is completed, the machine has a manifest. */
  predicate Holds(t: Target, x: Attempt, e: EntryData, files: Files) {
    Has(e, Write) ==> Place(t, x, e).Some? && Place(t, x, e).value in files
  }

  predicate BothHold(t: Target, x: Attempt, w: World, files: Files) {
    && Holds(t, x, w.entry, files)
    && (w.stored.Some? ==>
          Holds(t, x, w.stored.value, files) && (Has(w.stored.value, Write) ==> Has(w.entry, Write)))
  }

  /** A reachable compute is made again only when the manifest's step is not completed. */
  lemma RemakingFindsNothing(t: Target, x: Attempt, e: EntryData)
    requires !x.noCache && Reachable(t, x) && InPlan(t, Compute) && Ordered(t, e) && Known(t, e)
    requires Executes(t, x, Compute, e)
    ensures !Has(e, Write)
  {
    hide Has, HasCompute;
    ExecutesCompute(t, x, e);
    assert InPlan(t, Allocate) && InPlan(t, Write) && Allocate.Rank() < Write.Rank();
  }

  lemma PhaseHolds(t: Target, x: Attempt, q: Phase, l: Local, files: Files)
    requires !x.noCache && Reachable(t, x) && InPlan(t, q) && Ordered(t, l.w.entry) && Known(t, l.w.entry)
    requires BothHold(t, x, l.w, files) && (q == Write ==> l.manifest.Some? && Place(t, x, l.w.entry).Some?)
    ensures BothHold(t, x, RunPhase(t, x, q, l).0.w, FilesAfter(t, x, q, l, files))
  {
    hide RunPhase, Facing, Restored, Executes, Has, Ordered, Known, Reachable;
    PhaseHas(t, x, q, l);
    FacingAsks(t, x, q, l);
    if q == Compute && Executes(t, x, q, l.w.entry) {
      RemakingFindsNothing(t, x, l.w.entry);
    }
    if q == Write && Executes(t, x, q, l.w.entry) {
      assert !Has(l.w.entry, Write) by { ExecutedIsNotHad(t, x, q, l.w.entry); }
    }
  }

  lemma ExecutedIsNotHad(t: Target, x: Attempt, q: Phase, e: EntryData)
    requires !x.noCache && q != Compute && Executes(t, x, q, e)
    ensures !Has(e, q)
  {
  }

  lemma {:induction false} PhasesHold(t: Target, x: Attempt, plan: seq<Phase>, l: Local, files: Files)
    requires !x.noCache && Reachable(t, x) && MakesCompute(t, x)
    requires InOrder(plan) && (forall p :: p in plan ==> InPlan(t, p))
    requires BothOrdered(t, l.w) && BothKnown(t, l.w) && Pending(t, plan, l.w.entry) && Ready(t, plan, l.w.entry)
    requires BothHold(t, x, l.w, files)
    requires Compute in plan || Place(t, x, l.w.entry).Some?
    requires Build in plan || l.manifest.Some?
    ensures BothHold(t, x, RunPhases(t, x, plan, l).0.w, FilesPhases(t, x, plan, l, files))
  {
    hide RunPhase, InPlan, Has, MakesCompute, HasCompute, BothHold, Place, FilesAfter, Ready, Pending, Ordered, Known,
         Reachable, UpTo, Loses;
    if plan != [] {
      var first := RunPhase(t, x, plan[0], l);
      FirstIsFirst(plan);
      assert plan == [plan[0]] + plan[1..];
      PhaseHolds(t, x, plan[0], l, files);
      FirstIsUpTo(t, plan, l.w.entry);
      PhaseOrdered(t, x, plan[0], l);
      AllocateIsLate(t, plan, l.w.entry);
      PhaseKnown(t, x, plan[0], l);
      ReachableLosesNothing(t, x, plan[0], l.w.entry);
      if first.1 == Done {
        PendingLess(t, x, plan, l);
        ReadyLess(t, x, plan, l);
        StillSomewhere(t, x, plan, l);
        PhasesHold(t, x, plan[1..], first.0, FilesAfter(t, x, plan[0], l, files));
      }
    }
  }

  lemma ReachableLosesNothing(t: Target, x: Attempt, q: Phase, e: EntryData)
    requires Reachable(t, x) && InPlan(t, q)
    ensures q == Compute ==> !Loses(x, e)
  {
  }

  /** The place and the manifest that are needed to write it. */
  lemma StillSomewhere(t: Target, x: Attempt, plan: seq<Phase>, l: Local)
    requires !x.noCache && plan != [] && InPlan(t, plan[0]) && RunPhase(t, x, plan[0], l).1 == Done
    requires Compute in plan || Place(t, x, l.w.entry).Some?
    requires Build in plan || l.manifest.Some?
    ensures Compute in plan[1..] || Place(t, x, RunPhase(t, x, plan[0], l).0.w.entry).Some?
    ensures Build in plan[1..] || RunPhase(t, x, plan[0], l).0.manifest.Some?
  {
    hide RunPhase, InPlan, Place, Executes;
    assert plan == [plan[0]] + plan[1..];
    PhasePlace(t, x, plan[0], l);
    PhaseLocals(t, x, plan[0], l);
    if plan[0] == Compute {
      ComputeIsSomewhere(t, x, l);
    }
    if plan[0] == Build {
      BuildGives(t, x, l);
    }
  }

  lemma LikeHolds(t: Target, x: Attempt, e: EntryData, e': EntryData, files: Files)
    requires Holds(t, x, e, files) && SameHas(e, e') && (t.mode != Attached ==> e'.compute == e.compute)
    ensures Holds(t, x, e', files)
  {
    hide Has;
  }

  lemma EmptyHolds(t: Target, x: Attempt, e: EntryData, files: Files)
    requires forall p: Phase :: !Has(e, p)
    ensures Holds(t, x, e, files)
  {
    hide Has;
  }

  lemma DroppedHolds(t: Target, x: Attempt, e: EntryData, files: Files)
    requires ListsSeeds(t, x.fromSeeds) && Holds(t, x, e, files)
    ensures Holds(t, x, InvalidatedFrom(e, x.fromStep, StepOrder(x.fromSeeds)), files)
  {
    hide Has, InvalidatedFrom, StepOrder;
    DroppingIsLate(t, x, e);
  }

  lemma BeginHolds(t: Target, x: Attempt, w: World, files: Files)
    requires ListsSeeds(t, x.fromSeeds) && w.entry == NewEntry(StartInfo(t))
    requires w.stored.Some? ==> Holds(t, x, w.stored.value, files)
    ensures var b := Begin(t, x, w);
      && (b.1 == Done ==> BothHold(t, x, b.0, files))
      && (b.0.stored.Some? ==> Holds(t, x, b.0.stored.value, files))
  {
    hide Begin, InvalidatedFrom, StepOrder, Holds, Has, ListsSeeds;
    BeginHas(t, x, w);
    var created := if w.stored.Some? then w.stored.value else w.entry;
    var dropped := InvalidatedFrom(created, x.fromStep, StepOrder(x.fromSeeds));
    NewIsEmpty(t, StartInfo(t));
    EmptyHolds(t, x, w.entry, files);
    DroppedHolds(t, x, created, files);
    forall e, e' | e in {w.entry, created, dropped} && Like(e, e') ensures Holds(t, x, e', files) {
      LikeHolds(t, x, e, e', files);
    }
  }

  lemma ProvisionHolds(t: Target, x: Attempt, w: World, files: Files)
    requires AttemptAllowed(t, x) && Reachable(t, x) && w.entry == NewEntry(StartInfo(t))
    requires w.stored.Some? ==>
      Ordered(t, w.stored.value) && Known(t, w.stored.value) && Holds(t, x, w.stored.value, files)
    ensures var r := Provisioned(t, x, w).0.w; var after := FilesAttempt(t, x, w, files);
      && (r.stored.Some? ==> Holds(t, x, r.stored.value, after))
      && (Provisioned(t, x, w).1 == Done ==> Holds(t, x, r.entry, after) && Has(r.entry, Write))
  {
    hide Begin, RunPhases, Plan, Provisioned, Has, Known, Ordered, MakesCompute, Holds, Reachable, Orderly, ListsSeeds,
         FilesPhases, InPlan, Place;
    Allowed(t, x);
    CachingIsOn(t, x);
    BeginHolds(t, x, w, files);
    BeginOrdered(t, x, w);
    FinishHas(t, x, w);
    var begun, r := Begin(t, x, w), Provisioned(t, x, w).0.w;
    if begun.1 == Done {
      var plan := Plan(t, x.seedOrder);
      PlanIsInOrder(t, x);
      BuiltBeforeWritten(t, x);
      PlanIsPending(t, plan, begun.0.entry);
      AttachedIsSomewhere(t, x, begun.0.entry);
      PhasesHold(t, x, plan, Fresh(begun.0), files);
      var ran := RunPhases(t, x, plan, Fresh(begun.0));
      if ran.1 == Done {
        PhasesHave(t, x, plan, Fresh(begun.0), Write);
        LikeHolds(t, x, ran.0.w.entry, r.entry, FilesAttempt(t, x, w, files));
        if r.stored != ran.0.w.stored {
          LikeHolds(t, x, r.entry, r.stored.value, FilesAttempt(t, x, w, files));
        }
      }
    }
  }

  lemma PhasesHave(t: Target, x: Attempt, plan: seq<Phase>, l: Local, p: Phase)
    requires p in plan && RunPhases(t, x, plan, l).1 == Done
    ensures Has(RunPhases(t, x, plan, l).0.w.entry, p)
  {
    hide RunPhases;
    PhasesComplete(t, x, plan, l);
    assert p.Name() == p.Name();
  }

  lemma SinceHolds(t: Target, x: Attempt, w: World, files: Files)
    requires Orderly(t, x) && (w.stored.Some? ==> Holds(t, x, w.stored.value, files))
    ensures var r := Since(t, x.later, w); r.stored.Some? ==> Holds(t, x, r.stored.value, files)
  {
    hide Since, Has, Orderly, Holds;
    SinceOffspring(t, x, w);
    var r := Since(t, x.later, w);
    if r.stored.Some? {
      if forall p: Phase :: !Has(r.stored.value, p) {
        EmptyHolds(t, x, r.stored.value, files);
      } else {
        LikeHolds(t, x, w.stored.value, r.stored.value, files);
      }
    }
  }

  /** Attempts that attach, attach to the same worktree. */
  predicate SamePlace(t: Target, x: Attempt, y: Attempt) {
    t.mode == Attached ==> y.compute == x.compute
  }

  lemma {:induction false} AttemptsHold(t: Target, xs: seq<Attempt>, x: Attempt)
    requires forall y :: y in xs ==> AttemptAllowed(t, y) && Reachable(t, y) && SamePlace(t, x, y)
    ensures var w := Attempts(t, xs);
      && w.entry == NewEntry(StartInfo(t))
      && (w.stored.Some? ==>
            Ordered(t, w.stored.value) && Known(t, w.stored.value)
            && Holds(t, x, w.stored.value, FilesAttempts(t, xs)))
  {
    hide Provisioned, AttemptListed, MakesCompute, Known, Ordered, Since, Has, FilesAttempt, Reachable;
    if xs != [] {
      var before, y := xs[..|xs| - 1], xs[|xs| - 1];
      AttemptsHold(t, before, x);
      assert AttemptAllowed(t, y) && Reachable(t, y) && SamePlace(t, x, y);
      Allowed(t, y);
      var w := Attempts(t, before);
      ReachableKnown(t, y, w);
      ProvisionOrdered(t, y, w);
      ProvisionHolds(t, y, w, FilesAttempts(t, before));
      var r := Provisioned(t, y, w).0.w;
      SinceOrdered(t, y, r);
      SinceHolds(t, y, r, FilesAttempts(t, xs));
    }
  }

  lemma ReachableKnown(t: Target, x: Attempt, w: World)
    requires AttemptAllowed(t, x) && Reachable(t, x) && w.entry == NewEntry(StartInfo(t))
    requires w.stored.Some? ==> Known(t, w.stored.value)
    ensures var r := Provisioned(t, x, w).0.w; r.stored.Some? ==> Known(t, r.stored.value)
  {
    hide Provisioned, Begin, Known, Has, AttemptListed, MakesCompute;
    ProvisionKnown(t, x, w);
  }

  /** So with the compute reachable, and attempts that attach all attaching to the same worktree, an attempt that
      succeeds always leaves its manifest on the machine it ends with, also when write_manifest was taken from its
      checkpoint. */
  lemma ReachableMachineIsCurrent(t: Target, h: Hooks, xs: seq<Attempt>, x: Attempt)
    requires forall y :: y in xs + [x] ==> Quiet(t, y, h) && AttemptAllowed(t, y) && Reachable(t, y) && LeavesFiles(y)
    requires forall y :: y in xs ==> SamePlace(t, x, y)
    requires Provisioned(t, x, Attempts(t, xs)).1 == Done
    ensures var r := Provisioned(t, x, Attempts(t, xs)).0; var files := FilesAttempts(t, xs + [x]);
      r.manifest.Some? && r.w.entry.compute.Some? && r.w.entry.compute.value in files
      && files[r.w.entry.compute.value] == r.manifest.value
  {
    hide Provisioned, Quiet, Reachable, Attempts, Has, AttemptAllowed, LeavesFiles, Known, Ordered, FilesAttempt,
         WrittenLast, SamePlace;
    assert x in xs + [x] && forall y :: y in xs ==> y in xs + [x];
    forall y | y in xs + [x] ensures Orderly(t, y) {
      Allowed(t, y);
    }
    AttemptsHold(t, xs, x);
    ManifestOnMachine(t, h, xs, x);
    ProvisionHolds(t, x, Attempts(t, xs), FilesAttempts(t, xs));
    assert (xs + [x])[..|xs|] == xs;
    EndPlace(t, x, Attempts(t, xs));
  }

  // ---------- Machines without a manifest ----------

  /** The worktree is gone, and is made again. */
  const REMADE := WORKS.(answers := n => QUIET.(verifyOk := false))

  lemma InExample(t: Target, p: Phase)
    requires p == Write || (p == Compute && t.mode != Attached)
    ensures InPlan(t, p)
  {
  }

  lemma RemadeIsAllowed()
    ensures Orderly(BARE, WORKS) && Smooth(WORKS) && LeavesFiles(WORKS) && WORKS.later == []
    ensures Orderly(BARE, REMADE) && Smooth(REMADE) && LeavesFiles(REMADE)
    ensures BARE.mode != Attached && BARE.cfg.services == map[]
  {
    assert BARE.Seeds() == {};
  }

  lemma RemadeExecutes(w: World)
    requires w.stored.Some? && Has(w.stored.value, Write)
    ensures !Executes(BARE, REMADE, Write, StartEntry(BARE, REMADE, w))
    ensures Executes(BARE, REMADE, Compute, StartEntry(BARE, REMADE, w))
  {
  }

  /** An input: of two attempts that succeed, the second finds the worktree gone and makes it again, and leaves it
      without a manifest. */
  lemma MachineWithoutManifest()
    ensures Provisioned(BARE, WORKS, Attempts(BARE, [])).1 == Done
    ensures var r := Provisioned(BARE, REMADE, Attempts(BARE, [WORKS]));
      r.1 == Done && r.0.w.entry.compute.Some?
      && r.0.w.entry.compute.value !in FilesAttempts(BARE, [WORKS] + [REMADE])
  {
    hide *;
    RemadeIsAllowed();
    WithoutServicesItSucceeds(BARE, WORKS, Attempts(BARE, []));
    WithoutServicesItSucceeds(BARE, REMADE, Attempts(BARE, [WORKS]));
    InExample(BARE, Write);
    SuccessIsStored(BARE, WORKS, Attempts(BARE, []), Write);
    AfterOneMore(BARE, [], WORKS);
    assert [] + [WORKS] == [WORKS];
    RemadeExecutes(Attempts(BARE, [WORKS]));
    ManifestStays(BARE, [WORKS], REMADE);
  }

  const ATTACHED := BARE.(mode := Attached)

  const ELSEWHERE := WORKS.(compute := ComputeInfo(false, "/elsewhere"))

  /** Attaching changes no file but that of the worktree attached to. */
  lemma {:induction false} AttachedKeeps(t: Target, x: Attempt, plan: seq<Phase>, l: Local, files: Files)
    requires t.mode == Attached && Compute !in plan
    ensures forall c :: c != x.compute ==> (c in FilesPhases(t, x, plan, l, files) <==> c in files)
  {
    hide RunPhase, Facing, Restored, Executes;
    if plan != [] {
      AttachedKeeps(t, x, plan[1..], RunPhase(t, x, plan[0], l).0, FilesAfter(t, x, plan[0], l, files));
    }
  }

  lemma AttachedHas(t: Target, xs: seq<Attempt>, x: Attempt, c: ComputeInfo)
    requires t.mode == Attached && c != x.compute && Orderly(t, x)
    ensures c in FilesAttempts(t, xs + [x]) <==> c in FilesAttempts(t, xs)
  {
    hide Begin, FilesPhases, Plan, Attempts, Orderly;
    assert (xs + [x])[..|xs|] == xs;
    BuiltBeforeWritten(t, x);
    AttachedKeeps(t, x, Plan(t, x.seedOrder), Fresh(Begin(t, x, Attempts(t, xs)).0), FilesAttempts(t, xs));
  }

  lemma ElsewhereIsAllowed()
    ensures Orderly(ATTACHED, WORKS) && Smooth(WORKS) && LeavesFiles(WORKS) && WORKS.later == []
    ensures Orderly(ATTACHED, ELSEWHERE) && Smooth(ELSEWHERE) && LeavesFiles(ELSEWHERE)
    ensures ATTACHED.mode == Attached && ATTACHED.cfg.services == map[] && ELSEWHERE.compute != WORKS.compute
  {
    assert ATTACHED.Seeds() == {};
  }

  lemma ElsewhereExecutes(x: Attempt, w: World)
    requires x == WORKS || x == ELSEWHERE
    ensures var e := StartEntry(ATTACHED, x, w);
      if w.stored.Some? then Has(w.stored.value, Write) ==> !Executes(ATTACHED, x, Write, e)
      else w.entry == NewEntry(StartInfo(ATTACHED)) ==> Executes(ATTACHED, x, Write, e)
  {
  }

  lemma AttachedEnds(t: Target, x: Attempt, w: World)
    requires t.mode == Attached && Orderly(t, x) && Provisioned(t, x, w).1 == Done
    ensures Provisioned(t, x, w).0.w.entry.compute == Some(x.compute)
  {
    hide Begin, RunPhases, Plan, EntryData.Normal, Orderly;
    SuccessIsBuilt(t, x, w);
  }

  lemma NothingYet(t: Target)
    ensures Attempts(t, []).stored == None && Attempts(t, []).entry == NewEntry(StartInfo(t))
    ensures FilesAttempts(t, []) == map[]
  {
  }

  /** Another: both attempts attach, to two worktrees. The second takes write_manifest from its checkpoint, and its
      worktree has no manifest. */
  lemma AttachedElsewhere()
    ensures Provisioned(ATTACHED, WORKS, Attempts(ATTACHED, [])).1 == Done
    ensures var r := Provisioned(ATTACHED, ELSEWHERE, Attempts(ATTACHED, [WORKS]));
      var files := FilesAttempts(ATTACHED, [WORKS] + [ELSEWHERE]);
      && r.1 == Done && r.0.w.entry.compute == Some(ELSEWHERE.compute)
      && WORKS.compute in files && ELSEWHERE.compute !in files
  {
    hide *;
    ElsewhereIsAllowed();
    var start, w := Attempts(ATTACHED, []), Attempts(ATTACHED, [WORKS]);
    NothingYet(ATTACHED);
    WithoutServicesItSucceeds(ATTACHED, WORKS, start);
    WithoutServicesItSucceeds(ATTACHED, ELSEWHERE, w);
    InExample(ATTACHED, Write);
    SuccessIsStored(ATTACHED, WORKS, start, Write);
    AfterOneMore(ATTACHED, [], WORKS);
    assert [] + [WORKS] == [WORKS];
    ElsewhereExecutes(WORKS, start);
    ElsewhereExecutes(ELSEWHERE, w);
    ManifestStays(ATTACHED, [], WORKS);
    ManifestStays(ATTACHED, [WORKS], ELSEWHERE);
    AttachedEnds(ATTACHED, WORKS, start);
    AttachedEnds(ATTACHED, ELSEWHERE, w);
    AttachedHas(ATTACHED, [], WORKS, ELSEWHERE.compute);
    AttachedHas(ATTACHED, [WORKS], ELSEWHERE, WORKS.compute);
  }
}
