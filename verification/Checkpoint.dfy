/** Executing a step with checkpointing (manager.go), and what holds over every run of such steps. */
module Checkpoint {
  import opened Prelude
  import opened Manifest
  import opened Entry

  // ---------- The world a step runs in ----------

  /** What the log of an observer would say. It is not part of the program. */
  datatype Event = RanOk(step: string, outputs: StepOutputs) | RanFailed(step: string) | CacheUsed(step: string)

  /** The entry in memory, the entry in the store, and what has been executed so far. */
  datatype World = World(entry: EntryData, stored: Option<EntryData>, events: seq<Event>)

  datatype StepOpts = StepOpts(name: string, allowCache: bool, hasVerify: bool)

  /** How an attempt to save turns out: an error does not say whether the entry was written. */
  datatype Save = Saved | SavedWithError | NotSaved

  datatype Crash = NoCrash | BeforeFn | AfterFn

  /** Everything outside the program that a step may meet: what Verify and Fn return, what Fn exports and
      enables, what its subprocesses write to the store, whether reading and writing the store works,
      and where the process may be killed. */
  datatype Answer = Answer(verifyOk: bool, fnOk: bool, outputs: StepOutputs, globals: EnvMap,
                           enable: Option<seq<string>>, storeSet: EnvMap, reloadOk: bool, save: Save, crash: Crash)

  datatype Outcome = Done | Failure | Killed

  function SaveTo(stored: Option<EntryData>, e: EntryData, save: Save): Option<EntryData> {
    if save == NotSaved then stored else Some(e.Normal())
  }

  /** A hook's subprocess sets keys with "previewctl store set". */
  function StoreSet(stored: Option<EntryData>, vars: EnvMap): Option<EntryData> {
    if stored.None? then None else Some(stored.value.WithEnv(vars))
  }

  /** The reload after a successful step: the persisted store replaces the one in memory, if there is one. */
  function Reloaded(e: EntryData, stored: Option<EntryData>, reloadOk: bool): EntryData {
    if reloadOk && stored.Some? && stored.value.env.Some? then e.(env := stored.value.env) else e
  }

  predicate CacheHit(noCache: bool, o: StepOpts, e: EntryData) {
    o.allowCache && !noCache && e.StepCompleted(o.name)
  }

  /** Fn, and the record of how it went. */
  function Execute(o: StepOpts, a: Answer, w: World): (World, Outcome) {
    if a.crash == BeforeFn then (w, Killed)
    else
      var entry := if a.enable.Some? then w.entry.(enabledServices := a.enable.value) else w.entry;
      var stored := StoreSet(w.stored, a.storeSet);
      var events := w.events + [if a.fnOk then RanOk(o.name, a.outputs) else RanFailed(o.name)];
      if a.crash == AfterFn then (World(entry, stored, events), Killed)
      else if !a.fnOk then
        var failed := entry.WithRecord(o.name, Failed, map[]).WithAudit(o.name, RunFailed);
        (World(failed, SaveTo(stored, failed, a.save), events), Failure)
      else
        var done := entry.WithEnv(a.globals).WithRecord(o.name, Completed, a.outputs).WithAudit(o.name, Executed);
        var latest := Reloaded(done, stored, a.reloadOk);
        (World(latest, SaveTo(stored, latest, a.save), events), if a.save == Saved then Done else Failure)
  }

  function Stepped(noCache: bool, o: StepOpts, a: Answer, w: World): (World, Outcome) {
    if !CacheHit(noCache, o, w.entry) then Execute(o, a, w)
    else if o.hasVerify && !a.verifyOk then
      Execute(o, a, w.(entry := w.entry.WithAudit(o.name, VerifyFailed)))
    else
      (World(w.entry.WithAudit(o.name, if o.hasVerify then Verified else Skipped), w.stored,
             w.events + [CacheUsed(o.name)]), Done)
  }

  /** What a step leaves of itself in the entry: one more entry in the audit log, or two when its checkpoint was not
      verified, and a record of how it went, unless it was taken from its checkpoint or the process was killed. */
  lemma StepIsRecorded(noCache: bool, o: StepOpts, a: Answer, w: World)
    ensures var e := Stepped(noCache, o, a, w).0.entry;
      var found := o.allowCache && !noCache && o.name in w.entry.steps && w.entry.steps[o.name].status == Completed;
      if found && (o.hasVerify ==> a.verifyOk) then
        e.auditLog == w.entry.auditLog + [AuditEntry(o.name, if o.hasVerify then Verified else Skipped)]
        && e == w.entry.(auditLog := e.auditLog)
      else
        var before := if found then w.entry.auditLog + [AuditEntry(o.name, VerifyFailed)] else w.entry.auditLog;
        if a.crash != NoCrash then e.auditLog == before && e.steps == w.entry.steps
        else
          && e.auditLog == before + [AuditEntry(o.name, if a.fnOk then Executed else RunFailed)]
          && o.name in e.steps
          && e.steps[o.name] == (if a.fnOk then StepRecord(Completed, a.outputs) else StepRecord(Failed, map[]))
          && (forall n :: n != o.name ==>
                (n in e.steps <==> n in w.entry.steps) && (n in e.steps ==> e.steps[n] == w.entry.steps[n]))
          && e.enabledServices == a.enable.GetOr(w.entry.enabledServices)
          && e.info == w.entry.info && e.compute == w.entry.compute
  {
    hide EntryData.Normal;
  }

  // ---------- The program ----------

  class StateStore {
    var environments: map<string, EntryData>

    constructor ()
      ensures environments == map[]
    {
      environments := map[];
    }

    function Stored(name: string): Option<EntryData>
      reads this
    {
      if name in environments then Some(environments[name]) else None
    }

    method SetEnvironment(name: string, e: EntryData, save: Save) returns (ok: bool)
      modifies this
      ensures ok <==> save == Saved
      ensures Stored(name) == SaveTo(old(Stored(name)), e, save)
      ensures forall n :: n != name ==> Stored(n) == old(Stored(n))
    {
      if save != NotSaved {
        environments := environments[name := e.Normal()];
      }
      return save == Saved;
    }

    method HookSets(name: string, vars: EnvMap)
      modifies this
      ensures Stored(name) == StoreSet(old(Stored(name)), vars)
      ensures forall n :: n != name ==> Stored(n) == old(Stored(n))
    {
      if name in environments {
        environments := environments[name := environments[name].WithEnv(vars)];
      }
    }
  }

  class Manager {
    const state: StateStore
    const name: string
    var noCache: bool
    ghost var events: seq<Event>

    constructor (state: StateStore, name: string, noCache: bool)
      ensures this.state == state && this.name == name && this.noCache == noCache && events == []
    {
      this.state, this.name, this.noCache, events := state, name, noCache, [];
    }

    ghost function Now(entry: EnvironmentEntry): World
      reads this, state, entry
    {
      World(entry.Data(), state.Stored(name), events)
    }

    method Step(entry: EnvironmentEntry, o: StepOpts, a: Answer) returns (outcome: Outcome)
      modifies this`events, state, entry
      ensures (Now(entry), outcome) == Stepped(noCache, o, a, old(Now(entry)))
    {
      hide EntryData.WithEnv, EntryData.Normal;
      if o.allowCache && !noCache && entry.Data().StepCompleted(o.name) {
        if o.hasVerify {
          if a.verifyOk {
            entry.AppendAudit(o.name, Verified);
            events := events + [CacheUsed(o.name)];
            return Done;
          }
          entry.AppendAudit(o.name, VerifyFailed);
        } else {
          entry.AppendAudit(o.name, Skipped);
          events := events + [CacheUsed(o.name)];
          return Done;
        }
      }
      outcome := Run(entry, o, a);
    }

    /** The part of step from "Execute the step" on. */
    method Run(entry: EnvironmentEntry, o: StepOpts, a: Answer) returns (outcome: Outcome)
      modifies this`events, state, entry
      ensures (Now(entry), outcome) == Execute(o, a, old(Now(entry)))
    {
      hide EntryData.WithEnv, EntryData.Normal;
      if a.crash == BeforeFn {
        return Killed;
      }
      // Fn
      state.HookSets(name, a.storeSet);
      if a.enable.Some? {
        entry.enabledServices := a.enable.value;
      }
      events := events + [if a.fnOk then RanOk(o.name, a.outputs) else RanFailed(o.name)];
      if a.crash == AfterFn {
        return Killed;
      }
      if !a.fnOk {
        entry.SetStepRecord(o.name, Failed, map[]);
        entry.AppendAudit(o.name, RunFailed);
        var ignored := state.SetEnvironment(name, entry.Data(), a.save);
        return Failure;
      }
      entry.SetAll(a.globals);
      entry.SetStepRecord(o.name, Completed, a.outputs);
      entry.AppendAudit(o.name, Executed);
      var latest := state.Stored(name);
      if a.reloadOk && latest.Some? && latest.value.env.Some? {
        entry.env := latest.value.env;
      }
      var ok := state.SetEnvironment(name, entry.Data(), a.save);
      return if ok then Done else Failure;
    }
  }

  // ---------- GLOBAL_ exports ----------

  /** All exports of a step's Fn are in the store afterwards. */
  predicate Kept(globals: EnvMap, e: EntryData) {
    forall k :: k in globals ==> k in e.env.GetOr(map[]) && e.env.GetOr(map[])[k] == globals[k]
  }

  const QUIET := Answer(true, true, map[], map[], None, map[], true, Saved, NoCrash)

  /** So of two steps that export, the second export is lost. */
  lemma SecondExportIsLost(o: StepOpts, a: Answer, p: StepOpts, b: Answer, w: World)
    requires w.stored.Some? && w.stored.value.env.None? && w.entry.env.None?
    requires a == QUIET.(globals := map["A" := "1"]) && b == QUIET.(globals := map["B" := "2"])
    ensures var first := Execute(o, a, w); var second := Execute(p, b, first.0);
      first.1 == Done && second.1 == Done && Kept(a.globals, first.0.entry) && !Kept(b.globals, second.0.entry)
  {
    var first := Execute(o, a, w).0;
    assert first.entry.env == Some(map["A" := "1"]) by {
      assert "A" in map["A" := "1"];
      assert None.GetOr(map[]) + map["A" := "1"] == map["A" := "1"];
    }
    assert first.stored.value.env == Some(map["A" := "1"]);
    assert "B" in b.globals && "B" !in map["A" := "1"];
  }
}
