/** What every run keeps: replaying the audit log gives the completed steps, and no checkpoint says more
    than was executed. */
module AuditTrail {
  import opened Prelude
  import opened Manifest
  import opened Entry
  import opened Checkpoint

  // ---------- Runs ----------

  /** What the program does to an environment, by any command and in any order. Kill drops the entry in
      memory; Load and Create start the next command. */
  datatype Op =
    | DoStep(noCache: bool, o: StepOpts, a: Answer)
    | DoInvalidate(name: string)
    | DoInvalidateFrom(step: string, order: seq<string>)
    | DoHeal(name: string, fnOk: bool, enabledServices: seq<string>)
    | DoUntracked(name: string, fnOk: bool)
    | DoSave(save: Save)
    | DoUpdate(info: Info, compute: Option<ComputeInfo>, env: Option<EnvMap>, enabledServices: seq<string>)
    | DoDescribe(info: Info, enabledServices: seq<string>)
    | Load
    | Create(info: Info)
    | Elsewhere(vars: EnvMap)

  function NewEntry(info: Info): EntryData {
    EntryData(info, None, None, [], map[], [])
  }

  /** Healing a step in Reconcile: Fn again, which may enable services, recorded without outputs; nothing is
      saved yet. */
  function Healed(name: string, fnOk: bool, enabledServices: seq<string>, w: World): World {
    var entry := w.entry.(enabledServices := enabledServices);
    if fnOk then
      w.(entry := entry.WithRecord(name, Completed, map[]).WithAudit(name, Reconciled),
         events := w.events + [RanOk(name, map[])])
    else
      w.(entry := entry.WithAudit(name, ReconcileFailed), events := w.events + [RanFailed(name)])
  }

  function Apply(op: Op, w: World): World {
    match op
    case DoStep(noCache, o, a) => Stepped(noCache, o, a, w).0
    case DoInvalidate(name) => w.(entry := InvalidatedStep(w.entry, name))
    case DoInvalidateFrom(step, order) => w.(entry := InvalidatedFrom(w.entry, step, order))
    case DoHeal(name, fnOk, enabledServices) => Healed(name, fnOk, enabledServices, w)
    case DoUntracked(name, fnOk) => w.(events := w.events + [if fnOk then RanOk(name, map[]) else RanFailed(name)])
    case DoSave(save) => w.(stored := SaveTo(w.stored, w.entry, save))
    case DoUpdate(info, compute, env, enabled) =>
      w.(entry := w.entry.(info := info, compute := compute, env := env, enabledServices := enabled))
    case DoDescribe(info, enabled) => w.(entry := w.entry.(info := info, enabledServices := enabled))
    case Load => if w.stored.Some? then w.(entry := w.stored.value) else w
    case Create(info) => if w.stored.Some? then w else w.(entry := NewEntry(info))
    case Elsewhere(vars) => w.(stored := StoreSet(w.stored, vars))
  }

  function Run(ops: seq<Op>, w: World): World {
    if ops == [] then w else Apply(ops[|ops| - 1], Run(ops[..|ops| - 1], w))
  }

  lemma {:induction false} RunAppends(a: seq<Op>, b: seq<Op>, w: World)
    ensures Run(a + b, w) == Run(b, Run(a, w))
  {
    if b == [] {
      assert a + b == a;
    } else {
      RunAppends(a, b[..|b| - 1], w);
      assert (a + b)[..|a + b| - 1] == a + b[..|b| - 1];
    }
  }

  lemma RunOne(ops: seq<Op>, op: Op, w: World)
    ensures Run(ops + [op], w) == Apply(op, Run(ops, w))
  {
    assert (ops + [op])[..|ops|] == ops;
  }

  const START := World(NewEntry(Info("", "", "", map[], map[])), None, [])

  // ---------- The audit log ----------

  /** Executed and reconciled set a step, failed and invalidated clear it, the rest has no effect. */
  function Replay(log: seq<AuditEntry>): set<string> {
    if log == [] then {}
    else
      var before, last := Replay(log[..|log| - 1]), log[|log| - 1];
      match last.action
      case Executed => before + {last.step}
      case Reconciled => before + {last.step}
      case RunFailed => before - {last.step}
      case MarkedInvalid => before - {last.step}
      case _ => before
  }

  ghost predicate Consistent(e: EntryData) {
    Replay(e.auditLog) == e.CompletedSteps()
  }

  ghost predicate AllConsistent(w: World) {
    Consistent(w.entry) && (w.stored.Some? ==> Consistent(w.stored.value))
  }

  lemma ReplayOne(e: EntryData, step: string, action: Action)
    ensures Replay(e.WithAudit(step, action).auditLog) ==
      (match action
       case Executed => Replay(e.auditLog) + {step}
       case Reconciled => Replay(e.auditLog) + {step}
       case RunFailed => Replay(e.auditLog) - {step}
       case MarkedInvalid => Replay(e.auditLog) - {step}
       case _ => Replay(e.auditLog))
  {
    assert e.WithAudit(step, action).auditLog[..|e.auditLog|] == e.auditLog;
  }

  lemma RecordOne(e: EntryData, step: string, status: StepStatus, outputs: StepOutputs)
    ensures e.WithRecord(step, status, outputs).CompletedSteps() ==
      if status == Completed then e.CompletedSteps() + {step} else e.CompletedSteps() - {step}
  {
  }

  lemma NormalKeeps(e: EntryData)
    ensures e.Normal().auditLog == e.auditLog && e.Normal().CompletedSteps() == e.CompletedSteps()
  {
  }

  lemma ExecuteConsistent(o: StepOpts, a: Answer, w: World)
    requires AllConsistent(w)
    ensures AllConsistent(Execute(o, a, w).0)
  {
    hide Replay, EntryData.CompletedSteps, EntryData.Normal, EntryData.WithEnv;
    var entry := if a.enable.Some? then w.entry.(enabledServices := a.enable.value) else w.entry;
    EnvKeeps(w.entry, entry);
    if w.stored.Some? {
      WithEnvKeeps(w.stored.value, a.storeSet);
    }
    if a.crash == NoCrash && !a.fnOk {
      RecordConsistent(entry, Execute(o, a, w).0.entry, o.name, Failed, map[], RunFailed);
      NormalKeeps(Execute(o, a, w).0.entry);
    } else if a.crash == NoCrash {
      WithEnvKeeps(entry, a.globals);
      RecordConsistent(entry.WithEnv(a.globals), Execute(o, a, w).0.entry, o.name, Completed, a.outputs, Executed);
      NormalKeeps(Execute(o, a, w).0.entry);
    }
  }

  /** A record and the audit entry that goes with it, whatever else changes beside them. */
  lemma RecordConsistent(e: EntryData, e': EntryData, step: string, status: StepStatus, outputs: StepOutputs,
                         action: Action)
    requires Consistent(e) && (status == Completed <==> action == Executed) && action in {Executed, RunFailed}
    requires var recorded := e.WithRecord(step, status, outputs).WithAudit(step, action);
      e'.steps == recorded.steps && e'.auditLog == recorded.auditLog
    ensures Consistent(e')
  {
    hide Replay, EntryData.CompletedSteps;
    var recorded := e.WithRecord(step, status, outputs);
    RecordOne(e, step, status, outputs);
    ReplayOne(recorded, step, action);
    EnvKeeps(recorded, e');
  }

  lemma WithEnvKeeps(e: EntryData, vars: EnvMap)
    ensures e.WithEnv(vars).steps == e.steps && e.WithEnv(vars).auditLog == e.auditLog
    ensures e.WithEnv(vars).CompletedSteps() == e.CompletedSteps()
  {
  }

  lemma EnvKeeps(e: EntryData, e': EntryData)
    requires e'.steps == e.steps
    ensures e'.CompletedSteps() == e.CompletedSteps()
  {
  }

  lemma DroppedConsistent(e: EntryData, s: string)
    requires Consistent(e)
    ensures Consistent(Dropped(e, s))
  {
    hide Replay;
    var dropped := e.(steps := map n | n in e.steps && n != s :: e.steps[n]);
    ReplayOne(dropped, s, MarkedInvalid);
    assert dropped.CompletedSteps() == e.CompletedSteps() - {s};
  }

  lemma {:induction false} DroppingConsistent(e: EntryData, gone: seq<string>)
    requires Consistent(e)
    ensures Consistent(DroppedAll(e, gone))
  {
    hide Consistent, Dropped;
    if gone != [] {
      DroppingConsistent(e, gone[..|gone| - 1]);
      DroppedConsistent(DroppedAll(e, gone[..|gone| - 1]), gone[|gone| - 1]);
    }
  }

  lemma StepConsistent(noCache: bool, o: StepOpts, a: Answer, w: World)
    requires AllConsistent(w)
    ensures AllConsistent(Stepped(noCache, o, a, w).0)
  {
    hide Execute, Replay, EntryData.CompletedSteps;
    ReplayOne(w.entry, o.name, VerifyFailed);
    ReplayOne(w.entry, o.name, Verified);
    ReplayOne(w.entry, o.name, Skipped);
    EnvKeeps(w.entry, w.entry.WithAudit(o.name, VerifyFailed));
    EnvKeeps(w.entry, w.entry.WithAudit(o.name, Verified));
    EnvKeeps(w.entry, w.entry.WithAudit(o.name, Skipped));
    ExecuteConsistent(o, a, w);
    ExecuteConsistent(o, a, w.(entry := w.entry.WithAudit(o.name, VerifyFailed)));
  }

  lemma HealConsistent(name: string, fnOk: bool, enabledServices: seq<string>, w: World)
    requires Consistent(w.entry)
    ensures Consistent(Healed(name, fnOk, enabledServices, w).entry)
    ensures Healed(name, fnOk, enabledServices, w).stored == w.stored
  {
    hide Replay, EntryData.CompletedSteps;
    var entry := w.entry.(enabledServices := enabledServices);
    var e := entry.WithRecord(name, Completed, map[]);
    EnvKeeps(w.entry, entry);
    RecordOne(entry, name, Completed, map[]);
    ReplayOne(e, name, Reconciled);
    ReplayOne(entry, name, ReconcileFailed);
    EnvKeeps(e, e.WithAudit(name, Reconciled));
    EnvKeeps(entry, entry.WithAudit(name, ReconcileFailed));
  }

  lemma OpConsistent(op: Op, w: World)
    requires AllConsistent(w)
    ensures AllConsistent(Apply(op, w))
  {
    hide Stepped, Replay, EntryData.CompletedSteps, DroppedAll, EntryData.Normal, Healed;
    match op
    case DoStep(noCache, o, a) => StepConsistent(noCache, o, a, w);
    case DoInvalidate(name) =>
      var e := w.entry.WithRecord(name, Invalidated, map[]);
      RecordOne(w.entry, name, Invalidated, map[]);
      ReplayOne(e, name, MarkedInvalid);
      EnvKeeps(e, e.WithAudit(name, MarkedInvalid));
    case DoInvalidateFrom(step, order) => DroppingConsistent(w.entry, From(step, order));
    case DoHeal(name, fnOk, enabledServices) => HealConsistent(name, fnOk, enabledServices, w);
    case DoUntracked(name, fnOk) =>
    case DoSave(save) => NormalKeeps(w.entry);
    case DoUpdate(info, compute, env, enabled) => EnvKeeps(w.entry, Apply(op, w).entry);
    case DoDescribe(info, enabled) => EnvKeeps(w.entry, Apply(op, w).entry);
    case Load =>
    case Create(info) => NewConsistent(info);
    case Elsewhere(vars) =>
      if w.stored.Some? {
        EnvKeeps(w.stored.value, w.stored.value.WithEnv(vars));
      }
  }

  lemma NewConsistent(info: Info)
    ensures Consistent(NewEntry(info))
  {
  }

  lemma {:induction false} RunConsistent(ops: seq<Op>, w: World)
    requires AllConsistent(w)
    ensures AllConsistent(Run(ops, w))
  {
    hide Apply, Consistent;
    if ops != [] {
      RunConsistent(ops[..|ops| - 1], w);
      OpConsistent(ops[|ops| - 1], Run(ops[..|ops| - 1], w));
    }
  }

  /** At every point of every run, replaying the audit log of the entry in memory or in the store gives
      exactly its completed steps. */
  lemma AuditLogTellsTheSteps(ops: seq<Op>)
    ensures AllConsistent(Run(ops, START))
  {
    NewConsistent(START.entry.info);
    RunConsistent(ops, START);
  }

  // ---------- Checkpoints and effects ----------

  /** Some execution of the step succeeded and produced these outputs, up to a round trip through JSON. */
  ghost predicate Produced(events: seq<Event>, step: string, outputs: StepOutputs) {
    exists i :: 0 <= i < |events| && events[i].RanOk? && events[i].step == step
      && (outputs == events[i].outputs || outputs == RoundTrip(events[i].outputs))
  }

  ghost predicate Backed(e: EntryData, events: seq<Event>) {
    forall n :: n in e.steps && e.steps[n].status == Completed ==> Produced(events, n, e.steps[n].outputs)
  }

  lemma ProducedLater(events: seq<Event>, more: seq<Event>, step: string, outputs: StepOutputs)
    requires Produced(events, step, outputs)
    ensures Produced(events + more, step, outputs)
  {
    var i :| 0 <= i < |events| && events[i].RanOk? && events[i].step == step
      && (outputs == events[i].outputs || outputs == RoundTrip(events[i].outputs));
    assert (events + more)[i] == events[i];
  }

  lemma BackedLater(e: EntryData, e': EntryData, events: seq<Event>, more: seq<Event>)
    requires Backed(e, events)
    requires forall n :: n in e'.steps && e'.steps[n].status == Completed ==> n in e.steps && e'.steps[n] == e.steps[n]
    ensures Backed(e', events + more)
  {
    hide Produced;
    forall n | n in e'.steps && e'.steps[n].status == Completed
      ensures Produced(events + more, n, e'.steps[n].outputs)
    {
      ProducedLater(events, more, n, e.steps[n].outputs);
    }
  }

  lemma NormalBacked(e: EntryData, events: seq<Event>)
    requires Backed(e, events)
    ensures Backed(e.Normal(), events)
  {
    forall n | n in e.steps && e.steps[n].status == Completed
      ensures Produced(events, n, RoundTrip(e.steps[n].outputs))
    {
      assert Produced(events, n, e.steps[n].outputs);
      var i :| 0 <= i < |events| && events[i].RanOk? && events[i].step == n
        && (e.steps[n].outputs == events[i].outputs || e.steps[n].outputs == RoundTrip(events[i].outputs));
      RoundTripTwice(events[i].outputs);
    }
  }

  lemma RecordedBacked(e: EntryData, e': EntryData, events: seq<Event>, step: string, outputs: StepOutputs)
    requires Backed(e, events) && e'.steps == e.steps[step := StepRecord(Completed, outputs)]
    ensures Backed(e', events + [RanOk(step, outputs)])
  {
    var after := events + [RanOk(step, outputs)];
    assert after[|events|] == RanOk(step, outputs);
    forall n | n in e'.steps && e'.steps[n].status == Completed ensures Produced(after, n, e'.steps[n].outputs) {
      if n != step {
        ProducedLater(events, [RanOk(step, outputs)], n, e.steps[n].outputs);
      }
    }
  }

  ghost predicate AllBacked(w: World) {
    Backed(w.entry, w.events) && (w.stored.Some? ==> Backed(w.stored.value, w.events))
  }

  lemma ExecuteBacked(o: StepOpts, a: Answer, w: World)
    requires AllBacked(w)
    ensures AllBacked(Execute(o, a, w).0)
  {
    hide Backed, EntryData.Normal;
    var after := Execute(o, a, w);
    var more := [if a.fnOk then RanOk(o.name, a.outputs) else RanFailed(o.name)];
    var entry := if a.enable.Some? then w.entry.(enabledServices := a.enable.value) else w.entry;
    BackedLater(w.entry, entry, w.events, more);
    if w.stored.Some? {
      BackedLater(w.stored.value, w.stored.value.WithEnv(a.storeSet), w.events, more);
    }
    if a.crash == NoCrash {
      if a.fnOk {
        RecordedBacked(w.entry, after.0.entry, w.events, o.name, a.outputs);
      } else {
        BackedLater(w.entry, after.0.entry, w.events, more);
      }
      NormalBacked(after.0.entry, w.events + more);
    }
  }

  lemma StepBacked(noCache: bool, o: StepOpts, a: Answer, w: World)
    requires AllBacked(w)
    ensures AllBacked(Stepped(noCache, o, a, w).0)
  {
    hide Execute, Backed;
    var failed := w.(entry := w.entry.WithAudit(o.name, VerifyFailed));
    BackedLater(w.entry, failed.entry, w.events, []);
    assert w.events + [] == w.events;
    ExecuteBacked(o, a, w);
    ExecuteBacked(o, a, failed);
    BackedLater(w.entry, w.entry.WithAudit(o.name, Verified), w.events, [CacheUsed(o.name)]);
    BackedLater(w.entry, w.entry.WithAudit(o.name, Skipped), w.events, [CacheUsed(o.name)]);
    if w.stored.Some? {
      BackedLater(w.stored.value, w.stored.value, w.events, [CacheUsed(o.name)]);
    }
  }

  lemma {:induction false} DroppingKeeps(e: EntryData, gone: seq<string>)
    ensures forall n :: n in DroppedAll(e, gone).steps <==> n in e.steps && n !in gone
    ensures forall n :: n in DroppedAll(e, gone).steps ==> DroppedAll(e, gone).steps[n] == e.steps[n]
  {
    if gone != [] {
      DroppingKeeps(e, gone[..|gone| - 1]);
      assert gone == gone[..|gone| - 1] + [gone[|gone| - 1]];
    }
  }

  lemma OpBacked(op: Op, w: World)
    requires AllBacked(w)
    ensures AllBacked(Apply(op, w))
  {
    hide Stepped, Backed, EntryData.Normal, DroppedAll;
    var after := Apply(op, w);
    assert w.events + [] == w.events;
    match op
    case DoStep(noCache, o, a) => StepBacked(noCache, o, a, w);
    case DoInvalidate(name) => BackedLater(w.entry, after.entry, w.events, []);
    case DoInvalidateFrom(step, order) =>
      DroppingKeeps(w.entry, From(step, order));
      BackedLater(w.entry, after.entry, w.events, []);
    case DoHeal(name, fnOk, enabledServices) =>
      if w.stored.Some? {
        BackedLater(w.stored.value, w.stored.value, w.events, [if fnOk then RanOk(name, map[]) else RanFailed(name)]);
      }
      if fnOk {
        RecordedBacked(w.entry, after.entry, w.events, name, map[]);
      } else {
        BackedLater(w.entry, after.entry, w.events, [RanFailed(name)]);
      }
    case DoUntracked(name, fnOk) =>
      var more := [if fnOk then RanOk(name, map[]) else RanFailed(name)];
      BackedLater(w.entry, w.entry, w.events, more);
      if w.stored.Some? {
        BackedLater(w.stored.value, w.stored.value, w.events, more);
      }
    case DoSave(save) => NormalBacked(w.entry, w.events);
    case DoUpdate(info, compute, env, enabled) => BackedLater(w.entry, after.entry, w.events, []);
    case DoDescribe(info, enabled) => BackedLater(w.entry, after.entry, w.events, []);
    case Load =>
    case Create(info) => NewBacked(info, w.events);
    case Elsewhere(vars) =>
      if w.stored.Some? {
        BackedLater(w.stored.value, after.stored.value, w.events, []);
      }
  }

  lemma NewBacked(info: Info, events: seq<Event>)
    ensures Backed(NewEntry(info), events)
  {
  }

  lemma {:induction false} RunBacked(ops: seq<Op>, w: World)
    requires AllBacked(w)
    ensures AllBacked(Run(ops, w))
  {
    hide Apply, Backed;
    if ops != [] {
      RunBacked(ops[..|ops| - 1], w);
      OpBacked(ops[|ops| - 1], Run(ops[..|ops| - 1], w));
    }
  }

  /** Whatever the run and wherever it stops, a step that is completed in memory or in the store has been
      executed with success before, and the outputs recorded are those it produced. */
  lemma CheckpointsFollowEffects(ops: seq<Op>)
    ensures AllBacked(Run(ops, START))
  {
    NewBacked(START.entry.info, []);
    RunBacked(ops, START);
  }
}
