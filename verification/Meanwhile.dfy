/** What other commands do to an environment between two attempts to provision it: a runner phase that fails,
    a reset, a reconciliation. They leave the checkpoints of the provisioner alone. */
module Meanwhile {
  import opened Prelude
  import opened Manifest
  import opened Entry
  import opened Checkpoint
  import opened AuditTrail
  import opened Provision

  /** Not a step of the provisioner phase. */
  ghost predicate Foreign(name: string) {
    forall p: Phase :: p.Name() != name
  }

  /** The operation leaves the steps of the provisioner alone, and where the compute is. */
  ghost predicate Leaves(op: Op) {
    match op
    case DoStep(_, o, _) => Foreign(o.name)
    case DoInvalidate(name) => Foreign(name)
    case DoInvalidateFrom(_, order) => forall n :: n in order ==> Foreign(n)
    case DoHeal(name, _, _) => Foreign(name)
    case DoUntracked(name, _) => Foreign(name)
    case DoUpdate(_, _, _, _) => false
    case _ => true
  }

  /** The operation does not regenerate the manifest on the machine. */
  predicate WritesNoManifest(op: Op) {
    match op
    case DoStep(_, o, _) => o.name != "generate_manifest"
    case DoHeal(name, _, _) => name != "generate_manifest"
    case DoUntracked(name, _) => name != "generate_manifest"
    case _ => true
  }

  /** The same provisioner records, and the same compute. */
  ghost predicate Kin(e: EntryData, e': EntryData) {
    && e'.compute == e.compute
    && forall p: Phase :: (p.Name() in e'.steps <==> p.Name() in e.steps)
         && (p.Name() in e.steps ==> e'.steps[p.Name()] == e.steps[p.Name()])
  }

  lemma KinNormal(e: EntryData, e': EntryData)
    requires Kin(e, e')
    ensures Kin(e.Normal(), e'.Normal())
  {
    hide RoundTrip, Phase.Name;
  }

  lemma KinDropped(e: EntryData, gone: seq<string>)
    requires forall n :: n in gone ==> Foreign(n)
    ensures Kin(e, DroppedAll(e, gone))
  {
    hide Phase.Name;
    DroppingKeeps(e, gone);
    DroppingKeepsEnv(e, gone);
    assert forall p: Phase :: p.Name() !in gone;
  }

  lemma {:induction false} FromIsPart(step: string, order: seq<string>)
    ensures forall n :: n in From(step, order) ==> n in order
  {
    if order != [] && order[0] != step {
      FromIsPart(step, order[1..]);
    }
  }

  lemma {:induction false} DroppingKeepsEnv(e: EntryData, gone: seq<string>)
    ensures DroppedAll(e, gone).env == e.env && DroppedAll(e, gone).compute == e.compute
  {
    if gone != [] {
      DroppingKeepsEnv(e, gone[..|gone| - 1]);
    }
  }

  // ---------- An execution ----------

  /** What an execution does to the step records, to the store and to the events. */
  lemma ExecuteRecords(o: StepOpts, a: Answer, w: World)
    requires a.crash != BeforeFn
    ensures var r := Execute(o, a, w).0;
      && r.events == w.events + [if a.fnOk then RanOk(o.name, a.outputs) else RanFailed(o.name)]
      && r.entry.compute == w.entry.compute
      && r.entry.steps == (
           if a.crash == AfterFn then w.entry.steps
           else w.entry.steps[o.name := if a.fnOk then StepRecord(Completed, a.outputs) else StepRecord(Failed, map[])])
      && r.stored == if a.crash == NoCrash && a.save != NotSaved then Some(r.entry.Normal())
                     else StoreSet(w.stored, a.storeSet)
  {
    hide EntryData.Normal, RoundTrip;
  }

  lemma NotStarted(o: StepOpts, a: Answer, w: World)
    requires a.crash == BeforeFn
    ensures Execute(o, a, w) == (w, Killed)
  {
  }

  lemma StoreSetKeeps(stored: Option<EntryData>, vars: EnvMap)
    ensures StoreSet(stored, vars).Some? <==> stored.Some?
    ensures stored.Some? ==>
      StoreSet(stored, vars).value.steps == stored.value.steps
      && StoreSet(stored, vars).value.compute == stored.value.compute
  {
  }

  // ---------- What the operations leave ----------

  /** In memory is what was there before, or in the store, or nothing of the provisioner. */
  ghost predicate Keeps(w: World, e: EntryData) {
    || Kin(w.entry, e)
    || (w.stored.Some? && Kin(w.stored.value, e))
    || (exists info :: e == NewEntry(info))
  }

  /** In the store is what was there, or what was in memory as it was saved. */
  ghost predicate Stems(w: World, stored: Option<EntryData>) {
    stored.Some? ==>
      (w.stored.Some? && Kin(w.stored.value, stored.value)) || Kin(w.entry.Normal(), stored.value)
  }

  /** At most one more event, of no step of the provisioner. */
  ghost predicate Beside(events: seq<Event>, events': seq<Event>) {
    events' == events || (events' != [] && events'[..|events'| - 1] == events && Foreign(events'[|events'| - 1].step))
  }

  lemma ExecuteLeaves(o: StepOpts, a: Answer, w: World)
    requires Foreign(o.name)
    ensures var r := Execute(o, a, w).0; Kin(w.entry, r.entry) && Stems(w, r.stored) && Beside(w.events, r.events)
  {
    hide Execute, StoreSet, EntryData.Normal, Phase.Name;
    if a.crash == BeforeFn {
      NotStarted(o, a, w);
    } else {
      ExecuteRecords(o, a, w);
      StoreSetKeeps(w.stored, a.storeSet);
      KinNormal(w.entry, Execute(o, a, w).0.entry);
    }
  }

  lemma StepLeaves(noCache: bool, o: StepOpts, a: Answer, w: World)
    requires Foreign(o.name)
    ensures var r := Stepped(noCache, o, a, w).0;
      Kin(w.entry, r.entry) && Stems(w, r.stored) && Beside(w.events, r.events)
  {
    hide Execute, EntryData.Normal, Phase.Name;
    var failed := w.entry.WithAudit(o.name, VerifyFailed);
    ExecuteLeaves(o, a, w);
    ExecuteLeaves(o, a, w.(entry := failed));
    KinNormal(w.entry, failed);
  }

  lemma OpLeaves(op: Op, w: World)
    requires Leaves(op)
    ensures var r := Apply(op, w); Keeps(w, r.entry) && Stems(w, r.stored) && Beside(w.events, r.events)
  {
    hide Stepped, EntryData.Normal, Phase.Name, DroppedAll, From;
    match op
    case DoStep(noCache, o, a) => StepLeaves(noCache, o, a, w);
    case DoInvalidateFrom(step, order) =>
      FromIsPart(step, order);
      KinDropped(w.entry, From(step, order));
    case Create(info) => assert w.stored.None? ==> Apply(op, w).entry == NewEntry(info);
    case _ =>
  }
}
