/** Which provisioner steps are completed after one of them, and after what other commands do, in memory and in the
    store (manager.go). */
module Records {
  import opened Prelude
  import opened Manifest
  import opened Entry
  import opened Checkpoint
  import opened AuditTrail
  import opened Provision
  import opened Meanwhile
  import opened Resume
  import HookOutput

  /** The step is completed. */
  predicate Has(e: EntryData, p: Phase) {
    e.StepCompleted(p.Name())
  }

  /** Whether the step is executed in an attempt that starts from entry e. */
  predicate Executes(t: Target, x: Attempt, p: Phase, e: EntryData) {
    !(!x.noCache && e.StepCompleted(p.Name())
      && (p.Compute? ==> x.answers(p.Name()).verifyOk && HasCompute(t, e)))
  }

  ghost predicate SameHas(e: EntryData, e': EntryData) {
    forall p: Phase :: Has(e', p) <==> Has(e, p)
  }

  /** Of q it is v, of the others as before. */
  ghost predicate HasBut(e: EntryData, e': EntryData, q: Phase, v: bool) {
    forall p: Phase :: Has(e', p) <==> if p == q then v else Has(e, p)
  }

  lemma SameSteps(e: EntryData, e': EntryData)
    requires e'.steps == e.steps
    ensures SameHas(e, e')
  {
  }

  lemma SameStepsNormal(e: EntryData)
    ensures SameHas(e, e.Normal())
  {
    hide RoundTrip;
  }

  lemma RecordHas(e: EntryData, e': EntryData, q: Phase, status: StepStatus, outputs: StepOutputs)
    requires e'.steps == e.steps[q.Name() := StepRecord(status, outputs)]
    ensures HasBut(e, e', q, status == Completed)
  {
    hide Phase.Name;
    forall p: Phase ensures Has(e', p) <==> if p == q then status == Completed else Has(e, p) {
      NamesTellPhases(p, q);
    }
  }

  /** Whether the step's record is saved, and what then is in the store. */
  ghost predicate StoreRecords(saved: bool, w: World, r: World) {
    if saved then r.stored.Some? && SameHas(r.entry, r.stored.value) && r.stored.value.compute == w.entry.compute
    else if w.stored.None? then r.stored.None?
    else
      r.stored.Some? && SameHas(w.stored.value, r.stored.value) && r.stored.value.compute == w.stored.value.compute
  }

  lemma ExecuteHas(q: Phase, a: Answer, w: World)
    ensures var r := Execute(q.Opts(), a, w);
      && HasBut(w.entry, r.0.entry, q, if a.crash == NoCrash then a.fnOk else Has(w.entry, q))
      && r.0.entry.compute == w.entry.compute
      && StoreRecords(a.crash == NoCrash && a.save != NotSaved, w, r.0)
      && (r.1 == Done ==> a.crash == NoCrash && a.fnOk && a.save == Saved)
  {
    hide Execute, StoreSet, EntryData.Normal, Has;
    var r := Execute(q.Opts(), a, w).0;
    OutcomeMeans(q.Opts(), a, w);
    if a.crash == BeforeFn {
      NotStarted(q.Opts(), a, w);
    } else {
      ExecuteRecords(q.Opts(), a, w);
      if a.crash == AfterFn {
        SameSteps(w.entry, r.entry);
      } else {
        RecordHas(w.entry, r.entry, q, if a.fnOk then Completed else Failed, if a.fnOk then a.outputs else map[]);
      }
      SameStepsNormal(r.entry);
      NormalCompute(r.entry);
      StoreSetKeeps(w.stored, a.storeSet);
      if w.stored.Some? {
        SameSteps(w.stored.value, StoreSet(w.stored, a.storeSet).value);
      }
    }
  }

  lemma OutcomeMeans(o: StepOpts, a: Answer, w: World)
    ensures Execute(o, a, w).1 == Done ==> a.crash == NoCrash && a.fnOk && a.save == Saved
  {
    hide EntryData.Normal, RoundTrip;
  }

  lemma NormalCompute(e: EntryData)
    ensures e.Normal().compute == e.compute
  {
    hide RoundTrip;
  }

  lemma StepHas(noCache: bool, q: Phase, a: Answer, w: World)
    ensures var r := Stepped(noCache, q.Opts(), a, w); var run := !Skips(noCache, q.Opts(), a, w.entry);
      && HasBut(w.entry, r.0.entry, q, if run && a.crash == NoCrash then a.fnOk else Has(w.entry, q))
      && r.0.entry.compute == w.entry.compute
      && StoreRecords(run && a.crash == NoCrash && a.save != NotSaved, w, r.0)
      && (r.1 == Done && run ==> a.crash == NoCrash && a.fnOk && a.save == Saved)
  {
    hide Execute, Has;
    var failed := w.(entry := w.entry.WithAudit(q.Name(), VerifyFailed));
    ExecuteHas(q, a, w);
    ExecuteHas(q, a, failed);
    SameSteps(w.entry, failed.entry);
    SameSteps(w.entry, w.entry.WithAudit(q.Name(), if q.Opts().hasVerify then Verified else Skipped));
  }

  lemma FacingAsks(t: Target, x: Attempt, p: Phase, l: Local)
    ensures var a := Facing(t, x, p, Restored(p, l)); var given := x.answers(p.Name());
      && a.crash == given.crash && a.save == given.save && (p != Build ==> a.fnOk == given.fnOk)
      && (Skips(x.noCache, p.Opts(), a, l.w.entry) <==> !Executes(t, x, p, l.w.entry))
  {
    hide Source.Manifest, PortsIn, StringsIn, MachineOutputs, HookOutput.Globals;
  }

  /** A phase is executed or not, and changes the record of its own step alone, in memory and, if that is saved,
      in the store. */
  lemma PhaseHas(t: Target, x: Attempt, q: Phase, l: Local)
    ensures var r := RunPhase(t, x, q, l); var given := x.answers(q.Name()); var run := Executes(t, x, q, l.w.entry);
      var fnOk := Facing(t, x, q, Restored(q, l)).fnOk;
      && HasBut(l.w.entry, r.0.w.entry, q, if run && given.crash == NoCrash then fnOk else Has(l.w.entry, q))
      && StoreRecords(run && given.crash == NoCrash && given.save != NotSaved, l.w, r.0.w)
      && (q != Build ==> fnOk == given.fnOk)
      && (r.1 == Done && run ==> given.crash == NoCrash && fnOk && given.save == Saved)
      && (r.0.w.entry.compute == l.w.entry.compute
          || (q == Compute && run && given.crash == NoCrash && fnOk && r.0.w.entry.compute == Some(x.compute)))
  {
    hide Stepped, Facing, Restored, Executes, Skips, RunPhase;
    var a := Facing(t, x, q, Restored(q, l));
    FacingAsks(t, x, q, l);
    PhaseLeaves(t, x, q, l);
    StepHas(x.noCache, q, a, l.w);
    PhaseMakes(t, x, q, l);
    SameSteps(Stepped(x.noCache, q.Opts(), a, l.w).0.entry, RunPhase(t, x, q, l).0.w.entry);
  }

  /** The compute that is made is taken over once its step is done. */
  lemma PhaseMakes(t: Target, x: Attempt, q: Phase, l: Local)
    ensures var r := RunPhase(t, x, q, l); var a := Facing(t, x, q, Restored(q, l));
      var s := Stepped(x.noCache, q.Opts(), a, l.w);
      && (r.0.w == s.0 || (s.1 == Done && !Skips(x.noCache, q.Opts(), a, l.w.entry)))
      && (q == Compute ==> r.1 == s.1)
      && (q == Compute && r.1 == Done && !Skips(x.noCache, q.Opts(), a, l.w.entry) ==>
            r.0.w.entry.compute == Some(x.compute))
  {
    hide Stepped, Source.Manifest, Facing, PortsIn, StringsIn;
  }

  /** What create_compute does to its own record is known once it is done. */
  lemma ComputeTakenOver(t: Target, x: Attempt, l: Local)
    requires RunPhase(t, x, Compute, l).1 == Done
    ensures var e := RunPhase(t, x, Compute, l).0.w.entry;
      Has(e, Compute) && e.compute == if Executes(t, x, Compute, l.w.entry) then Some(x.compute) else l.w.entry.compute
  {
    hide RunPhase, Facing, Restored, Stepped, Skips, Executes;
    PhaseHas(t, x, Compute, l);
    FacingAsks(t, x, Compute, l);
    PhaseMakes(t, x, Compute, l);
    StepHas(x.noCache, Compute, Facing(t, x, Compute, Restored(Compute, l)), l.w);
    SkippedIsHad(t, x, Compute, l.w.entry);
  }

  lemma SkippedIsHad(t: Target, x: Attempt, q: Phase, e: EntryData)
    ensures !Executes(t, x, q, e) ==> Has(e, q)
  {
  }

  // ---------- What other commands leave ----------

  /** The same provisioner steps are completed, and the compute is the same. */
  ghost predicate Like(e: EntryData, e': EntryData) {
    SameHas(e, e') && e'.compute == e.compute
  }

  /** As what was stored, or without a provisioner step. */
  ghost predicate Offspring(stored: Option<EntryData>, e: EntryData) {
    (stored.Some? && Like(stored.value, e)) || forall p: Phase :: !Has(e, p)
  }

  lemma NewIsEmpty(t: Target, info: Info)
    ensures forall p: Phase :: !Has(NewEntry(info), p)
  {
  }

  lemma KinIsLike(e: EntryData, e': EntryData)
    ensures Kin(e, e') ==> Like(e, e')
    ensures Kin(e.Normal(), e') ==> Like(e, e')
  {
    hide EntryData.Normal, Phase.Name;
    SameStepsNormal(e);
    NormalCompute(e);
  }

  lemma OpOffspring(t: Target, stored: Option<EntryData>, op: Op, w: World)
    requires Leaves(op) && Offspring(stored, w.entry) && (w.stored.Some? ==> Offspring(stored, w.stored.value))
    ensures var r := Apply(op, w); Offspring(stored, r.entry) && (r.stored.Some? ==> Offspring(stored, r.stored.value))
  {
    hide Apply, Kin, EntryData.Normal, Has;
    var r := Apply(op, w);
    OpLeaves(op, w);
    KinIsLike(w.entry, r.entry);
    if w.stored.Some? {
      KinIsLike(w.stored.value, r.entry);
    }
    if r.stored.Some? {
      KinIsLike(w.entry, r.stored.value);
      if w.stored.Some? {
        KinIsLike(w.stored.value, r.stored.value);
      }
    }
    forall info | r.entry == NewEntry(info) ensures forall p: Phase :: !Has(r.entry, p) {
      NewIsEmpty(t, info);
    }
  }

  lemma {:induction false} RunOffspring(t: Target, stored: Option<EntryData>, ops: seq<Op>, w: World)
    requires forall op :: op in ops ==> Leaves(op)
    requires Offspring(stored, w.entry) && (w.stored.Some? ==> Offspring(stored, w.stored.value))
    ensures var r := Run(ops, w); Offspring(stored, r.entry) && (r.stored.Some? ==> Offspring(stored, r.stored.value))
  {
    hide Apply, Leaves, Offspring;
    if ops != [] {
      RunOffspring(t, stored, ops[..|ops| - 1], w);
      OpOffspring(t, stored, ops[|ops| - 1], Run(ops[..|ops| - 1], w));
    }
  }

  lemma SinceOffspring(t: Target, x: Attempt, w: World)
    requires Orderly(t, x)
    ensures var r := Since(t, x.later, w);
      r.entry == NewEntry(StartInfo(t)) && (r.stored.Some? ==> Offspring(w.stored, r.stored.value))
  {
    hide Run, Leaves, Has;
    NewIsEmpty(t, StartInfo(t));
    RunOffspring(t, w.stored, x.later, w.(entry := NewEntry(StartInfo(t))));
  }
}
