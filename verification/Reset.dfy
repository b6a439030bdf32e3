/** Resetting a provisioner service of an environment (manager.go). */
module Reset {
  import opened Prelude
  import opened Order
  import opened Manifest
  import opened Propagate
  import opened Remote
  import opened Convergence
  import opened HookOutput
  import opened Checkpoint

  /** What the reset hook does: whether it exits with success, and what it prints. */
  datatype HookRun = HookRun(success: bool, stdout: string)

  const NO_MANIFEST := ManifestData("", "", "", "", map[], map[], map[], None, [])

  /** How a reset ends: it failed, it was all there is to do, or the change was propagated, with this result. */
  datatype ResetOutcome = NotReset | OnlyReset | AndPropagated(u: Update)

  /** The persisted state after the hook, if the hook can be used and its outputs were saved. */
  function SavedInputs(inp: Inputs, svc: string, hook: HookRun, resets: bool, save: Save): Inputs {
    if resets && save != NotSaved then AfterReset(inp, svc, Parse(hook.stdout)) else inp
  }

  /** What propagating a change does to the files, and which services it restarts. */
  ghost predicate Propagated(inp: Inputs, svc: string, changed: seq<string>, files: Files, u: Update,
                             restarted: seq<string>, end: VM)
  {
    var readable := MANIFEST_PATH in files && files[MANIFEST_PATH].ManifestFile?;
    var steps := Incremental(inp.src.cfg, svc, changed);
    if u == Unreadable then !readable && end.files == files
    else
      readable
      && var start := VM(Loaded(files[MANIFEST_PATH].m), files);
         if u == Broken then Breaks(inp, steps, start, end)
         else
           Runs(inp, steps, start, end) && Sorted(restarted)
           && forall s :: s in restarted <==> s in inp.enabled && s in Affected(inp.src.cfg, Needles(svc, changed))
  }

  class Environment {
    /** What the state store holds of the environment, with the configuration. */
    var inp: Inputs
    var files: Files
    /** Whether the environment is reached over SSH; a local one has nothing to propagate to. */
    const remote: bool

    constructor (inp: Inputs, files: Files, remote: bool)
      ensures this.inp == inp && this.files == files && this.remote == remote
    {
      this.inp, this.files, this.remote := inp, files, remote;
    }

    /** Whether service svc can be reset with this hook run. */
    predicate Resets(svc: string, hook: HookRun)
      reads this
    {
      svc in inp.src.cfg.provisioner.services && inp.src.cfg.provisioner.services[svc].reset != ""
      && hook.success
      && forall o :: o in inp.src.cfg.provisioner.services[svc].outputs ==> o in Parse(hook.stdout)
    }

    /** Runs the hook, takes over its outputs and its GLOBAL_ exports, and saves the entry. */
    method RunResetHook(svc: string, hook: HookRun, save: Save) returns (ok: bool)
      modifies this`inp
      ensures ok <==> old(Resets(svc, hook)) && save == Saved
      ensures inp == SavedInputs(old(inp), svc, hook, old(Resets(svc, hook)), save)
    {
      hide Parse, Globals;
      var services := inp.src.cfg.provisioner.services;
      if svc !in services || services[svc].reset == "" || !hook.success {
        return false;
      }
      var outputs := CollectOutputs(hook.stdout, services[svc].outputs);
      if outputs.Err? {
        return false;
      }
      var globals := ExtractGlobalOutputs(outputs.value);
      if save != NotSaved {
        inp := inp.(src := inp.src.(outputs := inp.src.outputs[svc := outputs.value],
                                    store := inp.src.store + globals));
      }
      return save == Saved;
    }

    /** Brings the files up to date with the store and outputs as they are now. */
    method Propagate(svc: string, storeBefore: EnvMap) returns (u: Update, restarted: seq<string>, ghost end: VM)
      modifies this`files
      ensures files == end.files
      ensures Propagated(inp, svc, Listing(Reported(storeBefore, inp.src.store)), old(files), u, restarted, end)
    {
      hide Runs, Breaks, Affected, Needles, Incremental, Listing, Reported, Sorted;
      var changed := DiffStoreKeys(storeBefore, inp.src.store);
      var registry := new StepRegistry(inp, NO_MANIFEST, files);
      u, restarted := registry.PropagateProvisionerChange(svc, changed);
      files, end := registry.files, registry.State();
    }

    /** Runs the hook, saves the state and propagates the change, unless that is declined or there is nothing to
        propagate to. */
    method CoreReset(svc: string, hook: HookRun, save: Save, noPropagate: bool)
      returns (outcome: ResetOutcome, restarted: seq<string>, ghost end: VM)
      modifies this
      ensures inp == SavedInputs(old(inp), svc, hook, old(Resets(svc, hook)), save)
      ensures old(Resets(svc, hook)) && save != NotSaved ==>
        TakenOver(old(inp), inp, svc, Parse(hook.stdout))
      ensures !(old(Resets(svc, hook)) && save != NotSaved) ==> inp == old(inp)
      ensures outcome != NotReset <==>
        save == Saved && hook.success && svc in old(inp).src.cfg.provisioner.services
        && old(inp).src.cfg.provisioner.services[svc].reset != ""
        && forall o :: o in old(inp).src.cfg.provisioner.services[svc].outputs ==> o in Parse(hook.stdout)
      ensures outcome == OnlyReset <==> old(Resets(svc, hook)) && save == Saved && (noPropagate || !remote)
      ensures outcome in {NotReset, OnlyReset} ==> files == old(files) && restarted == []
      ensures outcome.AndPropagated? ==>
        files == end.files
        && Propagated(inp, svc, ResetKeys(old(inp), svc, Parse(hook.stdout)), old(files), outcome.u, restarted, end)
    {
      hide Runs, Breaks, Affected, Needles, Incremental, Listing, Reported, Parse, Propagated, Globals, TakenOver,
           AfterReset;
      restarted, end := [], VM(NO_MANIFEST, map[]);
      AfterResetTakesOver(inp, svc, Parse(hook.stdout));
      var storeBefore := inp.src.store;
      var ok := RunResetHook(svc, hook, save);
      if !ok {
        return NotReset, restarted, end;
      }
      if noPropagate || !remote {
        return OnlyReset, restarted, end;
      }
      var u;
      u, restarted, end := Propagate(svc, storeBefore);
      outcome := AndPropagated(u);
    }
  }
}
