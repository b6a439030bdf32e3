/** The persisted record of an environment (environment.go), with what a JSON round trip does to it. */
module Entry {
  import opened Prelude
  import opened Manifest
  import opened Config

  // ---------- Step outputs ----------

  datatype Json = JNumber(n: real) | JString(s: string) | JObject(fields: map<string, Json>)

  /** A value of Go's type any, as step outputs hold it: as it was made, or as decoded from JSON. */
  datatype Any = Ports(ports: PortMap) | Strings(strings: EnvMap) | Text(text: string) | Decoded(json: Json)

  type StepOutputs = map<string, Any>

  function Encode(v: Any): Json {
    match v
    case Ports(ports) => JObject(map k | k in ports :: JNumber(ports[k] as real))
    case Strings(strings) => JObject(map k | k in strings :: JString(strings[k]))
    case Text(text) => JString(text)
    case Decoded(json) => json
  }

  function RoundTrip(outputs: StepOutputs): StepOutputs {
    map k | k in outputs :: Decoded(Encode(outputs[k]))
  }

  /** Go's int(f): the fraction is dropped. */
  function Truncate(f: real): int {
    if f >= 0.0 then f.Floor else -((-f).Floor)
  }

  /** deserializePortMap; None is Go's nil map. */
  method DeserializePortMap(v: Any) returns (r: Option<PortMap>)
    ensures r == PortsIn(v)
  {
    if !v.Decoded? || !v.json.JObject? {
      return None;
    }
    var fields := v.json.fields;
    var result: PortMap := map[];
    var left := fields.Keys;
    while left != {}
      invariant left <= fields.Keys
      invariant result == map k | k in fields && k !in left && fields[k].JNumber? :: Truncate(fields[k].n)
    {
      var k :| k in left;
      left := left - {k};
      if fields[k].JNumber? {
        result := result[k := Truncate(fields[k].n)];
      }
    }
    assert result == map k | k in fields && fields[k].JNumber? :: Truncate(fields[k].n);
    return Some(result);
  }

  function PortsIn(v: Any): Option<PortMap> {
    if v.Decoded? && v.json.JObject? then
      Some(map k | k in v.json.fields && v.json.fields[k].JNumber? :: Truncate(v.json.fields[k].n))
    else None
  }

  /** deserializeStringMap */
  method DeserializeStringMap(v: Any) returns (r: Option<EnvMap>)
    ensures r == StringsIn(v)
  {
    if !v.Decoded? || !v.json.JObject? {
      return None;
    }
    var fields := v.json.fields;
    var result: EnvMap := map[];
    var left := fields.Keys;
    while left != {}
      invariant left <= fields.Keys
      invariant result == map k | k in fields && k !in left && fields[k].JString? :: fields[k].s
    {
      var k :| k in left;
      left := left - {k};
      if fields[k].JString? {
        result := result[k := fields[k].s];
      }
    }
    assert result == map k | k in fields && fields[k].JString? :: fields[k].s;
    return Some(result);
  }

  function StringsIn(v: Any): Option<EnvMap> {
    if v.Decoded? && v.json.JObject? then
      Some(map k | k in v.json.fields && v.json.fields[k].JString? :: v.json.fields[k].s)
    else None
  }

  /** What was saved is what comes back, once it has gone through JSON, and only then. */
  lemma SavedPortsComeBack(ports: PortMap)
    ensures PortsIn(Decoded(Encode(Ports(ports)))) == Some(ports)
    ensures PortsIn(Ports(ports)) == None
  {
    var fields := Encode(Ports(ports)).fields;
    assert forall k :: k in ports ==> fields[k].n == ports[k] as real && Truncate(ports[k] as real) == ports[k];
    assert (map k | k in fields && fields[k].JNumber? :: Truncate(fields[k].n)) == ports;
  }

  lemma SavedStringsComeBack(strings: EnvMap)
    ensures StringsIn(Decoded(Encode(Strings(strings)))) == Some(strings)
    ensures StringsIn(Strings(strings)) == None
  {
    var fields := Encode(Strings(strings)).fields;
    assert (map k | k in fields && fields[k].JString? :: fields[k].s) == strings;
  }

  lemma RoundTripTwice(outputs: StepOutputs)
    ensures RoundTrip(RoundTrip(outputs)) == RoundTrip(outputs)
  {
  }

  // ---------- Entries ----------

  datatype StepStatus = Completed | Failed | Invalidated

  datatype StepRecord = StepRecord(status: StepStatus, outputs: StepOutputs)

  datatype Action =
    | Executed | Skipped | Verified | VerifyFailed | MarkedInvalid | RunFailed | Reconciled | ReconcileFailed

  datatype AuditEntry = AuditEntry(step: string, action: Action)

  /** path stands for all that says where the compute is. */
  datatype ComputeInfo = ComputeInfo(ssh: bool, path: string)

  /** The fields that the checkpointing itself does not look at. */
  datatype Info = Info(mode: string, branch: string, status: string, ports: PortMap, provisionerOutputs: Outputs)

  datatype EntryData = EntryData(info: Info, compute: Option<ComputeInfo>, env: Option<EnvMap>,
                                 enabledServices: seq<string>, steps: map<string, StepRecord>,
                                 auditLog: seq<AuditEntry>)
  {
    predicate StepCompleted(name: string) { name in steps && steps[name].status == Completed }

    function StepOutputs(name: string): Option<StepOutputs> {
      if StepCompleted(name) then Some(steps[name].outputs) else None
    }

    function WithRecord(name: string, status: StepStatus, outputs: StepOutputs): EntryData {
      this.(steps := steps[name := StepRecord(status, outputs)])
    }

    function WithAudit(step: string, action: Action): EntryData {
      this.(auditLog := auditLog + [AuditEntry(step, action)])
    }

    function WithEnv(vars: EnvMap): EntryData {
      if vars == map[] then this else this.(env := Some(env.GetOr(map[]) + vars))
    }

    function CompletedSteps(): set<string> { set n | n in steps && steps[n].status == Completed }

    /** As read back after being saved: an empty store is gone, and outputs are decoded JSON. */
    function Normal(): EntryData {
      this.(env := if env == Some(map[]) then None else env,
            steps := map n | n in steps :: steps[n].(outputs := RoundTrip(steps[n].outputs)))
    }
  }

  /** Saving and reading back keeps everything but an empty store and the Go types of outputs. */
  lemma SavingKeeps(e: EntryData)
    ensures var saved := e.Normal();
      && saved.info == e.info && saved.compute == e.compute && saved.enabledServices == e.enabledServices
      && saved.auditLog == e.auditLog && saved.env.GetOr(map[]) == e.env.GetOr(map[]) && saved.env != Some(map[])
      && saved.steps.Keys == e.steps.Keys
      && forall n :: n in e.steps ==>
           saved.steps[n].status == e.steps[n].status && saved.steps[n].outputs.Keys == e.steps[n].outputs.Keys
           && forall k :: k in e.steps[n].outputs ==>
                saved.steps[n].outputs[k] == Decoded(Encode(e.steps[n].outputs[k]))
  {
    hide Encode;
  }

  /** The step and those after it in the list; nothing when it is not in the list. */
  function From(step: string, order: seq<string>): seq<string> {
    if order == [] then []
    else if order[0] == step then order
    else From(step, order[1..])
  }

  function Dropped(e: EntryData, step: string): EntryData {
    e.(steps := map n | n in e.steps && n != step :: e.steps[n]).WithAudit(step, MarkedInvalid)
  }

  function DroppedAll(e: EntryData, gone: seq<string>): EntryData {
    if gone == [] then e else Dropped(DroppedAll(e, gone[..|gone| - 1]), gone[|gone| - 1])
  }

  function InvalidatedFrom(e: EntryData, step: string, order: seq<string>): EntryData {
    DroppedAll(e, From(step, order))
  }

  lemma WithNothing(e: EntryData)
    ensures e.WithEnv(map[]) == e
  {
  }

  lemma WithOneMore(e: EntryData, vars: EnvMap, k: string, v: string)
    ensures e.WithEnv(vars).WithEnv(map[k := v]) == e.WithEnv(vars[k := v])
  {
    assert k in vars[k := v] && k in map[k := v];
    var store := e.env.GetOr(map[]);
    assert store + vars + map[k := v] == store + vars[k := v];
    assert vars == map[] ==> store + map[k := v] == store + vars[k := v];
  }

  /** A completed step becomes invalidated; any other stays. */
  function InvalidatedStep(e: EntryData, name: string): EntryData {
    if e.StepCompleted(name) then e.WithRecord(name, Invalidated, map[]).WithAudit(name, MarkedInvalid) else e
  }

  class EnvironmentEntry {
    var info: Info
    var compute: Option<ComputeInfo>
    var env: Option<EnvMap>
    var enabledServices: seq<string>
    var steps: map<string, StepRecord>
    var auditLog: seq<AuditEntry>

    constructor (e: EntryData)
      ensures Data() == e
    {
      info, compute, env, enabledServices, steps, auditLog :=
        e.info, e.compute, e.env, e.enabledServices, e.steps, e.auditLog;
    }

    function Data(): EntryData
      reads this
    {
      EntryData(info, compute, env, enabledServices, steps, auditLog)
    }

    method SetEnv(key: string, value: string)
      modifies this
      ensures Data() == old(Data()).WithEnv(map[key := value])
    {
      if env.None? {
        env := Some(map[]);
      }
      env := Some(env.value[key := value]);
      assert key in map[key := value];
      assert env.value == old(env).GetOr(map[]) + map[key := value];
    }

    /** SetEnv for every entry, in any order. */
    method SetAll(vars: EnvMap)
      modifies this
      ensures Data() == old(Data()).WithEnv(vars)
    {
      hide EntryData.WithEnv;
      assert Data() == Data().WithEnv(map[]) by { WithNothing(Data()); }
      var left := vars.Keys;
      ghost var done: EnvMap := map[];
      while left != {}
        invariant left !! done.Keys && left + done.Keys == vars.Keys
        invariant forall k :: k in done ==> done[k] == vars[k]
        invariant Data() == old(Data()).WithEnv(done)
      {
        var k :| k in left;
        SetEnv(k, vars[k]);
        WithOneMore(old(Data()), done, k, vars[k]);
        left, done := left - {k}, done[k := vars[k]];
      }
      assert done == vars;
    }

    method SetStepRecord(name: string, status: StepStatus, outputs: StepOutputs)
      modifies this
      ensures Data() == old(Data()).WithRecord(name, status, outputs)
    {
      steps := steps[name := StepRecord(status, outputs)];
    }

    method AppendAudit(step: string, action: Action)
      modifies this
      ensures Data() == old(Data()).WithAudit(step, action)
    {
      auditLog := auditLog + [AuditEntry(step, action)];
    }

    method InvalidateStep(name: string) returns (changed: bool)
      modifies this
      ensures changed == old(Data()).StepCompleted(name)
      ensures Data() == InvalidatedStep(old(Data()), name)
      ensures !Data().StepCompleted(name)
    {
      if !Data().StepCompleted(name) {
        return false;
      }
      SetStepRecord(name, Invalidated, map[]);
      AppendAudit(name, MarkedInvalid);
      return true;
    }

    method InvalidateStepsFrom(stepName: string, orderedSteps: seq<string>)
      modifies this
      ensures Data() == InvalidatedFrom(old(Data()), stepName, orderedSteps)
    {
      hide Dropped;
      var found := false;
      ghost var gone: seq<string> := [];
      for n := 0 to |orderedSteps|
        invariant !found ==> gone == [] && From(stepName, orderedSteps) == From(stepName, orderedSteps[n..])
        invariant found ==> From(stepName, orderedSteps) == gone + orderedSteps[n..]
        invariant Data() == DroppedAll(old(Data()), gone)
      {
        var s := orderedSteps[n];
        assert orderedSteps[n..] == [s] + orderedSteps[n + 1..];
        if s == stepName {
          found := true;
        }
        if found {
          Drop(s);
          assert (gone + [s])[..|gone|] == gone;
          gone := gone + [s];
        }
      }
      assert orderedSteps[|orderedSteps|..] == [] && gone + [] == gone;
    }

    method Drop(step: string)
      modifies this
      ensures Data() == Dropped(old(Data()), step)
    {
      steps := map x | x in steps && x != step :: steps[x];
      AppendAudit(step, MarkedInvalid);
    }
  }
}
