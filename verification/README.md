# previewctl in Dafny

previewctl makes preview environments. It provisions compute, allocates ports, seeds data through hooks,
renders a manifest from templates, generates env, compose and nginx files on a machine, and starts
services there, keeping a checkpoint of every step. This project models its domain layer and proves what
the layer is relied on for. `dafny verify dfyconfig.toml` checks all of it.

What is modelled, module by module:

- `DependencyGraph`: Kahn's algorithm with its counts, adjacency lists and sorted queue, and the in-place
  insertion sort. Go's map iteration is an arbitrary choice wherever a loop ranges over a map.
- `Text`, `Regexp`, `Template`: splitting and trimming, leftmost non-overlapping matches of an expression,
  the expression `\{\{([^}]+)\}\}`, and resolving variables.
- `Manifest`, `Variables`, `EnvFile`, `Validate`: building the manifest, what each template variable stands for in it,
  gathering and printing env files, and the two validations that rendering relies on.
- `Generators`, `Propagate`, `Remote`, `Convergence`, `Artifacts`, `Reset`: the compose and nginx generators, the choice
  of what a reset affects, the generation steps over a map from paths to contents, the comparison of the incremental
  update with regenerating everything, and what the files say that are left on the machine.
- `Entry`, `Checkpoint`, `AuditTrail`: the persisted entry with its JSON round trip, a checkpointed step with
  everything it can meet (failures, lost saves, being killed before or after its function, subprocesses that
  write to the store), and what every run of such steps keeps.
- `Provision`, `Success`, `Meanwhile`, `Resume`, `Recovery`, `Records`, `Closure`, `Exports`, `Machine`,
  `ProvisionTrail`: the provisioner phase, what one that succeeds has done and says, and what holds over any history of attempts at it, with whatever other commands do between them
  as long as they leave its checkpoints and its compute alone: which values a resumed attempt ends with, when it
  succeeds, when its completed steps have a gap, what becomes of exports, and which machines have a manifest.
- `Runner`, `RunnerTrail`: the runner phase and reconciliation, which are among such other commands.
- `HookOutput`, `LineFilter`, `IndentWriter`, `Io`: the writers that redact and indent streamed output, also when
  the writer below them fails, and the parser of hook output.
- `Ports`, `Overlay`: port blocks, and laying a mode's configuration over the base.

Methods follow the loops and updates of the program and are proved equal to, or to satisfy, a specification;
lemmas then state what the program promises about that specification, in terms of what goes in and comes out: the
values, names, paths and steps that a user of the program would see. The network, Docker, SSH, hooks, the
clock, the file system and the state store appear as parameters: what a hook prints, whether a write or save
succeeds, where the process dies, which ports are free.

Where the code differs from what is said about it, the model follows the code. Each case has the exact condition
and an input:

- `TopologicalSort` is documented to reject unknown dependencies (src/domain/dependency_graph.go:5-7). It ignores
  them (`DependencyGraph.OnlyKnownDependenciesMatter`), so it sorts what has an unknown dependency and no cycle
  (`DependencyGraph.UnknownDependencySorts`); another validation reports them.
- `diffStoreKeys` is documented to return all keys that differ (src/domain/propagate.go:186-187). It does not report
  a key added with the value "" (`Propagate.WhatIsReported`, `Propagate.EmptyAdditionIsMissed`).
  `Convergence.ResetReportsEnough` shows that the missing keys are harmless.
- GLOBAL_ outputs of any hook are documented to be persisted automatically (docs/hooks.md:89-91). Outputs of the hooks
  before and after provisioning are dropped (src/domain/manager.go:834-835), and the reload after a step replaces the store
  by the persisted one (src/domain/manager.go:182-185). So a provision ends with what `previewctl store set` was given,
  over the store that was there, or over the exports of the first step that captured any, if it and those before it set
  nothing (`Exports.StoreOfAProvision`). `Exports.ExportsOfAProvisionAreKept` says when that holds all exports.
  `Exports.TwoExportsAreLost` is a provision that keeps one of three, and `Exports.AllExportsAreLost` one whose first
  exporting hook also sets a key and that keeps none.
- Start commands are documented to support `{{store.KEY}}` (docs/services.md:137, docs/template-variables.md:24). The
  compose generator has no store to resolve it with (src/domain/compose_generator.go:88-95), so one such variable makes
  the whole compose file fail (`Generators.StoreFailsCompose`); what renders with the store at hand renders without it
  exactly when it does not name it (`Generators.StoreIsMissedExactly`), and `Generators.StoreInStartExample` is an input.
- The completed steps of a provision can have a gap, but only one: ports are allocated and create_compute is not
  completed. After any history an attempt that gets past loading leaves it, in memory or in the store, exactly when it
  starts with ports allocated, create_compute is not verified, and it fails, or was missing before and how it went is
  not recorded (`Closure.GapOfAnAttempt`). The first gap appears when create_compute is lost with later steps completed
  (`Closure.GapExactlyWhenComputeIsLost`); `Closure.GapFromNothing` is a history with the first gap and one that stays.
- A provision that succeeds leaves its manifest on the machine it ends with exactly when it writes it, or that machine
  had it and was not made anew (`Machine.ManifestStays`). A machine that create_compute makes is taken to have none.
  `Machine.MachineWithoutManifest` is a history of two successful attempts after which the remade worktree has none, and
  `Machine.AttachedElsewhere` one of two that attach, after which the second worktree has none.
- Validation accepts two kinds of variables that do not render: a port of a name that is both a service and an
  infrastructure service, and one of a service with the empty name (`Validate.ValidationIsSound`,
  `Validate.BothKindsIsMisjudged`, `Validate.NoNameIsMisjudged`). It rejects variables that do resolve exactly in the
  namespaces env, store and proxy (`Validate.RejectedThoughItResolves`, `Validate.EnvNameIsRejected`).
- The files an incremental update leaves differ from a full one exactly when an env file has the path of a generated
  file that is skipped (`Convergence.IncrementalAgreesWithFull`); `Convergence.ClashingRunsDiffer` is an input.

## Model

| member | source | states |
|---|---|---|
| `DependencyGraph.TopologicalSort` | src/domain/dependency_graph.go:8-61 | An error exactly when the known services depend on each other in a cycle; otherwise the lexicographically least of all orders that list every service once and after its known dependencies, for every map iteration order and with repeated edges counted |
| `DependencyGraph.GreedyIsLeast` | src/domain/dependency_graph.go:42-54 | Taking the smallest ready service each time gives an order no topological order precedes |
| `DependencyGraph.LeastOrderIsUnique` | src/domain/dependency_graph.go:31-40 | There is only one least order, so the result does not depend on Go's map order |
| `DependencyGraph.OrderRulesOutCycles` | src/domain/dependency_graph.go:56-58 | If any topological order exists there is no cycle, self-loops included |
| `DependencyGraph.StuckMeansCyclic` | src/domain/dependency_graph.go:56-58 | Services that each wait for another one among them contain a cycle |
| `DependencyGraph.OnlyKnownDependenciesMatter` | src/domain/dependency_graph.go:19-29 | Services with the same known dependencies have the same cycles and the same least order, whatever unknown ones they list |
| `DependencyGraph.UnknownDependencySorts` | src/domain/dependency_graph.go:5-29 | A service whose only dependency is unknown is sorted, against the doc comment |
| `DependencyGraph.BuildEdges` | src/domain/dependency_graph.go:9-29 | In-degrees count the known dependencies with repeats, and the adjacency lists mirror them as often |
| `DependencyGraph.SortStrings` | src/domain/dependency_graph.go:64-70 | The array is sorted in place and keeps its elements |
| `DependencyGraph.InsertSorted` | src/domain/dependency_graph.go:73-82 | The value goes before the first element that is not smaller |
| `Order.InsertKeepsSorted` | src/domain/dependency_graph.go:73-82 | Inserting at that place keeps a sorted list sorted |
| `Regexp.ReplaceAllStringFunc` | src/domain/template.go:31-54 | One left-to-right pass gives the replacement of every match, or an error when one match has none |
| `Regexp.ScanIsReading` | src/domain/template.go:31-54 | The pieces put together are the input, and their matches are the leftmost ones |
| `Regexp.ReadingIsUnique` | src/domain/template.go:31-54 | A text can be read in only one such way |
| `Regexp.ReplaceSucceeds` | src/domain/template.go:33-53 | Replacing succeeds exactly when every match has a replacement |
| `Template.PatternIsTheExpression` | src/domain/template.go:9 | The scanner takes a prefix exactly when the regular expression matches it, and that match is unique |
| `Template.RenderTemplate` | src/domain/template.go:31-54 | Rendering replaces each matched variable by what it resolves to and keeps all other text; what was put in is not scanned again |
| `Template.RenderFirst` | src/domain/template.go:31-54 | A variable gives what its trimmed, dotted path resolves to; the text before it stays and the text after it renders by itself, so nothing put in is scanned again |
| `Text.DecimalIsTheNumber` | src/domain/template.go:69-154 | The digits a port renders as stand for that port |
| `Template.RenderSucceeds` | src/domain/template.go:31-54 | A template renders exactly when each of its variables resolves |
| `Template.RenderIsMonotone` | src/domain/template.go:69-169 | Entries added to the context never change a successful result |
| `Variables.RenderPieces` | src/domain/template.go:31-54 | Text before a variable stays, and the variable and what follows it render each by itself, in this order |
| `Variables.ServicePort` | src/domain/template.go:89-97 | For any name, `{{services.<name>.port}}` gives digits that stand for the service's port, or an error when it has none |
| `Variables.InfrastructurePort` | src/domain/template.go:99-107 | `{{infrastructure.<name>.port}}` likewise gives the port of the infrastructure service |
| `Variables.OwnPort` | src/domain/template.go:75-87 | `{{self.port}}` gives the port of the current service, or an error when there is none |
| `Variables.ProvisionerOutput` | src/domain/template.go:147-169 | `{{provisioner.<service>.<OUTPUT>}}` gives that output of that service, or an error |
| `Variables.StoreKey` | src/domain/template.go:118-128 | `{{store.<key>}}` gives the value stored under the key, or an error |
| `Variables.EnvName` | src/domain/template.go:109-116 | `{{env.name}}` gives the environment's name, or an error when it is empty |
| `Variables.ProxyDomain` | src/domain/template.go:130-136 | `{{proxy.domain}}` gives the proxy domain, or an error when it is empty |
| `Variables.ProxyUrl` | src/domain/template.go:137-145 | `{{proxy.url.<service>}}` gives https://, the environment, two dashes, the service, a dot and the domain, or an error without a domain or for a service without a port |
| `Variables.NothingElse` | src/domain/template.go:69-169 | A variable that renders is one of these eight |
| `Manifest.RenderEnvMap` | src/domain/template.go:57-66 | Every value rendered under its key, or an error if one does not render |
| `Manifest.BuildManifest` | src/domain/manifest.go:39-110 | The manifest of all services rendered in their own contexts, or an error if one fails, whatever the map order |
| `Variables.ManifestSays` | src/domain/manifest.go:74-109 | The manifest has the names, branch, mode, ports and outputs it is given, and every service with its path, its env file, `.env.local` if none is set, and its env keys |
| `Variables.EnvSees` | src/domain/manifest.go:50-96 | An env value that is one variable is in the manifest what the environment has for it: ports split by kind, outputs, store, name and proxy |
| `Variables.ManifestBuildsExactly` | src/domain/manifest.go:76-96 | There is a manifest exactly when every env value renders in the context of its service |
| `Variables.LoneVariableBuilds` | src/domain/manifest.go:50-96 | An environment whose only env value is one variable can be built exactly when there is what the variable stands for, the store included |
| `Manifest.EnvFilePaths` | src/domain/manifest.go:147-162 | The files are those of visiting each service once, in some order, later values replacing earlier ones |
| `Manifest.ValueOrigin` | src/domain/manifest.go:147-162 | Every variable of a file was set by a service with that file, and each variable such a service sets is in it |
| `Manifest.EnvFilesAreDetermined` | src/domain/manifest.go:147-162 | The env files are the same for all map orders exactly when no shared file has a conflicting key |
| `EnvFile.RenderEnvFileContent` | src/domain/manifest.go:130-143 | The text is the header and the variables in sorted order, so it does not depend on the map order |
| `EnvFile.RoundTrip` | src/domain/manifest.go:130-143 | Parsing the printed text gives back the variables exactly when keys and values are trimmed and on one line and no key has `=` or starts with `#` |
| `EnvFile.LinesOfContent` | src/domain/manifest.go:130-143 | The lines are the header and one `KEY=value` for each variable, the names ascending |
| `Order.LessIsLexicographic` | src/domain/manifest.go:135 | Names are ordered by the first place where they differ |
| `HookOutput.ParseHookOutput` | src/domain/hook_executor.go:115-129 | The last value of each key of the lines that are not blank or comments and have `=` |
| `HookOutput.CollectOutputs` | src/domain/hook_executor.go:36-50 | The parsed outputs, or an error exactly when a declared output is missing |
| `HookOutput.ExtractGlobalOutputs` | src/domain/hook_executor.go:103-111 | Exactly the outputs with the GLOBAL_ prefix, without it |
| `HookOutput.SanitizingWriter.Write` | src/domain/hook_executor.go:59-76 | When the destination takes everything, complete lines come out redacted and the rest is kept; otherwise a first part of that came out and the line being written is lost from the buffer. The input length is returned either way |
| `HookOutput.SanitizingWriter.Flush` | src/domain/hook_executor.go:78-87 | What is left over comes out redacted, or a first part of it when the destination fails, and the buffer is empty |
| `LineFilter.WriteTwice` | src/domain/hook_executor.go:59-76 | Two writes leave the state that one write of both leaves |
| `HookOutput.RedactionIsChunkIndependent` | src/domain/hook_executor.go:54-87 | However output is cut into writes, after the flush the redaction of the whole output line by line was displayed |
| `HookOutput.RedactionKeepsKeys` | src/domain/hook_executor.go:89-99 | Parsing the redacted output gives the keys of the original, each with the masked value |
| `HookOutput.SecretIsHidden` | src/domain/hook_executor.go:89-99 | A line that sets a key is shown as the key, `=` and eight asterisks |
| `HookOutput.OtherLineIsShown` | src/domain/hook_executor.go:89-99 | Blank lines, comments and lines without `=` are shown as they are |
| `HookOutput.RedactionIsIdempotent` | src/domain/hook_executor.go:89-99 | Redacting twice is redacting once |
| `IndentWriter.Writer.Write` | src/inbound/cli/progress.go:285-313 | When the underlying writer takes everything, the indented text was appended and the input length is returned; otherwise a prefix of it was, and fewer characters are reported |
| `IndentWriter.WritesCompose` | src/inbound/cli/progress.go:285-313 | Writing p and then q gives the output and final state of writing p and q at once |
| `IndentWriter.EveryLineIndented` | src/inbound/cli/progress.go:285-313 | Each line with output gets the indent, and only those |
| `Ports.AllocatePortBlock` | src/domain/port_allocator.go:22-53 | Succeeds exactly when the block has a free port for every name, in sorted order of the names, and probes ports upwards without repeating one |
| `Ports.KthNameGetsKthPort` | src/domain/port_allocator.go:22-53 | The k-th smallest of distinct names gets the k-th free port of the block |
| `Ports.PortsDiffer` | src/domain/port_allocator.go:22-53 | Different names have different ports, also when a name is listed twice |
| `Ports.PortIsFree` | src/domain/port_allocator.go:22-53 | A name's port is free and in [61000, 65000), also when a name is listed twice |
| `Ports.EveryNameHasAPort` | src/domain/port_allocator.go:22-53 | The names with a port are exactly the names asked for, repeats or not |
| `Ports.PickBlockStart` | src/domain/port_allocator.go:56-61 | For any 32-bit hash the whole block lies in the range |
| `Ports.HashDecidesBlock` | src/domain/port_allocator.go:56-61 | Two environments share a block exactly when their hashes agree modulo 40, other blocks do not overlap, and block i begins at 61000 + 100 i |
| `Ports.BlockIsWhole` | src/domain/port_allocator.go:22-53 | The ports given out are the free ones of the 100 in the block, ascending |
| `Ports.ServiceNames` | src/domain/port_allocator.go:75-85 | All service and infrastructure names, sorted; a name that is both is listed twice |
| `Validate.ValidationError.ValidateDependencyRefs` | src/domain/validate.go:110-139 | Adds exactly the dependencies that are no service, infrastructure or provisioner service, those of a service on itself and, if there is one, the cycle |
| `Validate.ValidationError.ValidateTemplateVars` | src/domain/validate.go:142-203 | Adds exactly the variables that are not accepted |
| `Validate.ValidationIsSound` | src/domain/validate.go:142-203 | When nothing was reported and ports and declared outputs are there, the manifest builds exactly when no variable is in a blind spot |
| `Validate.DisjointNamesRender` | src/domain/validate.go:142-203 | With service names that are not empty and not infrastructure names, nothing reported means the manifest builds |
| `Validate.NoIssues` | src/domain/validate.go:110-139 | No report means every variable is accepted and the services have no dependency cycle |
| `Validate.BothKindsIsMisjudged` | src/domain/validate.go:171-176 | A configuration of which nothing is reported and that does not render: the port of an infrastructure service whose name a service has |
| `Validate.NoNameIsMisjudged` | src/domain/validate.go:161-164 | Another: the own port of the service with the empty name |
| `Validate.RejectedThoughItResolves` | src/domain/validate.go:160-199 | With the ports and outputs that are declared and no more, a variable that resolves is rejected exactly when its namespace is env, store or proxy |
| `Validate.EnvNameIsRejected` | src/domain/validate.go:197-199 | An input: `{{env.name}}` resolves and is reported |
| `Generators.GenerateComposeFile` | src/domain/compose_generator.go:14-125 | One block for each service with a start command, in the order of names, or an error when one command does not render |
| `Artifacts.ComposeSays` | src/domain/compose_generator.go:14-125 | A block for each service with a start command, the names ascending, with the configured image, the service's directory, its two env files and its command with variables resolved, behind the proxy where that is not switched off |
| `Artifacts.NoComposeExactly` | src/domain/compose_generator.go:14-99 | No compose file exactly when compose or its image is not configured, the proxy is of another type, or a start command does not render |
| `Generators.StoreFailsInStart` | src/domain/compose_generator.go:85-99 | A start command with a store variable never renders, whatever the store holds |
| `Generators.StoreFailsCompose` | src/domain/compose_generator.go:82-99 | And then no compose file is generated |
| `Generators.StoreIsMissedExactly` | src/domain/compose_generator.go:85-99 | A start command that renders with the store at hand renders without it, to the same text, exactly when it has no store variable |
| `Generators.StoreInStartExample` | src/domain/compose_generator.go:85-99 | With KEY in the store `{{store.KEY}}` resolves to its value, and as a start command it is an error |
| `Generators.GenerateNginxConfig` | src/domain/nginx_generator.go:17-121 | One server for each service in the order of names, proxied when enabled and with a port, or an error when a proxy target has no port |
| `Generators.NginxDependsOn` | src/domain/nginx_generator.go:17-121 | The nginx config does not depend on provisioner outputs, env blocks or the store |
| `Artifacts.NginxSays` | src/domain/nginx_generator.go:17-121 | A server for each service, the names ascending, under env--service.domain: a proxy to the service's port and from each configured path to the other service's port and target path if the service is enabled, or none is tracked, and has a port; otherwise the page of a service not started |
| `Artifacts.NoNginxExactly` | src/domain/nginx_generator.go:70-76 | No config exactly when a service to be proxied has a path to one without a port |
| `Propagate.ServicesAffectedByChange` | src/domain/propagate.go:136-184 | Whether compose is needed, and the services whose text mentions a needle or that share a path with one whose env does |
| `Propagate.AffectedExactly` | src/domain/propagate.go:136-184 | A service is affected exactly when one in its directory has an env value or a start command with `provisioner.<name>.` or `store.<key>` for a changed key; compose is needed exactly when a start command has |
| `Propagate.DiffStoreKeys` | src/domain/propagate.go:188-204 | The reported keys, each once and sorted |
| `Propagate.WhatIsReported` | src/domain/propagate.go:188-204 | A key is reported exactly when it differs and was not just added with the empty value |
| `Propagate.EmptyAdditionIsMissed` | src/domain/propagate.go:188-204 | A key added with the empty value is a difference and is not reported |
| `Propagate.UnmentionedIsUntouched` | src/domain/propagate.go:136-184 | Non-interference: a template that rendered and mentions no needle renders the same after the change |
| `Propagate.EnvFileUntouched` | src/domain/propagate.go:136-184 | A file that only services in the directory of an unaffected service write is the same after the change, whether or not that service writes it, for any map orders before and after |
| `Propagate.ComposeUntouched` | src/domain/propagate.go:136-184 | When no start command mentions a needle the whole compose file is the same |
| `Remote.StepRegistry.RunSteps` | src/domain/manager.go:464-500 | Success means the manifest was read from the machine and the steps ran on it one after the other; otherwise nothing changed, or the steps before some step ran and that one failed part way, or ran and could not save its checkpoint |
| `Remote.ReadingBackKeeps` | src/domain/manager.go:770-792 | The manifest read from the machine is the one written, but that empty env blocks are gone |
| `Remote.StepRegistry.DoGenerateManifest` | src/domain/step_registry.go:77-108 | The manifest is rebuilt, keeps the enabled services, replaces the one in memory and is written; on failure nothing changes |
| `Remote.StepRegistry.DoGenerateEnv` | src/domain/step_registry.go:136-169 | Every env file of the manifest is written; on failure some of them are, and nothing else changes |
| `Remote.StepRegistry.DoGenerateNginx` | src/domain/step_registry.go:237-279 | With the proxy on, the enabled services enter the manifest, and the config and the error pages are written; on failure the manifest in memory may have changed and some of the files are written |
| `Remote.StepRegistry.PropagateProvisionerChange` | src/domain/propagate.go:31-81 | Runs the steps the change calls for, then restarts exactly the services that are enabled and affected, in order; tells apart an unreadable manifest, a failing step and a failing restart, and what each leaves |
| `Remote.StepRegistry.SyncRemote` | src/domain/propagate.go:92-124 | Runs all generation steps, then restarts every enabled service, with the same failures told apart |
| `Convergence.IncrementalAgreesWithFull` | src/domain/propagate.go:31-124 | After a full generation and a change of one provisioner, the incremental run leaves the files of a full run, exactly when no env file has the path of a skipped file |
| `Convergence.IncrementalIsPossible` | src/domain/propagate.go:31-124 | After a full generation, an incremental run can succeed exactly when another full one can |
| `Convergence.FullRunIsPossible` | src/domain/propagate.go:92-124 | A full run can succeed exactly when the manifest, the compose file and, with the proxy on, the nginx config can be generated |
| `Artifacts.ManifestIsThere` | src/domain/step_registry.go:77-108 | After a full run `.previewctl.json` holds the manifest with the services enabled, unless an env file has its path |
| `Artifacts.ComposeIsThere` | src/domain/step_registry.go:214-235 | `.previewctl.compose.yaml` holds the compose file of that manifest |
| `Artifacts.NginxIsThere` | src/domain/step_registry.go:237-279 | With the proxy on, the nginx config for the enabled services, or those to start by themselves, and the three error pages are there |
| `Artifacts.EnvFileReads` | src/domain/step_registry.go:136-169 | Reading its env file on the machine gives every service the values of its env block, when values can be printed on a line and services that share a file agree |
| `Artifacts.OthersStay` | src/domain/propagate.go:92-124 | Every other file is as it was |
| `Convergence.ClashingRunsDiffer` | src/domain/propagate.go:31-124 | An input with an env file at the path of the nginx config, after which the two runs leave different files |
| `Convergence.NoStaleEnvFile` | src/domain/propagate.go:136-184 | Every file that only services in the directory of an unaffected service write, beside the generated ones, is on the machine after the incremental run as before, or absent in both |
| `Convergence.NoStaleCommand` | src/domain/compose_generator.go:69-122 | The compose block of a service that is not restarted is the same as before |
| `Convergence.NoStaleContainer` | src/domain/compose_generator.go:102-114 | Of a service that is enabled and not restarted, the compose block is as before, and so are both env files its container reads, if only services in its directory write them |
| `Convergence.ResetLeavesNothingStale` | src/domain/manager.go:1498-1552 | After a reset and its propagation, the same holds of every enabled service that was not restarted |
| `Convergence.ResetReportsEnough` | src/domain/manager.go:1516-1552 | A reset changes nothing beyond the service and the keys handed to propagation, exactly unless the service has the empty name and its outputs change |
| `Convergence.ResetThenPropagate` | src/domain/manager.go:1498-1552 | After a reset, propagating and synchronising in full leave the same files |
| `Reset.Environment.CoreReset` | src/domain/manager.go:1498-1552 | Exactly when the service has a reset hook that succeeds and prints what is declared, and the save writes, the persisted outputs of the service are what the hook printed and the store has its GLOBAL_ exports, all else as before; only after a save that succeeds is the change propagated, unless that is declined, with its failures told apart |
| `Convergence.AfterResetTakesOver` | src/domain/manager.go:1526-1541 | The inputs of a regeneration after a reset have the printed outputs, each GLOBAL_k under k, and nothing else changed |
| `Convergence.ResetKeysExactly` | src/domain/manager.go:1510-1551 | Propagation is handed exactly the keys that the hook exported with another value than they had, a missing one counting as empty |
| `Entry.SavedPortsComeBack` | src/domain/manager.go:314-326 | Ports saved in a checkpoint are read back as they were, and only from decoded JSON |
| `Entry.SavedStringsComeBack` | src/domain/manager.go:329-341 | So are string maps |
| `Entry.SavingKeeps` | src/domain/environment.go:120-136 | Saving and reading back changes nothing but an empty store and the Go types of outputs |
| `Entry.DeserializePortMap` | src/domain/manager.go:314-326 | The numbers of a decoded object, fractions dropped, or nothing for other values |
| `Entry.EnvironmentEntry.InvalidateStep` | src/domain/environment.go:211-228 | A completed step becomes invalidated and is logged; any other is left alone |
| `Entry.EnvironmentEntry.InvalidateStepsFrom` | src/domain/environment.go:258-275 | The step and all after it in the list are dropped and logged, nothing if it is not in the list |
| `Checkpoint.Manager.Step` | src/domain/manager.go:84-192 | The entry, the stored entry and the outcome for every answer of verify, function, store and for a kill before or after the function |
| `Checkpoint.StepIsRecorded` | src/domain/manager.go:84-189 | A step appends to the audit log that it was skipped or verified, or was not verified, was executed, failed; its record has the outputs if it succeeded; nothing else of the steps changes |
| `Exports.StoreOfAProvision` | src/domain/manager.go:817-1086 | When nothing fails, the store is in the end, in memory and saved, the one that was there, or the exports of the first executed step that captured any if nothing was set up to then, with all that subprocesses set over it |
| `Exports.ExportsOfAProvisionAreKept` | docs/hooks.md:89-91 | All exports that the hooks of a provision print are in the store afterwards exactly when each is one of that store |
| `Exports.ExportsOfANewEnvironment` | docs/hooks.md:89-91 | For a new environment: exactly when each is one of the first exports captured and not set to anything else, or was set to the same |
| `Exports.TwoExportsAreLost` | src/domain/manager.go:834-1019 | A provision from nothing whose hook before and two seeds each export a key and that keeps one of the three |
| `Exports.AllExportsAreLost` | src/domain/manager.go:182-185 | The same, with the first seed also setting a key through a subprocess: that key is kept and the three exports are not |
| `Checkpoint.SecondExportIsLost` | src/domain/manager.go:182-185 | Two exporting steps after which the second export is missing |
| `AuditTrail.AuditLogTellsTheSteps` | src/domain/environment.go:211-275 | In every reachable entry, in memory or stored, replaying the audit log gives exactly the completed steps |
| `AuditTrail.CheckpointsFollowEffects` | src/domain/manager.go:125-189 | Wherever a run stops, a completed record in memory or in the store was preceded by a successful execution that produced its outputs |
| `ProvisionTrail.AttemptsAreTraced` | src/domain/manager.go:794-1089 | Both hold after any number of provision attempts, wherever they stopped, and whatever other commands did between them |
| `Provision.RunProvisioner` | src/domain/manager.go:794-1089 | Loading, starting over, and every step in turn up to the first that does not succeed, with cached values restored |
| `Provision.DoProvision` | src/domain/manager.go:374-402 | The provisioner phase and the last save |
| `Provision.NamesTellPhases` | src/domain/manager.go:290-299 | No two steps share a checkpoint, whatever the services are called |
| `Success.ProvisionGoesThrough` | src/domain/manager.go:817-1086 | A provision that succeeds goes through the configured steps in order and no others; it takes exactly those from checkpoints that are completed, not started over and, for the compute, known and verified; of those executed the checkpoints keep the machine's address, the ports, the seeds' outputs |
| `Success.BeginSays` | src/domain/manager.go:794-830 | An attempt gets going exactly when the state can be read and what it changes first can be saved; a new entry is being created, one that is found keeps everything but the steps to start over |
| `Success.SuccessIsSaved` | src/domain/manager.go:753-768 | In the end the entry, in memory and saved, is provisioned and has the manifest's mode, ports and outputs, the branch and the compute |
| `Success.SuccessIsNamed` | src/domain/manager.go:1021-1052 | The manifest has the names, branch and mode of the target and, for each provisioner service with a seed hook and no other, the outputs it last printed |
| `Success.PortsOfSuccess` | src/domain/manager.go:949-985 | In the manifest of a provision that succeeds every service with a configured port has that port, every other name the port that was free for it when ports were last allocated, and no other name a port |
| `Resume.PlanIsInOrder` | src/domain/manager.go:817-1086 | The configured steps, each once, earlier ones first |
| `Resume.ResumeRestoresWhatWasProduced` | src/domain/manager.go:949-1052 | After any failed, killed or unsaved attempts with any starting steps, and other commands between them, the attempt that succeeds builds its manifest from the ports last allocated and the outputs each seed last printed |
| `Resume.ResumedManifest` | src/domain/manager.go:794-1089 | With hooks that answer the same each time, no seed exports and nothing else writing to the store, that manifest is a fixed function of the answers |
| `Resume.ResumeEquivalence` | src/domain/manager.go:794-1089 | So it is the manifest of one uninterrupted run |
| `Recovery.RecoveryIsCertain` | src/domain/manager.go:794-1089 | Whatever the attempts before it left behind, an attempt in which nothing fails succeeds exactly when the configuration renders with those answers, and ends with the same manifest |
| `Recovery.SmoothAttempt` | src/domain/manager.go:794-1089 | For every configuration whose seeds export nothing there is an attempt in which nothing fails |
| `Closure.CompletedStepsHaveNoGap` | src/domain/manager.go:817-1086 | With caching on and the compute reachable, wherever attempts stop a step is completed only if all earlier configured steps are, in memory and in the store, seeds not being ordered |
| `Closure.DroppingGapless` | src/domain/environment.go:258-275 | Starting over from a step leaves no gap |
| `Closure.GapOfAnAttempt` | src/domain/manager.go:817-1086 | After any history, in memory and in the store there is a gap exactly when ports are allocated and create_compute is not completed, and an attempt that gets past loading leaves that exactly when it starts with ports allocated and create_compute is not verified and fails, or, if how that went is not recorded, was missing before; any other leaves it as it is |
| `Closure.GapExactlyWhenComputeIsLost` | src/domain/manager.go:817-1086 | As long as no earlier attempt saved a loss, that is exactly when the attempt loses create_compute with later steps completed, and in the store exactly when it saves that |
| `Closure.GapFromNothing` | src/domain/manager.go:817-1086 | A history from an empty store after which the entry in memory and the stored one have a gap, and still have it after one more failure that loses nothing |
| `Machine.ManifestOnMachine` | src/domain/manager.go:1054-1068 | With hooks that answer the same each time, after an attempt that succeeds the compute it ends with has the manifest it ended with, exactly when of making that compute and writing to it, as the executions tell, the last is that the manifest was written |
| `Machine.ManifestStays` | src/domain/manager.go:1054-1068 | That compute has a manifest exactly when the attempt writes it, or it was there and the compute is not made anew |
| `Machine.ReachableMachineIsCurrent` | src/domain/manager.go:817-1086 | With caching on, the compute reachable and one worktree attached to, if any, it always has the attempt's manifest, also when writing was taken from a checkpoint |
| `Machine.MachineWithoutManifest` | src/domain/manager.go:817-1086 | Two attempts that succeed, the second of which makes the worktree again and leaves no manifest in it |
| `Machine.AttachedElsewhere` | src/domain/manager.go:379-402 | Two attempts that succeed and attach to two worktrees: the second takes the writing from its checkpoint and has no manifest |
| `Runner.RunRunner` | src/domain/manager.go:1093-1192 | Sync, marking for rebuild, the steps up to the first that does not succeed, the last save; and all of it is a run in the sense of the audit trail |
| `Runner.SequenceExecutes` | src/domain/manager.go:84-192 | Of distinct steps that all succeed, each that was not completed is executed, in order, with nothing in between |
| `Runner.RunnerAlwaysRebuilds` | src/domain/manager.go:1102-1154 | A runner phase that succeeds executes runner_before after syncing the code, then build_services and start_services when compose is configured, never from a checkpoint |
| `Runner.RunnerGoesThrough` | src/domain/manager.go:1093-1192 | A runner phase that succeeds goes through sync_code, runner_before, generate_env, start_infra, with compose generate_compose, generate_nginx if the proxy is on, build_services, start_services, then runner_deploy and runner_after, and no others; it takes exactly those from checkpoints that are completed, verified, not rebuilt and not hooks that forbid it; the entry, in memory and saved, says what it was to say |
| `Runner.Reconcile` | src/domain/reconcile.go:37-248 | Reports each step as found, executes exactly the broken ones with the result that is reported, lets start_services enable services, saves, changes no step's being completed, and changes nothing in a dry run |
| `Runner.WhatIsFound` | src/domain/reconcile.go:58-235 | The steps looked at, in order, and of each: never run, not verifiable, healthy, broken, healed or not |
| `Runner.HealingIsRecorded` | src/domain/reconcile.go:175-235 | A healed step is recorded as completed without outputs, and both results are logged |
| `Runner.HealingEnables` | src/domain/step_registry.go:332-346 | Healing start_services for the first time enables the services that are to start by themselves |
| `RunnerTrail.RunnerIsApart` | src/domain/manager.go:1093-1192 | A runner phase that does not move the compute, wherever it stops, is a sequence of operations that leave the provisioner's checkpoints and the manifest file alone, so it may come between attempts |
| `RunnerTrail.ReconcileIsApart` | src/domain/reconcile.go:37-248 | So is a reconciliation |
| `Records.SinceOffspring` | src/domain/manager.go:429-500 | After such operations the stored entry has the completed provisioner steps and the compute that it had, or no completed provisioner step |
| `Runner.HealingRunsTheBroken` | src/domain/reconcile.go:150-235 | Healing adds one execution for each step found broken, in order, and keeps the completed steps |
| `Overlay.BaseConfig.DeepMerge` | src/domain/config.go:280-410 | The overlay is laid over the base, field by field, whatever the map order |
| `Overlay.MergeLays` | src/domain/config.go:280-419 | Every field the overlay sets has its value, every other that of the base, in the top level, provisioner, compute, hooks and services; env variables are added; what only one of the two has is taken over whole |
| `Overlay.MergeCommandHook` | src/domain/config.go:412-419 | The overlay's command and its caching each win when set |
| `Overlay.MergeIsAssociative` | src/domain/config.go:280-419 | Overlays can be combined before they are laid over a base, over all nested fields |
| `Overlay.MergeIsIdempotent` | src/domain/config.go:280-419 | Laying a configuration over itself, or an empty one over it, changes nothing |

## Left out

- Resume.ResumeEquivalence: does not cover seeds that print GLOBAL_ outputs; what becomes of those is in Exports.StoreOfAProvision, for an attempt in which nothing fails.
- Machine.ManifestOnMachine: speaks of hooks that answer the same each time; with other answers the file is the manifest of the last attempt that wrote it, which a later attempt can differ from.
- Machine.ManifestStays: leaves out histories in which another command regenerates the manifest file between attempts, as propagating a reset does; what that writes is in Remote.
- Histories in which the configuration, the branch or the way of getting compute changes between attempts, such as attaching to a worktree after having made one, or in which another command changes the provisioner's checkpoints or the compute; none of those modelled does.
- Entry.DeserializePortMap: does not model the rounding of integers beyond 2^53 in JSON numbers.
- Overlay.BaseConfig.DeepMerge: does not model that maps and hooks taken over are shared with the overlay, which is discarded after loading.
- Remote.StepRegistry.RunSteps: does not model partial writes of one file, the shell script that carries env files, quoting in it, or the step records that are left; those are steps in the sense of AuditTrail.
- Generators.GenerateComposeFile: does not model the YAML text, ports of the proxy container or Docker networks, only what the text is made of.
- Generators.GenerateNginxConfig: does not model the text of the config, only the servers and locations in it.
- Provision.RunProvisioner: does not model how compute access is made from an entry, only whether it can be, nor a call with neither a compute hook nor a worktree, which no command makes.
- Provision.DoProvision: does not model that attaching to an environment that is running is refused before anything is done.
- Text is a sequence of characters; bytes that are not valid UTF-8, and characters split between two writes, are not modelled.
- A nil map and an empty one are the same value except where the code tells them apart (the store and a service's env block).
- Runs without an entry (`Run`), and `Destroy`, `List`, `Status`, enabling and disabling services: mostly sequences of calls to other systems.
- The FNV hash, `filepath.Join`, probing a port and the verification of each step: parameters.
- Locking between processes: the program has none, so a run has the state store to itself apart from the keys that hooks set.
- Time stamps, durations, host names and messages in records and audit entries: no decision depends on them.
- YAML and JSON parsing, Docker, git, SSH and the command line: outside the domain logic.
- Checks of required fields, port collisions and file paths in the configuration: independent checks of single fields.
