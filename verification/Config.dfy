/** The project configuration (config.go). A nil map of services and an empty one are the same
    value here: no code of the repository tells them apart. A service's env map is optional, since
    building a manifest does distinguish a missing env block from an empty one. */
module Config {
  import opened Prelude

  datatype CommandHook = CommandHook(command: string, allowCache: Option<bool>) {
    predicate IsConfigured() { command != "" }
  }

  type PortMap = map<string, int>

  const NO_HOOK := CommandHook("", None)

  datatype ProxyConfig = ProxyConfig(enabled: Option<bool>, domain: string, kind: string) {
    predicate IsEnabled() { enabled.GetOr(true) }
    function ResolvedType(): string { if kind == "" then "nginx" else kind }
  }

  datatype ComposeConfig = ComposeConfig(autostart: seq<string>, image: string, proxy: Option<ProxyConfig>) {
    predicate ProxyEnabled() { proxy.Some? && proxy.value.IsEnabled() }
    function ProxyDomain(): string { if proxy.Some? then proxy.value.domain else "" }
  }

  datatype RunnerConfig = RunnerConfig(before: CommandHook, build: CommandHook, deploy: CommandHook,
                                       destroy: CommandHook, after: CommandHook,
                                       compose: Option<ComposeConfig>)

  datatype ServiceProxy = ServiceProxy(path: string, targetPath: string, toService: string) {
    function ResolvedTargetPath(): string { if targetPath != "" then targetPath else path }
  }

  datatype ServiceConfig = ServiceConfig(path: string, port: int, command: string, dependsOn: seq<string>,
                                         env: Option<map<string, string>>, envFile: string, build: string,
                                         start: string, proxy: seq<ServiceProxy>) {
    function ResolvedEnvFile(): string { if envFile != "" then envFile else ".env.local" }
    function EnvVars(): map<string, string> { env.GetOr(map[]) }
  }

  datatype SSHConfig = SSHConfig(proxyCommand: string, user: string, userCommand: string,
                                 identityFile: string, root: string)

  datatype ComputeHooks = ComputeHooks(create: string, destroy: string, outputs: seq<string>,
                                       ssh: Option<SSHConfig>)

  datatype ProvisionerService = ProvisionerService(outputs: seq<string>, init: string, seed: string,
                                                   reset: string, destroy: string)

  datatype ProvisionerConfig = ProvisionerConfig(before: string, after: string, compute: Option<ComputeHooks>,
                                                 services: map<string, ProvisionerService>)

  /** infraServices maps an infrastructure service to its port; its other fields are never used here.
      infrastructure is the compose file path. */
  datatype ProjectConfig = ProjectConfig(version: int, name: string, provisioner: ProvisionerConfig,
                                         infrastructure: Option<string>,
                                         services: map<string, ServiceConfig>,
                                         runner: Option<RunnerConfig>, mode: string,
                                         infraServices: map<string, int>) {
    function Compose(): Option<ComposeConfig> {
      if runner.Some? then runner.value.compose else None
    }

    function ProxyDomain(): string {
      if Compose().Some? then Compose().value.ProxyDomain() else ""
    }

    function ResolvedMode(): string { if mode == "" then "local" else mode }
  }
}
