/**
 * Configuration and environment: where the registry file is, and which
 * host:port the notification endpoint is. Config and environment are key-value
 * maps; config_read finding no configuration is a None config.
 */
module Settings {
  import opened Wrappers

  type ConfigMap = map<string, string>
  type EnvMap = map<string, string>

  const RegistryFileVar := "BLAH_JOB_REGISTRY_FILE"
  const HomeVar := "HOME"
  const RegistryKey := "job_registry"
  const PortKey := "async_notification_port"
  const HostKey := "async_notification_host"
  const DefaultRegistryFile := "blah_job_registry.bjr"

  /** getenv and config_get: the value under a key, or None (NULL) when unset. */
  function Lookup(m: map<string, string>, key: string): Option<string>
  {
    if key in m then Some(m[key]) else None
  }

  /** The value of a key in a configuration that may not have been found. */
  function ConfigGet(config: Option<ConfigMap>, key: string): (r: Option<string>)
    ensures r.Some? <==> config.Some? && key in config.value
  {
    if config.Some? then Lookup(config.value, key) else None
  }

  /** Where the registry path comes from. Only a Default path is built, and owned,
      by the tool. */
  datatype PathChoice = FromEnv(path: string) | FromConfig(path: string) | Default(home: string)

  /** The default registry path under a home directory, as sprintf "%s/%s" writes it. */
  function DefaultPath(home: string): (p: string)
    ensures |p| + 1 == |DefaultRegistryFile| + |home| + 2
    ensures p[..|home|] == home && p[|home|] == '/' && p[|home| + 1..] == DefaultRegistryFile
  {
    home + "/" + DefaultRegistryFile
  }

  function PathOf(c: PathChoice): string
  {
    match c
    case FromEnv(p) => p
    case FromConfig(p) => p
    case Default(home) => DefaultPath(home)
  }

  /** The registry path by precedence: the environment variable, then the
      configured job_registry value, then the default file under HOME, or under
      "." when HOME is unset. */
  function ChooseRegistryPath(env: EnvMap, configured: Option<string>): PathChoice
  {
    if RegistryFileVar in env then FromEnv(env[RegistryFileVar])
    else if configured.Some? then FromConfig(configured.value)
    else Default(if HomeVar in env then env[HomeVar] else ".")
  }

  /** The registry path main hands to job_registry_init: the chosen path, or None
      when the default path is needed and malloc of its buffer fails. */
  function RegistryFile(env: EnvMap, configured: Option<string>, mallocOk: bool): Option<string>
  {
    var choice := ChooseRegistryPath(env, configured);
    if choice.Default? && !mallocOk then None else Some(PathOf(choice))
  }

  /** The environment variable wins whatever the configuration and HOME say; the
      configured path wins over the default whatever HOME says. */
  lemma RegistryPathPrecedence(env: EnvMap, configured: Option<string>, configured': Option<string>, home: string)
    ensures RegistryFileVar in env ==> ChooseRegistryPath(env, configured') == FromEnv(env[RegistryFileVar])
    ensures RegistryFileVar !in env && configured.Some?
      ==> ChooseRegistryPath(env, configured) == ChooseRegistryPath(env[HomeVar := home], configured)
          == FromConfig(configured.value)
    ensures RegistryFileVar !in env && configured.None?
      ==> PathOf(ChooseRegistryPath(env, configured)) == DefaultPath(if HomeVar in env then env[HomeVar] else ".")
  {
  }

  /** The outcome of resolving the notification endpoint. */
  datatype EndpointChoice = MissingPort | NoNodeName | HostPort(host: string, port: string)

  /** A port must be configured; the host is the configured one, else the node
      name uname reports (None when uname fails). */
  function ResolveEndpoint(config: Option<ConfigMap>, nodename: Option<string>): EndpointChoice
  {
    match (ConfigGet(config, PortKey), ConfigGet(config, HostKey))
    case (None, _) => MissingPort
    case (Some(port), Some(host)) => HostPort(host, port)
    case (Some(port), None) =>
      if nodename.None? then NoNodeName else HostPort(nodename.value, port)
  }

  /** The endpoint needs the port whatever else is configured; a configured host
      is used verbatim and the node name only stands in for a missing host. */
  lemma EndpointResolution(config: Option<ConfigMap>, nodename: Option<string>, nodename': Option<string>)
    ensures (config.None? || PortKey !in config.value) ==> ResolveEndpoint(config, nodename) == MissingPort
    ensures config.Some? && PortKey in config.value && HostKey in config.value
      ==> ResolveEndpoint(config, nodename) == ResolveEndpoint(config, nodename')
          == HostPort(config.value[HostKey], config.value[PortKey])
    ensures config.Some? && PortKey in config.value && HostKey !in config.value
      ==> ResolveEndpoint(config, nodename)
          == if nodename.Some? then HostPort(nodename.value, config.value[PortKey]) else NoNodeName
  {
  }
}
