/** The environment service of src/services/environment.js: a mutable
    environment name and the configuration names derived from it. */
module Environment {
  import opened Json

  /** `${environment}`: an environment never set prints as "undefined". */
  function EnvText(env: Option<string>): (t: string)
    ensures env.Some? ==> t == env.value
    ensures env.None? ==> t == "undefined"
  {
    if env.Some? then env.value else "undefined"
  }

  const ConfigFilePrefix := "./config/cloud_platform_config_"
  const ConfigFileSuffix := ".json"

  /** `./config/cloud_platform_config_${env}.json` */
  function ConfigFileFor(env: string): (f: string)
    ensures |f| == |ConfigFilePrefix| + |env| + |ConfigFileSuffix|
    ensures f[..|ConfigFilePrefix|] == ConfigFilePrefix
    ensures f[|ConfigFilePrefix|..|ConfigFilePrefix| + |env|] == env
    ensures f[|ConfigFilePrefix| + |env|..] == ConfigFileSuffix
  {
    ConfigFilePrefix + env + ConfigFileSuffix
  }

  /** Different environments read different platform configuration files. */
  lemma ConfigFileInjective(a: string, b: string)
    requires ConfigFileFor(a) == ConfigFileFor(b)
    ensures a == b
  {
    assert |a| == |b|;
    assert a == ConfigFileFor(a)[|ConfigFilePrefix|..|ConfigFilePrefix| + |a|];
  }

  /** `env === 'dev' ? 'saasmaster' : 'saasmaster-' + env` */
  function ProjectIdFor(env: string): (id: string)
    ensures env == "dev" <==> id == "saasmaster"
    ensures env != "dev" ==> id == "saasmaster-" + env
  {
    if env == "dev" then "saasmaster" else "saasmaster-" + env
  }

  /** Different environments use different cloud projects. */
  lemma ProjectIdInjective(a: string, b: string)
    requires ProjectIdFor(a) == ProjectIdFor(b)
    ensures a == b
  {
    if a != "dev" && b != "dev" {
      var p := "saasmaster-";
      assert a == ProjectIdFor(a)[|p|..];
      assert b == ProjectIdFor(b)[|p|..];
    }
  }

  class Environment {
    /** The module-level `environment`, unset until `setEnv` is called. */
    var environment: Option<string>
    /** `configs[type][env]`: the configuration files, loaded at start-up. */
    const configs: map<string, map<string, Value>>

    constructor (configs: map<string, map<string, Value>>)
      ensures environment.None? && this.configs == configs
    {
      environment := None;
      this.configs := configs;
    }

    /** `setEnv(env)` */
    method SetEnv(env: string)
      modifies this`environment
      ensures environment == Some(env)
      ensures GetEnv() == Some(env)
    {
      environment := Some(env);
    }

    /** `getEnv()`: the last value given to `setEnv`, undefined before. */
    function GetEnv(): (e: Option<string>)
      reads this
      ensures e == environment
    {
      environment
    }

    /** `getConfig(type)`: `configs[type][environment]`; None when `configs[type]`
        is missing and the lookup throws, undefined when there is no config for
        the environment. */
    function GetConfig(kind: string): (r: Option<Value>)
      reads this
      ensures r.None? <==> kind !in configs
      ensures r.Some? && EnvText(environment) in configs[kind] ==> r.value == configs[kind][EnvText(environment)]
      ensures r.Some? && EnvText(environment) !in configs[kind] ==> r.value == Undefined
    {
      if kind !in configs then None
      else
        var byEnv := configs[kind];
        var key := EnvText(environment);
        Some(if key in byEnv then byEnv[key] else Undefined)
    }

    /** `getCloudPlatformConfigFile()` */
    function CloudPlatformConfigFile(): (f: string)
      reads this
      ensures f == ConfigFileFor(EnvText(environment))
    {
      ConfigFilePrefix + EnvText(environment) + ConfigFileSuffix
    }

    /** `getProjectId()` */
    function ProjectId(): (id: string)
      reads this
      ensures id == ProjectIdFor(EnvText(environment))
      ensures environment == Some("dev") <==> id == "saasmaster"
    {
      if environment == Some("dev") then "saasmaster" else "saasmaster-" + EnvText(environment)
    }
  }
}
