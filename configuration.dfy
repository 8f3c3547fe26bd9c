/** ConfigManager: properties layered from config.properties, then
    env.properties, then sixteen environment variables, with typed getters.
    A properties file arrives as the key/value map Properties.load reads from
    it (None when the file is missing or cannot be read); the process
    environment is a map from variable name to value. */
module Configuration {
  import opened Common
  import opened JavaText

  type Properties = map<string, string>

  datatype ConfigError = NumberFormat(text: string)   // NumberFormatException

  /** Property key and the environment variable that overrides it. */
  const EnvMappings: seq<(string, string)> := [
    ("base.url", "BASE_URL"),
    ("api.base.url", "API_BASE_URL"),
    ("browser", "BROWSER"),
    ("headless", "HEADLESS"),
    ("remote.execution", "REMOTE_EXECUTION"),
    ("remote.url", "SELENIUM_GRID_URL"),
    ("test.username", "TEST_USERNAME"),
    ("test.password", "TEST_PASSWORD"),
    ("api.key", "API_KEY"),
    ("api.secret", "API_SECRET"),
    ("email.host", "EMAIL_HOST"),
    ("email.port", "EMAIL_PORT"),
    ("email.username", "EMAIL_USERNAME"),
    ("email.password", "EMAIL_PASSWORD"),
    ("email.from", "EMAIL_FROM"),
    ("email.to", "EMAIL_TO")
  ]

  /** The property keys an environment variable can override. */
  function MappedKeys(mappings: seq<(string, string)>): (r: set<string>) {
    set i | 0 <= i < |mappings| :: mappings[i].0
  }

  /** No property key is listed twice. */
  predicate DistinctKeys(mappings: seq<(string, string)>) {
    forall i, j :: 0 <= i < j < |mappings| ==> mappings[i].0 != mappings[j].0
  }

  /** A variable counts when it is set and not empty. */
  predicate IsSet(env: map<string, string>, variable: string) {
    variable in env && env[variable] != ""
  }

  /** Properties.load on top of what is already there: a file's keys win. */
  function LoadFile(props: Properties, file: Option<Properties>): (r: Properties)
    ensures file.None? ==> r == props
    ensures file.Some? ==> r.Keys == props.Keys + file.value.Keys
    ensures file.Some? ==> forall k :: k in file.value ==> r[k] == file.value[k]
    ensures forall k :: k in props && (file.None? || k !in file.value) ==> r[k] == props[k]
  {
    if file.Some? then props + file.value else props
  }

  /** The environment loop over the first mappings, in order. */
  function ApplyEnv(props: Properties, env: map<string, string>, mappings: seq<(string, string)>): (r: Properties)
    ensures props.Keys <= r.Keys <= props.Keys + MappedKeys(mappings)
    decreases |mappings|
  {
    if mappings == [] then props
    else
      MappedKeysOfPrefix(mappings);
      var before := ApplyEnv(props, env, mappings[..|mappings| - 1]);
      var m := mappings[|mappings| - 1];
      if IsSet(env, m.1) then before[m.0 := env[m.1]] else before
  }

  /** Dropping the last mapping names no new key. */
  lemma MappedKeysOfPrefix(mappings: seq<(string, string)>)
    requires mappings != []
    ensures MappedKeys(mappings[..|mappings| - 1]) + {mappings[|mappings| - 1].0} == MappedKeys(mappings)
  {
    var init := mappings[..|mappings| - 1];
    forall k | k in MappedKeys(init) ensures k in MappedKeys(mappings) {
      var i :| 0 <= i < |init| && init[i].0 == k;
      assert mappings[i].0 == k;
    }
    forall k | k in MappedKeys(mappings) ensures k in MappedKeys(init) + {mappings[|mappings| - 1].0} {
      var i :| 0 <= i < |mappings| && mappings[i].0 == k;
      if i < |init| { assert init[i].0 == k; }
    }
  }

  /** One more mapping applies on top of those before it. */
  lemma ApplyEnvStep(props: Properties, env: map<string, string>, mappings: seq<(string, string)>, i: nat)
    requires i < |mappings|
    ensures var before := ApplyEnv(props, env, mappings[..i]);
      ApplyEnv(props, env, mappings[..i + 1])
        == if IsSet(env, mappings[i].1) then before[mappings[i].0 := env[mappings[i].1]] else before
  {
    assert mappings[..i + 1][..i] == mappings[..i];
  }

  /** A key no mapping names keeps what the files gave it. */
  lemma {:induction false} ApplyEnvUnmapped(props: Properties, env: map<string, string>,
                                            mappings: seq<(string, string)>, key: string)
    requires key !in MappedKeys(mappings)
    ensures key in ApplyEnv(props, env, mappings) <==> key in props
    ensures key in props ==> ApplyEnv(props, env, mappings)[key] == props[key]
    decreases |mappings|
  {
    if mappings != [] {
      var init := mappings[..|mappings| - 1];
      MappedKeysOfPrefix(mappings);
      ApplyEnvUnmapped(props, env, init, key);
    }
  }

  /** A mapped key takes the variable's value when that is set and not empty,
      and keeps the files' value otherwise. */
  lemma {:induction false} ApplyEnvMapped(props: Properties, env: map<string, string>,
                                          mappings: seq<(string, string)>, i: nat)
    requires DistinctKeys(mappings) && i < |mappings|
    ensures var r := ApplyEnv(props, env, mappings);
      var key := mappings[i].0; var variable := mappings[i].1;
      && (IsSet(env, variable) ==> key in r && r[key] == env[variable])
      && (!IsSet(env, variable) ==> (key in r <==> key in props))
      && (!IsSet(env, variable) && key in props ==> r[key] == props[key])
    decreases |mappings|
  {
    var init := mappings[..|mappings| - 1];
    if i < |mappings| - 1 {
      ApplyEnvMapped(props, env, init, i);
    } else {
      forall j | 0 <= j < |init| ensures init[j].0 != mappings[i].0 {
        assert init[j] == mappings[j];
      }
      ApplyEnvUnmapped(props, env, init, mappings[i].0);
    }
  }

  /** The sixteen keys are distinct. */
  lemma EnvMappingsDistinct()
    ensures DistinctKeys(EnvMappings) && |EnvMappings| == 16
  {
  }

  /** loadConfiguration: defaults, then the environment file, then the variables. */
  function Configure(configFile: Option<Properties>, envFile: Option<Properties>,
                     env: map<string, string>): (r: Properties)
    ensures configFile.Some? ==> configFile.value.Keys <= r.Keys
    ensures envFile.Some? ==> envFile.value.Keys <= r.Keys
    ensures forall k :: k in r && k !in MappedKeys(EnvMappings) ==>
      (configFile.Some? && k in configFile.value) || (envFile.Some? && k in envFile.value)
  {
    ApplyEnv(LoadFile(LoadFile(map[], configFile), envFile), env, EnvMappings)
  }

  /** An unmapped key is decided by the files alone, env.properties winning
      over config.properties. */
  lemma ConfigureUnmappedKey(configFile: Option<Properties>, envFile: Option<Properties>,
                             env: map<string, string>, key: string)
    requires key !in MappedKeys(EnvMappings)
    ensures var r := Configure(configFile, envFile, env);
      && (key in r <==> (configFile.Some? && key in configFile.value) || (envFile.Some? && key in envFile.value))
      && (envFile.Some? && key in envFile.value ==> r[key] == envFile.value[key])
      && (configFile.Some? && key in configFile.value && (envFile.None? || key !in envFile.value)
          ==> r[key] == configFile.value[key])
  {
    ApplyEnvUnmapped(LoadFile(LoadFile(map[], configFile), envFile), env, EnvMappings, key);
  }

  /** A mapped key takes a set, non-empty variable over both files; an unset
      or empty variable leaves the files' value. */
  lemma ConfigureMappedKey(configFile: Option<Properties>, envFile: Option<Properties>,
                           env: map<string, string>, i: nat)
    requires i < |EnvMappings|
    ensures var r := Configure(configFile, envFile, env);
      var files := LoadFile(LoadFile(map[], configFile), envFile);
      var key := EnvMappings[i].0; var variable := EnvMappings[i].1;
      && (IsSet(env, variable) ==> key in r && r[key] == env[variable])
      && (!IsSet(env, variable) ==> (key in r <==> key in files))
      && (!IsSet(env, variable) && key in files ==> r[key] == files[key])
  {
    EnvMappingsDistinct();
    ApplyEnvMapped(LoadFile(LoadFile(map[], configFile), envFile), env, EnvMappings, i);
  }

  /** Boolean.parseBoolean: true exactly for "true" in any case. */
  predicate ParseBoolean(s: string) {
    EqualsIgnoreCase(s, "true")
  }

  /** parseBoolean accepts exactly the texts that lower-case to "true". */
  lemma ParseBooleanMeansTrue(s: string)
    ensures ParseBoolean(s) <==> ToLower(s) == "true"
  {
    EqualsIgnoreCaseIffSameLower(s, "true");
    ToLowerOfLowerCase("true");
  }

  class ConfigManager {
    var properties: Properties

    /** The private constructor: an empty Properties, then loadConfiguration. */
    constructor (configFile: Option<Properties>, envFile: Option<Properties>, env: map<string, string>)
      ensures properties == Configure(configFile, envFile, env)
    {
      properties := map[];
      new;
      LoadConfiguration(configFile, envFile, env);
    }

    method LoadConfiguration(configFile: Option<Properties>, envFile: Option<Properties>, env: map<string, string>)
      modifies this
      ensures properties == ApplyEnv(LoadFile(LoadFile(old(properties), configFile), envFile), env, EnvMappings)
    {
      LoadPropertiesFile(configFile);
      LoadPropertiesFile(envFile);
      LoadEnvironmentVariables(env);
    }

    /** loadPropertiesFile: a file that cannot be read leaves the properties as they are. */
    method LoadPropertiesFile(file: Option<Properties>)
      modifies this
      ensures properties == LoadFile(old(properties), file)
    {
      if file.Some? {
        properties := properties + file.value;
      }
    }

    /** loadEnvironmentVariables: the loop over the sixteen mappings. */
    method LoadEnvironmentVariables(env: map<string, string>)
      modifies this
      ensures properties == ApplyEnv(old(properties), env, EnvMappings)
    {
      var i := 0;
      while i < |EnvMappings|
        invariant 0 <= i <= |EnvMappings|
        invariant properties == ApplyEnv(old(properties), env, EnvMappings[..i])
      {
        var mapping := EnvMappings[i];
        ApplyEnvStep(old(properties), env, EnvMappings, i);
        if mapping.1 in env && env[mapping.1] != "" {
          properties := properties[mapping.0 := env[mapping.1]];
        }
        i := i + 1;
      }
      assert EnvMappings[..i] == EnvMappings;
    }

    /** getProperty(key): null when absent. */
    function GetProperty(key: string): (r: Option<string>)
      reads this
      ensures r.None? <==> key !in properties
      ensures r.Some? ==> r.value == properties[key]
    {
      if key in properties then Some(properties[key]) else None
    }

    /** getProperty(key, default): the default exactly when the key is absent. */
    function GetPropertyOr(key: string, default: string): (r: string)
      reads this
      ensures key !in properties ==> r == default
      ensures key in properties ==> r == properties[key]
    {
      if key in properties then properties[key] else default
    }

    /** getBooleanProperty: true iff the value is "true" ignoring case;
        an absent key reads "false" and so gives false. */
    function GetBooleanProperty(key: string): (r: bool)
      reads this
      ensures r <==> key in properties && ParseBoolean(properties[key])
    {
      assert !ParseBoolean("false") by { assert UpperChar('f') != UpperChar('t'); }
      ParseBoolean(GetPropertyOr(key, "false"))
    }

    /** getIntProperty(key): 0 when absent; an unparsable value throws. */
    function GetIntProperty(key: string): (r: Result<Int32, ConfigError>)
      reads this
      ensures key !in properties ==> r == Ok(0)
      ensures key in properties && ParseInt(properties[key]).Some? ==> r == Ok(ParseInt(properties[key]).value)
      ensures key in properties && ParseInt(properties[key]).None? ==> r == Err(NumberFormat(properties[key]))
    {
      var text := GetPropertyOr(key, "0");
      assert ParseInt("0") == Some(0) by { assert IsDigit("0"[0]); assert "0"[..0] == ""; }
      match ParseInt(text)
      case Some(v) => Ok(v)
      case None => Err(NumberFormat(text))
    }

    /** getIntProperty(key, default): the default when the key is absent or
        its value is not a Java int; never an error. */
    function GetIntPropertyOr(key: string, default: Int32): (r: Int32)
      reads this
      ensures key !in properties ==> r == default
      ensures key in properties && ParseInt(properties[key]).Some? ==> r == ParseInt(properties[key]).value
      ensures key in properties && ParseInt(properties[key]).None? ==> r == default
    {
      IntRoundTrip(default);
      match ParseInt(GetPropertyOr(key, IntToString(default)))
      case Some(v) => v
      case None => default
    }

    // ------------------------------------------------ convenience getters

    function GetBaseUrl(): (r: Option<string>)
      reads this
      ensures r.Some? <==> "base.url" in properties
      ensures r.Some? ==> r.value == properties["base.url"]
    {
      GetProperty("base.url")
    }

    function GetApiBaseUrl(): (r: Option<string>)
      reads this
      ensures r.Some? <==> "api.base.url" in properties
      ensures r.Some? ==> r.value == properties["api.base.url"]
    {
      GetProperty("api.base.url")
    }

    function GetBrowser(): (r: string)
      reads this
      ensures "browser" !in properties ==> r == "chrome"
      ensures "browser" in properties ==> r == properties["browser"]
    {
      GetPropertyOr("browser", "chrome")
    }

    function IsHeadless(): (r: bool)
      reads this
      ensures r <==> "headless" in properties && ParseBoolean(properties["headless"])
    {
      GetBooleanProperty("headless")
    }

    function IsRemoteExecution(): (r: bool)
      reads this
      ensures r <==> "remote.execution" in properties && ParseBoolean(properties["remote.execution"])
    {
      GetBooleanProperty("remote.execution")
    }

    function GetRemoteUrl(): (r: Option<string>)
      reads this
      ensures r.Some? <==> "remote.url" in properties
      ensures r.Some? ==> r.value == properties["remote.url"]
    {
      GetProperty("remote.url")
    }

    function GetImplicitWait(): (r: Int32)
      reads this
      ensures "browser.implicit.wait" !in properties ==> r == 10
      ensures "browser.implicit.wait" in properties && ParseInt(properties["browser.implicit.wait"]).Some? ==>
        r == ParseInt(properties["browser.implicit.wait"]).value
      ensures "browser.implicit.wait" in properties && ParseInt(properties["browser.implicit.wait"]).None? ==> r == 10
    {
      GetIntPropertyOr("browser.implicit.wait", 10)
    }

    function GetExplicitWait(): (r: Int32)
      reads this
      ensures "browser.explicit.wait" !in properties ==> r == 30
      ensures "browser.explicit.wait" in properties && ParseInt(properties["browser.explicit.wait"]).Some? ==>
        r == ParseInt(properties["browser.explicit.wait"]).value
      ensures "browser.explicit.wait" in properties && ParseInt(properties["browser.explicit.wait"]).None? ==> r == 30
    {
      GetIntPropertyOr("browser.explicit.wait", 30)
    }

    function GetPageLoadTimeout(): (r: Int32)
      reads this
      ensures "browser.page.load.timeout" !in properties ==> r == 60
      ensures "browser.page.load.timeout" in properties && ParseInt(properties["browser.page.load.timeout"]).Some? ==>
        r == ParseInt(properties["browser.page.load.timeout"]).value
      ensures "browser.page.load.timeout" in properties && ParseInt(properties["browser.page.load.timeout"]).None? ==> r == 60
    {
      GetIntPropertyOr("browser.page.load.timeout", 60)
    }

    function ShouldTakeScreenshotOnFailure(): (r: bool)
      reads this
      ensures r <==> "screenshot.on.failure" in properties && ParseBoolean(properties["screenshot.on.failure"])
    {
      GetBooleanProperty("screenshot.on.failure")
    }

    function GetScreenshotPath(): (r: string)
      reads this
      ensures "screenshot.path" !in properties ==> r == "target/screenshots"
      ensures "screenshot.path" in properties ==> r == properties["screenshot.path"]
    {
      GetPropertyOr("screenshot.path", "target/screenshots")
    }

    function GetRetryCount(): (r: Int32)
      reads this
      ensures "retry.count" !in properties ==> r == 2
      ensures "retry.count" in properties && ParseInt(properties["retry.count"]).Some? ==>
        r == ParseInt(properties["retry.count"]).value
      ensures "retry.count" in properties && ParseInt(properties["retry.count"]).None? ==> r == 2
    {
      GetIntPropertyOr("retry.count", 2)
    }

    function IsAttachBrowserMode(): (r: bool)
      reads this
      ensures r <==> "attach.browser" in properties && ParseBoolean(properties["attach.browser"])
    {
      GetBooleanProperty("attach.browser")
    }

    function GetDebugPort(): (r: Int32)
      reads this
      ensures "debug.port" !in properties ==> r == 9222
      ensures "debug.port" in properties && ParseInt(properties["debug.port"]).Some? ==>
        r == ParseInt(properties["debug.port"]).value
      ensures "debug.port" in properties && ParseInt(properties["debug.port"]).None? ==> r == 9222
    {
      GetIntPropertyOr("debug.port", 9222)
    }

    function GetTestUsername(): (r: Option<string>)
      reads this
      ensures r.Some? <==> "test.username" in properties
      ensures r.Some? ==> r.value == properties["test.username"]
    {
      GetProperty("test.username")
    }

    function GetTestPassword(): (r: Option<string>)
      reads this
      ensures r.Some? <==> "test.password" in properties
      ensures r.Some? ==> r.value == properties["test.password"]
    {
      GetProperty("test.password")
    }
  }

  /** The static `instance` field behind getInstance. */
  class ConfigRegistry {
    var instance: ConfigManager?

    constructor ()
      ensures instance == null
    {
      instance := null;
    }

    /** getInstance: the first call builds the manager, later calls return it. */
    method GetInstance(configFile: Option<Properties>, envFile: Option<Properties>, env: map<string, string>)
      returns (c: ConfigManager)
      modifies this
      ensures old(instance) != null ==> c == old(instance)
      ensures old(instance) == null ==> fresh(c) && c.properties == Configure(configFile, envFile, env)
      ensures instance == c
    {
      if instance == null {
        instance := new ConfigManager(configFile, envFile, env);
      }
      c := instance;
    }
  }
}
