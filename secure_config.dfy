/**
 * Configuration with sensitive-key filtering: values read from config.json
 * rank below non-empty environment variables, `set` updates the in-memory
 * map and persists only the keys that are not sensitive, and a few queries
 * report which credentials are present.
 *
 * Configuration values are strings (JSON values of other types are not
 * modelled) and a missing value is `None`; Python truthiness of a value is
 * "present and non-empty". The environment is a map from variable name to
 * value, the JSON file as read by `json.load` is an optional map (`None` when
 * it is missing or unreadable), and a write of config.json may fail.
 */
module SecureConfiguration {
  import opened Wrappers
  import opened Text

  // ---------------------------------------------------------------- sensitive keys

  const SensitiveKeywords: seq<string> :=
    ["token", "key", "password", "secret", "credential", "api_key", "access_token", "private_key"]

  /** `_is_sensitive`: some keyword occurs in the lowered key. */
  predicate IsSensitive(key: string) {
    exists i :: 0 <= i < |SensitiveKeywords| && Contains(Lower(key), SensitiveKeywords[i])
  }

  /**
   * The last three keywords add nothing: each contains "key" or "token", so a
   * key is sensitive exactly when it mentions one of the first five.
   */
  lemma SensitiveByFirstFive(key: string)
    ensures IsSensitive(key) <==> exists i :: 0 <= i < 5 && Contains(Lower(key), SensitiveKeywords[i])
  {
    var k := Lower(key);
    assert OccursAt("api_key", "key", 4);
    assert OccursAt("access_token", "token", 7);
    assert OccursAt("private_key", "key", 8);
    if Contains(k, "api_key") {
      ContainsTransitive(k, "api_key", "key");
      assert Contains(k, SensitiveKeywords[1]);
    }
    if Contains(k, "access_token") {
      ContainsTransitive(k, "access_token", "token");
      assert Contains(k, SensitiveKeywords[0]);
    }
    if Contains(k, "private_key") {
      ContainsTransitive(k, "private_key", "key");
      assert Contains(k, SensitiveKeywords[1]);
    }
  }

  /** A lower-case key in which keyword `k` occurs at `at` is sensitive. */
  lemma SensitiveByKeyword(key: string, k: nat, at: nat)
    requires k < |SensitiveKeywords|
    requires forall i | 0 <= i < |key| :: !('A' <= key[i] <= 'Z')
    requires OccursAt(key, SensitiveKeywords[k], at)
    ensures IsSensitive(key)
  {
    LowerUnchanged(key);
    assert Contains(Lower(key), SensitiveKeywords[k]);
  }

  /** A key in which a keyword occurs is sensitive, whatever else it says: "test_key" is. */
  lemma TestKeyIsSensitive()
    ensures IsSensitive("test_key") && IsSensitive("github_token") && IsSensitive("deepseek_api_key")
  {
    TestKey();
    GithubTokenKey();
    DeepseekKey();
  }

  // One lemma per literal key keeps each proof small.

  lemma TestKey()
    ensures IsSensitive("test_key")
  {
    SensitiveByKeyword("test_key", 1, 5);
  }

  lemma GithubTokenKey()
    ensures IsSensitive("github_token")
  {
    SensitiveByKeyword("github_token", 0, 7);
  }

  lemma DeepseekKey()
    ensures IsSensitive("deepseek_api_key")
  {
    SensitiveByKeyword("deepseek_api_key", 1, 13);
  }

  lemma OpenaiKey()
    ensures IsSensitive("openai_api_key")
  {
    SensitiveByKeyword("openai_api_key", 1, 11);
  }

  lemma BraveKey()
    ensures IsSensitive("brave_api_key")
  {
    SensitiveByKeyword("brave_api_key", 1, 10);
  }

  /** The GitHub user name is the one environment-derived setting that is not sensitive. */
  lemma UsernameNotSensitive()
    ensures !IsSensitive("github_username")
  {
    var k := Lower("github_username");
    assert k == "github_username";
    forall i | 0 <= i < |SensitiveKeywords|
      ensures !Contains(k, SensitiveKeywords[i])
    {
      var kw := SensitiveKeywords[i];
      var c := if i == 2 then 'p' else if i == 3 || i == 4 then 'c' else 'k';
      assert c in kw;
      assert c !in k;
      if Contains(k, kw) {
        ContainsChars(k, kw, c);
      }
    }
  }

  /** The part of the configuration `_save_config` writes: the entries whose key is not sensitive. */
  function SafeConfig(cache: map<string, string>): (saved: map<string, string>)
    ensures forall k :: k in saved <==> k in cache && !IsSensitive(k)
    ensures forall k | k in saved :: saved[k] == cache[k]
  {
    map k | k in cache && !IsSensitive(k) :: cache[k]
  }

  predicate NoSensitiveKey(m: map<string, string>) {
    forall k | k in m :: !IsSensitive(k)
  }

  // ---------------------------------------------------------------- loading

  /** The five settings read from the environment, as (configuration key, variable name). */
  const EnvPairs: seq<(string, string)> := [
    ("github_username", "GITHUB_USERNAME"),
    ("github_token", "GITHUB_TOKEN"),
    ("deepseek_api_key", "DEEPSEEK_API_KEY"),
    ("openai_api_key", "OPENAI_API_KEY"),
    ("brave_api_key", "BRAVE_API_KEY")]

  /** `os.getenv(name)` read for truthiness: "" when unset. */
  function EnvValue(environment: map<string, string>, name: string): string {
    if name in environment then environment[name] else ""
  }

  /** The cache after the environment loop has run over `pairs`, in order. */
  function Override(cache: map<string, string>, pairs: seq<(string, string)>, environment: map<string, string>)
    : map<string, string>
  {
    if pairs == [] then cache
    else
      var before := Override(cache, pairs[..|pairs| - 1], environment);
      var (key, name) := pairs[|pairs| - 1];
      if EnvValue(environment, name) != "" then before[key := EnvValue(environment, name)] else before
  }

  /** `_load_config`: the file's entries, then every non-empty environment value on top. */
  function Loaded(fileConfig: Option<map<string, string>>, environment: map<string, string>): map<string, string> {
    Override(if fileConfig.Some? then fileConfig.value else map[], EnvPairs, environment)
  }

  predicate SetFromEnvironment(pairs: seq<(string, string)>, environment: map<string, string>, key: string) {
    exists i :: 0 <= i < |pairs| && pairs[i].0 == key && EnvValue(environment, pairs[i].1) != ""
  }

  /**
   * With distinct keys, the override loop sets each key whose variable is
   * non-empty to that variable's value and leaves every other entry as it was.
   */
  lemma {:induction false} OverrideExactly(cache: map<string, string>, pairs: seq<(string, string)>,
                                           environment: map<string, string>)
    requires forall i, j :: 0 <= i < j < |pairs| ==> pairs[i].0 != pairs[j].0
    ensures var r := Override(cache, pairs, environment);
      (forall i | 0 <= i < |pairs| && EnvValue(environment, pairs[i].1) != "" ::
         pairs[i].0 in r && r[pairs[i].0] == EnvValue(environment, pairs[i].1))
      && (forall k | !SetFromEnvironment(pairs, environment, k) :: (k in r <==> k in cache) && (k in r ==> r[k] == cache[k]))
  {
    if pairs != [] {
      var init := pairs[..|pairs| - 1];
      OverrideExactly(cache, init, environment);
      assert forall i | 0 <= i < |init| :: init[i] == pairs[i];
    }
  }

  /**
   * Load order: a non-empty environment variable wins over the file; without
   * one, the file's entry (or its absence) stays; keys outside the five come
   * from the file alone.
   */
  lemma LoadOrder(fileConfig: Option<map<string, string>>, environment: map<string, string>)
    ensures var fileMap := if fileConfig.Some? then fileConfig.value else map[];
      var r := Loaded(fileConfig, environment);
      (forall i | 0 <= i < |EnvPairs| && EnvValue(environment, EnvPairs[i].1) != "" ::
         EnvPairs[i].0 in r && r[EnvPairs[i].0] == EnvValue(environment, EnvPairs[i].1))
      && (forall k | !SetFromEnvironment(EnvPairs, environment, k) ::
            (k in r <==> k in fileMap) && (k in r ==> r[k] == fileMap[k]))
  {
    OverrideExactly(if fileConfig.Some? then fileConfig.value else map[], EnvPairs, environment);
  }

  /** The loop of `_load_config`. */
  method LoadConfig(fileConfig: Option<map<string, string>>, environment: map<string, string>)
    returns (cache: map<string, string>)
    ensures cache == Loaded(fileConfig, environment)
  {
    cache := if fileConfig.Some? then fileConfig.value else map[];
    var i := 0;
    while i < |EnvPairs|
      invariant 0 <= i <= |EnvPairs|
      invariant cache == Override(if fileConfig.Some? then fileConfig.value else map[], EnvPairs[..i], environment)
    {
      assert EnvPairs[..i + 1][..i] == EnvPairs[..i];
      var (key, name) := EnvPairs[i];
      var value := EnvValue(environment, name);
      if value != "" {
        cache := cache[key := value];
      }
      i := i + 1;
    }
    assert EnvPairs[..i] == EnvPairs;
  }

  // ---------------------------------------------------------------- the configuration object

  class SecureConfig {
    /** `_config_cache` */
    var cache: map<string, string>
    /** What this object last wrote to config.json, if anything. */
    var savedConfig: Option<map<string, string>>

    /** Whatever this object wrote to config.json holds no sensitive key. */
    ghost predicate Valid()
      reads this
    {
      savedConfig.Some? ==> NoSensitiveKey(savedConfig.value)
    }

    constructor (fileConfig: Option<map<string, string>>, environment: map<string, string>)
      ensures cache == Loaded(fileConfig, environment) && savedConfig == None
      ensures Valid()
    {
      var loaded := LoadConfig(fileConfig, environment);
      cache := loaded;
      savedConfig := None;
    }

    /** `get(key, default)` */
    function Get(key: string, default: Option<string>): (r: Option<string>)
      reads this
      ensures key in cache ==> r == Some(cache[key])
      ensures key !in cache ==> r == default
    {
      if key in cache then Some(cache[key]) else default
    }

    /** `_save_config`: write the non-sensitive entries (a failed write is only logged). */
    method SaveConfig(writeOk: bool)
      modifies this`savedConfig
      ensures savedConfig == if writeOk then Some(SafeConfig(cache)) else old(savedConfig)
      ensures old(Valid()) ==> Valid()
    {
      if writeOk {
        savedConfig := Some(SafeConfig(cache));
      }
    }

    /** `set(key, value, persist)`: the value is readable at once; with `persist` the file is rewritten. */
    method Set(key: string, value: string, persist: bool, writeOk: bool)
      modifies this
      ensures cache == old(cache)[key := value]
      ensures forall default :: Get(key, default) == Some(value)
      ensures savedConfig == if persist && writeOk then Some(SafeConfig(cache)) else old(savedConfig)
      ensures old(Valid()) ==> Valid()
    {
      cache := cache[key := value];
      if persist {
        SaveConfig(writeOk);
      }
    }

    /** Truthiness of a setting. */
    predicate Configured(key: string)
      reads this
    {
      key in cache && cache[key] != ""
    }

    /** `validate_configuration`: exactly the three keys, each true iff its value is truthy. */
    function ValidateConfiguration(): (r: map<string, bool>)
      reads this
      ensures r.Keys == {"github_username", "github_token", "deepseek_api_key"}
      ensures forall k | k in r :: r[k] == Configured(k)
    {
      map["github_username" := Configured("github_username"),
          "github_token" := Configured("github_token"),
          "deepseek_api_key" := Configured("deepseek_api_key")]
    }
  }

  /**
   * Secrets set through the environment never reach config.json: after a save
   * only `github_username` of the five settings can be in the file.
   */
  lemma SavedEnvironmentKeys(cache: map<string, string>)
    ensures forall i | 1 <= i < |EnvPairs| :: EnvPairs[i].0 !in SafeConfig(cache)
  {
    forall i | 1 <= i < |EnvPairs|
      ensures EnvPairs[i].0 !in SafeConfig(cache)
    {
      if i == 1 {
        GithubTokenKey();
      } else if i == 2 {
        DeepseekKey();
      } else if i == 3 {
        OpenaiKey();
      } else {
        BraveKey();
      }
    }
  }

  lemma ServiceKeysSensitive()
    ensures IsSensitive("openai_api_key") && IsSensitive("brave_api_key")
  {
    OpenaiKey();
    BraveKey();
  }

  // ---------------------------------------------------------------- security report

  datatype SecurityReport = SecurityReport(issues: seq<string>, warnings: seq<string>, secure: bool)

  /** The unset ones of GITHUB_USERNAME and GITHUB_TOKEN, in that order. */
  function MissingEnvironment(environment: map<string, string>): (missing: seq<string>)
    ensures forall name :: name in missing <==> (name == "GITHUB_USERNAME" || name == "GITHUB_TOKEN") && EnvValue(environment, name) == ""
    ensures |missing| <= 2
  {
    (if EnvValue(environment, "GITHUB_USERNAME") == "" then ["GITHUB_USERNAME"] else [])
    + (if EnvValue(environment, "GITHUB_TOKEN") == "" then ["GITHUB_TOKEN"] else [])
  }

  /** Whether the file text mentions "token", "password" or "secret", in any case. */
  predicate MentionsSecret(text: string) {
    Contains(Lower(text), "token") || Contains(Lower(text), "password") || Contains(Lower(text), "secret")
  }

  /**
   * `check_security`: `fileText` is the file's content when it exists and
   * could be read, `fileMode` the last three octal digits of its mode.
   */
  function CheckSecurity(fileExists: bool, fileText: Option<string>, fileMode: string,
                         environment: map<string, string>): (report: SecurityReport)
    ensures report.secure <==> report.issues == []
    ensures report.issues != [] <==> fileExists && fileText.Some? && MentionsSecret(fileText.value)
    ensures |report.warnings| <= 2
    ensures (fileExists && fileMode != "600") ==> |report.warnings| >= 1 && report.warnings[0] == "Config file permissions are " + fileMode + ", should be 600"
    ensures MissingEnvironment(environment) == [] <==> |report.warnings| == (if fileExists && fileMode != "600" then 1 else 0)
  {
    var issues := if fileExists && fileText.Some? && MentionsSecret(fileText.value)
                  then ["Potential sensitive data found in config file"] else [];
    var permissions := if fileExists && fileMode != "600"
                       then ["Config file permissions are " + fileMode + ", should be 600"] else [];
    var missing := MissingEnvironment(environment);
    var environmentWarning := if missing != [] then ["Missing environment variables: " + Join(missing, ", ")] else [];
    SecurityReport(issues, permissions + environmentWarning, |issues| == 0)
  }

  // ---------------------------------------------------------------- module-level helpers

  /** `get_github_credentials`: both values, or nothing unless both are set. */
  function GetGitHubCredentials(config: SecureConfig): (r: Option<(string, string)>)
    reads config
    ensures r.Some? <==> config.Configured("github_username") && config.Configured("github_token")
    ensures r.Some? ==> r.value == (config.cache["github_username"], config.cache["github_token"])
  {
    if config.Configured("github_username") && config.Configured("github_token")
    then Some((config.cache["github_username"], config.cache["github_token"]))
    else None
  }

  const KeyMapping: map<string, string> :=
    map["deepseek" := "deepseek_api_key", "openai" := "openai_api_key", "brave" := "brave_api_key"]

  /** `get_api_key`: the setting behind a known service name, case-insensitively; `None` otherwise. */
  function GetApiKey(config: SecureConfig, service: string): (r: Option<string>)
    reads config
    ensures Lower(service) !in KeyMapping ==> r == None
    ensures Lower(service) in KeyMapping ==> r == config.Get(KeyMapping[Lower(service)], None)
  {
    var name := Lower(service);
    if name in KeyMapping then config.Get(KeyMapping[name], None) else None
  }

  /** The service name is matched without regard to case. */
  lemma ApiKeyIgnoresCase(config: SecureConfig)
    ensures GetApiKey(config, "DeepSeek") == config.Get("deepseek_api_key", None)
    ensures GetApiKey(config, "OPENAI") == config.Get("openai_api_key", None)
    ensures GetApiKey(config, "github") == None
  {
    assert Lower("DeepSeek") == "deepseek";
    assert Lower("OPENAI") == "openai";
    assert Lower("github") == "github";
  }
}
