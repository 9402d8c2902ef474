/** `SettingsManager`: the process-wide settings object. The first construction merges the
    environment and loads the configuration document; later constructions return the same object. */
module Settings {

  import opened Wrappers
  import opened ConfigValues
  import opened Environment
  import opened Substitution
  import opened DottedPath

  /** What reading `config.yaml` next to the settings module yields. Malformed stands for any file
      that exists but cannot be opened, read, decoded or parsed as YAML. */
  datatype ConfigFile = Missing | Malformed | Parsed(doc: Value)

  /** FileNotFoundError for a missing file; ParseError for whatever error opening, reading,
      decoding or parsing an existing file raises. */
  datatype LoadError = FileNotFound | ParseError

  class SettingsManager {
    /** The stored document; Null stands for Python's None (nothing loaded, or an empty document). */
    var config: Value
    /** The merged environment, kept for substitution. Python's class default is None; the empty map
        stands for it here, which cannot be told apart from an empty merge, but no read happens
        before `SettingsManagerClass.New` assigns the merge. */
    var combinedEnv: Env

    /** The bare object `super().__new__` creates: both attributes still at their class defaults. */
    constructor ()
      ensures config == Null && combinedEnv == map[]
    {
      config := Null;
      combinedEnv := map[];
    }

    /** `_load_config`: a missing or malformed file raises and leaves the stored document as it was;
        otherwise the parsed document is stored as parsed. The substitution is computed but its
        result is thrown away, so placeholders stay in the stored document. */
    method LoadConfig(file: ConfigFile) returns (r: Outcome<LoadError>)
      modifies this`config
      ensures file.Missing? ==> r == Fail(FileNotFound) && config == old(config)
      ensures file.Malformed? ==> r == Fail(ParseError) && config == old(config)
      ensures file.Parsed? ==> r == Pass && config == file.doc
    {
      match file
      case Missing =>
        return Fail(FileNotFound);
      case Malformed =>
        return Fail(ParseError);
      case Parsed(doc) =>
        config := doc;
        var discarded := Resolve(config, combinedEnv);
        return Pass;
    }

    /** `get(key, default)`: walks the stored document key by key along the dot-split key and returns
        the node found, or the default when nothing is stored or the walk fails. */
    method Get(key: string, default: Value) returns (r: Value)
      ensures r == Fetch(config, key, default)
    {
      if config == Null {
        return default;
      }
      var keys := Split(key);
      var value := config;
      var i := 0;
      while i < |keys|
        invariant 0 <= i <= |keys|
        invariant Lookup(config, keys[..i]) == Some(value)
      {
        if value.Map? && keys[i] in value.entries {
          LookupStep(config, keys, i, value);
          value := value.entries[keys[i]];
          i := i + 1;
        } else {
          LookupStuck(config, keys, i, value);
          return default;
        }
      }
      assert keys[..i] == keys;
      return value;
    }

    /** `get_server_config`: the `server` section, or an empty mapping when the document has none. */
    method GetServerConfig() returns (r: Value)
      ensures r == Section(config, "server", EmptyMap)
    {
      r := Get("server", EmptyMap);
      FetchSection(config, "server", EmptyMap);
    }

    /** `get_app_config`: the `app` section, or an empty mapping. */
    method GetAppConfig() returns (r: Value)
      ensures r == Section(config, "app", EmptyMap)
    {
      r := Get("app", EmptyMap);
      FetchSection(config, "app", EmptyMap);
    }

    /** `get_logging_config`: the `logging` section, or an empty mapping. */
    method GetLoggingConfig() returns (r: Value)
      ensures r == Section(config, "logging", EmptyMap)
    {
      r := Get("logging", EmptyMap);
      FetchSection(config, "logging", EmptyMap);
    }
  }

  /** The class object itself, holding the class attribute `_instance`. */
  class SettingsManagerClass {
    var instance: SettingsManager?

    constructor ()
      ensures instance == null
    {
      instance := null;
    }

    /** `SettingsManager()`. The first call creates the instance, stores it in `_instance` before
        anything can fail, merges the environment (dotenv entries win) and loads the document; a load
        error is raised, but the half-initialised instance stays stored. Every later call returns the
        stored instance and neither merges nor loads again. */
    method New(process: map<string, string>, dotenv: DotenvMap, file: ConfigFile)
      returns (r: Result<SettingsManager, LoadError>)
      modifies this
      ensures old(instance) != null ==> instance == old(instance) && r == Ok(instance) && unchanged(instance)
      ensures old(instance) == null ==> instance != null && fresh(instance)
      ensures old(instance) == null ==> instance.combinedEnv == MergeEnv(process, dotenv)
      ensures old(instance) == null ==>
                match file
                case Parsed(doc) => r == Ok(instance) && instance.config == doc
                case Missing => r == Err(FileNotFound) && instance.config == Null
                case Malformed => r == Err(ParseError) && instance.config == Null
    {
      if instance == null {
        var created := new SettingsManager();
        instance := created;
        created.combinedEnv := MergeEnv(process, dotenv);
        var loaded := created.LoadConfig(file);
        if loaded.Fail? {
          return Err(loaded.error);
        }
      }
      return Ok(instance);
    }
  }

  /** Two constructions in a fresh process: the second returns the first's instance whatever
      environment and file it would have read, and keeps the first merged environment. After a
      successful first load it is the same object with the first document; after a failed first
      load it is the stored instance with nothing loaded. */
  method ConstructTwice(process: map<string, string>, dotenv: DotenvMap, first: ConfigFile,
                        laterProcess: map<string, string>, laterDotenv: DotenvMap, later: ConfigFile)
    returns (a: Result<SettingsManager, LoadError>, b: Result<SettingsManager, LoadError>)
    ensures b.Ok?
    ensures first.Parsed? ==> a == b && b.value.config == first.doc
    ensures !first.Parsed? ==> a.Err? && b.value.config == Null
    ensures b.value.combinedEnv == MergeEnv(process, dotenv)
  {
    var cls := new SettingsManagerClass();
    a := cls.New(process, dotenv, first);
    b := cls.New(laterProcess, laterDotenv, later);
  }

  /** A two-level document `{a: {b: leaf}}` answers `get("a.b")` with the leaf itself: the
      stored document is returned as stored. */
  lemma FetchStoredLeaf(a: string, b: string, leaf: Value, default: Value)
    requires '.' !in a && '.' !in b
    ensures Fetch(Map(map[a := Map(map[b := leaf])]), a + "." + b, default) == leaf
  {
    var doc := Map(map[a := Map(map[b := leaf])]);
    FetchNested(doc, a, b, default);
    SplitNoDot(a);
    assert Lookup(doc, [a]) == Lookup(doc.entries[a], []);
    FetchSection(doc.entries[a], b, default);
  }

  /** So with `server.port` set to `${PORT:-8000}`, `get("server.port")` returns that text whatever
      the environment holds, while the discarded substitution would have produced the value of PORT
      when set (even when empty), else 8000. */
  lemma PortPlaceholderKept(env: Env)
    ensures var leaf := "${PORT:-8000}";
            && Fetch(Map(map["server" := Map(map["port" := Str(leaf)])]), "server.port", Null) == Str(leaf)
            && ResolveString(leaf, env) == match EnvGet(env, "PORT") case Some(v) => v case None => "8000"
  {
    var name, default := "PORT", "8000";
    var leaf := "${" + name + ":-" + default + "}";
    assert leaf == "${PORT:-8000}";
    FetchStoredLeaf("server", "port", Str(leaf), Null);
    assert "server" + "." + "port" == "server.port";
    ResolveWithDefault(name, default, env);
  }
}
