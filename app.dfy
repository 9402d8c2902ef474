/** Application start-up: which services `_register_services` registers, the start-up and shutdown
    steps of `lifespan`, and the defaults read for the server run and for CORS. */
module App {

  import opened Wrappers
  import opened ConfigValues
  import opened Environment
  import opened DottedPath
  import opened Settings

  const TtsServiceName: string := "minimax_tts"
  const ApiKeyVar: string := "MINIMAX_API_KEY"
  const GroupIdVar: string := "MINIMAX_GROUP_ID"
  const ServicesKey: string := "server_manager.services"

  /** The exceptions that abort start-up. */
  datatype StartupError =
    | MissingCredentials    // RuntimeError raised when a credential is absent or empty
    | TypeError             // the services configuration cannot be searched or indexed
    | AttributeError        // a section that should be a mapping has no `get`
    | InitializationFailed  // RuntimeError raised when the manager's initialize returns false

  /** A service handed to the manager: its name and its configuration. */
  datatype Registration = Registration(name: string, config: map<string, string>)

  datatype Decision = Skip | Reject(error: StartupError) | Register(service: Registration)

  /** Python truthiness of an `os.getenv` result: set and non-empty. */
  predicate Filled(v: Option<string>)
  {
    v.Some? && |v.value| > 0
  }

  /** `needle in hay` for two strings: a substring test. */
  predicate ContainsSubstring(hay: string, needle: string)
    decreases |hay|
  {
    |needle| <= |hay| && (hay[..|needle|] == needle || ContainsSubstring(hay[1..], needle))
  }

  /** The slice's `enabled` entry is truthy; a slice without one counts as enabled. */
  predicate Enabled(slice: map<string, Value>)
  {
    Truthy(if "enabled" in slice then slice["enabled"] else Bool(true))
  }

  /** The credentials check and the configuration built from the environment. */
  function CredentialDecision(process: map<string, string>): (d: Decision)
    ensures d.Register? <==> Filled(Getenv(process, ApiKeyVar)) && Filled(Getenv(process, GroupIdVar))
    ensures !d.Register? ==> d == Reject(MissingCredentials)
    ensures d.Register? ==>
              d.service == Registration(TtsServiceName,
                                        map["api_key" := process[ApiKeyVar], "group_id" := process[GroupIdVar]])
  {
    var apiKey, groupId := Getenv(process, ApiKeyVar), Getenv(process, GroupIdVar);
    if !Filled(apiKey) || !Filled(groupId) then Reject(MissingCredentials)
    else Register(Registration(TtsServiceName, map["api_key" := apiKey.value, "group_id" := groupId.value]))
  }

  /** The decision `_register_services` takes from the services configuration and the process
      environment. Nothing is registered unless the mapping holds `minimax_tts`; a falsy `enabled`
      skips the service before the credentials are read; an enabled service needs both credentials
      non-empty and is registered with exactly those two entries, whatever else its slice holds.
      A services value that is not a mapping cannot be searched or indexed. */
  function Decide(services: Value, process: map<string, string>): (d: Decision)
    ensures services.Map? && TtsServiceName !in services.entries ==> d == Skip
    ensures services.Map? && TtsServiceName in services.entries && services.entries[TtsServiceName].Map?
            ==> if Enabled(services.entries[TtsServiceName].entries)
                then d == CredentialDecision(process)
                else d == Skip
    ensures services.Map? && TtsServiceName in services.entries && !services.entries[TtsServiceName].Map?
            ==> d == Reject(AttributeError)
    ensures d.Register? ==> services.Map? && d.service.name == TtsServiceName
                            && d.service.config.Keys == {"api_key", "group_id"}
    ensures services.List? ==> (d == Reject(TypeError) <==> Str(TtsServiceName) in services.items)
    ensures services.Str? ==> (d == Reject(TypeError) <==> ContainsSubstring(services.s, TtsServiceName))
    ensures services.List? || services.Str? ==> d.Skip? || d == Reject(TypeError)
    ensures services.Int? || services.Real? || services.Bool? || services.Null? ==> d == Reject(TypeError)
  {
    match services
    case Map(m) =>
      if TtsServiceName !in m then Skip
      else (
        match m[TtsServiceName]
        case Map(slice) => if Enabled(slice) then CredentialDecision(process) else Skip
        case _ => Reject(AttributeError))
    case List(items) =>
      if Str(TtsServiceName) in items then Reject(TypeError) else Skip
    case Str(s) =>
      if ContainsSubstring(s, TtsServiceName) then Reject(TypeError) else Skip
    case _ => Reject(TypeError)
  }

  /** A disabled service never looks at the environment. */
  lemma DisabledIgnoresCredentials(slice: map<string, Value>, p1: map<string, string>, p2: map<string, string>)
    requires !Enabled(slice)
    ensures Decide(Map(map[TtsServiceName := Map(slice)]), p1) == Skip
    ensures Decide(Map(map[TtsServiceName := Map(slice)]), p2) == Skip
  {
  }

  /** Entries of the slice other than `enabled` have no effect on the decision. */
  lemma ExtraSliceKeysIgnored(slice: map<string, Value>, key: string, v: Value, process: map<string, string>)
    requires key != "enabled"
    ensures Decide(Map(map[TtsServiceName := Map(slice[key := v])]), process)
         == Decide(Map(map[TtsServiceName := Map(slice)]), process)
  {
    assert Enabled(slice[key := v]) == Enabled(slice);
  }

  /** Truthiness is Python's: the string "false" enables the service, the boolean false does not. */
  lemma EnabledIsTruthiness()
    ensures Enabled(map["enabled" := Str("false")])
    ensures !Enabled(map["enabled" := Bool(false)])
    ensures !Enabled(map["enabled" := Null])
    ensures Enabled(map[])
  {
  }

  /** The manager, whose source is not part of this model: the services registered so far, in
      registration order, and what initialize and shutdown did. */
  class ServerManager {
    var services: seq<Registration>
    var initialized: bool
    var shutDown: bool

    constructor ()
      ensures services == [] && !initialized && !shutDown
    {
      services := [];
      initialized := false;
      shutDown := false;
    }

    method RegisterService(s: Registration)
      modifies this
      ensures services == old(services) + [s]
      ensures initialized == old(initialized) && shutDown == old(shutDown)
    {
      services := services + [s];
    }

    /** The result of initialization is decided by the services themselves and is an input here. */
    method Initialize(succeeds: bool) returns (ok: bool)
      modifies this
      ensures ok == succeeds && initialized == succeeds
      ensures services == old(services) && shutDown == old(shutDown)
    {
      initialized := succeeds;
      ok := succeeds;
    }

    method Shutdown()
      modifies this
      ensures shutDown
      ensures services == old(services) && initialized == old(initialized)
    {
      shutDown := true;
    }
  }

  /** `_register_services(manager)`: reads `server_manager.services` (an empty mapping by default),
      then registers the service or raises as Decide says. */
  method RegisterServices(manager: ServerManager, settings: SettingsManager, process: map<string, string>)
    returns (r: Outcome<StartupError>)
    modifies manager
    ensures manager.initialized == old(manager.initialized) && manager.shutDown == old(manager.shutDown)
    ensures match Decide(Fetch(settings.config, ServicesKey, EmptyMap), process)
            case Skip => r == Pass && manager.services == old(manager.services)
            case Reject(e) => r == Fail(e) && manager.services == old(manager.services)
            case Register(s) => r == Pass && manager.services == old(manager.services) + [s]
  {
    var servicesConfig := settings.Get(ServicesKey, EmptyMap);
    var d := Decide(servicesConfig, process);
    match d
    case Skip =>
      r := Pass;
    case Reject(e) =>
      r := Fail(e);
    case Register(s) =>
      manager.RegisterService(s);
      r := Pass;
  }

  /** The module globals that `lifespan` assigns. */
  class Application {
    var serverManager: ServerManager?

    constructor ()
      ensures serverManager == null
    {
      serverManager := null;
    }

    /** Start-up: a fresh manager is stored in the global before registration, so it stays there
        even when registration raises; then registration, then initialize, whose false result is
        raised as a RuntimeError. */
    method Startup(settings: SettingsManager, process: map<string, string>, initializeSucceeds: bool)
      returns (r: Outcome<StartupError>)
      modifies this
      ensures serverManager != null && fresh(serverManager) && !serverManager.shutDown
      ensures match Decide(Fetch(settings.config, ServicesKey, EmptyMap), process)
              case Reject(e) =>
                r == Fail(e) && serverManager.services == [] && !serverManager.initialized
              case Skip =>
                serverManager.services == [] && serverManager.initialized == initializeSucceeds
                && r == (if initializeSucceeds then Pass else Fail(InitializationFailed))
              case Register(s) =>
                serverManager.services == [s] && serverManager.initialized == initializeSucceeds
                && r == (if initializeSucceeds then Pass else Fail(InitializationFailed))
    {
      var manager := new ServerManager();
      serverManager := manager;
      r := RegisterServices(manager, settings, process);
      if r.Fail? {
        return;
      }
      var ok := manager.Initialize(initializeSucceeds);
      if !ok {
        r := Fail(InitializationFailed);
      }
    }

    /** Shutdown: the manager is shut down only if one exists; an exception from it would be logged
        and swallowed, so shutdown itself never fails. */
    method Shutdown()
      modifies serverManager
      ensures serverManager != null ==> serverManager.shutDown
      ensures serverManager != null ==>
                serverManager.services == old(serverManager.services)
                && serverManager.initialized == old(serverManager.initialized)
    {
      if serverManager != null {
        serverManager.Shutdown();
      }
    }

    /** The whole lifespan: the shutdown steps run only after a start-up that did not raise. */
    method Lifespan(settings: SettingsManager, process: map<string, string>, initializeSucceeds: bool)
      returns (r: Outcome<StartupError>)
      modifies this
      ensures serverManager != null && fresh(serverManager)
      ensures r.Pass? <==> serverManager.shutDown
      ensures r.Pass? <==> initializeSucceeds && !Decide(Fetch(settings.config, ServicesKey, EmptyMap), process).Reject?
    {
      r := Startup(settings, process, initializeSucceeds);
      if r.Pass? {
        Shutdown();
      }
    }
  }

  /** The arguments handed to the server run: each is the `server` section's entry or its default. */
  datatype RunOptions = RunOptions(host: Value, port: Value, reload: Value, workers: Value)

  const DefaultRunOptions: RunOptions := RunOptions(Str("0.0.0.0"), Int(8000), Bool(false), Int(1))

  /** The run arguments: each entry of the `server` section when present, else its default; a
      `server` section that is present but not a mapping has no `get`. */
  method ServerRunOptions(settings: SettingsManager) returns (r: Result<RunOptions, StartupError>)
    ensures !(settings.config.Map? && "server" in settings.config.entries) ==> r == Ok(DefaultRunOptions)
    ensures var section := Section(settings.config, "server", EmptyMap);
            match section
            case Map(m) =>
              && r.Ok?
              && r.value.host == (if "host" in m then m["host"] else Str("0.0.0.0"))
              && r.value.port == (if "port" in m then m["port"] else Int(8000))
              && r.value.reload == (if "reload" in m then m["reload"] else Bool(false))
              && r.value.workers == (if "workers" in m then m["workers"] else Int(1))
            case _ => r == Err(AttributeError)
  {
    var section := settings.GetServerConfig();
    if !section.Map? {
      return Err(AttributeError);
    }
    var host := DictGet(section, "host", Str("0.0.0.0")).value;
    var port := DictGet(section, "port", Int(8000)).value;
    var reload := DictGet(section, "reload", Bool(false)).value;
    var workers := DictGet(section, "workers", Int(1)).value;
    return Ok(RunOptions(host, port, reload, workers));
  }

  /** The CORS middleware arguments. */
  datatype CorsOptions = CorsOptions(allowOrigins: Value, allowCredentials: Value, allowMethods: Value, allowHeaders: Value)

  const Wildcard: Value := List([Str("*")])

  /** The arguments read from a `cors` section: each entry when the section is a mapping holding it,
      and its default otherwise. */
  function CorsFromSection(section: Value): CorsOptions
  {
    CorsOptions(
      Section(section, "allow_origins", Wildcard),
      Section(section, "allow_credentials", Bool(true)),
      Section(section, "allow_methods", Wildcard),
      Section(section, "allow_headers", Wildcard))
  }

  /** One `cors.<name>` read: the entry of the `cors` section, or the default. */
  method CorsEntry(settings: SettingsManager, name: string, default: Value) returns (r: Value)
    requires '.' !in name
    ensures r == Section(Section(settings.config, "cors", Null), name, default)
  {
    r := settings.Get("cors." + name, default);
    assert "cors." + name == "cors" + "." + name;
    FetchNested(settings.config, "cors", name, default);
    SplitNoDot("cors");
    var config := settings.config;
    if config.Map? && "cors" in config.entries {
      var keys := ["cors"];
      assert keys[0] == "cors" && keys[1..] == [];
      assert Lookup(config, keys) == Some(config.entries["cors"]);
      FetchSection(config.entries["cors"], name, default);
    } else {
      assert Lookup(config, ["cors"]) == None;
    }
  }

  /** The middleware is added only when `cors` is truthy; its arguments are then the section's
      entries, each defaulting to `["*"]` and credentials to true, also when the truthy `cors` value
      is not a mapping. */
  method Cors(settings: SettingsManager) returns (r: Option<CorsOptions>)
    ensures r.None? <==> !Truthy(Section(settings.config, "cors", Null))
    ensures r.Some? ==> r.value == CorsFromSection(Section(settings.config, "cors", Null))
  {
    var cors := settings.Get("cors", Null);
    FetchSection(settings.config, "cors", Null);
    if !Truthy(cors) {
      return None;
    }
    var origins := CorsEntry(settings, "allow_origins", Wildcard);
    var credentials := CorsEntry(settings, "allow_credentials", Bool(true));
    var methods := CorsEntry(settings, "allow_methods", Wildcard);
    var headers := CorsEntry(settings, "allow_headers", Wildcard);
    return Some(CorsOptions(origins, credentials, methods, headers));
  }
}
