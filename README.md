# Configuration resolution and service registration of the TTS REST façade

This project models, in Dafny, the two pieces of logic inside a small FastAPI service that fronts a
text-to-speech vendor:

- **`SettingsManager`** (`src/utils/config/settings.py`): the process-wide settings object. Its first
  construction merges the process environment with a dotenv map and loads `config.yaml`; later
  constructions return the same object. `_replace_env_vars` walks the YAML tree and replaces
  whole-string placeholders `${NAME}` / `${NAME:-DEFAULT}`; `get` addresses the tree by a dotted key
  and falls back to the caller's default.
- **Start-up in `app.py`**: the decision `_register_services` takes from the
  `server_manager.services` configuration and the `MINIMAX_API_KEY` / `MINIMAX_GROUP_ID` process
  variables, the start-up and shutdown steps of `lifespan`, and the defaults read for the server run
  and for CORS.

Files, one module each:

| file | module | models |
|---|---|---|
| wrappers.dfy | Wrappers | Option, Result, Outcome |
| values.dfy | ConfigValues | the YAML tree `Value`, Python truthiness, `dict.get` |
| env.dfy | Environment | the environment merge and lookups |
| placeholders.dfy | Placeholders | a matcher for the pattern `^\$\{(.+?)(?::-([^}]+))?\}$` |
| substitution.dfy | Substitution | `_replace_env_vars` |
| paths.dfy | DottedPath | `key.split('.')` and the key-by-key walk of `get` |
| settings.dfy | Settings | the `SettingsManager` class, its class object and `_instance` |
| app.dfy | App | `_register_services`, the manager as an abstract object, `lifespan`, run and CORS defaults |

Behaviour the model reproduces from the code:

- The stored configuration is the raw parsed YAML. `_load_config` computes the substituted tree and
  throws it away (settings.py:49), so `get` returns placeholders verbatim
  (`Settings.PortPlaceholderKept`). One might expect `server.port: ${PORT:-8000}` to read back as
  `8000` or the value of `PORT`; the code stores and returns the raw text.
- A placeholder's environment value wins even when it is the empty string; an empty value does not
  fall back to the default.
- Merge order: dotenv entries override the process environment, and a dotenv key without a value
  hides the process value (settings.py:37, 60-61).
- Missing credentials raise during registration (app.py:65-68), before `initialize` is called; no service's
  own initialization is involved in this check.
- The pattern is matched with Python's rules: `.` in the name excludes a line feed, the default may
  hold one, and `$` also matches before one final line feed, so `"${A}\n"` is a placeholder. NAME is
  the shortest name with which the whole string matches: `${A:-}` names the variable `A:-`.
- `__new__` stores `_instance` before `_load_config` runs, so after a failed load the stored
  instance, with nothing loaded, is what every later construction returns.
- `_register_services` on a services value that is not a mapping: a list or string holding
  `minimax_tts` is subscripted with a string (TypeError), a scalar or None cannot be searched
  (TypeError); a `minimax_tts` slice that is not a mapping has no `get` (AttributeError).

The process environment, the dotenv map, the parsed document and the result of the manager's
`initialize` are inputs of the model.

## Model

| member | source | states |
|---|---|---|
| Environment.MergeEnv | src/utils/config/settings.py:37 | the merged environment has the keys of both maps; a dotenv entry wins on a clash, other names keep their process value |
| Environment.MergedLookup | src/utils/config/settings.py:60-61 | looking up the merged environment reads the dotenv entry first, a dotenv key without a value reads as unset, otherwise the process value |
| Placeholders.ParsePlaceholder | src/utils/config/settings.py:57-59 | a match's groups render back to the whole string (allowing one final line feed); NAME is the shortest name any match has; no match means no NAME/DEFAULT split of the string fits the pattern |
| Placeholders.SplitFrom | src/utils/config/settings.py:57 | the lazy search for NAME finds a split of the body and none shorter exists from the starting length on |
| Placeholders.SplitShape | src/utils/config/settings.py:57 | for each NAME length a body splits in at most one way, with DEFAULT the rest after `:-` |
| Placeholders.MatchesEnclosed | src/utils/config/settings.py:57 | the string matches with given groups exactly when the text between its `${` and final `}` is NAME followed by the optional `:-DEFAULT` |
| Placeholders.ParseDetermined | src/utils/config/settings.py:57 | the matching groups with the shortest NAME are exactly what the matcher returns, so the pattern fixes the parse |
| Placeholders.ParseRender | src/utils/config/settings.py:57 | writing out a placeholder whose name has no `:-` and matching it gives the same NAME and DEFAULT back, also with a final line feed |
| Placeholders.NoBraceNoMatch | src/utils/config/settings.py:57 | a string without `}` (such as any DEFAULT) is never a placeholder |
| Placeholders.ExamplePortDefault | src/utils/config/settings.py:57 | `${PORT:-8000}` has NAME `PORT` and DEFAULT `8000` |
| Placeholders.ExampleNestedSeparator | src/utils/config/settings.py:57 | the default starts after the first `:-`: `${A:-x:-y}` has DEFAULT `x:-y` |
| Placeholders.ExampleLineFeed | src/utils/config/settings.py:57 | a final line feed is accepted by `$` |
| Placeholders.ExampleEmptyDefault | src/utils/config/settings.py:57 | `${A:-}` has NAME `A:-` and no default |
| Placeholders.ExamplesNoMatch | src/utils/config/settings.py:57 | text before `${` or after `}`, or an empty name, is no match |
| Substitution.ResolveString | src/utils/config/settings.py:56-64 | a string that is not a placeholder comes back unchanged; only a placeholder can change |
| Substitution.Resolve | src/utils/config/settings.py:51-64 | the new tree has the shape of the old: same mapping keys, same list lengths, non-string leaves unchanged, string leaves changed only where they are placeholders |
| Substitution.ResolveNoPlaceholders | src/utils/config/settings.py:51-64 | a tree without placeholders comes back equal |
| Substitution.ResolveWithDefault | src/utils/config/settings.py:59-63 | `${NAME:-DEFAULT}` for a NAME without `:-` (`ResolveOrder` covers every placeholder), with or without one final line feed, becomes the environment value when set (the empty string included, not substituted again), else DEFAULT; a final line feed is lost |
| Substitution.ResolveBare | src/utils/config/settings.py:59-63 | `${NAME}` for a NAME without `:-`, with or without one final line feed, becomes the environment value when set, else stays as written, line feed included |
| Substitution.ResolveOrder | src/utils/config/settings.py:57-63 | for any string and the matching groups with the shortest NAME: a set value of NAME wins (even empty), else DEFAULT when present, else the string unchanged |
| Substitution.EmptyDefaultLooksUpWholeName | src/utils/config/settings.py:57-63 | `${A:-}` looks up `A:-`, so with `A` set and `A:-` unset it stays `${A:-}` |
| Substitution.ResolveStringIdempotent | src/utils/config/settings.py:59-63 | a second substitution of a leaf changes nothing when no environment value is itself a placeholder |
| Substitution.ResolveIdempotent | src/utils/config/settings.py:51-64 | the same for a whole tree |
| DottedPath.Split | src/utils/config/settings.py:70 | `split('.')` yields at least one part, none containing a dot |
| DottedPath.JoinSplit | src/utils/config/settings.py:70 | joining the parts with dots gives the key back |
| DottedPath.SplitJoin | src/utils/config/settings.py:70 | splitting a dot-join of dot-free parts gives the parts back |
| DottedPath.SplitNoDot | src/utils/config/settings.py:70 | a key without a dot is one part |
| DottedPath.SplitDotted | src/utils/config/settings.py:70 | the parts of `a.b` are the parts of `a` followed by those of `b` |
| DottedPath.LookupConcat | src/utils/config/settings.py:73-74 | walking a path in two pieces equals walking it in one |
| DottedPath.LookupStep | src/utils/config/settings.py:73-74 | indexing a mapping that holds the next key extends the walk by that entry |
| DottedPath.LookupStuck | src/utils/config/settings.py:72-77 | a missing key or a non-mapping node anywhere on the path makes the whole walk fail |
| DottedPath.FetchNested | src/utils/config/settings.py:66-77 | `get("a.b", d)` is `get("b", d)` on the node `a` leads to, and `d` when there is none |
| DottedPath.FetchSection | src/utils/config/settings.py:66-77 | `get(name, d)` with a dot-free name is the top-level entry when the document is a mapping holding it, else `d` |
| Settings.SettingsManagerClass.constructor | src/utils/config/settings.py:30 | the class attribute `_instance` starts as None |
| Settings.SettingsManager.constructor | src/utils/config/settings.py:29-32 | a new object starts with no document and no merged environment |
| Settings.SettingsManager.LoadConfig | src/utils/config/settings.py:41-49 | a missing or malformed file raises and leaves the stored document unchanged; otherwise the parsed document is stored exactly as parsed |
| Settings.SettingsManager.Get | src/utils/config/settings.py:66-77 | the loop returns the stored node at the dotted path (even a None node) or the default when nothing is stored or the walk fails; the document is not changed |
| Settings.SettingsManager.GetServerConfig | src/utils/config/settings.py:79-80 | the `server` entry of the document, or an empty mapping |
| Settings.SettingsManager.GetAppConfig | src/utils/config/settings.py:82-83 | the `app` entry of the document, or an empty mapping |
| Settings.SettingsManager.GetLoggingConfig | src/utils/config/settings.py:85-86 | the `logging` entry of the document, or an empty mapping |
| Settings.SettingsManagerClass.New | src/utils/config/settings.py:34-39 | the first construction stores a fresh instance, merges the environment and loads (raising on a missing or malformed file, instance kept); later constructions return the stored instance unchanged |
| Settings.ConstructTwice | src/utils/config/settings.py:34-39 | two constructions yield the same instance holding the first document and the environment merged by the first, whatever the second is given; after a failed first load, the second returns the stored instance with nothing loaded |
| Settings.FetchStoredLeaf | src/utils/config/settings.py:70-75 | `get("a.b")` on `{a: {b: leaf}}` returns the stored leaf as stored |
| Settings.PortPlaceholderKept | src/utils/config/settings.py:47-49 | with `server.port` written `${PORT:-8000}`, `get` returns that text, while the discarded substitution would have given PORT's value or 8000 |
| App.CredentialDecision | app.py:62-74 | registration iff both credentials are set and non-empty, with config exactly `{api_key, group_id}` from the environment; otherwise MissingCredentials |
| App.Decide | app.py:56-82 | no `minimax_tts` key: nothing registered; falsy `enabled`: nothing registered, credentials not read; missing `enabled` counts as enabled; a registered service is `minimax_tts` with exactly the two credential keys; the error of each non-mapping case |
| App.DisabledIgnoresCredentials | app.py:59 | a disabled slice skips registration whatever the environment |
| App.ExtraSliceKeysIgnored | app.py:58-74 | slice entries other than `enabled` do not change the decision |
| App.EnabledIsTruthiness | app.py:59 | `"false"` enables, `false` and None disable, an absent key enables |
| App.ServerManager.constructor | app.py:33 | a new manager has no services and is neither initialized nor shut down |
| App.ServerManager.RegisterService | app.py:82 | appends the service to the registration sequence and changes nothing else |
| App.ServerManager.Initialize | app.py:37 | returns the given outcome and records it |
| App.ServerManager.Shutdown | app.py:47 | records the shutdown, services unchanged |
| App.RegisterServices | app.py:52-83 | reads `server_manager.services` (default empty mapping) and registers exactly one service, nothing, or raises, as Decide says |
| App.Application.constructor | app.py:23 | the global `server_manager` starts as None |
| App.Application.Startup | app.py:27-42 | the fresh manager is stored before registration; a registration error is raised with nothing registered and initialize not called; otherwise a false initialize raises InitializationFailed |
| App.Application.Shutdown | app.py:44-50 | the manager is shut down only when one exists; shutdown never raises |
| App.Application.Lifespan | app.py:26-50 | shutdown steps run exactly when start-up did not raise |
| App.ServerRunOptions | app.py:106-108 | host `0.0.0.0`, port 8000, reload false, workers 1 for absent entries, each present entry verbatim; a non-mapping `server` section raises AttributeError |
| App.CorsEntry | app.py:95 | `get("cors.<name>", d)` is the `cors` section's entry or `d` |
| App.Cors | app.py:94-95 | the middleware is added iff `cors` is truthy, with origins/methods/headers defaulting to `["*"]` and credentials to true |

## Left out

- YAML parsing (`yaml.safe_load`, settings.py:47) is a foreign library: the parsed document is an input; only string mapping keys are modelled, and special floats (`.inf`, `.nan`) and other YAML types are not.
- Documents that contain themselves (YAML anchors and aliases, e.g. `a: &x [*x]`) cannot be expressed by the finite `Value` tree and are not modelled: on them `_replace_env_vars` never stops recursing and raises RecursionError after `_config` has been stored (settings.py:47-49), so `SettingsManager()` raises although the file parsed.
- Reading the dotenv file (settings.py:13-25, a hard-coded absolute path; an absent file gives an empty map) is I/O: the dotenv map is an input.
- `load_dotenv()` (app.py:13) is library I/O: the process environment given to the model is taken as already including what it added.
- `print` diagnostics (settings.py:16-26) and every `logger` call are pure output.
- FastAPI construction and routing, the title/description/version defaults handed to FastAPI (app.py:85-92), the redirect and status endpoints and `uvicorn.run` itself (app.py:96-108) are framework plumbing; only the run and CORS arguments are modelled.
- The server manager, process manager, TTS service, `ServiceConfig` and `setup_signal_handlers` (app.py:17-18, 31-36, 53-54) are not part of this model; the manager is an abstract object holding the registration sequence and the initialize and shutdown outcomes. A manager that exists is taken to be truthy in `if server_manager:` (app.py:46); its class, which could define otherwise, is not shown. Duplicate-name handling, per-service states, the order of shutdown and lookup by name belong to the manager and are not part of this model.
- App.Application.Shutdown: an exception raised by the manager's shutdown is logged and swallowed; since the abstract manager cannot raise, the model expresses this only by giving shutdown no error result.
- Settings.SettingsManagerClass.New: Python's import machinery (a module whose import raised is executed afresh on the next import) is not modelled; the class object is.
- The async lifecycle of `lifespan` and the vendor TTS calls are concurrency and network I/O.
- `src/api/models.py`, `src/api/routes.py`, `src/api/handlers.py` and `tests/conftest.py` are request declarations and a test fixture whose validation is done by the web and schema libraries.
