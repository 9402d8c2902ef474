/** The environment seen by the settings manager: the process environment overlaid with the dotenv map. */
module Environment {

  import opened Wrappers

  /** A dotenv file read by python-dotenv: a key written without `=` has the value None. */
  type DotenvMap = map<string, Option<string>>

  /** The merged environment `{**os.environ, **DOTENV_VARS}`. */
  type Env = map<string, Option<string>>

  /** The merge of the process environment with the dotenv map: a dotenv entry replaces the process
      entry of the same name, even when the dotenv value is None. */
  function MergeEnv(process: map<string, string>, dotenv: DotenvMap): (r: Env)
    ensures r.Keys == process.Keys + dotenv.Keys
    ensures forall k :: k in dotenv ==> r[k] == dotenv[k]
    ensures forall k :: k in process && k !in dotenv ==> r[k] == Some(process[k])
  {
    (map k | k in process :: Some(process[k])) + dotenv
  }

  /** `env.get(name)`: None both for an absent name and for a name stored with the value None. */
  function EnvGet(env: Env, name: string): Option<string>
  {
    if name in env then env[name] else None
  }

  /** `os.getenv(name)` on the process environment. */
  function Getenv(process: map<string, string>, name: string): Option<string>
  {
    if name in process then Some(process[name]) else None
  }

  /** A name is looked up in the dotenv map first; a dotenv entry without a value hides the process
      value and reads as unset; only a name the dotenv map lacks falls through to the process. */
  lemma MergedLookup(process: map<string, string>, dotenv: DotenvMap, name: string)
    ensures EnvGet(MergeEnv(process, dotenv), name) ==
            if name in dotenv then dotenv[name] else Getenv(process, name)
    ensures name in dotenv && dotenv[name].None? ==> EnvGet(MergeEnv(process, dotenv), name).None?
  {
  }
}
