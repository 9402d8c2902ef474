/** `SettingsManager._replace_env_vars`: a walk over the document that builds a new tree in which every
    whole-string placeholder leaf is replaced by its environment value or default. */
module Substitution {

  import opened Wrappers
  import opened ConfigValues
  import opened Environment
  import opened Placeholders

  /** The replacement for one string leaf: a set environment value (even the empty string), else the
      default, else the leaf unchanged. A string that is not a placeholder is returned unchanged. */
  function ResolveString(s: string, env: Env): (r: string)
    ensures ParsePlaceholder(s).None? ==> r == s
    ensures r != s ==> exists p :: Matches(s, p)
  {
    match ParsePlaceholder(s)
    case None => s
    case Some(p) =>
      match EnvGet(env, p.name)
      case Some(value) => value
      case None => if p.default.Some? then p.default.value else s
  }

  /** `b` has the shape of `a`: a mapping with the same keys, a list of the same length, a string in
      place of a string, and any other node unchanged; a string leaf differs only if it is a
      placeholder. */
  predicate SameShape(a: Value, b: Value)
  {
    match a
    case Map(m) =>
      b.Map? && b.entries.Keys == m.Keys && forall k :: k in m ==> SameShape(m[k], b.entries[k])
    case List(xs) =>
      b.List? && |b.items| == |xs| && forall i :: 0 <= i < |xs| ==> SameShape(xs[i], b.items[i])
    case Str(s) =>
      b.Str? && (b.s == s || ParsePlaceholder(s).Some?)
    case _ => b == a
  }

  /** The substituted copy of a document: same shape, new leaves. The input is not changed (it is a
      value). */
  function Resolve(v: Value, env: Env): (r: Value)
    ensures SameShape(v, r)
  {
    match v
    case Map(m) => Map(map k | k in m :: Resolve(m[k], env))
    case List(xs) => List(seq(|xs|, i requires 0 <= i < |xs| => Resolve(xs[i], env)))
    case Str(s) => Str(ResolveString(s, env))
    case _ => v
  }

  /** No string leaf of the document is a placeholder. */
  predicate NoPlaceholders(v: Value)
  {
    match v
    case Map(m) => forall k :: k in m ==> NoPlaceholders(m[k])
    case List(xs) => forall i :: 0 <= i < |xs| ==> NoPlaceholders(xs[i])
    case Str(s) => ParsePlaceholder(s).None?
    case _ => true
  }

  /** A document without placeholders comes back unchanged. */
  lemma {:induction false} ResolveNoPlaceholders(v: Value, env: Env)
    requires NoPlaceholders(v)
    ensures Resolve(v, env) == v
  {
    match v
    case Map(m) =>
      forall k | k in m ensures Resolve(m[k], env) == m[k] {
        ResolveNoPlaceholders(m[k], env);
      }
      assert (map k | k in m :: Resolve(m[k], env)) == m;
    case List(xs) =>
      forall i | 0 <= i < |xs| ensures Resolve(xs[i], env) == xs[i] {
        ResolveNoPlaceholders(xs[i], env);
      }
      assert seq(|xs|, i requires 0 <= i < |xs| => Resolve(xs[i], env)) == xs;
    case _ =>
  }

  /** `${NAME:-DEFAULT}`: a set value wins, even an empty one, and is not substituted again;
      otherwise the default. With one final line feed the result is the same, so the line feed is
      lost. */
  lemma {:induction false} ResolveWithDefault(name: string, default: string, env: Env)
    requires WellFormed(Placeholder(name, Some(default))) && NoSeparator(name)
    ensures ResolveString("${" + name + ":-" + default + "}", env) ==
            match EnvGet(env, name) case Some(value) => value case None => default
    ensures ResolveString("${" + name + ":-" + default + "}\n", env) ==
            match EnvGet(env, name) case Some(value) => value case None => default
  {
    var p := Placeholder(name, Some(default));
    assert Render(p) == "${" + name + ":-" + default + "}";
    assert Render(p) + "\n" == "${" + name + ":-" + default + "}\n";
    ParseRender(p);
  }

  /** `${NAME}`: a set value wins, even an empty one; an unset name leaves the placeholder in place,
      together with its final line feed when it has one. */
  lemma {:induction false} ResolveBare(name: string, env: Env)
    requires WellFormed(Placeholder(name, None)) && NoSeparator(name)
    ensures ResolveString("${" + name + "}", env) ==
            match EnvGet(env, name) case Some(value) => value case None => "${" + name + "}"
    ensures ResolveString("${" + name + "}\n", env) ==
            match EnvGet(env, name) case Some(value) => value case None => "${" + name + "}\n"
  {
    var p := Placeholder(name, None);
    assert Render(p) == "${" + name + "}";
    assert Render(p) + "\n" == "${" + name + "}\n";
    ParseRender(p);
  }

  /** The order of resolution for any placeholder, stated on the pattern's own terms: for the groups
      with the shortest NAME that match `s`, a set value of NAME wins (even an empty one), otherwise
      DEFAULT when there is one, otherwise `s` unchanged. */
  lemma {:induction false} ResolveOrder(s: string, p: Placeholder, env: Env)
    requires Matches(s, p)
    requires forall q :: Matches(s, q) ==> |p.name| <= |q.name|
    ensures ResolveString(s, env) ==
            match EnvGet(env, p.name)
            case Some(value) => value
            case None => if p.default.Some? then p.default.value else s
  {
    ParseDetermined(s, p);
  }

  /** `${A:-}` looks up the variable `A:-`, not `A`: with `A` set and `A:-` unset the text stays. */
  lemma {:induction false} EmptyDefaultLooksUpWholeName(env: Env)
    requires EnvGet(env, "A").Some? && EnvGet(env, "A:-").None?
    ensures ResolveString("${A:-}", env) == "${A:-}"
  {
    ExampleEmptyDefault();
  }

  /** No environment value is itself a placeholder. */
  predicate InertEnv(env: Env)
  {
    forall n :: n in env && env[n].Some? ==> ParsePlaceholder(env[n].value).None?
  }

  /** Substitution is a single pass: run again on its own result it changes nothing more, as long as
      no environment value is itself a placeholder (a default never is). */
  lemma ResolveStringIdempotent(s: string, env: Env)
    requires InertEnv(env)
    ensures ResolveString(ResolveString(s, env), env) == ResolveString(s, env)
  {
  }

  lemma {:induction false} ResolveIdempotent(v: Value, env: Env)
    requires InertEnv(env)
    ensures Resolve(Resolve(v, env), env) == Resolve(v, env)
  {
    match v
    case Map(m) =>
      var once := map k | k in m :: Resolve(m[k], env);
      forall k | k in m ensures Resolve(once[k], env) == once[k] {
        ResolveIdempotent(m[k], env);
      }
      assert (map k | k in once :: Resolve(once[k], env)) == once;
    case List(xs) =>
      var once := seq(|xs|, i requires 0 <= i < |xs| => Resolve(xs[i], env));
      forall i | 0 <= i < |xs| ensures Resolve(once[i], env) == once[i] {
        ResolveIdempotent(xs[i], env);
      }
      assert seq(|once|, i requires 0 <= i < |once| => Resolve(once[i], env)) == once;
    case Str(s) =>
      ResolveStringIdempotent(s, env);
    case _ =>
  }
}
