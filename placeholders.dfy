/** Recognition of a whole-string placeholder `${NAME}` or `${NAME:-DEFAULT}`, as Python's `re.match`
    decides it for the pattern  ^\$\{(.+?)(?::-([^}]+))?\}$ . The matcher is written for this one
    pattern: `.` does not match a line feed, `[^}]` does, and `$` matches at the end of the string or
    just before a line feed that ends it. */
module Placeholders {

  import opened Wrappers

  /** The two groups of a match: NAME, and DEFAULT when the optional `:-` part took part. */
  datatype Placeholder = Placeholder(name: string, default: Option<string>)

  /** NAME is one or more characters other than a line feed; DEFAULT is one or more characters other
      than `}`. */
  predicate WellFormed(p: Placeholder)
  {
    && |p.name| > 0
    && '\n' !in p.name
    && (p.default.Some? ==> |p.default.value| > 0 && '}' !in p.default.value)
  }

  /** The text between `${` and the closing `}`. */
  function Body(p: Placeholder): string
  {
    p.name + (if p.default.Some? then ":-" + p.default.value else "")
  }

  /** The placeholder written out. */
  function Render(p: Placeholder): string
  {
    "${" + Body(p) + "}"
  }

  /** The pattern matches all of `s`, with these groups (backtracking order aside). */
  predicate Matches(s: string, p: Placeholder)
  {
    WellFormed(p) && (s == Render(p) || s == Render(p) + "\n")
  }

  /** No `:-` occurs in a name: the names for which writing a placeholder out and matching it again
      gives the same groups back. */
  predicate NoSeparator(name: string)
  {
    forall i :: 0 <= i < |name| - 1 ==> !(name[i] == ':' && name[i + 1] == '-')
  }

  /** The part of `s` before the position where `$` matches: `s` without one final line feed. */
  function Core(s: string): string
  {
    if |s| > 0 && s[|s| - 1] == '\n' then s[..|s| - 1] else s
  }

  /** The text between a leading `${` and a final `}` of the core, if it has both. */
  function Enclosed(s: string): Option<string>
  {
    var c := Core(s);
    if |c| >= 3 && c[0] == '$' && c[1] == '{' && c[|c| - 1] == '}' then Some(c[2..|c| - 1]) else None
  }

  /** With NAME = body[..k], the optional group `:-([^}]+)` can match the rest of the body. */
  predicate DefaultStartsAt(body: string, k: nat)
  {
    k + 2 < |body| && body[k] == ':' && body[k + 1] == '-' && '}' !in body[k + 2..]
  }

  predicate SplitsAs(body: string, p: Placeholder)
  {
    WellFormed(p) && Body(p) == body
  }

  /** A body splits in at most one way for each length of NAME. */
  lemma SplitShape(body: string, q: Placeholder)
    requires SplitsAs(body, q)
    ensures q.name == body[..|q.name|]
    ensures |q.name| == |body| ==> q == Placeholder(body, None)
    ensures |q.name| < |body| ==>
              DefaultStartsAt(body, |q.name|) && q == Placeholder(body[..|q.name|], Some(body[|q.name| + 2..]))
  {
    var n := |q.name|;
    assert body[..n] == q.name;
    if q.default.Some? {
      var d := q.default.value;
      assert body == q.name + ":-" + d;
      assert body[n + 2..] == d;
    }
  }

  /** The lazy search for NAME: the shortest length, from `k` on, at which the rest of the body
      matches, trying the `:-DEFAULT` part before the closing brace at each length. */
  function SplitFrom(body: string, k: nat): (r: Option<Placeholder>)
    requires 1 <= k <= |body|
    requires '\n' !in body[..k - 1]
    ensures r.Some? ==> SplitsAs(body, r.value) && k <= |r.value.name|
    ensures forall q :: SplitsAs(body, q) && k <= |q.name| ==> r.Some? && |r.value.name| <= |q.name|
    decreases |body| - k
  {
    assert body[..k] == body[..k - 1] + [body[k - 1]];
    if body[k - 1] == '\n' then
      assert forall q :: SplitsAs(body, q) && k <= |q.name| ==> q.name[k - 1] == '\n' by {
        forall q | SplitsAs(body, q) && k <= |q.name| ensures q.name[k - 1] == '\n' {
          SplitShape(body, q);
        }
      }
      None
    else if k == |body| then
      assert body[..k] == body;
      Some(Placeholder(body, None))
    else if DefaultStartsAt(body, k) then
      assert body == body[..k] + ":-" + body[k + 2..];
      Some(Placeholder(body[..k], Some(body[k + 2..])))
    else
      assert forall q :: SplitsAs(body, q) ==> |q.name| != k by {
        forall q | SplitsAs(body, q) ensures |q.name| != k {
          SplitShape(body, q);
        }
      }
      SplitFrom(body, k + 1)
  }

  /** Matching a string is splitting the text between its `${` and its final `}`. */
  lemma MatchesEnclosed(s: string, q: Placeholder)
    ensures Matches(s, q) <==> WellFormed(q) && Enclosed(s) == Some(Body(q))
  {
  }

  /** `re.match` of the placeholder pattern against the whole of `s`. When it succeeds, the groups
      match `s`, and NAME is the shortest name with which any match exists. When it fails, no split
      of `s` into NAME and DEFAULT matches the pattern at all. */
  function ParsePlaceholder(s: string): (r: Option<Placeholder>)
    ensures r.Some? ==> Matches(s, r.value)
    ensures forall q :: Matches(s, q) ==> r.Some? && |r.value.name| <= |q.name|
  {
    assert forall q :: Matches(s, q) <==> WellFormed(q) && Enclosed(s) == Some(Body(q)) by {
      forall q ensures Matches(s, q) <==> WellFormed(q) && Enclosed(s) == Some(Body(q)) {
        MatchesEnclosed(s, q);
      }
    }
    match Enclosed(s)
    case None => None
    case Some(body) =>
      if |body| == 0 then None else SplitFrom(body, 1)
  }

  /** The pattern fixes the match: the groups with the shortest NAME among all that match `s` are
      exactly what ParsePlaceholder returns. */
  lemma {:induction false} ParseDetermined(s: string, p: Placeholder)
    requires Matches(s, p)
    requires forall q :: Matches(s, q) ==> |p.name| <= |q.name|
    ensures ParsePlaceholder(s) == Some(p)
  {
    var r := ParsePlaceholder(s).value;
    MatchesEnclosed(s, p);
    MatchesEnclosed(s, r);
    SplitShape(Body(p), r);
    SplitShape(Body(p), p);
  }

  /** A default never contains `}`, so it is never itself a placeholder. */
  lemma NoBraceNoMatch(s: string)
    requires '}' !in s
    ensures ParsePlaceholder(s).None?
  {
  }

  /** Writing a placeholder out and matching it gives its groups back, also with a trailing line feed,
      provided its name contains no `:-`. */
  lemma {:induction false} ParseRender(p: Placeholder)
    requires WellFormed(p) && NoSeparator(p.name)
    ensures ParsePlaceholder(Render(p)) == Some(p)
    ensures ParsePlaceholder(Render(p) + "\n") == Some(p)
  {
    ParseRenderOne(p, Render(p));
    ParseRenderOne(p, Render(p) + "\n");
  }

  lemma {:induction false} ParseRenderOne(p: Placeholder, s: string)
    requires WellFormed(p) && NoSeparator(p.name)
    requires s == Render(p) || s == Render(p) + "\n"
    ensures ParsePlaceholder(s) == Some(p)
  {
    assert Matches(s, p);
    var r := ParsePlaceholder(s).value;
    var body := Body(p);
    MatchesEnclosed(s, p);
    MatchesEnclosed(s, r);
    assert SplitsAs(body, r) && SplitsAs(body, p);
    SplitShape(body, r);
    SplitShape(body, p);
  }

  /** A default is split off at the first `:-`. */
  lemma ExamplePortDefault()
    ensures ParsePlaceholder("${PORT:-8000}") == Some(Placeholder("PORT", Some("8000")))
  {
    var p := Placeholder("PORT", Some("8000"));
    assert Render(p) == "${PORT:-8000}";
    ParseRender(p);
  }

  /** A default may itself contain `:-`. */
  lemma ExampleNestedSeparator()
    ensures ParsePlaceholder("${A:-x:-y}") == Some(Placeholder("A", Some("x:-y")))
  {
    var p := Placeholder("A", Some("x:-y"));
    assert Render(p) == "${A:-x:-y}";
    ParseRender(p);
  }

  /** A final line feed is tolerated. */
  lemma ExampleLineFeed()
    ensures ParsePlaceholder("${PORT}\n") == Some(Placeholder("PORT", None))
  {
    var p := Placeholder("PORT", None);
    assert Render(p) + "\n" == "${PORT}\n";
    ParseRender(p);
  }

  /** An empty default is no default: `${A:-}` names the variable `A:-`. */
  lemma ExampleEmptyDefault()
    ensures ParsePlaceholder("${A:-}") == Some(Placeholder("A:-", None))
  {
    var s, body := "${A:-}", "A:-";
    assert Core(s) == s;
    assert s[2..|s| - 1] == body;
    assert !DefaultStartsAt(body, 1) && !DefaultStartsAt(body, 2);
  }

  /** Text outside the braces, or an empty name, is no match. */
  lemma ExamplesNoMatch()
    ensures ParsePlaceholder("x${A}") == None
    ensures ParsePlaceholder("${A}x") == None
    ensures ParsePlaceholder("${}") == None
  {
  }
}
