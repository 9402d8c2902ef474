/** Dotted-path addressing of the configuration tree, as `SettingsManager.get` does it: the key is
    split on `.` and the document is indexed one part at a time. */
module DottedPath {

  import opened Wrappers
  import opened ConfigValues

  /** `key.split('.')`: never empty; an empty key and empty parts between dots are kept. */
  function Split(key: string): (parts: seq<string>)
    ensures |parts| > 0
    ensures forall i :: 0 <= i < |parts| ==> '.' !in parts[i]
  {
    if |key| == 0 then [""]
    else
      var rest := Split(key[1..]);
      if key[0] == '.' then [""] + rest else [[key[0]] + rest[0]] + rest[1..]
  }

  /** `'.'.join(parts)`, the inverse of Split. */
  function Join(parts: seq<string>): string
    requires |parts| > 0
  {
    if |parts| == 1 then parts[0] else parts[0] + "." + Join(parts[1..])
  }

  lemma {:induction false} JoinSplit(key: string)
    ensures Join(Split(key)) == key
  {
    if |key| > 0 {
      var rest := Split(key[1..]);
      JoinSplit(key[1..]);
      if key[0] == '.' {
        assert ([""] + rest)[1..] == rest;
      } else {
        var parts := [[key[0]] + rest[0]] + rest[1..];
        if |rest| > 1 {
          assert parts[1..] == rest[1..];
        }
        assert key == [key[0]] + key[1..];
      }
    }
  }

  /** A key without a dot is a single part. */
  lemma {:induction false} SplitNoDot(key: string)
    requires '.' !in key
    ensures Split(key) == [key]
  {
    if |key| > 0 {
      SplitNoDot(key[1..]);
      assert key == [key[0]] + key[1..];
    }
  }

  /** One step of Split: a leading dot starts a new empty part, any other character joins the first. */
  lemma SplitCons(c: char, t: string)
    ensures Split([c] + t) ==
            if c == '.' then [""] + Split(t) else [[c] + Split(t)[0]] + Split(t)[1..]
  {
    assert ([c] + t)[1..] == t;
  }

  /** Prefixing the first part commutes with appending further parts. */
  lemma JoinFirstPart(prefix: string, head: seq<string>, tail: seq<string>)
    requires |head| > 0
    ensures [prefix + (head + tail)[0]] + (head + tail)[1..] == ([prefix + head[0]] + head[1..]) + tail
  {
    assert (head + tail)[1..] == head[1..] + tail;
  }

  /** A dot separates the parts of its two sides. */
  lemma {:induction false} SplitDotted(a: string, b: string)
    ensures Split(a + "." + b) == Split(a) + Split(b)
  {
    if |a| == 0 {
      assert a + "." + b == ['.'] + b;
      SplitCons('.', b);
    } else {
      var c, t := a[0], a[1..];
      assert a == [c] + t;
      assert a + "." + b == [c] + (t + "." + b);
      SplitDotted(t, b);
      SplitCons(c, t + "." + b);
      SplitCons(c, t);
      if c != '.' {
        JoinFirstPart([c], Split(t), Split(b));
      }
    }
  }

  /** Splitting a joined list of dot-free parts gives the parts back. */
  lemma {:induction false} SplitJoin(parts: seq<string>)
    requires |parts| > 0
    requires forall i :: 0 <= i < |parts| ==> '.' !in parts[i]
    ensures Split(Join(parts)) == parts
  {
    if |parts| == 1 {
      SplitNoDot(parts[0]);
    } else {
      SplitJoin(parts[1..]);
      SplitDotted(parts[0], Join(parts[1..]));
      SplitNoDot(parts[0]);
    }
  }

  /** Indexing `value[k]` for each key in turn: only a mapping holding the key can be indexed; a missing
      key raises KeyError and any other node (list, string, number, None) raises TypeError. */
  function Lookup(v: Value, keys: seq<string>): Option<Value>
  {
    if |keys| == 0 then Some(v)
    else
      match v
      case Map(m) => if keys[0] in m then Lookup(m[keys[0]], keys[1..]) else None
      case _ => None
  }

  /** What `get(key, default)` returns for a stored document: the default when nothing is stored
      (the document is None) or when the walk fails, otherwise the node found, whatever it is. */
  function Fetch(config: Value, key: string, default: Value): Value
  {
    if config == Null then default
    else match Lookup(config, Split(key)) case Some(found) => found case None => default
  }

  /** Walking a path in two pieces is walking it in one. */
  lemma {:induction false} LookupConcat(v: Value, p: seq<string>, q: seq<string>)
    ensures Lookup(v, p + q) == match Lookup(v, p) case Some(x) => Lookup(x, q) case None => None
  {
    if |p| > 0 {
      assert (p + q)[0] == p[0] && (p + q)[1..] == p[1..] + q;
      if v.Map? && p[0] in v.entries {
        LookupConcat(v.entries[p[0]], p[1..], q);
      }
    } else {
      assert p + q == q;
    }
  }

  /** The walk fails as soon as one key is missing or the node reached is not a mapping. */
  lemma {:induction false} LookupStuck(v: Value, keys: seq<string>, i: nat, x: Value)
    requires i < |keys| && Lookup(v, keys[..i]) == Some(x)
    requires !(x.Map? && keys[i] in x.entries)
    ensures Lookup(v, keys) == None
  {
    assert keys == keys[..i] + keys[i..];
    LookupConcat(v, keys[..i], keys[i..]);
  }

  /** One more key on the path: the walk extends by one indexing step. */
  lemma {:induction false} LookupStep(v: Value, keys: seq<string>, i: nat, x: Value)
    requires i < |keys| && Lookup(v, keys[..i]) == Some(x)
    requires x.Map? && keys[i] in x.entries
    ensures Lookup(v, keys[..i + 1]) == Some(x.entries[keys[i]])
  {
    assert keys[..i + 1] == keys[..i] + [keys[i]];
    LookupConcat(v, keys[..i], [keys[i]]);
  }

  /** `get("a.b", d)` is `get("b", d)` on what `get("a")` finds, and `d` when that walk fails. */
  lemma {:induction false} FetchNested(config: Value, a: string, b: string, default: Value)
    ensures Fetch(config, a + "." + b, default) ==
            match Lookup(config, Split(a)) case Some(x) => Fetch(x, b, default) case None => default
  {
    SplitDotted(a, b);
    LookupConcat(config, Split(a), Split(b));
    if config == Null {
      assert Lookup(config, Split(a)) == None;
    }
    match Lookup(config, Split(a))
    case Some(x) =>
      if x == Null {
        assert Lookup(x, Split(b)) == None;
      }
    case None =>
  }

  /** The top-level section named by a dot-free key: its node when the document is a mapping that
      holds the key, and `default` otherwise. */
  function Section(config: Value, name: string, default: Value): Value
  {
    if config.Map? && name in config.entries then config.entries[name] else default
  }

  /** `get(name, default)` with a dot-free name reads one top-level entry. */
  lemma {:induction false} FetchSection(config: Value, name: string, default: Value)
    requires '.' !in name
    ensures Fetch(config, name, default) == Section(config, name, default)
  {
    SplitNoDot(name);
    if config.Map? && name in config.entries {
      var keys := [name];
      assert keys[0] == name && keys[1..] == [];
      assert Lookup(config, keys) == Lookup(config.entries[name], []);
    }
  }
}
