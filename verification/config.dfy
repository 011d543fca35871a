/**
  The configuration manager: a YAML document held as nested values, read with
  dotted key paths ("global.seed") and updated in place along such a path, and
  the process-wide instance handed out by get_config.
*/
module Config {
  import opened Common
  import opened Text

  /** What yaml.safe_load produces: mappings with string keys, lists and scalars. */
  datatype Value =
    | Dict(items: map<string, Value>)
    | List(elems: seq<Value>)
    | Str(s: string)
    | Int(i: int)
    | Bool(b: bool)
    | Null

  /** The outcome of update: the new document, or the TypeError Python raises. */
  datatype Outcome = Updated(doc: Value) | TypeError

  /** Python's truth value: empty containers, "", 0, False and None are false. */
  predicate Truthy(v: Value)
  {
    match v
    case Dict(m) => |m| > 0
    case List(xs) => |xs| > 0
    case Str(s) => |s| > 0
    case Int(i) => i != 0
    case Bool(b) => b
    case Null => false
  }

  /** key_path.split('.') */
  function KeyPath(path: string): (keys: seq<string>)
    ensures |keys| >= 1
  {
    Split(path, '.')
  }

  /** The value reached by following the keys through nested mappings, if every key is there. */
  function Lookup(v: Value, keys: seq<string>): Option<Value>
    decreases |keys|
  {
    if keys == [] then Some(v)
    else if v.Dict? && keys[0] in v.items then Lookup(v.items[keys[0]], keys[1..])
    else None
  }

  /**
    The document after setting the last key to x along the keys, missing
    intermediate mappings created empty; a value on the way that is not a
    mapping raises TypeError.
  */
  function Put(v: Value, keys: seq<string>, x: Value): (r: Outcome)
    requires |keys| >= 1
    ensures r.Updated? ==> r.doc.Dict?
    decreases |keys|
  {
    if !v.Dict? then TypeError
    else if |keys| == 1 then Updated(Dict(v.items[keys[0] := x]))
    else
      var child := if keys[0] in v.items then v.items[keys[0]] else Dict(map[]);
      match Put(child, keys[1..], x)
      case TypeError => TypeError
      case Updated(c) => Updated(Dict(v.items[keys[0] := c]))
  }

  /** Every value met on the way to the last key that already exists is a mapping. */
  predicate Open(v: Value, keys: seq<string>)
  {
    forall i :: 0 <= i < |keys| ==> (Lookup(v, keys[..i]).Some? ==> Lookup(v, keys[..i]).value.Dict?)
  }

  /** Paths that agree on their first i keys and part at key i. */
  predicate Diverge(p: seq<string>, q: seq<string>)
  {
    exists i :: 0 <= i < |p| && i < |q| && p[..i] == q[..i] && p[i] != q[i]
  }

  // ---------------------------------------------------------------------
  // Properties of lookup and update
  // ---------------------------------------------------------------------

  /** Looking up a longer path is looking up the rest from where the first part leads. */
  lemma {:induction false} LookupAppend(v: Value, p: seq<string>, q: seq<string>)
    ensures Lookup(v, p + q) == (match Lookup(v, p) case Some(w) => Lookup(w, q) case None => None)
    decreases |p|
  {
    if p != [] {
      assert (p + q)[0] == p[0] && (p + q)[1..] == p[1..] + q;
      if v.Dict? && p[0] in v.items {
        LookupAppend(v.items[p[0]], p[1..], q);
      }
    } else {
      assert p + q == q;
    }
  }

  /** Lookup of a path one key longer than a prefix of the keys. */
  lemma LookupStep(v: Value, keys: seq<string>, i: nat)
    requires i < |keys| && v.Dict? && keys[0] in v.items
    ensures Lookup(v, keys[..i + 1]) == Lookup(v.items[keys[0]], keys[1..][..i])
  {
    assert keys[..i + 1][0] == keys[0];
    assert keys[..i + 1][1..] == keys[1..][..i];
  }

  /** In a fresh empty mapping only the empty path leads anywhere. */
  lemma EmptyLookup(keys: seq<string>)
    ensures Lookup(Dict(map[]), keys) == (if keys == [] then Some(Dict(map[])) else None)
  {
  }

  /** update succeeds exactly when every existing intermediate value on the path is a mapping. */
  lemma {:induction false} PutSucceedsIffOpen(v: Value, keys: seq<string>, x: Value)
    requires |keys| >= 1
    ensures Put(v, keys, x).Updated? <==> Open(v, keys)
    decreases |keys|
  {
    assert keys[..0] == [];
    if v.Dict? && |keys| > 1 {
      var child := if keys[0] in v.items then v.items[keys[0]] else Dict(map[]);
      PutSucceedsIffOpen(child, keys[1..], x);
      if keys[0] in v.items {
        forall i | 0 <= i < |keys| - 1
          ensures Lookup(v, keys[..i + 1]) == Lookup(child, keys[1..][..i])
        {
          LookupStep(v, keys, i);
        }
        if Open(child, keys[1..]) {
          forall i | 0 <= i < |keys| ensures Lookup(v, keys[..i]).Some? ==> Lookup(v, keys[..i]).value.Dict? {
            if i > 0 {
              assert Lookup(v, keys[..i]) == Lookup(child, keys[1..][..i - 1]);
            }
          }
        } else {
          var i :| 0 <= i < |keys| - 1 && Lookup(child, keys[1..][..i]).Some? && !Lookup(child, keys[1..][..i]).value.Dict?;
          assert Lookup(v, keys[..i + 1]) == Lookup(child, keys[1..][..i]);
        }
      } else {
        forall i | 0 <= i < |keys| - 1 ensures Lookup(child, keys[1..][..i]).Some? ==> Lookup(child, keys[1..][..i]).value.Dict? {
          EmptyLookup(keys[1..][..i]);
        }
        forall i | 0 < i < |keys| ensures Lookup(v, keys[..i]) == None {
          assert keys[..i][0] == keys[0];
        }
      }
    }
  }

  /** After update(p, x), get(p) finds x. */
  lemma {:induction false} PutThenLookup(v: Value, keys: seq<string>, x: Value)
    requires |keys| >= 1 && Put(v, keys, x).Updated?
    ensures Lookup(Put(v, keys, x).doc, keys) == Some(x)
    decreases |keys|
  {
    if |keys| > 1 {
      var child := if keys[0] in v.items then v.items[keys[0]] else Dict(map[]);
      PutThenLookup(child, keys[1..], x);
    }
  }

  /** After update(p, x), a path that parts from p reads what it read before. */
  lemma {:induction false} PutFrame(v: Value, keys: seq<string>, x: Value, q: seq<string>)
    requires |keys| >= 1 && Put(v, keys, x).Updated? && Diverge(keys, q)
    ensures Lookup(Put(v, keys, x).doc, q) == Lookup(v, q)
    decreases |keys|
  {
    var i :| 0 <= i < |keys| && i < |q| && keys[..i] == q[..i] && keys[i] != q[i];
    var w := Put(v, keys, x).doc;
    if i == 0 {
      var c := if |keys| == 1 then x else Put(if keys[0] in v.items then v.items[keys[0]] else Dict(map[]), keys[1..], x).doc;
      assert w.items == v.items[keys[0] := c];
      assert q[0] in w.items <==> q[0] in v.items;
    } else {
      assert keys[0] == keys[..i][0] == q[..i][0] == q[0];
      var child := if keys[0] in v.items then v.items[keys[0]] else Dict(map[]);
      assert keys[1..][..i - 1] == q[1..][..i - 1];
      assert keys[1..][i - 1] == keys[i] && q[1..][i - 1] == q[i];
      PutFrame(child, keys[1..], x, q[1..]);
      if keys[0] !in v.items {
        EmptyLookup(q[1..]);
      }
    }
  }

  /**
    After update(p, x), each mapping on the way to the last key has the keys it
    had before (none, when it was created) plus the next key of p.
  */
  lemma {:induction false} PutPrefix(v: Value, keys: seq<string>, x: Value, i: nat)
    requires |keys| >= 1 && Put(v, keys, x).Updated? && i < |keys|
    ensures Lookup(Put(v, keys, x).doc, keys[..i]).Some?
    ensures Lookup(Put(v, keys, x).doc, keys[..i]).value.Dict?
    ensures Lookup(Put(v, keys, x).doc, keys[..i]).value.items.Keys ==
      (match Lookup(v, keys[..i]) case Some(Dict(m)) => m.Keys case _ => {}) + {keys[i]}
    decreases |keys|
  {
    var w := Put(v, keys, x).doc;
    if i == 0 {
      assert keys[..0] == [];
    } else {
      var child := if keys[0] in v.items then v.items[keys[0]] else Dict(map[]);
      PutPrefix(child, keys[1..], x, i - 1);
      LookupStep(w, keys, i - 1);
      if keys[0] in v.items {
        LookupStep(v, keys, i - 1);
      } else {
        EmptyLookup(keys[1..][..i - 1]);
        assert keys[..i][0] == keys[0];
        assert Lookup(v, keys[..i]) == None;
      }
    }
  }

  /** After update(p, x), a path below p reads what it reads from x. */
  lemma PutBelow(v: Value, keys: seq<string>, x: Value, rest: seq<string>)
    requires |keys| >= 1 && Put(v, keys, x).Updated?
    ensures Lookup(Put(v, keys, x).doc, keys + rest) == Lookup(x, rest)
  {
    LookupAppend(Put(v, keys, x).doc, keys, rest);
    PutThenLookup(v, keys, x);
  }

  // ---------------------------------------------------------------------
  // The update walk, step by step
  // ---------------------------------------------------------------------

  /** The mappings passed on the way down, each with its key set to the value below it. */
  function Plug(parents: seq<map<string, Value>>, keys: seq<string>, inner: Value): Value
    requires |parents| <= |keys|
    decreases |parents|
  {
    if parents == [] then inner
    else
      var n := |parents| - 1;
      Plug(parents[..n], keys, Dict(parents[n][keys[n] := inner]))
  }

  function Lift(parents: seq<map<string, Value>>, keys: seq<string>, r: Outcome): Outcome
    requires |parents| <= |keys|
  {
    match r
    case TypeError => TypeError
    case Updated(d) => Updated(Plug(parents, keys, d))
  }

  class ConfigManager {
    var configPath: string
    var config: Value

    /**
      __init__ and _load_config: no path means the packaged default, and an
      empty or false document loads as an empty mapping. The file is read
      elsewhere: loaded is what yaml.safe_load returned for it.
    */
    constructor (configPath: Option<string>, defaultPath: string, loaded: Value)
      ensures this.configPath == (if configPath.Some? then configPath.value else defaultPath)
      ensures config == (if Truthy(loaded) then loaded else Dict(map[]))
    {
      this.configPath := if configPath.Some? then configPath.value else defaultPath;
      config := if Truthy(loaded) then loaded else Dict(map[]);
    }

    /** get: the value at the dotted path, or the default when some key is missing or not in a mapping. */
    method Get(keyPath: string, default: Value) returns (r: Value)
      ensures Lookup(config, KeyPath(keyPath)).Some? ==> r == Lookup(config, KeyPath(keyPath)).value
      ensures Lookup(config, KeyPath(keyPath)).None? ==> r == default
    {
      var keys := KeyPath(keyPath);
      var value := config;
      for i := 0 to |keys|
        invariant Lookup(config, keys) == Lookup(value, keys[i..])
      {
        assert keys[i..][0] == keys[i] && keys[i..][1..] == keys[i + 1..];
        if value.Dict? && keys[i] in value.items {
          value := value.items[keys[i]];
        } else {
          return default;
        }
      }
      assert keys[|keys|..] == [];
      r := value;
    }

    /** get_section: the mapping at the path, or an empty one. */
    method GetSection(section: string) returns (r: Value)
      ensures Lookup(config, KeyPath(section)).Some? ==> r == Lookup(config, KeyPath(section)).value
      ensures Lookup(config, KeyPath(section)).None? ==> r == Dict(map[])
    {
      r := Get(section, Dict(map[]));
    }

    /**
      update: walk the mappings to the parent of the last key, creating the
      missing ones, then set the last key. A value on the way that is not a
      mapping raises TypeError before anything is changed.
    */
    method Update(keyPath: string, value: Value) returns (ok: bool)
      modifies this
      ensures ok == Put(old(config), KeyPath(keyPath), value).Updated?
      ensures config == (if ok then Put(old(config), KeyPath(keyPath), value).doc else old(config))
      ensures configPath == old(configPath)
    {
      var keys := KeyPath(keyPath);
      var node := config;
      var parents: seq<map<string, Value>> := [];
      for i := 0 to |keys| - 1
        invariant |parents| == i
        invariant Put(config, keys, value) == Lift(parents, keys, Put(node, keys[i..], value))
      {
        if !node.Dict? {
          return false;
        }
        var key := keys[i];
        var child := if key in node.items then node.items[key] else Dict(map[]);
        assert keys[i..][0] == key && keys[i..][1..] == keys[i + 1..];
        assert (parents + [node.items])[..i] == parents;
        parents := parents + [node.items];
        node := child;
      }
      var last := |keys| - 1;
      assert keys[last..] == [keys[last]];
      if !node.Dict? {
        return false;
      }
      config := Rebuild(parents, keys, Dict(node.items[keys[last] := value]));
      ok := true;
    }

    /** The mappings of the walk, from the innermost out, each given its new child. */
    static method Rebuild(parents: seq<map<string, Value>>, keys: seq<string>, inner: Value) returns (r: Value)
      requires |parents| <= |keys|
      ensures r == Plug(parents, keys, inner)
    {
      r := inner;
      var j := |parents|;
      assert parents[..j] == parents;
      while j > 0
        invariant 0 <= j <= |parents|
        invariant Plug(parents[..j], keys, r) == Plug(parents, keys, inner)
      {
        assert parents[..j][..j - 1] == parents[..j - 1];
        r := Dict(parents[j - 1][keys[j - 1] := r]);
        j := j - 1;
      }
    }
  }

  /** The module-level _global_config. */
  class Registry {
    var global: ConfigManager?

    constructor ()
      ensures global == null
    {
      global := null;
    }

    /** get_config: the first call builds the manager; every later call returns it and ignores its arguments. */
    method GetConfig(configPath: Option<string>, defaultPath: string, loaded: Value) returns (c: ConfigManager)
      modifies this
      ensures old(global) != null ==> c == old(global)
      ensures old(global) == null ==>
        (fresh(c) &&
         c.configPath == (if configPath.Some? then configPath.value else defaultPath) &&
         c.config == (if Truthy(loaded) then loaded else Dict(map[])))
      ensures global == c
    {
      if global == null {
        global := new ConfigManager(configPath, defaultPath, loaded);
      }
      c := global;
    }
  }
}
