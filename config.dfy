/** The scraper's and the server's configuration store: one JSON document held
    by a single shared `Config` object, read and written with dotted keys
    ("provider.credentials.username") and written back to its file after
    every change. Nested dictionaries are values here; the write-back that
    Python gets from the dictionaries being shared references is `Rebuild`. */
module ConfigStore {
  import opened Js
  import opened Text

  /** A JSON value as `json.load` returns it. */
  datatype Json =
    | JNull
    | JBool(b: bool)
    | JNum(n: real)
    | JStr(s: string)
    | JList(items: seq<Json>)
    | JDict(fields: map<string, Json>)

  /** The exceptions the store raises; `CorruptConfig` is the `Exception`
      raised for a config file that is not valid JSON. */
  datatype PyError = KeyError | TypeError | AttributeError | CorruptConfig

  datatype Result<T> = Ok(value: T) | Err(error: PyError)

  /** What opening the config file finds. */
  datatype ConfigFile = Missing | Corrupt | Loaded(json: Json)

  // ------------------------------------------------------------ reading

  /** `current = current[k]` for every key in turn: a dictionary without the
      key raises KeyError, any other value raises TypeError (lists, strings
      and numbers cannot be indexed by a string). Reading never raises
      anything else, so `get` turns every failed read into its default. */
  function Lookup(j: Json, keys: seq<string>): (r: Result<Json>)
    ensures r.Err? ==> r.error == KeyError || r.error == TypeError
    decreases |keys|
  {
    if keys == [] then Ok(j)
    else match j
      case JDict(m) => if keys[0] in m then Lookup(m[keys[0]], keys[1..]) else Err(KeyError)
      case _ => Err(TypeError)
  }

  /** Reading a longer key is reading its first part, then the rest from
      what was found. */
  lemma {:induction false} LookupAppend(j: Json, a: seq<string>, b: seq<string>)
    ensures Lookup(j, a + b) == match Lookup(j, a) case Ok(x) => Lookup(x, b) case Err(e) => Err(e)
    decreases |a|
  {
    if a == [] {
      assert a + b == b;
    } else {
      assert (a + b)[0] == a[0];
      assert (a + b)[1..] == a[1..] + b;
      if j.JDict? && a[0] in j.fields {
        LookupAppend(j.fields[a[0]], a[1..], b);
      }
    }
  }

  // ------------------------------------------------------------ writing

  /** `keys[:-1]`: the dictionaries a write walks through. */
  function Path(key: string): seq<string>
  {
    var keys := Split(key, '.');
    keys[..|keys| - 1]
  }

  /** `keys[-1]`: the key a write assigns. */
  function Last(key: string): string
  {
    var keys := Split(key, '.');
    keys[|keys| - 1]
  }

  /** The walk and the assigned key make up the whole dotted key. */
  lemma PathLast(key: string)
    ensures Path(key) + [Last(key)] == Split(key, '.')
    ensures |Path(key)| == |Split(key, '.')| - 1
  {
  }

  /** `current = current.setdefault(k, {})` for every key of `path`, then
      `current[last] = value`: a missing key on the way gets an empty
      dictionary, an existing value that is not a dictionary raises
      AttributeError when the walk goes on through it and TypeError when it
      is the one assigned into. The result is the whole new document. */
  function Assign(j: Json, path: seq<string>, last: string, value: Json): (r: Result<Json>)
    ensures r.Ok? ==> r.value.JDict?
    ensures r.Err? ==> r.error == TypeError || r.error == AttributeError
    ensures r.Err? ==> !j.JDict? || path != []
    decreases |path|
  {
    match j
    case JDict(m) =>
      if path == [] then Ok(JDict(m[last := value]))
      else
        var child := if path[0] in m then m[path[0]] else JDict(map[]);
        (match Assign(child, path[1..], last, value)
         case Ok(c) => Ok(JDict(m[path[0] := c]))
         case Err(e) => Err(e))
    case _ => if path == [] then Err(TypeError) else Err(AttributeError)
  }

  /** After a write the dictionary at the end of the walk holds the value
      under the assigned key. */
  lemma {:induction false} AssignInner(j: Json, path: seq<string>, last: string, value: Json)
    requires Assign(j, path, last, value).Ok?
    ensures var inner := Lookup(Assign(j, path, last, value).value, path);
      inner.Ok? && inner.value.JDict? && last in inner.value.fields && inner.value.fields[last] == value
    decreases |path|
  {
    if path != [] {
      var m := j.fields;
      var child := if path[0] in m then m[path[0]] else JDict(map[]);
      AssignInner(child, path[1..], last, value);
    }
  }

  /** A write that succeeds is read back under the same dotted key. */
  lemma SetThenGet(j: Json, key: string, value: Json)
    requires Assign(j, Path(key), Last(key), value).Ok?
    ensures Lookup(Assign(j, Path(key), Last(key), value).value, Split(key, '.')) == Ok(value)
  {
    var a := Assign(j, Path(key), Last(key), value).value;
    AssignInner(j, Path(key), Last(key), value);
    LookupAppend(a, Path(key), [Last(key)]);
    PathLast(key);
  }

  /** A write changes nothing away from the written key: a key that was
      readable before and neither leads to the written key nor lies under it
      reads the same afterwards. */
  lemma {:induction false} AssignFrame(j: Json, path: seq<string>, last: string, value: Json, q: seq<string>)
    requires Assign(j, path, last, value).Ok?
    requires Lookup(j, q).Ok?
    requires !(q <= path + [last]) && !(path + [last] <= q)
    ensures Lookup(Assign(j, path, last, value).value, q) == Lookup(j, q)
    decreases |path|
  {
    var target := path + [last];
    assert [] <= target;
    var m := j.fields;
    if path != [] && q[0] == path[0] {
      var rest := path[1..];
      assert target == [path[0]] + (rest + [last]);
      assert q == [q[0]] + q[1..];
      assert !(q[1..] <= rest + [last]);
      assert !(rest + [last] <= q[1..]);
      AssignFrame(m[path[0]], rest, last, value, q[1..]);
    } else if path == [] {
      assert [q[0]] <= q;
    }
  }

  /** Some value met along the walk is not a dictionary. */
  ghost predicate Blocked(j: Json, path: seq<string>)
  {
    exists i :: 0 <= i <= |path| && Lookup(j, path[..i]).Ok? && !Lookup(j, path[..i]).value.JDict?
  }

  /** A write fails exactly when the walk meets an existing value that is not
      a dictionary; missing keys never make it fail. */
  lemma {:induction false} AssignFails(j: Json, path: seq<string>, last: string, value: Json)
    ensures Assign(j, path, last, value).Err? <==> Blocked(j, path)
    decreases |path|
  {
    assert path[..0] == [];
    if j.JDict? && path != [] {
      var m := j.fields;
      var rest := path[1..];
      if path[0] in m {
        AssignFails(m[path[0]], rest, last, value);
        BlockedStep(j, path);
      } else {
        AssignFails(JDict(map[]), rest, last, value);
        NotBlockedFresh(rest);
        forall i | 1 <= i <= |path| ensures Lookup(j, path[..i]) == Err(KeyError) {
          assert path[..i][0] == path[0];
        }
      }
    }
  }

  /** Past a dictionary holding the first key, the walk is blocked exactly
      when it is blocked from that key's value on. */
  lemma BlockedStep(j: Json, path: seq<string>)
    requires j.JDict? && path != [] && path[0] in j.fields
    ensures Blocked(j, path) <==> Blocked(j.fields[path[0]], path[1..])
  {
    var child, rest := j.fields[path[0]], path[1..];
    forall i | 0 <= i < |path| ensures Lookup(j, path[..i + 1]) == Lookup(child, rest[..i]) {
      assert path[..i + 1][0] == path[0] && path[..i + 1][1..] == rest[..i];
    }
    if Blocked(j, path) {
      var i :| 0 <= i <= |path| && Lookup(j, path[..i]).Ok? && !Lookup(j, path[..i]).value.JDict?;
      assert i != 0;
      assert Lookup(child, rest[..i - 1]) == Lookup(j, path[..i]);
    }
    if Blocked(child, rest) {
      var i :| 0 <= i <= |rest| && Lookup(child, rest[..i]).Ok? && !Lookup(child, rest[..i]).value.JDict?;
      assert Lookup(j, path[..i + 1]) == Lookup(child, rest[..i]);
    }
  }

  /** A freshly created empty dictionary never blocks a walk. */
  lemma NotBlockedFresh(path: seq<string>)
    ensures !Blocked(JDict(map[]), path)
  {
    forall i | 0 <= i <= |path| ensures !(Lookup(JDict(map[]), path[..i]).Ok? && !Lookup(JDict(map[]), path[..i]).value.JDict?) {
      assert i == 0 ==> path[..i] == [];
    }
  }

  /** The dictionaries passed on the way down, rewritten from the bottom up
      with the changed child under each walked key. */
  function Rebuild(frames: seq<map<string, Json>>, keys: seq<string>, node: Json): Json
    requires |frames| == |keys|
    decreases |frames|
  {
    if frames == [] then node
    else
      var n := |frames| - 1;
      Rebuild(frames[..n], keys[..n], JDict(frames[n][keys[n] := node]))
  }

  /** The rebuilt document holds the new node at the end of the walk. */
  lemma {:induction false} RebuildLookup(frames: seq<map<string, Json>>, keys: seq<string>, node: Json)
    requires |frames| == |keys|
    ensures Lookup(Rebuild(frames, keys, node), keys) == Ok(node)
    decreases |frames|
  {
    if frames != [] {
      var n := |frames| - 1;
      var up := JDict(frames[n][keys[n] := node]);
      RebuildLookup(frames[..n], keys[..n], up);
      assert keys[..n] + [keys[n]] == keys;
      LookupAppend(Rebuild(frames, keys, node), keys[..n], [keys[n]]);
    }
  }

  /** The outcome of the rest of a walk, rebuilt into the whole document. */
  function Lift(frames: seq<map<string, Json>>, keys: seq<string>, r: Result<Json>): Result<Json>
    requires |frames| == |keys|
  {
    match r
    case Ok(x) => Ok(Rebuild(frames, keys, x))
    case Err(e) => Err(e)
  }

  /** One step down the walk: stepping into a dictionary and remembering it
      keeps the outcome of the whole write. */
  lemma AssignStep(frames: seq<map<string, Json>>, keys: seq<string>, m: map<string, Json>,
                   path: seq<string>, last: string, value: Json)
    requires |frames| == |keys| && path != []
    ensures Lift(frames + [m], keys + [path[0]],
                 Assign(if path[0] in m then m[path[0]] else JDict(map[]), path[1..], last, value))
         == Lift(frames, keys, Assign(JDict(m), path, last, value))
  {
    var n := |frames|;
    assert (frames + [m])[..n] == frames;
    assert (keys + [path[0]])[..n] == keys;
  }

  // -------------------------------------------------------------- store

  /** The shared configuration object. `contents` is None while the
      attribute has never been set (the file was corrupt); `saved` is what
      `save` has written, by file path. */
  class Config {
    var filepath: string
    var initialized: bool
    var contents: Option<Json>
    var saved: map<string, Json>

    /** `super().__new__(cls)` followed by `_initialized = False`. */
    constructor()
      ensures !initialized && contents == None && saved == map[]
    {
      filepath := "";
      initialized := false;
      contents := None;
      saved := map[];
    }

    /** `__init__`: the path is always replaced; the file is read only the
        first time. A missing file gives an empty document, which is written
        out; a corrupt one raises, leaving the object marked initialised
        without contents. */
    method Init(path: string, file: ConfigFile) returns (r: Result<()>)
      modifies this
      ensures filepath == path && initialized
      ensures old(initialized) ==> contents == old(contents) && saved == old(saved) && r == Ok(())
      ensures !old(initialized) ==> match file
        case Loaded(j) => contents == Some(j) && saved == old(saved) && r == Ok(())
        case Missing => contents == Some(JDict(map[])) && saved == old(saved)[path := JDict(map[])] && r == Ok(())
        case Corrupt => contents == old(contents) && saved == old(saved) && r == Err(CorruptConfig)
    {
      filepath := path;
      if initialized {
        return Ok(());
      }
      initialized := true;
      if file.Corrupt? {
        return Err(CorruptConfig);
      }
      if file.Missing? {
        contents := Some(JDict(map[]));
        Save();
      } else {
        contents := Some(file.json);
      }
      r := Ok(());
    }

    /** `save`: the document is written to the current path. */
    method Save()
      requires contents.Some?
      modifies this
      ensures contents == old(contents) && filepath == old(filepath) && initialized == old(initialized)
      ensures saved == old(saved)[filepath := contents.value]
    {
      saved := saved[filepath := contents.value];
    }

    /** `self[key]`: the value under the dotted key. */
    method GetItem(key: string) returns (r: Result<Json>)
      ensures contents.None? ==> r == Err(AttributeError)
      ensures contents.Some? ==> r == Lookup(contents.value, Split(key, '.'))
    {
      if contents.None? {
        return Err(AttributeError);
      }
      var keys := Split(key, '.');
      var root := contents.value;
      var current := root;
      var i := 0;
      while i < |keys|
        invariant 0 <= i <= |keys|
        invariant Lookup(current, keys[i..]) == Lookup(root, keys)
      {
        assert keys[i..][1..] == keys[i + 1..];
        if !current.JDict? {
          return Err(TypeError);
        }
        if keys[i] !in current.fields {
          return Err(KeyError);
        }
        current := current.fields[keys[i]];
        i := i + 1;
      }
      r := Ok(current);
    }

    /** `self[key] = value`: walks down with `setdefault`, assigns, checks
        the innermost dictionary against the schema (`valid`) and saves. A
        failed check is only reported (`r == Ok(true)`); the change is kept
        and saved all the same. A write that raises changes nothing. */
    method SetItem(key: string, value: Json, valid: Json -> bool) returns (r: Result<bool>)
      modifies this
      ensures filepath == old(filepath) && initialized == old(initialized)
      ensures old(contents).None? ==> r == Err(AttributeError) && contents == old(contents) && saved == old(saved)
      ensures old(contents).Some? ==>
        var a := Assign(old(contents).value, Path(key), Last(key), value);
        (a.Err? ==> r == Err(a.error) && contents == old(contents) && saved == old(saved))
        && (a.Ok? ==> contents == Some(a.value) && saved == old(saved)[filepath := a.value]
                      && Lookup(a.value, Path(key)).Ok? && r == Ok(!valid(Lookup(a.value, Path(key)).value)))
    {
      if contents.None? {
        return Err(AttributeError);
      }
      var keys := Split(key, '.');
      var path, last := keys[..|keys| - 1], keys[|keys| - 1];
      var root := contents.value;
      var current := root;
      var frames: seq<map<string, Json>> := [];
      var i := 0;
      while i < |path|
        invariant 0 <= i <= |path| && |frames| == i
        invariant contents == old(contents) && saved == old(saved)
        invariant filepath == old(filepath) && initialized == old(initialized)
        invariant Lift(frames, path[..i], Assign(current, path[i..], last, value)) == Assign(root, path, last, value)
      {
        if !current.JDict? {
          return Err(AttributeError);
        }
        var m := current.fields;
        AssignStep(frames, path[..i], m, path[i..], last, value);
        assert path[i..][1..] == path[i + 1..] && path[..i] + [path[i]] == path[..i + 1];
        frames := frames + [m];
        current := if path[i] in m then m[path[i]] else JDict(map[]);
        i := i + 1;
      }
      assert path[..i] == path && path[i..] == [];
      if !current.JDict? {
        return Err(TypeError);
      }
      var inner := JDict(current.fields[last := value]);
      var reported := !valid(inner);
      RebuildLookup(frames, path, inner);
      contents := Some(Rebuild(frames, path, inner));
      Save();
      r := Ok(reported);
    }

    /** `get(key, default)`: the value under the dotted key, or `default`
        when reading raises KeyError or TypeError. */
    method Get(key: string, default: Json) returns (r: Result<Json>)
      ensures contents.None? ==> r == Err(AttributeError)
      ensures contents.Some? ==> r == Ok(match Lookup(contents.value, Split(key, '.')) case Ok(v) => v case Err(_) => default)
    {
      var item := GetItem(key);
      match item
      case Ok(v) =>
        r := Ok(v);
      case Err(e) =>
        if e == KeyError || e == TypeError {
          r := Ok(default);
        } else {
          r := Err(e);
        }
    }
  }

  /** The class object with its `_instance`. Once created, the instance is
      always initialised. */
  class ConfigClass {
    var instance: Config?

    ghost predicate Valid()
      reads this, instance
    {
      instance != null ==> instance.initialized
    }

    constructor()
      ensures instance == null && Valid()
    {
      instance := null;
    }

    /** `Config(filepath)`: `__new__` creates the one instance on the first
        call and returns it on every call; `__init__` then points it at the
        new path, but only the first call reads a file. */
    method New(path: string, file: ConfigFile) returns (c: Config, r: Result<()>)
      requires Valid()
      modifies this, instance
      ensures Valid() && instance == c
      ensures c.filepath == path
      ensures old(instance) != null ==>
        c == old(instance) && c.contents == old(instance.contents) && c.saved == old(instance.saved) && r == Ok(())
      ensures old(instance) == null ==> fresh(c) && match file
        case Loaded(j) => c.contents == Some(j) && c.saved == map[] && r == Ok(())
        case Missing => c.contents == Some(JDict(map[])) && c.saved == map[path := JDict(map[])] && r == Ok(())
        case Corrupt => c.contents == None && c.saved == map[] && r == Err(CorruptConfig)
    {
      if instance == null {
        instance := new Config();
      }
      c := instance;
      r := c.Init(path, file);
    }
  }

  // ------------------------------------------------------------ db name

  /** `get_db_name` of the server: the provider's name without spaces and in
      lower case, an underscore, the first twelve hex digits of the
      username's SHA-256 (`hexDigest`) and ".csv". Reading a missing key
      raises KeyError; a name or username that is not a string raises
      AttributeError (`replace` / `encode`). */
  function DbName(contents: Option<Json>, hexDigest: string -> string): (r: Result<string>)
    ensures r.Err? ==> r.error != CorruptConfig
    ensures r.Ok? ==> |r.value| >= 5 && r.value[|r.value| - 4..] == ".csv"
  {
    if contents.None? then Err(AttributeError)
    else match Lookup(contents.value, ["provider", "provider_name"])
      case Err(e) => Err(e)
      case Ok(p) =>
        if !p.JStr? then Err(AttributeError)
        else match Lookup(contents.value, ["provider", "credentials", "username"])
          case Err(e) => Err(e)
          case Ok(u) =>
            if !u.JStr? then Err(AttributeError)
            else Ok(LowerString(Remove(p.s, ' ')) + "_" + Take(hexDigest(u.s), 12) + ".csv")
  }

  /** `get_db_name` of the scraper: a missing key gives None ("Unconfigured.")
      instead of raising. */
  function ScraperDbName(contents: Option<Json>, hexDigest: string -> string): (r: Result<Option<string>>)
    ensures r.Err? ==> r.error == TypeError || r.error == AttributeError
  {
    match DbName(contents, hexDigest)
    case Ok(name) => Ok(Some(name))
    case Err(KeyError) => Ok(None)
    case Err(e) => Err(e)
  }

  /** With both names configured as strings, the file name is the provider's
      name squeezed and lower-cased, then the username's short hash: no
      space and no upper-case letter in the provider part, at most twelve
      digits of hash. Both copies agree. */
  lemma DbNameRule(contents: Option<Json>, hexDigest: string -> string, provider: string, username: string)
    requires contents.Some?
    requires Lookup(contents.value, ["provider", "provider_name"]) == Ok(JStr(provider))
    requires Lookup(contents.value, ["provider", "credentials", "username"]) == Ok(JStr(username))
    ensures var prefix := LowerString(Remove(provider, ' '));
      var hash := Take(hexDigest(username), 12);
      && DbName(contents, hexDigest) == Ok(prefix + "_" + hash + ".csv")
      && ScraperDbName(contents, hexDigest) == Ok(Some(prefix + "_" + hash + ".csv"))
      && ' ' !in prefix
      && (forall i :: 0 <= i < |prefix| ==> !IsUpper(prefix[i]))
      && |hash| <= 12
  {
    var squeezed := Remove(provider, ' ');
    var prefix := LowerString(squeezed);
    forall i | 0 <= i < |prefix| ensures prefix[i] != ' ' {
      assert squeezed[i] != ' ';
    }
  }

  /** Without a provider section the scraper's copy answers None, while the
      server's raises KeyError. */
  lemma Unconfigured(contents: Option<Json>, hexDigest: string -> string)
    requires contents.Some? && contents.value.JDict? && "provider" !in contents.value.fields
    ensures DbName(contents, hexDigest) == Err(KeyError)
    ensures ScraperDbName(contents, hexDigest) == Ok(None)
  {
  }

  /** The two copies differ only on KeyError: every other outcome, a name or
      another exception, is the same. */
  lemma CopiesAgree(contents: Option<Json>, hexDigest: string -> string)
    ensures ScraperDbName(contents, hexDigest) == Ok(None) <==> DbName(contents, hexDigest) == Err(KeyError)
    ensures DbName(contents, hexDigest).Ok? ==> ScraperDbName(contents, hexDigest) == Ok(Some(DbName(contents, hexDigest).value))
    ensures DbName(contents, hexDigest).Err? && DbName(contents, hexDigest).error != KeyError
      ==> ScraperDbName(contents, hexDigest) == Err(DbName(contents, hexDigest).error)
  {
  }
}
