/**
 * sed/core/config.py: loading configuration files by suffix, completing a dict
 * from a base dict, and the precedence chain of `parse_config`
 * (explicit config, then folder, then user, then default).
 */
module Config {
  import opened Wrappers
  import opened Values
  import opened Completion

  /**
   * Where a configuration comes from, as the caller resolved it:
   * - `Absent`: no dict and no existing path. For the folder and user
   *   configs this is a path that does not exist (the `Path.exists` test of
   *   sed/core/config.py:65 and :77 fails), so the layer is skipped; for the
   *   explicit config it is `config=None`, which becomes `{}`.
   * - `InMemory(d)`: a dict passed directly.
   * - `File(path, isFile, content)`: a path that exists. `isFile` says
   *   whether it is a regular file (`load_config` raises FileNotFoundError
   *   when it is not), and `content` is what the json/yaml parser yields
   *   (reading and parsing are not modelled).
   * A default config is always a dict or a path: `default_config=None`, which
   * fails at `Path(None)` with TypeError, is not represented.
   */
  datatype Source =
    | Absent
    | InMemory(d: seq<Entry>)
    | File(path: string, isFile: bool, content: seq<Entry>)

  /** The final component of a slash-separated path. */
  function BaseName(path: string): (name: string)
    ensures forall i :: 0 <= i < |name| ==> name[i] != '/'
    decreases |path|
  {
    if |path| == 0 then ""
    else if path[|path| - 1] == '/' then ""
    else BaseName(path[..|path| - 1]) + [path[|path| - 1]]
  }

  /** The position of the last '.' in `s`, or -1. */
  function LastDot(s: string): (i: int)
    ensures -1 <= i < |s|
    ensures i >= 0 ==> s[i] == '.' && forall j :: i < j < |s| ==> s[j] != '.'
    ensures i == -1 ==> forall j :: 0 <= j < |s| ==> s[j] != '.'
  {
    if |s| == 0 then -1
    else if s[|s| - 1] == '.' then |s| - 1
    else LastDot(s[..|s| - 1])
  }

  /** pathlib's `suffix`: from the last dot of the final component, unless that dot is first or last. */
  function Suffix(path: string): (sfx: string)
    ensures sfx != [] ==> sfx[0] == '.' && |sfx| >= 2
    ensures sfx != [] ==> forall j :: 1 <= j < |sfx| ==> sfx[j] != '.' && sfx[j] != '/'
    ensures sfx != [] ==> |sfx| <= |path| && path[|path| - |sfx|..] == sfx
  {
    var name := BaseName(path);
    var i := LastDot(name);
    if 0 < i < |name| - 1 then
      BaseNameIsSuffix(path);
      name[i..]
    else ""
  }

  lemma {:induction false} BaseNameIsSuffix(path: string)
    ensures |BaseName(path)| <= |path| && path[|path| - |BaseName(path)|..] == BaseName(path)
    decreases |path|
  {
    if |path| > 0 && path[|path| - 1] != '/' {
      BaseNameIsSuffix(path[..|path| - 1]);
    }
  }

  /**
   * `load_config`: a path that is not a file raises FileNotFoundError; a file
   * whose suffix is neither ".json" nor ".yaml" raises TypeError.
   */
  function LoadConfig(path: string, isFile: bool, content: seq<Entry>): (r: Result<seq<Entry>>)
    ensures !isFile ==> r == Err(FileNotFoundError)
    ensures isFile && Suffix(path) in {".json", ".yaml"} ==> r == Ok(content)
    ensures isFile && Suffix(path) !in {".json", ".yaml"} ==> r == Err(TypeError)
  {
    if !isFile then Err(FileNotFoundError)
    else if Suffix(path) == ".json" || Suffix(path) == ".yaml" then Ok(content)
    else Err(TypeError)
  }

  /**
   * `complete_dictionary`: for each base entry in order, a missing key is
   * copied, a nested dict on both sides is completed recursively, a base dict
   * against a non-dict raises ValueError, and an existing value is otherwise kept.
   */
  method CompleteDictionary(dictionary: seq<Entry>, base: seq<Entry>) returns (r: Result<seq<Entry>>)
    ensures r == Fill(dictionary, base, Strict)
    decreases Dict(base), 0
  {
    var d := dictionary;
    var i := 0;
    while i < |base|
      invariant 0 <= i <= |base|
      invariant FillFrom(d, base, i, Strict) == Fill(dictionary, base, Strict)
    {
      var k := base[i].key;
      var x := CompleteEntry(Get(d, k), base[i].val);
      if x.Err? {
        StepErr(d, base, i, Strict);
        return Err(x.error);
      }
      StepOk(d, base, i, Strict, x.value);
      if Get(d, k).None? || base[i].val.Dict? {
        d := Put(d, k, x.value);
      } else {
        PutSame(d, k);
      }
      i := i + 1;
    }
    return Ok(d);
  }

  /**
   * The loop body of `complete_dictionary` for one base entry `v` against the
   * current value `cur` under its key: the value stored, or the exception.
   */
  method CompleteEntry(cur: Option<Value>, v: Value) returns (x: Result<Value>)
    ensures x == EntryFill(cur, v, Strict)
    ensures x.Err? ==> x.error == ValueError
    decreases v, 1
  {
    EntryFillErrorKind(cur, v, Strict);
    if v.Dict? && cur.Some? {
      if !cur.value.Dict? {
        return Err(ValueError);
      }
      assert Dict(v.entries) == v;
      var sub := CompleteDictionary(cur.value.entries, v.entries);
      if sub.Err? {
        return Err(sub.error);
      }
      return Ok(Dict(sub.value));
    } else if cur.None? {
      return Ok(v);
    } else {
      return Ok(cur.value);
    }
  }

  /** Completing `d` from each layer in turn, stopping at the first error. */
  function Chain(d: seq<Entry>, layers: seq<seq<Entry>>): Result<seq<Entry>>
    decreases |layers|
  {
    if |layers| == 0 then Ok(d)
    else
      match Fill(d, layers[0], Strict)
      case Err(e) => Err(e)
      case Ok(d') => Chain(d', layers[1..])
  }

  /** The value under `k` in the first of `dicts` that has the key. */
  function FirstWith(dicts: seq<seq<Entry>>, k: string): Option<Value>
    decreases |dicts|
  {
    if |dicts| == 0 then None
    else if Get(dicts[0], k).Some? then Get(dicts[0], k)
    else FirstWith(dicts[1..], k)
  }

  function KeysOfAll(dicts: seq<seq<Entry>>): set<string>
    decreases |dicts|
  {
    if |dicts| == 0 then {} else Keys(dicts[0]) + KeysOfAll(dicts[1..])
  }

  predicate AllDistinct(dicts: seq<seq<Entry>>)
  {
    forall i :: 0 <= i < |dicts| ==> DistinctKeys(dicts[i])
  }

  /**
   * Precedence: every key of every source is present, and a key whose first
   * holder (in the order given) holds a non-dict keeps exactly that value.
   */
  lemma {:induction false} ChainPrecedence(d: seq<Entry>, layers: seq<seq<Entry>>, k: string)
    requires DistinctKeys(d) && AllDistinct(layers)
    requires Chain(d, layers).Ok?
    ensures Keys(Chain(d, layers).value) == KeysOfAll([d] + layers)
    ensures FirstWith([d] + layers, k).Some? && FirstWith([d] + layers, k).value.Leaf? ==>
              Get(Chain(d, layers).value, k) == FirstWith([d] + layers, k)
    ensures FirstWith([d] + layers, k).None? ==> Get(Chain(d, layers).value, k).None?
    decreases |layers|
  {
    assert ([d] + layers)[1..] == layers;
    if |layers| == 0 {
      assert KeysOfAll([d]) == Keys(d) by { assert [d][1..] == []; }
    } else {
      var d' := Fill(d, layers[0], Strict).value;
      FillGet(d, layers[0], Strict, k);
      FillKeys(d, layers[0], Strict);
      ChainPrecedence(d', layers[1..], k);
      assert ([d'] + layers[1..])[1..] == layers[1..];
      assert ([d] + layers)[1..][1..] == layers[1..];
      assert FirstWith([d] + layers, k) == if Get(d, k).Some? then Get(d, k) else FirstWith(layers, k);
      assert FirstWith(layers, k) == if Get(layers[0], k).Some? then Get(layers[0], k) else FirstWith(layers[1..], k);
    }
  }

  /** The sources that contributed, in precedence order after the explicit config. */
  function Layers(folder: Option<seq<Entry>>, user: Option<seq<Entry>>, default: seq<Entry>): seq<seq<Entry>>
  {
    (if folder.Some? then [folder.value] else [])
      + (if user.Some? then [user.value] else [])
      + [default]
  }

  /**
   * The folder and user sources: a dict is used as is, a path that does not
   * exist (`Absent`) is skipped, an existing path is loaded, so one that is
   * not a regular file raises FileNotFoundError.
   */
  function LoadOptional(src: Source): Result<Option<seq<Entry>>>
  {
    match src
    case Absent => Ok(None)
    case InMemory(d) => Ok(Some(d))
    case File(p, isFile, c) =>
      match LoadConfig(p, isFile, c)
      case Err(e) => Err(e)
      case Ok(d) => Ok(Some(d))
  }

  /**
   * The explicit config and the default: a dict is used as is, a path is
   * loaded; no explicit config (`Absent`) means `{}`.
   */
  function LoadRequired(src: Source): Result<seq<Entry>>
  {
    match src
    case Absent => Ok([])
    case InMemory(d) => Ok(d)
    case File(p, isFile, c) => LoadConfig(p, isFile, c)
  }

  /**
   * The four sources loaded in the order config, folder, user, default: the
   * explicit config and the layers to complete it from, or the first load error.
   */
  function LoadAll(config: Source, folderConfig: Source, userConfig: Source, defaultConfig: Source)
    : Result<(seq<Entry>, seq<seq<Entry>>)>
  {
    var c :- LoadRequired(config);
    var f :- LoadOptional(folderConfig);
    var u :- LoadOptional(userConfig);
    var d :- LoadRequired(defaultConfig);
    Ok((c, Layers(f, u, d)))
  }

  /** The four loads in order: the first one that fails decides the error. */
  lemma {:induction false} LoadAllCases(config: Source, folderConfig: Source, userConfig: Source, defaultConfig: Source)
    ensures LoadRequired(config).Err? ==>
              LoadAll(config, folderConfig, userConfig, defaultConfig) == Err(LoadRequired(config).error)
    ensures LoadRequired(config).Ok? && LoadOptional(folderConfig).Err? ==>
              LoadAll(config, folderConfig, userConfig, defaultConfig) == Err(LoadOptional(folderConfig).error)
    ensures LoadRequired(config).Ok? && LoadOptional(folderConfig).Ok? && LoadOptional(userConfig).Err? ==>
              LoadAll(config, folderConfig, userConfig, defaultConfig) == Err(LoadOptional(userConfig).error)
    ensures LoadRequired(config).Ok? && LoadOptional(folderConfig).Ok? && LoadOptional(userConfig).Ok?
              && LoadRequired(defaultConfig).Err? ==>
              LoadAll(config, folderConfig, userConfig, defaultConfig) == Err(LoadRequired(defaultConfig).error)
    ensures LoadRequired(config).Ok? && LoadOptional(folderConfig).Ok? && LoadOptional(userConfig).Ok?
              && LoadRequired(defaultConfig).Ok? ==>
              LoadAll(config, folderConfig, userConfig, defaultConfig)
                == Ok((LoadRequired(config).value,
                       Layers(LoadOptional(folderConfig).value, LoadOptional(userConfig).value,
                              LoadRequired(defaultConfig).value)))
  {
  }

  /** Completing from an optional first layer (at most one dict) and then from the rest. */
  lemma {:induction false} ChainFirst(d: seq<Entry>, first: seq<seq<Entry>>, rest: seq<seq<Entry>>)
    requires |first| <= 1
    ensures |first| == 0 ==> Chain(d, first + rest) == Chain(d, rest)
    ensures |first| == 1 && Fill(d, first[0], Strict).Err? ==>
              Chain(d, first + rest) == Err(Fill(d, first[0], Strict).error)
    ensures |first| == 1 && Fill(d, first[0], Strict).Ok? ==>
              Chain(d, first + rest) == Chain(Fill(d, first[0], Strict).value, rest)
  {
    if |first| == 0 {
      assert first + rest == rest;
    } else {
      assert (first + rest)[0] == first[0];
      assert (first + rest)[1..] == rest;
    }
  }

  /**
   * `parse_config`: loads the four sources, then completes the explicit config
   * from the folder config (if any), then the user config (if any), then the
   * default, each a `complete_dictionary` call.
   */
  method ParseConfig(config: Source, folderConfig: Source, userConfig: Source, defaultConfig: Source)
    returns (r: Result<seq<Entry>>)
    ensures LoadAll(config, folderConfig, userConfig, defaultConfig).Err? ==>
              r == Err(LoadAll(config, folderConfig, userConfig, defaultConfig).error)
    ensures LoadAll(config, folderConfig, userConfig, defaultConfig).Ok? ==>
              r == Chain(LoadAll(config, folderConfig, userConfig, defaultConfig).value.0,
                         LoadAll(config, folderConfig, userConfig, defaultConfig).value.1)
  {
    LoadAllCases(config, folderConfig, userConfig, defaultConfig);
    var c := LoadRequired(config);
    if c.Err? { return Err(c.error); }
    var f := LoadOptional(folderConfig);
    if f.Err? { return Err(f.error); }
    var u := LoadOptional(userConfig);
    if u.Err? { return Err(u.error); }
    var dflt := LoadRequired(defaultConfig);
    if dflt.Err? { return Err(dflt.error); }
    r := CompleteFromLayers(c.value, f.value, u.value, dflt.value);
  }

  /**
   * The completion half of `parse_config`: the explicit config completed from
   * the folder config (if any), then the user config (if any), then the default.
   */
  method CompleteFromLayers(config: seq<Entry>, folder: Option<seq<Entry>>, user: Option<seq<Entry>>,
                            default: seq<Entry>) returns (r: Result<seq<Entry>>)
    ensures r == Chain(config, Layers(folder, user, default))
  {
    ghost var fl: seq<seq<Entry>> := if folder.Some? then [folder.value] else [];
    ghost var ul: seq<seq<Entry>> := if user.Some? then [user.value] else [];
    ghost var last := [default];
    ghost var goal := Chain(config, fl + (ul + last));
    assert Layers(folder, user, default) == fl + (ul + last);

    var configDict := config;
    ChainFirst(configDict, fl, ul + last);
    if folder.Some? {
      var step := CompleteDictionary(configDict, folder.value);
      if step.Err? { return Err(step.error); }
      configDict := step.value;
    }
    assert goal == Chain(configDict, ul + last);
    ChainFirst(configDict, ul, last);
    if user.Some? {
      var step := CompleteDictionary(configDict, user.value);
      if step.Err? { return Err(step.error); }
      configDict := step.value;
    }
    assert goal == Chain(configDict, last);
    ChainFirst(configDict, last, []);
    assert last + [] == last;
    var step := CompleteDictionary(configDict, default);
    if step.Err? { return Err(step.error); }
    return Ok(step.value);
  }
}
