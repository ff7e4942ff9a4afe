/**
 * sed/settings.py: the user-settings variant of configuration handling. Its
 * `insert_default_config` completes a dict like `complete_dictionary`, but a
 * non-dict value facing a default dict is left alone when that dict is empty
 * and raises AttributeError (the value has no `keys`) otherwise.
 */
module Settings {
  import opened Wrappers
  import opened Values
  import opened Completion
  import Config

  /**
   * `insert_default_config`: for each default entry in order, a missing key is
   * copied, a nested dict is completed recursively, and an existing non-dict
   * value is kept.
   */
  method InsertDefaultConfig(config: seq<Entry>, defaultConfig: seq<Entry>) returns (r: Result<seq<Entry>>)
    ensures r == Fill(config, defaultConfig, Lenient)
    decreases Dict(defaultConfig), 0
  {
    var d := config;
    var i := 0;
    while i < |defaultConfig|
      invariant 0 <= i <= |defaultConfig|
      invariant FillFrom(d, defaultConfig, i, Lenient) == Fill(config, defaultConfig, Lenient)
    {
      var k := defaultConfig[i].key;
      var x := InsertEntry(Get(d, k), defaultConfig[i].val);
      if x.Err? {
        StepErr(d, defaultConfig, i, Lenient);
        return Err(x.error);
      }
      StepOk(d, defaultConfig, i, Lenient, x.value);
      if Get(d, k).None? || defaultConfig[i].val.Dict? {
        d := Put(d, k, x.value);
      } else {
        PutSame(d, k);
      }
      i := i + 1;
    }
    return Ok(d);
  }

  /**
   * The loop body of `insert_default_config` for one default entry `v` against
   * the current value `cur`: a non-dict facing a default dict goes into the
   * recursive call, whose loop reads `keys` of it unless the default dict is empty.
   */
  method InsertEntry(cur: Option<Value>, v: Value) returns (x: Result<Value>)
    ensures x == EntryFill(cur, v, Lenient)
    ensures x.Err? ==> x.error == AttributeError
    decreases v, 1
  {
    EntryFillErrorKind(cur, v, Lenient);
    if v.Dict? && cur.Some? {
      if !cur.value.Dict? {
        if |v.entries| > 0 {
          return Err(AttributeError);
        }
        return Ok(cur.value);
      }
      assert Dict(v.entries) == v;
      var nested := InsertDefaultConfig(cur.value.entries, v.entries);
      if nested.Err? {
        return Err(nested.error);
      }
      return Ok(Dict(nested.value));
    } else if cur.None? {
      return Ok(v);
    } else {
      return Ok(cur.value);
    }
  }

  /**
   * `parse_config`: loads the config (a dict, `{}` when not given, or a file),
   * then the default, then completes the config from the default. Here
   * `Absent` for `config` means the argument was omitted; an explicit
   * `config=None`, which fails at `Path(None)` with TypeError, is not
   * represented. The default is a dict or a path in the source, so an
   * `Absent` default (read as `{}`) has no counterpart there.
   */
  method ParseConfig(config: Config.Source, defaultConfig: Config.Source) returns (r: Result<seq<Entry>>)
    ensures Config.LoadRequired(config).Err? ==> r == Err(Config.LoadRequired(config).error)
    ensures Config.LoadRequired(config).Ok? && Config.LoadRequired(defaultConfig).Err? ==>
              r == Err(Config.LoadRequired(defaultConfig).error)
    ensures Config.LoadRequired(config).Ok? && Config.LoadRequired(defaultConfig).Ok? ==>
              r == Fill(Config.LoadRequired(config).value, Config.LoadRequired(defaultConfig).value, Lenient)
  {
    var c := Config.LoadRequired(config);
    if c.Err? { return Err(c.error); }
    var dflt := Config.LoadRequired(defaultConfig);
    if dflt.Err? { return Err(dflt.error); }
    r := InsertDefaultConfig(c.value, dflt.value);
  }

  /**
   * The lenient completion differs from the strict one only where a non-dict
   * meets an empty default dict: everything the strict completion accepts, the
   * lenient one accepts with the same result.
   */
  lemma {:induction false} StrictRefinesLenient(cur: Option<Value>, v: Value)
    requires EntryFill(cur, v, Strict).Ok?
    ensures EntryFill(cur, v, Lenient) == EntryFill(cur, v, Strict)
    decreases v, 1
  {
    if cur.Some? && v.Dict? && cur.value.Dict? {
      StrictRefinesLenientFrom(cur.value.entries, v.entries, 0);
    }
  }

  lemma {:induction false} StrictRefinesLenientFrom(cur: seq<Entry>, base: seq<Entry>, i: nat)
    requires i <= |base|
    requires FillFrom(cur, base, i, Strict).Ok?
    ensures FillFrom(cur, base, i, Lenient) == FillFrom(cur, base, i, Strict)
    decreases Dict(base), 0, |base| - i
  {
    if i < |base| {
      var c := Get(cur, base[i].key);
      StrictRefinesLenient(c, base[i].val);
      var x := EntryFill(c, base[i].val, Strict).value;
      StrictRefinesLenientFrom(Put(cur, base[i].key, x), base, i + 1);
    }
  }
}
