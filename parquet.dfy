/**
 * sed/loader/fel/parquet.py: `ParquetHandler` validates its arguments and
 * fixes the list of parquet file paths it will read and write, either taken
 * as given or built from a folder and one base name per file.
 */
module Parquet {
  import opened Wrappers

  /** `parquet_names`: absent, one string, or a list of strings. */
  datatype NamesArg = NoNames | OneName(name: string) | NameList(names: seq<string>)

  /** `parquet_paths`: absent, one path, or a list of paths. */
  datatype PathsArg = NoPaths | OnePath(path: string) | PathList(paths: seq<string>)

  /** A string, or a list after a lone string has been wrapped (`isinstance(parquet_names, str)`). */
  function WrapNames(n: NamesArg): (r: NamesArg)
    ensures n.OneName? ==> r == NameList([n.name])
    ensures !n.OneName? ==> r == n
  {
    if n.OneName? then NameList([n.name]) else n
  }

  /** Python truthiness of the names: `None` and the empty list are false. */
  predicate NamesGiven(n: NamesArg)
  {
    match n
    case NoNames => false
    case OneName(_) => true
    case NameList(ns) => |ns| > 0
  }

  /** Python truthiness of the paths: `None` and the empty list are false; a path object is always true. */
  predicate PathsGiven(p: PathsArg)
  {
    match p
    case NoPaths => false
    case OnePath(_) => true
    case PathList(ps) => |ps| > 0
  }

  /** An f-string field: `None` renders as "None". */
  function Render(s: Option<string>): string
  {
    if s.Some? then s.value else "None"
  }

  /** `f"{prefix}{name}{suffix}.{extension}"`. */
  function FileName(prefix: Option<string>, name: string, suffix: Option<string>, extension: Option<string>)
    : (f: string)
    ensures |f| == |Render(prefix)| + |name| + |Render(suffix)| + 1 + |Render(extension)|
    ensures f[..|Render(prefix)|] == Render(prefix)
    ensures f[|Render(prefix)|..|Render(prefix)| + |name|] == name
    ensures f[|f| - |Render(extension)| - 1..] == "." + Render(extension)
  {
    var p, s, e := Render(prefix), Render(suffix), Render(extension);
    Parts(p, name, s, "." + e);
    p + name + s + ("." + e)
  }

  /** Slicing a four-part concatenation recovers its first, second and last parts. */
  lemma {:induction false} Parts(a: string, b: string, c: string, d: string)
    ensures var f := a + b + c + d;
            && |f| == |a| + |b| + |c| + |d|
            && f[..|a|] == a && f[|a|..|a| + |b|] == b && f[|f| - |d|..] == d
  {
    var f := a + b + c + d;
    assert f[..|a|] == a;
    assert f[|a|..|a| + |b|] == b;
    assert f[|f| - |d|..] == d;
  }

  /**
   * `Path.joinpath` on slash-separated strings: an absolute second part
   * replaces the first, an empty part adds nothing, otherwise one separator
   * joins the two.
   */
  function Join(dir: string, part: string): (p: string)
    ensures |part| > 0 && part[0] == '/' ==> p == part
    ensures part == [] ==> p == dir
    ensures |part| > 0 && part[0] != '/' ==> |part| <= |p| && p[|p| - |part|..] == part
  {
    if |part| > 0 && part[0] == '/' then part
    else if part == [] then dir
    else if dir == [] then part
    else if dir[|dir| - 1] == '/' then dir + part
    else dir + "/" + part
  }

  /** The path comprehension of `_initialize_paths`: one path per name, in order. */
  function NamedPaths(dir: string, names: seq<string>, prefix: Option<string>, suffix: Option<string>,
                      extension: Option<string>): (ps: seq<string>)
    ensures |ps| == |names|
    ensures forall i :: 0 <= i < |names| ==> ps[i] == Join(dir, FileName(prefix, names[i], suffix, extension))
  {
    seq(|names|, i requires 0 <= i < |names| => Join(dir, FileName(prefix, names[i], suffix, extension)))
  }

  /** The paths the handler ends up with, or the exception its constructor raises. */
  function ParquetPaths(names: NamesArg, folder: Option<string>, subfolder: Option<string>,
                        prefix: Option<string>, suffix: Option<string>, extension: Option<string>,
                        paths: PathsArg): Result<seq<string>>
  {
    var names := WrapNames(names);
    if folder.None? && !PathsGiven(paths) then Err(ValueError)
    else if folder.Some? && !NamesGiven(names) then Err(ValueError)
    else if PathsGiven(paths) then
      Ok(if paths.PathList? then paths.paths else [paths.path])
    else if subfolder.None? then Err(TypeError)
    else Ok(NamedPaths(Join(folder.value, subfolder.value), names.names, prefix, suffix, extension))
  }

  class ParquetHandler {
    var parquetPaths: Option<seq<string>>

    constructor()
      ensures parquetPaths.None?
    {
      parquetPaths := None;
    }

    /**
     * `_initialize_paths`: `folder.joinpath(subfolder)` raises TypeError for a
     * missing subfolder; otherwise one path per name under that directory.
     */
    method InitializePaths(names: seq<string>, folder: string, subfolder: Option<string>,
                           prefix: Option<string>, suffix: Option<string>, extension: Option<string>)
      returns (o: Outcome)
      modifies this
      ensures subfolder.None? ==> o == Fail(TypeError) && parquetPaths == old(parquetPaths)
      ensures subfolder.Some? ==> o == Pass
      ensures subfolder.Some? ==>
                parquetPaths == Some(NamedPaths(Join(folder, subfolder.value), names, prefix, suffix, extension))
    {
      if subfolder.None? {
        return Fail(TypeError);
      }
      var dir := Join(folder, subfolder.value);
      parquetPaths := Some(NamedPaths(dir, names, prefix, suffix, extension));
      return Pass;
    }
  }

  /**
   * `ParquetHandler(...)`: the handler is built with no paths, the arguments
   * are checked, and then the paths are set from `parquet_paths` when given,
   * otherwise from the folder and names.
   */
  method NewParquetHandler(names: NamesArg, folder: Option<string>, subfolder: Option<string>,
                           prefix: Option<string>, suffix: Option<string>, extension: Option<string>,
                           paths: PathsArg) returns (r: Result<ParquetHandler>)
    ensures ParquetPaths(names, folder, subfolder, prefix, suffix, extension, paths).Err? ==>
              r == Err(ParquetPaths(names, folder, subfolder, prefix, suffix, extension, paths).error)
    ensures ParquetPaths(names, folder, subfolder, prefix, suffix, extension, paths).Ok? ==>
              r.Ok? && fresh(r.value) &&
              r.value.parquetPaths == Some(ParquetPaths(names, folder, subfolder, prefix, suffix, extension, paths).value)
  {
    var h := new ParquetHandler();
    var ns := WrapNames(names);
    if folder.None? && !PathsGiven(paths) {
      return Err(ValueError);
    }
    if folder.Some? && !NamesGiven(ns) {
      return Err(ValueError);
    }
    if PathsGiven(paths) {
      h.parquetPaths := Some(if paths.PathList? then paths.paths else [paths.path]);
    } else {
      var o := h.InitializePaths(ns.names, folder.value, subfolder, prefix, suffix, extension);
      if o.Fail? {
        return Err(o.error);
      }
    }
    return Ok(h);
  }

  /**
   * The constructor raises ValueError exactly when neither a folder nor paths
   * are given, or a folder is given without names (a lone string, even an
   * empty one, counts as a name).
   */
  lemma {:induction false} ValueErrorCases(names: NamesArg, folder: Option<string>, subfolder: Option<string>,
                        prefix: Option<string>, suffix: Option<string>, extension: Option<string>,
                        paths: PathsArg)
    ensures ParquetPaths(names, folder, subfolder, prefix, suffix, extension, paths) == Err(ValueError) <==>
              (folder.None? && !PathsGiven(paths)) ||
              (folder.Some? && (names.NoNames? || (names.NameList? && names.names == [])))
  {
  }

  /** Given paths win over the folder and are kept verbatim, a lone path wrapped in a list. */
  lemma {:induction false} GivenPathsVerbatim(names: NamesArg, folder: Option<string>, subfolder: Option<string>,
                           prefix: Option<string>, suffix: Option<string>, extension: Option<string>,
                           paths: PathsArg)
    requires PathsGiven(paths) && (folder.None? || NamesGiven(WrapNames(names)))
    ensures ParquetPaths(names, folder, subfolder, prefix, suffix, extension, paths) ==
              Ok(if paths.OnePath? then [paths.path] else paths.paths)
  {
  }

  /**
   * Without given paths, every built path is the folder/subfolder directory
   * joined with a file name that starts with the prefix and the base name, in
   * name order, and ends with "." and the extension, even an empty one.
   */
  lemma {:induction false} NamedPathsShape(names: seq<string>, folder: string, subfolder: string,
                        prefix: Option<string>, suffix: Option<string>, extension: Option<string>, i: nat)
    requires |names| > 0 && i < |names|
    ensures var r := ParquetPaths(NameList(names), Some(folder), Some(subfolder), prefix, suffix, extension, NoPaths);
            var f := FileName(prefix, names[i], suffix, extension);
            && r.Ok? && |r.value| == |names|
            && r.value[i] == Join(Join(folder, subfolder), f)
            && f[..|Render(prefix)|] == Render(prefix)
            && f[|Render(prefix)|..|Render(prefix)| + |names[i]|] == names[i]
            && f[|f| - |Render(extension)| - 1..] == "." + Render(extension)
  {
  }
}
