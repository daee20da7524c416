/** The module store of appstore/modulestore.go: listing the modules kept
    under the store directory as `<name>/<version>/<file>` paths, and reading
    the name, version and file of an uploaded module from its
    `<name>___<version>___<anything>___<file>` file name. The directory walk
    and the version check of the `nversion` library are inputs. */
module ModuleStore {
  import opened GoText
  import opened Results

  /** `dto.Module`. */
  datatype Module = Module(name: string, version: string, arch: string)

  /** `findArch(file)`: "armv7" for a file built for it, "amd64" for any other. */
  function FindArch(file: string): (r: string)
    ensures r == "armv7" <==> Contains(file, "armv7")
    ensures r == "armv7" || r == "amd64"
  {
    if Contains(file, "armv7") then "armv7" else "amd64"
  }

  /** A walked path names a module: it has more than three '/'-separated
      parts and the second-to-last one is a version. */
  predicate Qualifies(path: string, checkVersion: string -> bool)
  {
    var parts := Split(path, "/");
    |parts| > 3 && checkVersion(parts[|parts| - 2])
  }

  /** The module a qualifying path stands for: its last three parts are the
      name, the version and the file the architecture is read from. */
  function ModuleOf(path: string): (m: Module)
    requires |Split(path, "/")| > 3
    ensures var parts := Split(path, "/");
      && m.name == parts[|parts| - 3] && m.version == parts[|parts| - 2]
      && m.arch == FindArch(parts[|parts| - 1])
  {
    var parts := Split(path, "/");
    var n := |parts|;
    Module(parts[n - 3], parts[n - 2], FindArch(parts[n - 1]))
  }

  /** `GetModulesStoreModules()`: `walk` is every path the directory walk
      visited, in walk order, or the error that stopped it. On success the
      result is a list (possibly empty, never nil) with one module per
      qualifying path, in walk order; `sources` names those paths. */
  method GetModulesStoreModules(walk: Result<seq<string>, string>, checkVersion: string -> bool)
    returns (r: Result<seq<Module>, string>, ghost sources: seq<int>)
    ensures walk.Err? ==> r == Err(walk.error)
    ensures walk.Ok? ==> r.Ok? && |r.value| == |sources|
    ensures walk.Ok? ==> forall j :: 0 <= j < |sources| ==>
      && 0 <= sources[j] < |walk.value|
      && Qualifies(walk.value[sources[j]], checkVersion)
      && r.value[j] == ModuleOf(walk.value[sources[j]])
    ensures forall j, l :: 0 <= j < l < |sources| ==> sources[j] < sources[l]
    ensures walk.Ok? ==> forall i :: 0 <= i < |walk.value| && Qualifies(walk.value[i], checkVersion) ==> i in sources
  {
    sources := [];
    if walk.Err? {
      return Err(walk.error), sources;
    }
    var files := walk.value;
    var modules: seq<Module> := [];
    var k := 0;
    while k < |files|
      invariant 0 <= k <= |files|
      invariant |modules| == |sources|
      invariant forall j :: 0 <= j < |sources| ==>
        && 0 <= sources[j] < k
        && Qualifies(files[sources[j]], checkVersion)
        && modules[j] == ModuleOf(files[sources[j]])
      invariant forall j, l :: 0 <= j < l < |sources| ==> sources[j] < sources[l]
      invariant forall i :: 0 <= i < k && Qualifies(files[i], checkVersion) ==> i in sources
    {
      var found := VisitPath(files[k], checkVersion);
      if found.Some? {
        modules := modules + [found.value];
        sources := sources + [k];
      }
      k := k + 1;
    }
    return Ok(modules), sources;
  }

  /** One round of the loop of `GetModulesStoreModules` over the paths the
      walk collected: the module the path names, or nothing when it does
      not qualify. */
  method VisitPath(path: string, checkVersion: string -> bool) returns (found: Option<Module>)
    ensures found.Some? <==> Qualifies(path, checkVersion)
    ensures found.Some? ==> found.value == ModuleOf(path)
  {
    found := None;
    var fileParts := Split(path, "/");
    var filePartsLen := |fileParts|;
    if filePartsLen > 3 {
      var n := fileParts[filePartsLen - 3];
      var v := fileParts[filePartsLen - 2];
      var f := fileParts[filePartsLen - 1];
      if checkVersion(v) {
        var arch := FindArch(f);
        found := Some(Module(n, v, arch));
      }
    }
  }

  /** Where an upload is filed: the module's name and version, and the name
      the file is stored under. */
  datatype UploadTarget = UploadTarget(name: string, version: string, file: string)

  const NameSeparator := "___"

  /** The name/version/file split of `UploadModuleStoreModule`: a file name
      that does not fall into exactly four "___"-separated parts is refused;
      otherwise parts 0, 1 and 3 are the name, version and stored file, and
      part 2 is not used. */
  function ParseModuleFileName(fileName: string): (r: Result<UploadTarget, string>)
    ensures r.Err? <==> |Split(fileName, NameSeparator)| != 4
    ensures r.Err? ==> r.error == "wrong module file name '" + fileName + "' is being uploaded"
    ensures r.Ok? ==> var parts := Split(fileName, NameSeparator);
      r.value == UploadTarget(parts[0], parts[1], parts[3])
  {
    var fileParts := Split(fileName, NameSeparator);
    if |fileParts| != 4 then Err("wrong module file name '" + fileName + "' is being uploaded")
    else Ok(UploadTarget(fileParts[0], fileParts[1], fileParts[3]))
  }

  /** Round trip: a file name built from a name, a version, any third part
      and a file reads back as that name, version and file, provided no "___"
      starts inside the first three parts (not even one running into the
      separator after them, as a trailing '_' would) and the file has none. */
  lemma ParseBuiltFileName(name: string, version: string, extra: string, file: string)
    requires EndsBeforeSeparator(name, NameSeparator)
    requires EndsBeforeSeparator(version, NameSeparator)
    requires EndsBeforeSeparator(extra, NameSeparator)
    requires !Contains(file, NameSeparator)
    ensures ParseModuleFileName(name + NameSeparator + version + NameSeparator + extra + NameSeparator + file)
      == Ok(UploadTarget(name, version, file))
  {
    var sep := NameSeparator;
    var t2 := extra + sep + file;
    var t1 := version + sep + t2;
    assert name + sep + version + sep + extra + sep + file == name + sep + t1;
    calc {
      Split(name + sep + t1, sep);
    == { SplitCons(name, sep, t1); }
      [name] + Split(t1, sep);
    == { SplitCons(version, sep, t2); }
      [name] + ([version] + Split(t2, sep));
    == { SplitCons(extra, sep, file); SplitSingle(file, sep); }
      [name] + ([version] + ([extra] + [file]));
    }
  }

  /** A module name ending in '_' does not survive the round trip: the
      separator is found one character early, so the name loses its '_' and
      the version gains one. */
  lemma TrailingUnderscoreName()
    ensures ParseModuleFileName("app_" + NameSeparator + "1.0" + NameSeparator + "x" + NameSeparator + "app.zip")
      == Ok(UploadTarget("app", "_1.0", "app.zip"))
  {
    var sep := NameSeparator;
    assert "app_" + sep + "1.0" + sep + "x" + sep + "app.zip" == "app" + sep + ("_1.0" + sep + ("x" + sep + "app.zip"));
    var name, version, extra, file := "app__", "_1.0__", "x__", "app.zip";
    assert name[0] == 'a' && name[1] == 'p' && name[2] == 'p';
    NoSeparatorIn(name);
    assert version[1] == '1' && version[2] == '.' && version[3] == '0';
    NoSeparatorIn(version);
    assert extra[0] == 'x';
    NoSeparatorIn(extra);
    assert file[0] == 'a' && file[3] == '.' && file[4] == 'z';
    assert forall i :: 0 <= i < 5 ==> file[i] != '_';
    NoSeparatorIn(file);
    assert sep[..2] == "__";
    assert "app" + sep[..2] == name && "_1.0" + sep[..2] == version && "x" + sep[..2] == extra;
    calc {
      Split("app" + sep + ("_1.0" + sep + ("x" + sep + "app.zip")), sep);
    == { SplitCons("app", sep, "_1.0" + sep + ("x" + sep + "app.zip")); }
      ["app"] + Split("_1.0" + sep + ("x" + sep + "app.zip"), sep);
    == { SplitCons("_1.0", sep, "x" + sep + "app.zip"); }
      ["app"] + (["_1.0"] + Split("x" + sep + "app.zip", sep));
    == { SplitCons("x", sep, "app.zip"); SplitSingle("app.zip", sep); }
      ["app"] + (["_1.0"] + (["x"] + ["app.zip"]));
    }
  }

  /** A text with no three '_' in a row holds no separator. */
  lemma NoSeparatorIn(s: string)
    requires forall i :: 0 <= i < |s| - 2 ==> s[i] != '_' || s[i + 1] != '_' || s[i + 2] != '_'
    ensures !Contains(s, NameSeparator)
  {
    forall i | 0 <= i <= |s| - |NameSeparator| ensures !OccursAt(s, NameSeparator, i) {
      assert s[i..i + 3][0] == s[i] && s[i..i + 3][1] == s[i + 1] && s[i..i + 3][2] == s[i + 2];
    }
  }
}
