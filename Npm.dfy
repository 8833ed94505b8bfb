/** Plugin discovery (the current variant): list the installed module
    directories, read each one's manifest, keep the declarations whose
    context matches the host's, and hand the deduplicated list to a
    manager before writing it to the configuration file. Shell queries and
    file contents are inputs; validation against the configuration schema
    is the predicate `valid`. */
module Npm {
  import opened JsValue
  import opened Lines
  import opened Files

  const DefaultConfigPath := ".plugged-in.json"

  /** The path `findPackage(dir)` looks at; an empty `dir` means the
      module's own directory `moduleDir`. */
  function ManifestPath(dir: string, moduleDir: string): string {
    JoinPath(if dir == "" then moduleDir else dir, "package.json")
  }

  /** `Npm.findPackage(dir)`: the parsed manifest, or `null` when the file
      is missing or cannot be read or parsed (the error is logged). */
  function FindPackage(dir: string, moduleDir: string, fs: FileSystem): (pkg: Value)
    ensures ManifestPath(dir, moduleDir) !in fs ==> pkg == Null
    ensures ManifestPath(dir, moduleDir) in fs && fs[ManifestPath(dir, moduleDir)] == Garbled ==> pkg == Null
    ensures pkg != Null ==> fs[ManifestPath(dir, moduleDir)] == Json(pkg)
    ensures ManifestPath(dir, moduleDir) in fs && fs[ManifestPath(dir, moduleDir)].Json? ==>
      pkg == fs[ManifestPath(dir, moduleDir)].v
  {
    match ReadJson(fs, ManifestPath(dir, moduleDir))
    case None => Null
    case Some(v) => v
  }

  /** `_prepareModuleList(data)`: the lines of a listing that do not trim
      to the empty string, as they are and in order. */
  method PrepareModuleList(data: string) returns (modules: seq<string>)
    ensures modules == NonBlankLines(Split(data))
    ensures forall i :: 0 <= i < |modules| ==> Trim(modules[i]) != ""
  {
    var lines := Split(data);
    modules := [];
    var i := 0;
    while i < |lines|
      invariant 0 <= i <= |lines|
      invariant modules == NonBlankLines(lines[..i])
    {
      TrimEmptyIffBlank(lines[i]);
      if Trim(lines[i]) != "" {
        modules := modules + [lines[i]];
      }
      assert lines[..i + 1][..i] == lines[..i];
      i := i + 1;
    }
    assert lines[..i] == lines;
    forall i | 0 <= i < |modules| ensures Trim(modules[i]) != "" {
      TrimEmptyIffBlank(modules[i]);
    }
  }

  /** The module directories `getModules` yields for the outputs of the
      local and the global listing query (`None` when a query rejects):
      local entries first; a failed local query leaves the list empty and a
      failed global query keeps the local entries. */
  function Listing(local: Option<string>, global: Option<string>): seq<string> {
    match local
    case None => []
    case Some(l) =>
      NonBlankLines(Split(l)) + match global { case None => [] case Some(g) => NonBlankLines(Split(g)) }
  }

  /** `getModules()` */
  method GetModules(local: Option<string>, global: Option<string>) returns (modules: seq<string>)
    ensures modules == Listing(local, global)
  {
    modules := [];
    if local.None? {
      return;
    }
    modules := PrepareModuleList(local.value);
    if global.None? {
      return;
    }
    var more := PrepareModuleList(global.value);
    modules := modules + more;
  }

  /** Two plugin records whose `name`s are `===`. */
  predicate SameName(a: Value, b: Value) {
    StrictEquals(Prop(a, "name"), Prop(b, "name"))
  }

  predicate HasName(plugins: seq<Value>, plugin: Value) {
    exists i :: 0 <= i < |plugins| && SameName(plugins[i], plugin)
  }

  /** `_hasPlugin(plugin, plugins)`: reading `name` of a null or undefined
      entry would throw, so the records must be readable. */
  method HasPlugin(plugin: Value, plugins: seq<Value>) returns (found: bool)
    requires !Nullish(plugin)
    requires forall i :: 0 <= i < |plugins| ==> !Nullish(plugins[i])
    ensures found <==> HasName(plugins, plugin)
  {
    found := false;
    var i := 0;
    while i < |plugins|
      invariant 0 <= i <= |plugins|
      invariant found <==> exists j :: 0 <= j < i && SameName(plugins[j], plugin)
    {
      if StrictEquals(Prop(plugins[i], "name"), Prop(plugin, "name")) {
        found := true;
      }
      i := i + 1;
    }
  }

  /** The properties `Object.assign` copies from a declaration. */
  function DeclProps(decl: Value): map<string, Value> {
    if decl.Obj? then decl.props else map[]
  }

  /** What one candidate manifest contributes: `None` when it is skipped
      (no manifest, no declaration, a declaration whose properties cannot
      be read, another context, the host itself, or a failed validation),
      otherwise `{name}` merged with the declaration minus its `context`. */
  function Accept(pkg: Value, hostName: Value, hostContext: Value, valid: Value -> bool): (r: Option<Value>)
    ensures r.Some? <==>
      && !Nullish(pkg)
      && !Nullish(Prop(pkg, "plugged-in"))
      && StrictEquals(Prop(Prop(pkg, "plugged-in"), "context"), hostContext)
      && !StrictEquals(Prop(pkg, "name"), hostName)
      && valid(Prop(pkg, "plugged-in"))
    ensures r.Some? ==>
      var decl := Prop(pkg, "plugged-in");
      && r.value.Obj?
      && r.value.props.Keys == DeclProps(decl).Keys - {"context"} + {"name"}
      && "context" !in r.value.props
      && (forall k :: k in DeclProps(decl) && k != "context" ==> r.value.props[k] == DeclProps(decl)[k])
      && r.value.props["name"] == (if "name" in DeclProps(decl) then DeclProps(decl)["name"] else Prop(pkg, "name"))
  {
    if Nullish(pkg) then None
    else
      var decl := Prop(pkg, "plugged-in");
      if Nullish(decl) then None
      else if !StrictEquals(Prop(decl, "context"), hostContext) then None
      else
        var name := Prop(pkg, "name");
        if StrictEquals(name, hostName) then None
        else if !valid(decl) then None
        else
          var fields := DeclProps(decl) - {"context"};
          Some(Obj(map["name" := name] + fields))
  }

  /** The manifests found for a list of directories, in order. */
  function Packages(dirs: seq<string>, moduleDir: string, fs: FileSystem): (pkgs: seq<Value>)
    ensures |pkgs| == |dirs|
    ensures forall i :: 0 <= i < |dirs| ==> pkgs[i] == FindPackage(dirs[i], moduleDir, fs)
  {
    seq(|dirs|, i requires 0 <= i < |dirs| => FindPackage(dirs[i], moduleDir, fs))
  }

  /** The plugin list the `mapSeries` scan builds from the candidates'
      manifests: each accepted record, unless one with the same name is
      already listed. */
  function Collected(pkgs: seq<Value>, hostName: Value, hostContext: Value, valid: Value -> bool): (r: seq<Value>)
    ensures forall i :: 0 <= i < |r| ==> r[i].Obj?
  {
    if pkgs == [] then []
    else
      var before := Collected(pkgs[..|pkgs| - 1], hostName, hostContext, valid);
      match Accept(pkgs[|pkgs| - 1], hostName, hostContext, valid)
      case None => before
      case Some(p) => if HasName(before, p) then before else before + [p]
  }

  /** One more candidate: its record is appended unless its name is taken. */
  lemma CollectedStep(pkgs: seq<Value>, i: nat, hostName: Value, hostContext: Value, valid: Value -> bool)
    requires i < |pkgs|
    ensures var before := Collected(pkgs[..i], hostName, hostContext, valid);
      var a := Accept(pkgs[i], hostName, hostContext, valid);
      Collected(pkgs[..i + 1], hostName, hostContext, valid)
        == if a.Some? && !HasName(before, a.value) then before + [a.value] else before
  {
    assert pkgs[..i + 1][..i] == pkgs[..i];
  }

  /** The scan only appends: the list for a prefix of the candidates is a
      prefix of the list for all of them. */
  lemma {:induction false} CollectedGrows(pkgs: seq<Value>, n: nat, hostName: Value, hostContext: Value, valid: Value -> bool)
    requires n <= |pkgs|
    ensures var small := Collected(pkgs[..n], hostName, hostContext, valid);
      var all := Collected(pkgs, hostName, hostContext, valid);
      |small| <= |all| && all[..|small|] == small
  {
    if n < |pkgs| {
      var init := pkgs[..|pkgs| - 1];
      CollectedGrows(init, n, hostName, hostContext, valid);
      assert init[..n] == pkgs[..n];
    } else {
      assert pkgs[..n] == pkgs;
    }
  }

  /** Every accepted candidate is represented: it is listed itself or a
      record with the same name is. */
  lemma {:induction false} CollectedCovers(pkgs: seq<Value>, hostName: Value, hostContext: Value, valid: Value -> bool)
    ensures var all := Collected(pkgs, hostName, hostContext, valid);
      forall j :: 0 <= j < |pkgs| && Accept(pkgs[j], hostName, hostContext, valid).Some? ==>
        var c := Accept(pkgs[j], hostName, hostContext, valid).value;
        c in all || HasName(all, c)
  {
    if pkgs != [] {
      var init := pkgs[..|pkgs| - 1];
      var all := Collected(pkgs, hostName, hostContext, valid);
      var before := Collected(init, hostName, hostContext, valid);
      CollectedCovers(init, hostName, hostContext, valid);
      CollectedGrows(pkgs, |pkgs| - 1, hostName, hostContext, valid);
      assert pkgs[..|pkgs| - 1] == init;
      forall j | 0 <= j < |pkgs| && Accept(pkgs[j], hostName, hostContext, valid).Some?
        ensures var c := Accept(pkgs[j], hostName, hostContext, valid).value;
          c in all || HasName(all, c)
      {
        var c := Accept(pkgs[j], hostName, hostContext, valid).value;
        if j < |pkgs| - 1 {
          assert init[j] == pkgs[j];
          if c in before {
            var k :| 0 <= k < |before| && before[k] == c;
            assert all[k] == c;
          } else {
            var k :| 0 <= k < |before| && SameName(before[k], c);
            assert all[k] == before[k];
          }
        }
      }
    }
  }

  predicate NamesUnique(plugins: seq<Value>) {
    forall a, b :: 0 <= a < b < |plugins| ==> !SameName(plugins[a], plugins[b])
  }

  /** No two listed records have the same name. */
  lemma {:induction false} CollectedUnique(pkgs: seq<Value>, hostName: Value, hostContext: Value, valid: Value -> bool)
    ensures NamesUnique(Collected(pkgs, hostName, hostContext, valid))
  {
    if pkgs != [] {
      var init := pkgs[..|pkgs| - 1];
      CollectedUnique(init, hostName, hostContext, valid);
      var before := Collected(init, hostName, hostContext, valid);
      var all := Collected(pkgs, hostName, hostContext, valid);
      var last := Accept(pkgs[|pkgs| - 1], hostName, hostContext, valid);
      if last.Some? && !HasName(before, last.value) {
        assert all == before + [last.value];
        forall a, b | 0 <= a < b < |all| ensures !SameName(all[a], all[b]) {
          assert all[a] == before[a];
          if b < |before| {
            assert all[b] == before[b];
            assert !SameName(before[a], before[b]);
          } else {
            assert all[b] == last.value;
            assert !SameName(before[a], last.value);
          }
        }
      } else {
        assert all == before;
        forall a, b | 0 <= a < b < |all| ensures !SameName(all[a], all[b]) {
          assert !SameName(before[a], before[b]);
        }
      }
    }
  }

  /** Every listed record is what some candidate contributed, and no
      earlier candidate contributed a record with the same name: the first
      occurrence in module order wins. */
  lemma {:induction false} CollectedFirstWins(pkgs: seq<Value>, hostName: Value, hostContext: Value, valid: Value -> bool)
    ensures var all := Collected(pkgs, hostName, hostContext, valid);
      forall x :: x in all ==>
        exists j :: 0 <= j < |pkgs| && Accept(pkgs[j], hostName, hostContext, valid) == Some(x)
          && (forall i :: 0 <= i < j && Accept(pkgs[i], hostName, hostContext, valid).Some? ==>
               !SameName(Accept(pkgs[i], hostName, hostContext, valid).value, x))
  {
    if pkgs != [] {
      var n := |pkgs| - 1;
      var init := pkgs[..n];
      var before := Collected(init, hostName, hostContext, valid);
      var all := Collected(pkgs, hostName, hostContext, valid);
      CollectedFirstWins(init, hostName, hostContext, valid);
      CollectedCovers(init, hostName, hostContext, valid);
      forall x | x in all
        ensures exists j :: 0 <= j < |pkgs| && Accept(pkgs[j], hostName, hostContext, valid) == Some(x)
                 && (forall i :: 0 <= i < j && Accept(pkgs[i], hostName, hostContext, valid).Some? ==>
                       !SameName(Accept(pkgs[i], hostName, hostContext, valid).value, x))
      {
        if x in before {
          var j :| 0 <= j < |init| && Accept(init[j], hostName, hostContext, valid) == Some(x)
            && (forall i :: 0 <= i < j && Accept(init[i], hostName, hostContext, valid).Some? ==>
                 !SameName(Accept(init[i], hostName, hostContext, valid).value, x));
          assert init[j] == pkgs[j];
          assert forall i :: 0 <= i < j ==> init[i] == pkgs[i];
        } else {
          assert Accept(pkgs[n], hostName, hostContext, valid) == Some(x) && !HasName(before, x);
          forall i | 0 <= i < n && Accept(pkgs[i], hostName, hostContext, valid).Some?
            ensures !SameName(Accept(pkgs[i], hostName, hostContext, valid).value, x)
          {
            assert init[i] == pkgs[i];
            if SameName(Accept(pkgs[i], hostName, hostContext, valid).value, x) {
              NameTaken(init, i, x, hostName, hostContext, valid);
              assert false;
            }
          }
        }
      }
    }
  }

  /** A name some accepted candidate carries is taken in the list. */
  lemma NameTaken(pkgs: seq<Value>, i: nat, x: Value, hostName: Value, hostContext: Value, valid: Value -> bool)
    requires i < |pkgs| && Accept(pkgs[i], hostName, hostContext, valid).Some?
    requires SameName(Accept(pkgs[i], hostName, hostContext, valid).value, x)
    ensures HasName(Collected(pkgs, hostName, hostContext, valid), x)
  {
    CollectedCovers(pkgs, hostName, hostContext, valid);
    var c := Accept(pkgs[i], hostName, hostContext, valid).value;
    var all := Collected(pkgs, hostName, hostContext, valid);
    if c in all {
      var k :| 0 <= k < |all| && all[k] == c;
      assert SameName(all[k], x);
    }
  }

  /** Candidates whose names all occur among earlier accepted candidates
      add nothing, so scanning a listing twice gives the list for scanning
      it once (see `LegacyNpm.LegacyKeepsDuplicates` for the contrast). */
  lemma {:induction false} RepeatsAddNothing(pkgs: seq<Value>, more: seq<Value>, hostName: Value, hostContext: Value, valid: Value -> bool)
    requires forall j :: 0 <= j < |more| && Accept(more[j], hostName, hostContext, valid).Some? ==>
      exists i :: 0 <= i < |pkgs| && Accept(pkgs[i], hostName, hostContext, valid).Some?
        && SameName(Accept(pkgs[i], hostName, hostContext, valid).value, Accept(more[j], hostName, hostContext, valid).value)
    ensures Collected(pkgs + more, hostName, hostContext, valid) == Collected(pkgs, hostName, hostContext, valid)
  {
    if more == [] {
      assert pkgs + more == pkgs;
    } else {
      var m := |more| - 1;
      RepeatsAddNothing(pkgs, more[..m], hostName, hostContext, valid);
      assert (pkgs + more)[..|pkgs + more| - 1] == pkgs + more[..m];
      assert (pkgs + more)[|pkgs + more| - 1] == more[m];
      var all := Collected(pkgs, hostName, hostContext, valid);
      var r := Accept(more[m], hostName, hostContext, valid);
      if r.Some? {
        var i :| 0 <= i < |pkgs| && Accept(pkgs[i], hostName, hostContext, valid).Some?
          && SameName(Accept(pkgs[i], hostName, hostContext, valid).value, r.value);
        NameTaken(pkgs, i, r.value, hostName, hostContext, valid);
      }
    }
  }

  lemma ScanTwice(pkgs: seq<Value>, hostName: Value, hostContext: Value, valid: Value -> bool)
    requires forall j :: 0 <= j < |pkgs| && Accept(pkgs[j], hostName, hostContext, valid).Some? ==>
      var name := Prop(Accept(pkgs[j], hostName, hostContext, valid).value, "name");
      !name.Obj? && !name.Arr?
    ensures Collected(pkgs + pkgs, hostName, hostContext, valid) == Collected(pkgs, hostName, hostContext, valid)
  {
    RepeatsAddNothing(pkgs, pkgs, hostName, hostContext, valid);
  }

  /** The `mapSeries` over the module directories: read each manifest and
      push its record unless `_hasPlugin` finds the name already listed.
      Errors inside one step are caught there, so the scan goes on. */
  method Scan(modules: seq<string>, moduleDir: string, fs: FileSystem,
              hostName: Value, hostContext: Value, valid: Value -> bool)
    returns (plugins: seq<Value>)
    ensures plugins == Collected(Packages(modules, moduleDir, fs), hostName, hostContext, valid)
  {
    ghost var pkgs := Packages(modules, moduleDir, fs);
    plugins := [];
    var i := 0;
    while i < |modules|
      invariant 0 <= i <= |modules|
      invariant plugins == Collected(pkgs[..i], hostName, hostContext, valid)
    {
      var pkg := FindPackage(modules[i], moduleDir, fs);
      assert pkg == pkgs[i];
      var accepted := Accept(pkg, hostName, hostContext, valid);
      CollectedStep(pkgs, i, hostName, hostContext, valid);
      plugins := Admit(plugins, accepted);
      i := i + 1;
    }
    assert pkgs[..i] == pkgs;
  }

  /** One step of the scan: an accepted record is pushed unless its name is
      already listed. */
  method Admit(plugins: seq<Value>, accepted: Option<Value>) returns (r: seq<Value>)
    requires forall i :: 0 <= i < |plugins| ==> plugins[i].Obj?
    requires accepted.Some? ==> accepted.value.Obj?
    ensures r == if accepted.Some? && !HasName(plugins, accepted.value) then plugins + [accepted.value] else plugins
  {
    r := plugins;
    if accepted.Some? {
      var has := HasPlugin(accepted.value, plugins);
      if !has {
        r := plugins + [accepted.value];
      }
    }
  }

  /** The `{context, plugins}` object `generateConfig` builds. */
  datatype ConfigObj = ConfigObj(context: Value, plugins: seq<Value>) {
    function AsValue(): Value {
      Obj(map["context" := context, "plugins" := Arr(plugins)])
    }
  }

  /** The object the scan produces before the manager sees it: `None` when
      the host manifest cannot be read, is null, or has no usable
      `plugged-in` section (an undefined section is reported as an error,
      reading `context` of a null one throws). */
  function Discovered(fs: FileSystem, moduleDir: string, modules: seq<string>, valid: Value -> bool): Option<ConfigObj> {
    match ReadJson(fs, JoinPath(moduleDir, "../package.json"))
    case None => None
    case Some(host) =>
      if Nullish(host) || Nullish(Prop(host, "plugged-in")) then None
      else
        var hostContext := Prop(Prop(host, "plugged-in"), "context");
        Some(ConfigObj(hostContext, Collected(Packages(modules, moduleDir, fs), Prop(host, "name"), hostContext, valid)))
  }

  /** The manager `generateConfig` reports to: `addPlugins` resolves or
      rejects, `dispatch` rejects (`None`) or resolves, leaving the
      configuration object as it returns it. */
  datatype ManagerApi = ManagerApi(addPlugins: seq<Value> -> bool, dispatch: Value -> Option<Value>)

  /** `generateConfig(manager, filePath)`. `writeOk` says whether writing
      the file succeeds. Any error is logged and yields `null`. */
  method GenerateConfig(manager: Option<ManagerApi>, filePath: string, fs: FileSystem, moduleDir: string,
                        local: Option<string>, global: Option<string>, valid: Value -> bool, writeOk: bool)
    returns (config: Value, written: Option<Written>)
    ensures var found := Discovered(fs, moduleDir, Listing(local, global), valid);
      if && found.Some? && manager.Some?
         && manager.value.addPlugins(found.value.plugins)
         && manager.value.dispatch(found.value.AsValue()).Some?
         && writeOk
      then
        && config == manager.value.dispatch(found.value.AsValue()).value
        && written == Some(Written(if filePath == "" then DefaultConfigPath else filePath, config))
      else config == Null && written.None?
    ensures manager.None? ==> config == Null && written.None?
    ensures var host := ReadJson(fs, JoinPath(moduleDir, "../package.json"));
      host.Some? && Prop(host.value, "plugged-in") == Undefined ==> config == Null && written.None?
  {
    config := Null;
    written := None;
    var path := if filePath == "" then DefaultConfigPath else filePath;
    var read := ReadJson(fs, JoinPath(moduleDir, "../package.json"));
    if read.None? || Nullish(read.value) {
      return;
    }
    var host := read.value;
    var section := Prop(host, "plugged-in");
    if Nullish(section) {
      return;
    }
    var hostContext := Prop(section, "context");
    var modules := GetModules(local, global);
    var plugins := Scan(modules, moduleDir, fs, Prop(host, "name"), hostContext, valid);
    var configObj := ConfigObj(hostContext, plugins);
    assert Discovered(fs, moduleDir, modules, valid) == Some(configObj);
    if manager.None? {
      // `manager.addPlugins` of an undefined manager throws
      return;
    }
    var added := manager.value.addPlugins(plugins);
    if !added {
      return;
    }
    var dispatched := manager.value.dispatch(configObj.AsValue());
    if dispatched.None? || !writeOk {
      return;
    }
    config := dispatched.value;
    written := Some(Written(path, config));
  }
}
