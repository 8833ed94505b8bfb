/** Plugin discovery, the older variant kept beside the plugin base class:
    every candidate whose declared context matches the host's is kept with
    its whole declaration, with no deduplication and no exclusion of the
    host; a candidate whose manifest cannot be found makes the whole run
    fail. The base class's `plugins` setter and `exec` are not part of this
    model: `exec` is a parameter. */
module LegacyNpm {
  import opened JsValue
  import opened Lines
  import opened Files
  import opened Events
  import Npm

  /** `Npm.findPackage(dir)`: the directory's own `package.json`, else the
      one in its parent; `None` when neither can be read and parsed, which
      nothing catches. An empty `dir` means `packageDir`. */
  function FindPackage(dir: string, packageDir: string, fs: FileSystem): (r: Option<Value>)
    ensures var directory := if dir == "" then packageDir else dir;
      var own := ReadJson(fs, JoinPath(directory, "package.json"));
      var parent := ReadJson(fs, JoinPath(directory, "../package.json"));
      && (r.Some? <==> own.Some? || parent.Some?)
      && (own.Some? ==> r == own)
      && (own.None? ==> r == parent)
  {
    var directory := if dir == "" then packageDir else dir;
    match ReadJson(fs, JoinPath(directory, "package.json"))
    case Some(v) => Some(v)
    case None => ReadJson(fs, JoinPath(directory, "../package.json"))
  }

  /** One `forEach` over a listing: appends its non-blank lines. */
  method PushListing(modules: seq<string>, data: string) returns (r: seq<string>)
    ensures r == modules + NonBlankLines(Split(data))
  {
    var lines := Split(data);
    r := modules;
    var i := 0;
    while i < |lines|
      invariant 0 <= i <= |lines|
      invariant r == modules + NonBlankLines(lines[..i])
    {
      TrimEmptyIffBlank(lines[i]);
      if Trim(lines[i]) != "" {
        r := r + [lines[i]];
      }
      assert lines[..i + 1][..i] == lines[..i];
      i := i + 1;
    }
    assert lines[..i] == lines;
  }

  /** `getModules()` with the outputs of the local query, the first global
      query and the second global query (`None` when a query rejects). The
      first global result is overwritten before it is used, so it has no
      effect; an unusable local result makes `split` throw and leaves the
      list empty; a rejected second global query keeps the local entries. */
  method GetModules(local: Option<string>, global1: Option<string>, global2: Option<string>)
    returns (modules: seq<string>)
    ensures modules == Npm.Listing(local, global2)
  {
    modules := [];
    if local.None? {
      return;
    }
    modules := PushListing(modules, local.value);
    assert modules == NonBlankLines(Split(local.value));
    if global2.None? {
      return;
    }
    modules := PushListing(modules, global2.value);
  }

  /** What one candidate directory does to the scan. */
  datatype Verdict = Abort | Skip | Keep(plugin: Value)

  /** One step of the `mapSeries`: no manifest, or a null manifest or
      declaration whose properties are read, aborts; no declaration or
      another context skips; otherwise `{name}` merged with the whole
      declaration is kept. */
  function Contribution(found: Option<Value>, hostContext: Value): (v: Verdict)
    ensures v.Keep? <==>
      && found.Some? && !Nullish(found.value)
      && !Nullish(Prop(found.value, "plugged-in"))
      && StrictEquals(Prop(Prop(found.value, "plugged-in"), "context"), hostContext)
    ensures v.Abort? <==>
      found.None? || Nullish(found.value) || Prop(found.value, "plugged-in").Null?
    ensures v.Keep? ==>
      var decl := Prop(found.value, "plugged-in");
      && v.plugin.Obj?
      && v.plugin.props.Keys == Npm.DeclProps(decl).Keys + {"name"}
      && (forall k :: k in Npm.DeclProps(decl) ==> v.plugin.props[k] == Npm.DeclProps(decl)[k])
      && Prop(v.plugin, "context") == hostContext
      && v.plugin.props["name"]
         == (if "name" in Npm.DeclProps(decl) then Npm.DeclProps(decl)["name"] else Prop(found.value, "name"))
  {
    match found
    case None => Abort
    case Some(pkg) =>
      if Nullish(pkg) then Abort
      else
        var decl := Prop(pkg, "plugged-in");
        if decl.Undefined? then Skip
        else if decl.Null? then Abort
        else if StrictEquals(Prop(decl, "context"), hostContext) then
          Keep(Obj(map["name" := Prop(pkg, "name")] + Npm.DeclProps(decl)))
        else Skip
  }

  /** The list after one more step, `None` once a step has thrown. */
  function Extend(before: Option<seq<Value>>, v: Verdict): Option<seq<Value>> {
    match v
    case Abort => None
    case Skip => before
    case Keep(p) => if before.None? then None else Some(before.value + [p])
  }

  /** The plugin list of the scan over the candidates' lookups, `None` when
      some step throws. */
  function LegacyCollected(found: seq<Option<Value>>, hostContext: Value): Option<seq<Value>> {
    if found == [] then Some([])
    else
      var n := |found| - 1;
      Extend(LegacyCollected(found[..n], hostContext), Contribution(found[n], hostContext))
  }

  /** The scan succeeds exactly when no candidate aborts; it then keeps at
      most one record per candidate, each carrying the host's context. */
  lemma {:induction false} LegacyCollectedFacts(found: seq<Option<Value>>, hostContext: Value)
    ensures LegacyCollected(found, hostContext).Some?
        <==> forall j :: 0 <= j < |found| ==> !Contribution(found[j], hostContext).Abort?
    ensures LegacyCollected(found, hostContext).Some? ==>
      && |LegacyCollected(found, hostContext).value| <= |found|
      && forall i :: 0 <= i < |LegacyCollected(found, hostContext).value| ==>
           Prop(LegacyCollected(found, hostContext).value[i], "context") == hostContext
  {
    if found != [] {
      var n := |found| - 1;
      LegacyCollectedFacts(found[..n], hostContext);
      assert forall j :: 0 <= j < n ==> found[..n][j] == found[j];
    }
  }

  /** One more candidate extends the scan of the ones before it. */
  lemma LegacyStep(found: seq<Option<Value>>, i: nat, hostContext: Value)
    requires i < |found|
    ensures LegacyCollected(found[..i + 1], hostContext)
         == Extend(LegacyCollected(found[..i], hostContext), Contribution(found[i], hostContext))
  {
    assert found[..i + 1][..i] == found[..i];
  }

  function Both(x: Option<seq<Value>>, y: Option<seq<Value>>): Option<seq<Value>> {
    if x.Some? && y.Some? then Some(x.value + y.value) else None
  }

  lemma ExtendBoth(x: Option<seq<Value>>, y: Option<seq<Value>>, v: Verdict)
    ensures Both(x, Extend(y, v)) == Extend(Both(x, y), v)
  {
    if v.Keep? && x.Some? && y.Some? {
      assert x.value + (y.value + [v.plugin]) == (x.value + y.value) + [v.plugin];
    }
  }

  /** The scan of concatenated candidate lists is the concatenation of the
      scans: nothing earlier in the list influences what a later candidate
      contributes. */
  lemma {:induction false} LegacyCollectedAppend(a: seq<Option<Value>>, b: seq<Option<Value>>, hostContext: Value)
    ensures LegacyCollected(a + b, hostContext) == Both(LegacyCollected(a, hostContext), LegacyCollected(b, hostContext))
  {
    if b == [] {
      assert a + b == a;
      var ra := LegacyCollected(a, hostContext);
      if ra.Some? {
        assert ra.value + [] == ra.value;
      }
    } else {
      var n := |b| - 1;
      LegacyCollectedAppend(a, b[..n], hostContext);
      var ab := a + b;
      assert ab[..|ab| - 1] == a + b[..n];
      assert ab[|ab| - 1] == b[n];
      ExtendBoth(LegacyCollected(a, hostContext), LegacyCollected(b[..n], hostContext), Contribution(b[n], hostContext));
    }
  }

  /** No deduplication: a listing scanned twice yields its plugins twice
      (contrast `Npm.ScanTwice`). */
  lemma LegacyKeepsDuplicates(found: seq<Option<Value>>, hostContext: Value)
    requires LegacyCollected(found, hostContext).Some?
    ensures LegacyCollected(found + found, hostContext)
         == Some(LegacyCollected(found, hostContext).value + LegacyCollected(found, hostContext).value)
  {
    LegacyCollectedAppend(found, found, hostContext);
  }

  /** No self-exclusion and no filtering beyond the context: when the scan
      succeeds, every kept candidate's record is in the list, the host's
      own manifest included. */
  lemma {:induction false} LegacyKeepsEveryMatch(found: seq<Option<Value>>, hostContext: Value)
    requires LegacyCollected(found, hostContext).Some?
    ensures forall j :: 0 <= j < |found| && Contribution(found[j], hostContext).Keep? ==>
      Contribution(found[j], hostContext).plugin in LegacyCollected(found, hostContext).value
  {
    if found != [] {
      var n := |found| - 1;
      LegacyKeepsEveryMatch(found[..n], hostContext);
      forall j | 0 <= j < n
        ensures found[..n][j] == found[j]
      {
      }
    }
  }

  /** The lookups of a list of directories, in order. */
  function Found(dirs: seq<string>, packageDir: string, fs: FileSystem): (r: seq<Option<Value>>)
    ensures |r| == |dirs|
    ensures forall i :: 0 <= i < |dirs| ==> r[i] == FindPackage(dirs[i], packageDir, fs)
  {
    seq(|dirs|, i requires 0 <= i < |dirs| => FindPackage(dirs[i], packageDir, fs))
  }

  /** The `mapSeries` over the module directories. `None` when a step throws. */
  method Scan(modules: seq<string>, packageDir: string, fs: FileSystem, hostContext: Value)
    returns (plugins: Option<seq<Value>>)
    ensures plugins == LegacyCollected(Found(modules, packageDir, fs), hostContext)
  {
    ghost var found := Found(modules, packageDir, fs);
    plugins := Some([]);
    var i := 0;
    while i < |modules| && plugins.Some?
      invariant 0 <= i <= |modules|
      invariant LegacyCollected(found[..i], hostContext) == plugins
    {
      var pkg := FindPackage(modules[i], packageDir, fs);
      LegacyStep(found, i, hostContext);
      var verdict := Contribution(pkg, hostContext);
      if verdict.Abort? {
        plugins := None;
      } else if verdict.Keep? {
        plugins := Some(plugins.value + [verdict.plugin]);
      }
      i := i + 1;
    }
    if plugins.None? {
      LegacyCollectedAppend(found[..i], found[i..], hostContext);
      assert found[..i] + found[i..] == found;
    } else {
      assert found[..i] == found;
    }
  }

  /** How the older `generateConfig` settles: it rejects, or it hands a
      plugin list to the base class, runs `onGenerateConfig` and starts
      writing the event's payload to `.plugged-in.json`. */
  datatype LegacyOutcome = Rejected | Completed(handed: seq<Value>, written: Value)

  /** `generateConfig()`. `packageDir` is the default directory of
      `findPackage`; `exec` gives the payload the base class's `exec` leaves
      on the event, or `None` when it rejects. */
  method GenerateConfig(fs: FileSystem, packageDir: string,
                        local: Option<string>, global1: Option<string>, global2: Option<string>,
                        exec: (seq<Value>, Value) -> Option<Value>)
    returns (outcome: LegacyOutcome)
    ensures var host := FindPackage("", packageDir, fs);
      if host.None? || Nullish(host.value) || Nullish(Prop(host.value, "plugged-in")) then outcome == Rejected
      else
        var hostContext := Prop(Prop(host.value, "plugged-in"), "context");
        var kept := LegacyCollected(Found(Npm.Listing(local, global2), packageDir, fs), hostContext);
        if kept.None? then outcome == Rejected
        else
          var configObj := Obj(map["context" := hostContext, "plugins" := Arr(kept.value)]);
          match exec(kept.value, configObj)
          case None => outcome == Rejected
          case Some(d) => outcome == Completed(kept.value, d)
  {
    var sysPkg := FindPackage("", packageDir, fs);
    if sysPkg.None? || Nullish(sysPkg.value) {
      return Rejected;
    }
    var sysConfig := Prop(sysPkg.value, "plugged-in");
    if Nullish(sysConfig) {
      return Rejected;
    }
    var hostContext := Prop(sysConfig, "context");
    var modules := GetModules(local, global1, global2);
    var plugins := Scan(modules, packageDir, fs, hostContext);
    if plugins.None? {
      return Rejected;
    }
    var configObj := Obj(map["context" := hostContext, "plugins" := Arr(plugins.value)]);
    var event := new Event(map["name" := Str("onGenerateConfig"), "data" := configObj]);
    var after := exec(plugins.value, event.data);
    if after.None? {
      return Rejected;
    }
    event.SetData(after.value);
    outcome := Completed(plugins.value, event.data);
  }
}
