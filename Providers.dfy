/** Resolving the handler every registered plugin provides for one service
    (an event name): the per-plugin callback of `getProviders` and the list
    it builds. Local modules are looked up first, then the plugin package's
    exports, which stand in for `require`. */
module Providers {
  import opened JsValue

  /** The `order` a provider is sorted by, as the comparator's `>` and `<`
      see it: numbers, and `null` and booleans, which compare as 0 and 1,
      are ranks; `undefined` compares as neither greater nor less than
      anything; strings, arrays, objects and functions are compared by
      the language's mixed string and number rules, which the model does
      not follow. */
  datatype Order = Rank(n: int) | Unranked | Other

  function OrderOf(v: Value): Order {
    match v
    case Num(n) => Rank(n)
    case Null => Rank(0)
    case Bool(b) => Rank(if b then 1 else 0)
    case Undefined => Unranked
    case _ => Other
  }

  /** `{handler, order}` */
  datatype Provider = Provider(handler: Handler, order: Order)

  /** What the per-plugin callback settles to: a provider, `null`, or a
      rejection that makes the whole lookup reject. */
  datatype Resolution = Resolved(provider: Provider) | NoProvider | Rejected

  /** `plugin.provides[service]`, for a plugin and provides map that can be read. */
  function SpecOf(plugin: Value, service: string): Value {
    Prop(Prop(plugin, "provides"), service)
  }

  /** Reading the spec throws for these plugins. */
  predicate Unreadable(plugin: Value) {
    Nullish(plugin) || Nullish(Prop(plugin, "provides"))
  }

  /** An object spec names its function under `function`; any other spec is the name itself. */
  function FunctionName(spec: Value): Value {
    if TypeOf(spec) == "object" then Prop(spec, "function") else spec
  }

  /** An object spec carries its own order; any other spec gets order 1. */
  function SpecOrder(spec: Value): Order {
    if TypeOf(spec) == "object" then OrderOf(Prop(spec, "order")) else Rank(1)
  }

  /** A function stored in the local module table under `key`. */
  predicate LocalFunction(loaded: map<string, Value>, key: string) {
    key in loaded && loaded[key].Fn?
  }

  /** `require(name)` succeeds and its exports can be indexed. */
  predicate Loadable(packages: map<string, Value>, name: string) {
    name in packages && !Nullish(packages[name])
  }

  /** The callback `getProviders` maps over the plugin list. */
  function ResolveProvider(plugin: Value, service: string, loaded: map<string, Value>,
                           packages: map<string, Value>): Resolution
  {
    if Unreadable(plugin) then
      // the catch block reads plugin.provides[service] again and throws again
      Rejected
    else
      var spec := SpecOf(plugin, service);
      if spec.Null? then
        // typeof null is 'object': reading its `order` throws, and so does `.match` in the catch
        Rejected
      else
        var order := SpecOrder(spec);
        var funcName := FunctionName(spec);
        if funcName == Str("undefined") then NoProvider
        else
          var key := ToKey(funcName);
          if LocalFunction(loaded, key) then Resolved(Provider(loaded[key].handler, order))
          else
            var pkgName := ToKey(Prop(plugin, "name"));
            if !Loadable(packages, pkgName) then
              // the catch block calls spec.match, which only strings have
              if spec.Str? then NoProvider else Rejected
            else
              var exported := Prop(packages[pkgName], key);
              if exported.Fn? then Resolved(Provider(exported.handler, order)) else NoProvider
  }

  /** The order rule: a resolved provider's order is the spec's own
      `order` for an object spec and 1 for any other spec. */
  lemma OrderRule(plugin: Value, service: string, loaded: map<string, Value>,
                  packages: map<string, Value>)
    ensures var r := ResolveProvider(plugin, service, loaded, packages);
      r.Resolved? ==>
        && !Unreadable(plugin)
        && r.provider.order == (if TypeOf(SpecOf(plugin, service)) == "object"
                                then OrderOf(Prop(SpecOf(plugin, service), "order")) else Rank(1))
  {
  }

  /** A function in the local module table under the spec's name is used,
      whatever the plugin package holds or whether it can be loaded at all. */
  lemma LocalModuleFirst(plugin: Value, service: string, loaded: map<string, Value>,
                         packages: map<string, Value>, packages': map<string, Value>)
    requires !Unreadable(plugin)
    requires !SpecOf(plugin, service).Null?
    requires FunctionName(SpecOf(plugin, service)) != Str("undefined")
    requires LocalFunction(loaded, ToKey(FunctionName(SpecOf(plugin, service))))
    ensures ResolveProvider(plugin, service, loaded, packages)
         == ResolveProvider(plugin, service, loaded, packages')
         == Resolved(Provider(loaded[ToKey(FunctionName(SpecOf(plugin, service)))].handler,
                              SpecOrder(SpecOf(plugin, service))))
  {
  }

  /** Otherwise the package export of that name is used when it is a
      function, and the plugin yields `null` when it is not. */
  lemma PackageExport(plugin: Value, service: string, loaded: map<string, Value>,
                      packages: map<string, Value>)
    requires !Unreadable(plugin)
    requires !SpecOf(plugin, service).Null?
    requires FunctionName(SpecOf(plugin, service)) != Str("undefined")
    requires !LocalFunction(loaded, ToKey(FunctionName(SpecOf(plugin, service))))
    requires Loadable(packages, ToKey(Prop(plugin, "name")))
    ensures var exported := Prop(packages[ToKey(Prop(plugin, "name"))],
                                 ToKey(FunctionName(SpecOf(plugin, service))));
      ResolveProvider(plugin, service, loaded, packages)
        == if exported.Fn? then Resolved(Provider(exported.handler, SpecOrder(SpecOf(plugin, service))))
           else NoProvider
  {
  }

  /** A resolved handler is always a function found under the spec's name,
      in the local table or in the package's exports. */
  lemma ResolvedIsFound(plugin: Value, service: string, loaded: map<string, Value>,
                        packages: map<string, Value>)
    ensures var r := ResolveProvider(plugin, service, loaded, packages);
      r.Resolved? ==>
        var key := ToKey(FunctionName(SpecOf(plugin, service)));
        var pkg := ToKey(Prop(plugin, "name"));
        || (key in loaded && loaded[key].Fn? && loaded[key].handler == r.provider.handler)
        || (Loadable(packages, pkg) && Prop(packages[pkg], key).Fn?
            && Prop(packages[pkg], key).handler == r.provider.handler)
  {
  }

  /** The guard against the string 'undefined' never sees a missing spec:
      a plugin without an entry for the service falls through to the
      lookups under the key "undefined", and yields `null` only when the
      package loads and nothing is found there; when the package cannot be
      loaded, `.match` on the missing spec throws and the lookup rejects. */
  lemma MissingSpecFallsThrough(plugin: Value, service: string, loaded: map<string, Value>,
                                packages: map<string, Value>)
    requires !Unreadable(plugin) && SpecOf(plugin, service) == Undefined
    ensures var r := ResolveProvider(plugin, service, loaded, packages);
      && (LocalFunction(loaded, "undefined") ==> r.Resolved?)
      && (!LocalFunction(loaded, "undefined") && !Loadable(packages, ToKey(Prop(plugin, "name")))
          ==> r == Rejected)
      && (!LocalFunction(loaded, "undefined") && Loadable(packages, ToKey(Prop(plugin, "name")))
          ==> (r == NoProvider <==> !Prop(packages[ToKey(Prop(plugin, "name"))], "undefined").Fn?))
  {
  }

  /** When neither lookup can run, the outcome depends only on whether the
      spec is a string: a string yields `null`, anything else rejects. */
  lemma CatchRethrowsForNonStrings(plugin: Value, service: string, loaded: map<string, Value>,
                                   packages: map<string, Value>)
    requires !Unreadable(plugin)
    requires FunctionName(SpecOf(plugin, service)) != Str("undefined")
    requires !LocalFunction(loaded, ToKey(FunctionName(SpecOf(plugin, service))))
    requires !Loadable(packages, ToKey(Prop(plugin, "name")))
    ensures ResolveProvider(plugin, service, loaded, packages)
         == if SpecOf(plugin, service).Str? then NoProvider else Rejected
  {
  }

  function AsNullable(r: Resolution): Option<Provider>
    requires !r.Rejected?
  {
    if r.Resolved? then Some(r.provider) else None
  }

  /** `getProviders(service)`: one entry per registered plugin, in plugin
      order, either its provider or `null`; `None` when some plugin's
      callback rejects, which rejects the whole `Promise.all`. */
  function GetProviders(plugins: seq<Value>, service: string, loaded: map<string, Value>,
                        packages: map<string, Value>): (r: Option<seq<Option<Provider>>>)
    ensures r.Some? <==>
      forall i :: 0 <= i < |plugins| ==> !ResolveProvider(plugins[i], service, loaded, packages).Rejected?
    ensures r.Some? ==>
      && |r.value| == |plugins|
      && forall i :: 0 <= i < |plugins| ==>
           r.value[i] == AsNullable(ResolveProvider(plugins[i], service, loaded, packages))
  {
    if plugins == [] then Some([])
    else
      var tail := plugins[1..];
      assert forall i :: 0 <= i < |tail| ==> tail[i] == plugins[i + 1];
      var first := ResolveProvider(plugins[0], service, loaded, packages);
      var rest := GetProviders(tail, service, loaded, packages);
      if first.Rejected? then None
      else if rest.None? then
        assert exists i :: 0 <= i < |tail| && ResolveProvider(tail[i], service, loaded, packages).Rejected?;
        None
      else
        Some([AsNullable(first)] + rest.value)
  }

  /** The `filter(provider => provider !== null)` step. */
  function NonNull(found: seq<Option<Provider>>): (ps: seq<Provider>)
    ensures |ps| <= |found|
    ensures forall i :: 0 <= i < |ps| ==> Some(ps[i]) in found
    ensures forall i :: 0 <= i < |found| && found[i].Some? ==> found[i].value in ps
  {
    if found == [] then []
    else
      var rest := NonNull(found[1..]);
      assert forall i :: 1 <= i < |found| ==> found[i] == found[1..][i - 1];
      if found[0].Some? then [found[0].value] + rest else rest
  }

  /** The filter keeps a present provider and drops a `null`. */
  lemma NonNullOne(x: Option<Provider>)
    ensures NonNull([x]) == (if x.Some? then [x.value] else [])
  {
    assert [x][1..] == [];
  }

  /** The filter works piece by piece; with `NonNullOne` this fixes its
      result as the present providers in their order, each as often as it
      occurs. */
  lemma {:induction false} NonNullAppend(a: seq<Option<Provider>>, b: seq<Option<Provider>>)
    ensures NonNull(a + b) == NonNull(a) + NonNull(b)
  {
    if a == [] {
      assert a + b == b;
    } else {
      var ab := a + b;
      assert ab[0] == a[0];
      assert ab[1..] == a[1..] + b;
      NonNullAppend(a[1..], b);
      var tail := NonNull(a[1..]);
      assert NonNull(ab) == (if a[0].Some? then [a[0].value] else []) + NonNull(a[1..] + b);
      assert NonNull(a) == (if a[0].Some? then [a[0].value] else []) + tail;
    }
  }
}
