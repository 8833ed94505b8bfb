/** The plugin manager: the plugin list and context it keeps, `init`, the
    `plugins` setter, and `exec`, which runs the ordered providers of one
    event one after another on the same Event object and stops at the first
    failure. */
module Manager {
  import opened JsValue
  import opened Events
  import opened CreatedAt
  import opened Providers
  import opened ProviderOrder

  /** What a handler does when called with an event of this name and
      payload. The bundled `addCreatedAt` is defined here; every other
      function's behaviour is given by `behave`. */
  function Apply(h: Handler, name: Value, data: Value,
                 behave: (nat, Value, Value) -> Step, now: Value): Step
  {
    match h
    case AddCreatedAt => Stamp(data, now)
    case External(id) => behave(id, name, data)
  }

  /** The result of running a chain: the handlers called, the payload they
      leave, and whether the last one called failed. */
  datatype Chain = Chain(ran: seq<Handler>, data: Value, failed: bool)

  /** The `mapSeries` over the handlers: each one is awaited before the next
      is called and sees the payload the previous ones left; the first
      failure ends the chain. */
  function RunChain(hs: seq<Handler>, name: Value, data: Value,
                    behave: (nat, Value, Value) -> Step, now: Value): (c: Chain)
    ensures |c.ran| <= |hs|
    ensures c.failed ==> |c.ran| >= 1
  {
    if hs == [] then Chain([], data, false)
    else
      var before := RunChain(hs[..|hs| - 1], name, data, behave, now);
      if before.failed then before
      else
        var h := hs[|hs| - 1];
        var s := Apply(h, name, before.data, behave, now);
        Chain(before.ran + [h], s.data, s.threw)
  }

  /** Handlers are called in schedule order and none is skipped: the called
      handlers are a prefix of the schedule, all of it when nothing failed. */
  lemma {:induction false} ChainRunsPrefix(hs: seq<Handler>, name: Value, data: Value,
                                           behave: (nat, Value, Value) -> Step, now: Value)
    ensures var c := RunChain(hs, name, data, behave, now);
      && |c.ran| <= |hs| && c.ran == hs[..|c.ran|]
      && (!c.failed ==> c.ran == hs)
      && (c.failed ==> |c.ran| >= 1)
  {
    if hs != [] {
      ChainRunsPrefix(hs[..|hs| - 1], name, data, behave, now);
      var c := RunChain(hs[..|hs| - 1], name, data, behave, now);
      assert hs[..|hs| - 1][..|c.ran|] == hs[..|c.ran|];
    }
  }

  /** Fail fast: when the chain fails, its last called handler is the one
      that failed, every handler before it returned normally, and the
      payload is what the failing handler left. */
  lemma ChainFailsAtFirstFailure(hs: seq<Handler>, name: Value, data: Value,
                                 behave: (nat, Value, Value) -> Step, now: Value)
    ensures var c := RunChain(hs, name, data, behave, now);
      c.failed ==>
        && 1 <= |c.ran| <= |hs|
        && var k := |c.ran| - 1;
           var prior := RunChain(hs[..k], name, data, behave, now);
           && !prior.failed
           && Apply(hs[k], name, prior.data, behave, now) == Step(c.data, true)
  {
    var c := RunChain(hs, name, data, behave, now);
    if c.failed {
      FailedChainIsPrefixChain(hs, name, data, behave, now);
      LastHandlerFailed(hs, |c.ran| - 1, name, data, behave, now);
    }
  }

  /** When the chain over `hs[..k + 1]` fails at its last handler, the chain
      before it had not failed and that handler threw. */
  lemma LastHandlerFailed(hs: seq<Handler>, k: nat, name: Value, data: Value,
                          behave: (nat, Value, Value) -> Step, now: Value)
    requires k < |hs|
    requires RunChain(hs[..k + 1], name, data, behave, now).failed
    requires |RunChain(hs[..k + 1], name, data, behave, now).ran| == k + 1
    ensures var prior := RunChain(hs[..k], name, data, behave, now);
      && !prior.failed
      && Apply(hs[k], name, prior.data, behave, now)
         == Step(RunChain(hs[..k + 1], name, data, behave, now).data, true)
  {
    assert hs[..k + 1][..k] == hs[..k];
  }

  /** A failed chain is the chain up to its last called handler. */
  lemma {:induction false} FailedChainIsPrefixChain(hs: seq<Handler>, name: Value, data: Value,
                                                    behave: (nat, Value, Value) -> Step, now: Value)
    requires RunChain(hs, name, data, behave, now).failed
    ensures RunChain(hs[..|RunChain(hs, name, data, behave, now).ran|], name, data, behave, now)
         == RunChain(hs, name, data, behave, now)
  {
    var n := |hs| - 1;
    var before := RunChain(hs[..n], name, data, behave, now);
    if before.failed {
      FailedChainIsPrefixChain(hs[..n], name, data, behave, now);
      assert hs[..n][..|before.ran|] == hs[..|before.ran|];
    } else {
      ChainRunsPrefix(hs[..n], name, data, behave, now);
      assert hs[..|hs|] == hs;
    }
  }

  /** Nothing after a failure runs: appending handlers to a chain that has
      failed changes neither what ran nor the payload. */
  lemma {:induction false} NothingRunsAfterFailure(hs: seq<Handler>, more: seq<Handler>, name: Value, data: Value,
                                                   behave: (nat, Value, Value) -> Step, now: Value)
    requires RunChain(hs, name, data, behave, now).failed
    ensures RunChain(hs + more, name, data, behave, now) == RunChain(hs, name, data, behave, now)
  {
    if more != [] {
      var m' := more[..|more| - 1];
      NothingRunsAfterFailure(hs, m', name, data, behave, now);
      assert (hs + more)[..|hs + more| - 1] == hs + m';
    } else {
      assert hs + more == hs;
    }
  }

  /** One more handler: the chain up to `hs[i]` extends the chain before it. */
  lemma ChainStep(hs: seq<Handler>, i: nat, name: Value, data: Value,
                  behave: (nat, Value, Value) -> Step, now: Value)
    requires i < |hs|
    ensures hs[..i + 1] == hs[..i] + [hs[i]]
    ensures var before := RunChain(hs[..i], name, data, behave, now);
      !before.failed ==>
        var s := Apply(hs[i], name, before.data, behave, now);
        RunChain(hs[..i + 1], name, data, behave, now) == Chain(before.ran + [hs[i]], s.data, s.threw)
  {
    assert hs[..i + 1][..i] == hs[..i];
  }

  /** A chain that has failed after `k` handlers is the whole chain. */
  lemma ChainStopsAt(hs: seq<Handler>, k: nat, name: Value, data: Value,
                     behave: (nat, Value, Value) -> Step, now: Value)
    requires k <= |hs| && RunChain(hs[..k], name, data, behave, now).failed
    ensures RunChain(hs, name, data, behave, now) == RunChain(hs[..k], name, data, behave, now)
  {
    NothingRunsAfterFailure(hs[..k], hs[k..], name, data, behave, now);
    assert hs[..k] + hs[k..] == hs;
  }

  function HandlersOf(ps: seq<Provider>): (hs: seq<Handler>)
    ensures |hs| == |ps|
    ensures forall i :: 0 <= i < |ps| ==> hs[i] == ps[i].handler
  {
    seq(|ps|, i requires 0 <= i < |ps| => ps[i].handler)
  }

  /** The persisted configuration file `.plugged-in.json`: absent, present
      but unreadable or not JSON, or parsed. */
  datatype ConfigFile = Absent | Unreadable | Parsed(json: Value)

  /** `a.concat(v)`: an array argument is spread, anything else appended. */
  function Concat(list: seq<Value>, v: Value): (r: seq<Value>)
    ensures |r| >= |list| && r[..|list|] == list
    ensures v.Arr? ==> r[|list|..] == v.elems
    ensures !v.Arr? ==> r[|list|..] == [v]
  {
    if v.Arr? then list + v.elems else list + [v]
  }

  /** The argument of `exec`: an Event, or some other value. */
  datatype ExecArg = EventArg(event: Event) | OtherArg(v: Value)

  datatype Cause = LookupThrew | HandlerThrew(handler: Handler)

  /** How `exec` settles: it resolves to the manager, or rejects. */
  datatype ExecOutcome = Done | Failed(cause: Cause)

  /** A chain that failed rejects with the handler that threw. */
  function Settled(c: Chain): ExecOutcome
    requires c.failed ==> |c.ran| >= 1
  {
    if c.failed then Failed(HandlerThrew(c.ran[|c.ran| - 1])) else Done
  }

  class PluginManager {
    var plugins: seq<Value>
    var context: Value
    const loadedModules: map<string, Value>

    /** `new PluginManager(options, loadedModules)`, the options object given
        by its own properties. */
    constructor(options: map<string, Value>, loadedModules: map<string, Value>)
      ensures plugins == (if Prop(Obj(options), "plugins").Arr? then options["plugins"].elems else [])
      ensures Truthy(context)
      ensures context == (if Truthy(Prop(Obj(options), "context")) then options["context"] else Str("default"))
      ensures this.loadedModules == loadedModules
    {
      var p := Prop(Obj(options), "plugins");
      var c := Prop(Obj(options), "context");
      plugins := if p.Arr? then p.elems else [];
      context := if Truthy(c) then c else Str("default");
      this.loadedModules := loadedModules;
    }

    /** The `plugins` setter appends: the old entries stay, unchanged and first. */
    method SetPlugins(v: Value)
      modifies this
      ensures plugins == Concat(old(plugins), v)
      ensures |plugins| >= |old(plugins)| && plugins[..|old(plugins)|] == old(plugins)
      ensures context == old(context)
    {
      plugins := plugins + (if v.Arr? then v.elems else [v]);
    }

    /** `init(plugins)`: the list becomes a copy of the argument; a parsed
        configuration file then sets the context and appends its plugins.
        Errors inside its `try` are logged, not raised. When the file is
        absent, discovery runs without a manager to hand its result to and
        returns `null` (see `Npm.GenerateConfig`), so the state stays as the
        copy left it. */
    method Init(arg: seq<Value>, file: ConfigFile)
      modifies this
      ensures file.Parsed? && !Nullish(file.json) ==>
        && context == Prop(file.json, "context")
        && plugins == Concat(CopyList(arg), Prop(file.json, "plugins"))
      ensures !(file.Parsed? && !Nullish(file.json)) ==>
        && context == old(context)
        && plugins == CopyList(arg)
    {
      plugins := CopyList(arg);
      match file {
        case Absent =>
        case Unreadable =>
        case Parsed(data) =>
          if !Nullish(data) {
            context := Prop(data, "context");
            plugins := plugins + (if Prop(data, "plugins").Arr? then Prop(data, "plugins").elems
                                  else [Prop(data, "plugins")]);
          }
      }
    }

    /** `exec(arg)`. `packages` gives the exports `require` returns for each
        package name, `engine` the engine's arrangement when the comparator
        is inconsistent, `behave` what external handlers do and `now` the
        time `addCreatedAt` records. `ran` lists the handlers called. */
    method Exec(arg: ExecArg, packages: map<string, Value>, engine: seq<Provider> -> seq<Provider>,
                behave: (nat, Value, Value) -> Step, now: Value)
      returns (outcome: ExecOutcome, ran: seq<Handler>)
      modifies if arg.EventArg? then {arg.event} else {}
      ensures arg.OtherArg? ==>
        && ran == []
        && outcome == (if Nullish(arg.v)
                          || GetProviders(plugins, ToKey(Prop(arg.v, "name")), loadedModules, packages).None?
                       then Failed(LookupThrew) else Done)
      ensures arg.EventArg? ==>
        var e := arg.event;
        var found := GetProviders(plugins, ToKey(e.name), loadedModules, packages);
        if found.None? then
          outcome == Failed(LookupThrew) && ran == [] && e.data == old(e.data)
        else
          var c := RunChain(HandlersOf(Schedule(NonNull(found.value), engine)), e.name, old(e.data), behave, now);
          && ran == c.ran
          && e.data == c.data
          && outcome == Settled(c)
    {
      ran := [];
      var name;
      match arg {
        case EventArg(e) => name := e.name;
        case OtherArg(v) =>
          if Nullish(v) {
            outcome := Failed(LookupThrew);
            return;
          }
          name := Prop(v, "name");
      }
      var found := GetProviders(plugins, ToKey(name), loadedModules, packages);
      if found.None? {
        outcome := Failed(LookupThrew);
        return;
      }
      outcome := Done;
      if arg.OtherArg? {
        return;
      }
      outcome, ran := RunScheduled(arg.event, HandlersOf(Schedule(NonNull(found.value), engine)), behave, now);
    }
  }

  /** Runs the scheduled handlers of one event and settles `exec`: it
      rejects with the handler that threw, or resolves. */
  method RunScheduled(e: Event, hs: seq<Handler>, behave: (nat, Value, Value) -> Step, now: Value)
    returns (outcome: ExecOutcome, ran: seq<Handler>)
    modifies e
    ensures var c := RunChain(hs, e.name, old(e.data), behave, now);
      && ran == c.ran
      && e.data == c.data
      && outcome == Settled(c)
  {
    var threw;
    threw, ran := RunHandlers(e, hs, behave, now);
    outcome := if threw then Failed(HandlerThrew(ran[|ran| - 1])) else Done;
  }

  /** Calls one handler on the event. */
  method Call(e: Event, h: Handler, behave: (nat, Value, Value) -> Step, now: Value)
    returns (threw: bool)
    modifies e
    ensures Step(e.data, threw) == Apply(h, e.name, old(e.data), behave, now)
  {
    match h {
      case AddCreatedAt =>
        threw := CreatedAt.AddCreatedAt(e, now);
      case External(id) =>
        var s := behave(id, e.name, e.data);
        e.SetData(s.data);
        threw := s.threw;
    }
  }

  /** The `mapSeries` loop of `exec`: calls the handlers in turn on one
      event, each awaited before the next, until one fails. */
  method RunHandlers(e: Event, hs: seq<Handler>, behave: (nat, Value, Value) -> Step, now: Value)
    returns (threw: bool, ran: seq<Handler>)
    modifies e
    ensures RunChain(hs, e.name, old(e.data), behave, now) == Chain(ran, e.data, threw)
  {
    ghost var data0 := e.data;
    ran := [];
    threw := false;
    var i := 0;
    while i < |hs| && !threw
      invariant 0 <= i <= |hs|
      invariant ran == hs[..i]
      invariant RunChain(ran, e.name, data0, behave, now) == Chain(ran, e.data, threw)
    {
      threw := Call(e, hs[i], behave, now);
      ChainStep(hs, i, e.name, data0, behave, now);
      ran := ran + [hs[i]];
      i := i + 1;
    }
    if threw {
      ChainStopsAt(hs, i, e.name, data0, behave, now);
    } else {
      assert hs[..i] == hs;
    }
  }
}