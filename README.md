# plugged-in, modelled in Dafny

plugged-in is an event-dispatch runtime for JavaScript host applications.
Plugins are npm packages that declare, in a `plugged-in` section of their
`package.json`, a context and the events they handle. The runtime does four
things. It discovers the installed packages whose context matches the
host's. It writes the resulting plugin list to `.plugged-in.json`. It
resolves each plugin's declared handler for an event, looking in a table of
local modules first and then in the plugin package's exports. Finally it
runs the resolved handlers, ordered by their `order`, one after another on
a single `Event`, and stops at the first failure.

This project models that pipeline and proves its properties:

- `JsValue.dfy`: the JavaScript values the runtime handles, and the JSON
  copy used by `init`. A value is `undefined`, `null`, a boolean, an
  integer number, a string, a function, an array or an object. The model
  also covers `typeof`, truthiness, `===`, own-property reads and
  conversion to a property key.
- `Lines.dfy`: `split('\n')`, `trim()` and the blank-line test applied to
  package listings.
- `Event.dfy`: the `Event` class. Its name is fixed at construction and
  its payload can be replaced.
- `AddCreatedAt.dfy`: the bundled `addCreatedAt` handler.
- `Providers.dfy`: `getProviders`, which turns each plugin into a
  provider or `null`.
- `ProviderOrder.dfy`: the `sort` step of `exec`. It is a stable sort by
  `order`, proved sorted, a permutation, stable and unique.
- `PluginManager.dfy`: the `PluginManager` class (constructor, `plugins`
  setter, `init`, `exec`) and the fail-fast handler chain.
- `Files.dfy`, `Npm.dfy`: the file system as a map from paths to contents,
  and the current discovery code in `src/Npm.js`.
- `LegacyNpm.dfy`: the older discovery code in `src/util/Npm.js`. It has
  different rules, proved as contrasts with the current code.

Everything outside the program is a parameter of the model:

- Handler behaviour is an oracle `(id, event name, payload) -> Step`.
- The clock is a value `now`.
- `require` is a map from package names to exports.
- Files are a `FileSystem` map.
- Shell queries are `Option<string>` outputs; `None` means the query
  rejected.
- Schema validation is a predicate `valid`.
- The discovery manager is a `ManagerApi` record.
- The old base class's `exec` is a function.

`PluginManager` keeps no handler registry and has no override by name,
no `addPlugins` or `dispatch` method and no `postInit` event. It
resolves providers afresh on every `exec` call. Discovery dedupes
plugins only within one scan. It returns `null`, rather than raising an
error, when the host's `package.json` has no `plugged-in` section, or
that section is `null`. A section without a `context` does not stop
the scan. The host context is then `undefined`, and candidates whose
sections also lack a `context` are accepted.

## Model

| member | source | states |
|---|---|---|
| JsValue.CopyList | src/util/copy.js:8-10 | copying a list keeps its length; each element is its JSON round trip, and undefined elements and functions become `null` |
| JsValue.ToJsonIdentity | src/util/copy.js:8-10 | the JSON round trip gives back any value that JSON represents exactly |
| JsValue.ToJsonIsJson | src/util/copy.js:8-10 | stringify omits exactly `undefined` and functions; whatever comes back holds neither, at any depth |
| JsValue.CopyListOfJson | src/PluginManager.js:74 | `init` keeps a plugin list of JSON data unchanged; any list comes back as pure JSON |
| JsValue.NatToString | src/PluginManager.js:172 | a number used as a property key is written as decimal digits without leading zeros, whose value is the number |
| Lines.Split | src/Npm.js:207 | `split('\n')` yields at least one piece, and no piece contains a newline |
| Lines.JoinSplit | src/Npm.js:207 | joining the pieces with newlines gives back the text |
| Lines.SplitJoin | src/Npm.js:207 | splitting joined newline-free lines gives back the lines |
| Lines.TrimEmptyIffBlank | src/Npm.js:209 | `dir.trim() !== ''` holds exactly when the line has a character that is not JavaScript whitespace |
| Lines.NonBlankLines | src/Npm.js:203-215 | the kept lines are non-blank lines of the input; every non-blank input line is kept; never more lines than the input |
| Lines.NonBlankLinesAppend | src/Npm.js:180-186 | filtering two listings one after the other equals filtering their concatenation, so local entries stay ahead of global ones |
| Events.EventName | src/Event.js:9 | the name is `config.name` when that is truthy, otherwise `'event'`; it is always truthy |
| Events.Event.constructor | src/Event.js:8-11 | a new event has name `EventName(config)` and payload `config.data` |
| Events.Event.SetData | src/Event.js:38-40 | after the setter, the payload reads back as the value set; the name is a constant and cannot change |
| CreatedAt.StampSpec | src/plugins/addCreatedAt.js:19-25 | it throws exactly for a `null` payload; a payload that is not an object with a `context` is left as it is; otherwise the payload gains or overwrites `createdAt = now` and keeps every other key and value |
| CreatedAt.AddCreatedAt | src/plugins/addCreatedAt.js:12-26 | the handler leaves on the event the payload `Stamp` gives for the old payload, and throws exactly when `Stamp` does |
| Providers.OrderRule | src/PluginManager.js:164-177 | a resolved provider's order is the spec's `order` for an object spec and 1 for any other spec |
| Providers.LocalModuleFirst | src/PluginManager.js:185-188 | a function in the local module table under the spec's name is used, and the package exports are irrelevant |
| Providers.PackageExport | src/PluginManager.js:189-201 | otherwise the package export of that name is used if it is a function, else the plugin yields `null` |
| Providers.ResolvedIsFound | src/PluginManager.js:185-201 | every resolved handler is a function found under the spec's name, locally or in the package exports |
| Providers.MissingSpecFallsThrough | src/PluginManager.js:181-183 | the guard against the string `'undefined'` never catches a missing spec; it is looked up under the key `"undefined"` and yields `null` only because nothing is found, or rejects when the package cannot be loaded |
| Providers.CatchRethrowsForNonStrings | src/PluginManager.js:204-212 | when neither lookup can run, a string spec yields `null` and any other spec makes the lookup reject |
| Providers.GetProviders | src/PluginManager.js:161-213 | it succeeds exactly when no plugin's callback rejects; it then returns one entry per plugin, in plugin order, each the plugin's provider or `null` |
| Providers.NonNull | src/PluginManager.js:122 | the filtered list holds only providers that were in the list, and every provider in the list survives the filter |
| Providers.NonNullOne | src/PluginManager.js:122 | the filter keeps a present provider and drops a `null` |
| Providers.NonNullAppend | src/PluginManager.js:122 | the filter distributes over concatenation, so with `NonNullOne` it keeps the present providers in their order, each as often as it occurs |
| ProviderOrder.StableSortCorrect | src/PluginManager.js:123-134 | the stable sort yields non-decreasing orders and a permutation of its input, and keeps providers of equal order in their input order |
| ProviderOrder.StableSortUnique | src/PluginManager.js:123-134 | any arrangement that is sorted and keeps equal orders in input order is the stable sort, so a stable engine sort yields exactly it |
| ProviderOrder.ScheduleCorrect | src/PluginManager.js:121-134 | `exec` schedules exactly the non-null providers, each as often as it occurs; with ranked orders it runs them sorted and stable; when the comparator finds every pair equal, it keeps plugin-list order |
| Manager.ChainRunsPrefix | src/PluginManager.js:139-143 | the handlers called are a prefix of the schedule, in schedule order; the whole schedule runs unless one fails |
| Manager.ChainFailsAtFirstFailure | src/PluginManager.js:139-143 | when the chain fails, the last handler called is the one that threw; every earlier handler returned normally, and the payload is what the failing handler left |
| Manager.NothingRunsAfterFailure | src/PluginManager.js:139-143 | handlers scheduled after a failure change neither what ran nor the payload |
| Manager.Concat | src/PluginManager.js:58 | `concat` keeps the old list as a prefix and appends an array's elements, or a single non-array value |
| Manager.PluginManager.constructor | src/PluginManager.js:18-30 | plugins default to `[]`; the context is the supplied truthy context, else `'default'`; the local module table is kept |
| Manager.PluginManager.SetPlugins | src/PluginManager.js:57-58 | assigning `plugins` appends: the old entries stay first and unchanged, the context is untouched |
| Manager.PluginManager.Init | src/PluginManager.js:70-108 | the list becomes the copy of the argument; a parsed, non-null config file replaces the context and appends its `plugins`; an absent, unreadable or null file leaves the context alone, and discovery then has no effect |
| Manager.PluginManager.Exec | src/PluginManager.js:118-149 | for an `Event`, the handlers called, the final payload and the rejection are those of the chain over the scheduled providers; if the lookup rejects, nothing runs; for any other argument no handler runs and the result is the lookup's outcome |
| Manager.Call | src/PluginManager.js:140-142 | calling one handler leaves on the event what that handler does to its payload |
| Manager.RunScheduled | src/PluginManager.js:139-148 | the event's handlers run as `RunChain` specifies, and `exec` rejects with the handler that threw, or resolves when none did |
| Manager.RunHandlers | src/PluginManager.js:139-143 | the `mapSeries` loop leaves exactly what `RunChain` specifies: handlers called, payload and failure |
| Npm.FindPackage | src/Npm.js:118-139 | a missing or unparsable `package.json` gives `null`; a readable, parsable one gives its parsed content |
| Npm.PrepareModuleList | src/Npm.js:203-215 | the module list is the input's non-blank lines, untrimmed and in input order, and each one trims to a non-empty string |
| Npm.GetModules | src/Npm.js:176-192 | local entries come before global ones; a failed local query gives `[]`, a failed global query keeps the local entries |
| Npm.HasPlugin | src/Npm.js:227-237 | the result is true exactly when some listed plugin's `name` is `===` to the new plugin's `name` |
| Npm.Accept | src/Npm.js:57-89 | a candidate is accepted exactly when it has a manifest and a readable declaration, the declaration's context `===` the host's, its name is not the host's and validation passes; the record is `{name}` merged with the declaration, `context` removed, declaration fields winning |
| Npm.Admit | src/Npm.js:84-87 | an accepted record is pushed exactly when no listed record has a `===` name, and the list is otherwise unchanged |
| Npm.Scan | src/Npm.js:55-93 | the scan loop produces `Collected` of the candidates' manifests, skipping failed candidates and continuing |
| Npm.CollectedGrows | src/Npm.js:55-87 | the scan only appends: the list for a prefix of the modules is a prefix of the final list |
| Npm.CollectedCovers | src/Npm.js:84-87 | every accepted candidate is listed itself, or under a record with the same name |
| Npm.CollectedUnique | src/Npm.js:84-87 | no two listed records have `===` names |
| Npm.CollectedFirstWins | src/Npm.js:55-87 | each listed record was contributed by some candidate, and no earlier candidate contributed a record of the same name |
| Npm.RepeatsAddNothing | src/Npm.js:84-87 | candidates whose names were all accepted earlier do not change the list |
| Npm.ScanTwice | src/Npm.js:84-87 | scanning a module listing twice gives the same list as scanning it once, when names are not objects |
| Npm.GenerateConfig | src/Npm.js:34-109 | without a readable host manifest with a `plugged-in` section, or without a manager, the result is `null` and nothing is written; otherwise the scanned `{context, plugins}` goes to `addPlugins` and `dispatch`, and when both succeed and the write succeeds, it is written to `filePath` (default `.plugged-in.json`) and returned |
| LegacyNpm.FindPackage | src/util/Npm.js:24-42 | the directory's own manifest is used when readable, otherwise the parent's; nothing is found only when neither is readable |
| LegacyNpm.PushListing | src/util/Npm.js:122-128 | one `forEach` appends the non-blank lines of a listing, in order |
| LegacyNpm.GetModules | src/util/Npm.js:104-154 | the result is the same listing as the current code's, built from the local and second global query; the first global query has no effect; a failed local query gives `[]` |
| LegacyNpm.Contribution | src/util/Npm.js:63-79 | a candidate is kept exactly when it has a non-null manifest and declaration and the declaration's context `===` the host's, with no self-exclusion; it aborts exactly when no manifest is found or a null manifest or declaration is read; a kept record is `{name}` merged with the whole declaration, `context` included: its keys are the declaration's plus `name`, its `name` is the declaration's own `name` if it has one and otherwise the package's, and its context is the host's |
| LegacyNpm.LegacyCollectedFacts | src/util/Npm.js:62-80 | the scan succeeds exactly when no candidate aborts, and then keeps at most one record per candidate, each carrying the host's context |
| LegacyNpm.LegacyCollectedAppend | src/util/Npm.js:62-80 | scanning two listings in sequence gives the concatenation of their scans |
| LegacyNpm.LegacyKeepsDuplicates | src/util/Npm.js:62-80 | no deduplication: a listing scanned twice yields its plugins twice |
| LegacyNpm.LegacyKeepsEveryMatch | src/util/Npm.js:67-77 | when the scan succeeds, every candidate with a matching context is in the list, the host's own package included |
| LegacyNpm.Scan | src/util/Npm.js:62-80 | the scan loop produces `LegacyCollected` of the lookups, and rejects on the first abort |
| LegacyNpm.GenerateConfig | src/util/Npm.js:49-95 | it rejects on an unreadable or null host manifest or declaration, on any aborting candidate, or when `exec` rejects; otherwise it hands the kept list to the base class and writes the payload that `onGenerateConfig` leaves |

## Left out

- Logging (`color-logger`) is left out. It does not affect state or
  results.
- Listeners registered on the manager, which is an event emitter, are not
  modelled. The model assumes none is registered. Listeners run inside
  `emit`. So a throwing listener would make the `plugins` setter throw, and
  it would make `init` and `exec` reject, even after every handler has
  succeeded.
- Bluebird's `mapSeries` and `Promise.all` are modelled as sequential
  loops and maps. Every callback of `Promise.all` runs, but none has an
  effect the model keeps.
- Moment time is a value `now`.
- File reads and writes, `existsSync`, `childProcess.exec`,
  `executeShell`, `writeJsonFile` and `require` are parameters. Paths are
  joined as text, without normalisation.
- Numbers are integers. Floating point, `NaN` and numeric strings are not
  modelled.
- Property reads (`Prop`) see the own properties of plain objects only.
  Inherited members (`toString`, `constructor`) are not modelled. The own
  properties of arrays and strings (indices, `length`) read as
  `undefined`. For example, an array `provides` looked up with service
  `"0"` gives no provider.
- `Object.assign` of a string or array declaration is not modelled.
  Such a declaration contributes no fields.
- `Events.Event.SetData` and `CreatedAt.AddCreatedAt`: the payload is a
  value. That it stays the same object, mutated in place and shared by
  reference with the handlers, is not represented.
- `ProviderOrder.ScheduleCorrect`: the model decides the order only when
  every order is a number, `null` or a boolean, or when the comparator
  finds every pair equal. Lists with string, array, object or function
  orders mixed with others are arranged by the `engine` parameter, even
  where the comparator happens to be consistent.
- `Manager.PluginManager.constructor` and `Manager.PluginManager.Init`: a
  non-array `plugins` option or `init` argument is not modelled. The
  constructor takes such an option as `[]`.
- `Manager.PluginManager.Exec`: the handler oracle says only how a
  handler leaves the payload and whether it throws. A handler that
  changes the manager or other state is not modelled.
- `Providers.ResolveProvider`: a spec object carrying its own `match`
  function is not modelled.
- `Npm.Accept`: a declaration that is not an object contributes only
  `{name}`. Validation is the abstract predicate `valid`; the schema file
  and the Ajv wrapper in `src/util/schemaValidator.js` are not part of
  this model.
- `Npm.GenerateConfig`: the manager's `addPlugins` and `dispatch` are
  abstract. Any change `addPlugins` makes to the list is not modelled,
  and the system's own manager has neither method.
- `LegacyNpm.GenerateConfig`: the `Plugin` base class is not part of this
  model. Its `plugins` setter records the handed list, and its `exec` is
  a parameter. The write is not awaited, so its failure is not modelled.
- `src/errors/ValidationError.js` is not modelled: a failed validation is
  a skipped candidate.
- Not modelled: `src/PluggedInCli.js` (argument parsing and console
  output), `src/Application.js`, the example manager and plugins,
  `src/Typedef/typedef.js` (JSDoc only), and `executeShell`'s error-text
  clean-up.
