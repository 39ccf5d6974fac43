# Liftoff launcher core, in Dafny

This project models the decision logic of the Liftoff command-line launcher. It has two parts.

**The extends-chain configuration loader** (`loadExtendableFile`, driven per logical name by `loadConfigFiles`):
- It locates a file and guards against cycles with a `visited` table shared by the whole traversal.
- It registers the loader of a mapped extension before importing the file.
- It deep-merges the file into the accumulator; keys already present win.
- It follows the file's `extends` references from the file's own directory, then deletes `extends`.

**The bootstrap logic of the `Liftoff` instance:**
- `findEnvPaths` chooses `cwd`, `configPath` and `configBase`.
- `preloadModules` de-duplicates the modules to preload, requires each one and registers the loaders.
- `requireLocal`, `preloadModules`, `prepare` and `execute` emit events and call callbacks in a fixed order. The model records that order in an event trace that only these four methods append to. `buildEnvironment` is a function that computes the environment, and `handleFlags` hands its result back as a value.

How each source form is modelled:
- The file system is a finite map from absolute path to what `require` yields: a value, or a thrown error. The locator and `path.dirname` are functions in the same record.
- `DeepMerge` (merge.dfy) defines the deep merge as a pure function.
- `ExtendableFile.Load` and `ExtendableFile.Fold` are the specification of the loader.
- `ExtendableFile.LoadExtendableFile` is the imperative traversal. It works over a mutable accumulator object (`ConfigObject`) and a mutable visited table (`Visited`), and is proved to compute what `Load` describes.
- The `reduce` over `extends` discards its own result. Contributions therefore reach the caller only through the shared accumulator. After a nested call returns `undefined`, the later entries run on a detached value whose contents are lost. `Fold` reproduces this: its `Thread` tells whether the reduce still holds the caller's own object.
- `ExtendableChain` (extendable_chain.dfy) covers the case where no import fails. It proves that the result of a whole `extends` chain, `extends` aside, is the deep merge of the imported files in import order onto the caller's accumulator. So a file imported earlier wins over one imported later, and nested objects merge across files. `ExtendableScenarios` works small file tables through the loader step by step.
- `Liftoff.Liftoff` is a class whose `trace` field records, in order:
  - the events it emits (`beforeRequire`, `require`, `requireFail`, `respawn`);
  - its calls to `registerLoader`, to `completions`, and to the user callbacks.
- Its methods are proved against the specification functions `PrepareSpec`, `ExecuteSpec` and `PreloadEvents`.

## Model

| member | source | states |
|---|---|---|
| DeepMerge.DefaultsDeep | lib/load_extendable_file.js:48 | the merged object has exactly the keys of both sides |
| DeepMerge.DefaultsDeepPrecedence | lib/load_extendable_file.js:48 | every leaf of the accumulator survives the merge; nested plain objects only gain keys; every key path of the file is present afterwards; a key missing from the accumulator takes the file's value |
| DeepMerge.ExistingPropsWin | test/lib/load_extendable_file.js:45-54 | `{c1:'A', c2:{c3:456}}` merged with `{c1:'C1', c2:{c3:123, c4:'C4'}}` gives `{c1:'A', c2:{c3:456, c4:'C4'}}` |
| DeepMerge.DefaultsDeepSelf | lib/load_extendable_file.js:48 | merging an object into itself yields the object |
| DeepMerge.DefaultsDeepUnits | lib/load_extendable_file.js:48 | merging an empty object, or merging into `{}`, is the identity (a fresh `{}` accumulator takes the file as is) |
| DeepMerge.DefaultsDeepIdempotent | lib/load_extendable_file.js:48 | merging the same file a second time changes nothing |
| DeepMerge.KeptTransitive | lib/load_extendable_file.js:48-62 | "keeps every leaf of" is transitive, so precedence holds along a chain of merges |
| ExtendableFile.Require | lib/load_extendable_file.js:33-43 | a successful import names a path of the file table |
| ExtendableFile.ExtendsList | lib/load_extendable_file.js:51-52 | an `extends` list is used as is; any other value becomes a one-element list |
| ExtendableFile.LoaderCwd | lib/load_extendable_file.js:28 | the loader is registered with the reference's own `cwd` when that is truthy, and with the default `cwd` otherwise |
| ExtendableFile.InheritedExtensions | lib/load_extendable_file.js:54-57 | the `extends` entries inherit the reference's own `extensions` when truthy, and the default extensions otherwise |
| ExtendableFile.Registration | lib/load_extendable_file.js:27-31 | a loader is registered exactly when the matched extension is a plain object: once, with that extension, the located path and the loader's `cwd` |
| ExtendableFile.Load | lib/load_extendable_file.js:9-68 | the visited table only grows: paths are added, never removed |
| ExtendableFile.LoadExtendingStep | lib/load_extendable_file.js:12-65 | a newly located plain object with a truthy `extends` gives its registration, then its import, then the imports of its `extends` entries folded from the file's directory onto the accumulator merged with the file; the result is the folded object without `extends` |
| ExtendableFile.Fold | lib/load_extendable_file.js:59-62 | the visited table only grows across the `reduce` |
| ExtendableFile.NotFoundUnchanged | lib/load_extendable_file.js:12-18 | when the locator finds nothing, the accumulator comes back unchanged, nothing is visited and nothing is imported |
| ExtendableFile.VisitedUnchanged | lib/load_extendable_file.js:20-24 | a located path already in `visited` returns the accumulator unchanged, without re-importing |
| ExtendableFile.MarkedAndRegisteredBeforeImport | lib/load_extendable_file.js:25-35 | a new file is marked visited; a mapped extension's loader is registered, and then the file is imported, before anything else happens |
| ExtendableFile.ImportFailureIsUndefined | lib/load_extendable_file.js:34-43 | an import failure yields `undefined`, not the accumulator |
| ExtendableFile.NonObjectUnchanged | lib/load_extendable_file.js:45-47 | a file that is not a plain object returns the accumulator unchanged |
| ExtendableFile.ExtendsStripped | lib/load_extendable_file.js:50-65 | a file with a truthy `extends` yields an object with no `extends` key |
| ExtendableFile.LoadKeepsAccumulator | lib/load_extendable_file.js:48-64 | across the whole `extends` chain, no value already in the accumulator is overwritten; nested objects only gain keys (`extends` excepted) |
| ExtendableFile.FoldKeepsOuter | lib/load_extendable_file.js:59-62 | the `reduce` over `extends` never overwrites a value of the caller's accumulator |
| ExtendableFile.LoadIncludesFile | lib/load_extendable_file.js:45-64 | every key of an imported plain object (apart from `extends`) is in the result |
| ExtendableChain.LoadGathersChain | lib/load_extendable_file.js:48-64 | when every file reached imports successfully, a defined accumulator comes back defined, and every key of every imported plain-object file (apart from `extends`) is in the result, through the whole `extends` chain |
| ExtendableChain.FoldGathersChain | lib/load_extendable_file.js:59-62 | when no entry of the `reduce` fails to import, the threaded value stays the caller's own object and every imported file's keys (apart from `extends`) reach it |
| ExtendableChain.MergeAll | lib/load_extendable_file.js:48 | merging files one after the other onto an accumulator keeps every key the accumulator had |
| ExtendableChain.MergeAllAppend | lib/load_extendable_file.js:48 | merging the files of `p` and then those of `q` is merging the files of `p + q` |
| ExtendableChain.StripMerge | lib/load_extendable_file.js:48-64 | deleting `extends` before a merge makes no difference once `extends` is deleted afterwards |
| ExtendableChain.LoadMergesChain | lib/load_extendable_file.js:9-68 | when every file reached imports successfully, loading into an object yields an object that, apart from `extends`, is the deep merge onto it of the imported files in import order; each file is merged in before the files it extends |
| ExtendableChain.FoldMergesChain | lib/load_extendable_file.js:59-62 | the same for the `reduce`: with no import failure the threaded value stays the caller's own object, and it ends as the merge of the imported files onto it, apart from `extends` |
| ExtendableChain.MergeAllKeeps | lib/load_extendable_file.js:48-62 | merging further files never changes a leaf already in place: the accumulator's values win |
| ExtendableChain.EarlierFilesWin | lib/load_extendable_file.js:48-62 | every leaf the files imported first put in place survives the files imported after them, so the first file loaded wins on a shared key, and nested objects only gain keys |
| ExtendableFile.ImportsAppend | lib/load_extendable_file.js:33-35 | the imports of concatenated effects are the concatenated imports |
| ExtendableFile.FreshImportsCompose | lib/load_extendable_file.js:20-25 | two traversal steps that import only unvisited files compose into one such step |
| ExtendableFile.LoadImportsFresh | lib/load_extendable_file.js:20-25 | one traversal imports each file at most once, never an already-visited one, and `visited` grows by exactly the imported files; cycles and diamonds are walked once per file |
| ExtendableFile.FoldImportsFresh | lib/load_extendable_file.js:59-62 | the same for the `reduce` over `extends`, with `visited` shared between entries |
| ExtendableFile.RegistrationsAppend | lib/load_extendable_file.js:27-35 | "every registration is followed by its file's import" is preserved by concatenation |
| ExtendableFile.LoadRegistersBeforeImport | lib/load_extendable_file.js:27-35 | in a whole traversal, loaders are registered only for mapped extensions, each immediately before its file is imported |
| ExtendableFile.FoldRegistersBeforeImport | lib/load_extendable_file.js:59-62 | the same for the `reduce` over `extends` |
| ExtendableFile.LoadTraversalIgnoresAccumulator | lib/load_extendable_file.js:50-62 | which files are registered, imported and visited does not depend on the accumulator |
| ExtendableFile.FoldTraversalIgnoresAccumulator | lib/load_extendable_file.js:59-62 | the same for the `reduce`, whatever the threaded value is |
| ExtendableFile.LoadExtendableFile | lib/load_extendable_file.js:9-68 | the in-place traversal returns what `Load` describes and leaves `visited` as `Load` does; the returned object is the caller's own, or a fresh one when the caller passed `undefined` |
| ExtendableFile.FollowExtends | lib/load_extendable_file.js:59-62 | the loop over `extends` entries leaves the accumulator, `visited` and the effects as `Fold` describes, including the detached thread after an `undefined` |
| ExtendableScenarios.ChainScenario | lib/load_extendable_file.js:50-67 | a file extending a sibling: the sibling is found from the file's directory, the importing file's own key wins, and `extends` is gone |
| ExtendableScenarios.CycleScenario | lib/load_extendable_file.js:20-25 | two files extending each other: each is imported once and the cycle is cut at the second visit |
| ExtendableScenarios.DetachedAfterFailureScenario | lib/load_extendable_file.js:59-62 | after an `extends` entry fails to import, later entries are still imported, but their contents do not reach the result |
| ConfigFiles.Locations | lib/load_config_files.js:18 | a list of search locations is walked as is; anything else gives no location |
| ConfigFiles.AttemptStartsFresh | lib/load_config_files.js:18-20 | each location is loaded with no `visited` table: every file it reaches is imported once, all of them end up marked, and each loader is registered right before its file is imported |
| ConfigFiles.FindFirst | lib/load_config_files.js:18-20 | a found value is one `arrayFind` accepts; no locations give `undefined` and load nothing |
| ConfigFiles.FindFirstSpec | lib/load_config_files.js:18-20 | the search returns the first location whose load is accepted, having loaded exactly the locations up to and including it; otherwise `undefined`, having loaded all of them |
| ConfigFiles.LoadConfigFiles | lib/load_config_files.js:10-16 | a `configFiles` that is not a plain object gives `{}`; otherwise one entry per logical name |
| ConfigFiles.NamesIndependent | lib/load_config_files.js:16-21 | the entry of a name depends only on that name's own locations |
| ConfigFiles.NoLocationsNotFound | lib/load_config_files.js:18-20 | a name whose locations are not a list is never found |
| ConfigFiles.ConfigFileFound | lib/load_config_files.js:14-20 | a name's entry is found exactly when one of its locations is accepted; it is the first accepted one, loaded into a fresh `{}` with the name as stem, the shared `cwd` and the application's extensions |
| EnvPaths.Checked | lib/find_env_paths.js:43-47 | `configPath` survives the existence check exactly when it is non-empty and `statSync` succeeds on it, and then it is unchanged; otherwise it becomes `null` |
| EnvPaths.Choose | lib/find_env_paths.js:16-41 | an explicit `configPath` is resolved; otherwise the search covers only the resolved `cwd` when one is given, else the process directory followed by the search paths; `configBase` is the directory of the chosen path; an explicit `cwd` is kept resolved, otherwise `cwd` is `configBase` when there is one, else the process directory |
| EnvPaths.CwdIgnoresSearchPaths | lib/find_env_paths.js:16-26 | with `cwd` and no `configPath`, only the resolved `cwd` is searched, so the search paths make no difference |
| EnvPaths.CwdAndConfigPath | lib/find_env_paths.js:16-26 | with both options, `cwd` is kept and `configBase` is the directory of the resolved `configPath` |
| EnvPaths.ConfigPathOnly | lib/find_env_paths.js:28-31 | with only `configPath`, `cwd` and `configBase` are both its directory, even when the file does not exist |
| EnvPaths.SearchFromProcessCwd | lib/find_env_paths.js:33-41 | with neither option, the process directory is searched first; a hit moves `cwd` to the file's directory, a miss keeps the process directory and leaves no base and no `configPath` |
| EnvPaths.FindEnvPaths | lib/find_env_paths.js:8-54 | `configNameSearch` comes from the name and the extension keys in every branch; a surviving `configPath` exists and has `configBase` as its directory; an explicit `cwd` is kept resolved; otherwise `cwd` is `configBase` when there is one, else the process directory |
| Liftoff.RequireList | index.js:43 | `require` becomes a list: falsy gives `[]`, a list is kept, anything else gives a one-element list |
| Liftoff.NormaliseFlags | index.js:101 | falsy flags become exactly `[]`; truthy flags are kept as they are; the result is always truthy |
| Liftoff.RequireEvents | index.js:22-31 | `requireLocal` emits `beforeRequire(name)`, then `require(name, result)` on success or `requireFail(name, err)` on failure |
| Liftoff.RequireAllShape | lib/preload_modules.js:7-9 | requiring a list emits, for each name in order, `beforeRequire` and then its answer, and nothing else |
| Liftoff.RequiresOnly | lib/preload_modules.js:7-9 | requiring modules emits only `beforeRequire`, `require` and `requireFail` |
| Liftoff.PreloadEvents | lib/preload_modules.js:5-11 | the preload trace ends with the loader registration for `env.configPath` and `env.cwd`; everything before it is a `beforeRequire`, `require` or `requireFail` |
| Liftoff.PreloadRequiresEachModuleOnce | lib/preload_modules.js:5-11 | each distinct module of `env.require` is required exactly once, in first-occurrence order, from `env.cwd`; a failure does not stop the rest; then `registerLoader` runs once, last, with `env.configPath` and `env.cwd` |
| Liftoff.PreloadModules | lib/preload_modules.js:5-11 | the loop of `requireLocal` calls followed by the loader registration leaves the trace described by `PreloadEvents` |
| Liftoff.Liftoff.constructor | index.js:16-19 | a new instance holds the parsed settings and the runtime, and has an empty trace |
| Liftoff.Liftoff.RequireLocal | index.js:22-31 | emits the events of `RequireEvents`; returns the loaded value on success and nothing on failure |
| Liftoff.Liftoff.BuildEnvironment | index.js:33-51 | assembles the record: the paths come from `findEnvPaths`; the package is looked up from the returned `configBase` and `cwd`; `modulePackage` is `{}` when none is found; `configs` is what `loadConfigFiles` gives for the declared `configFiles`, from `findCwd(opts)` with the application's extensions; its keys are the logical names, and it is `{}` when none are declared |
| Liftoff.Liftoff.HandleFlags | index.js:53-67 | a function-valued `v8flags` hands over its error when that error is truthy, and its flags otherwise; any other `v8flags` is handed over as the flags |
| Liftoff.Liftoff.PrepareSpec | index.js:69-86 | `prepare` throws exactly when no callback is given, and then emits nothing; otherwise it makes at most one call |
| Liftoff.Liftoff.Prepare | index.js:69-86 | the completion and the trace are those of `PrepareSpec` |
| Liftoff.Liftoff.PrepareGuards | index.js:69-86 | without a callback, `prepare` throws and emits nothing; a requested completion with completions available calls only `completions`; otherwise the callback is called once, with the environment `buildEnvironment` builds from the options, whose `require` is the normalised list |
| Liftoff.Liftoff.ExecuteSpec | index.js:88-116 | `execute` throws exactly when there is no callback in either position or `v8flags` reports an error, and then emits nothing |
| Liftoff.Liftoff.Execute | index.js:88-116 | the completion and the trace are those of `ExecuteSpec` |
| Liftoff.Liftoff.ExecuteShiftsCallback | index.js:89-92 | a function in the `forcedFlags` position is the callback, `forcedFlags` becomes undefined, and the third argument is ignored |
| Liftoff.Liftoff.ExecuteGuards | index.js:93-100 | without a callback, `execute` throws and emits nothing; an error from `v8flags` is thrown and nothing is emitted |
| Liftoff.Liftoff.ExecuteSequence | index.js:101-113 | `respawn` is emitted exactly when the child is not the current process, and then it comes first; when not `ready`, nothing but that `respawn` is emitted; when `ready`, the events after the `respawn` are exactly the preload trace of `PreloadEvents` followed by the callback, which comes last, right after the loader registration |
| Preload.IndexOf | lib/preload_modules.js:14 | `indexOf` gives the first index holding the element, or -1 exactly when the element is absent |
| Preload.ToUnique | lib/preload_modules.js:13-15 | an element is kept exactly when it does not occur earlier in the list |
| Preload.FilterFirst | lib/preload_modules.js:7 | filtering a prefix gives no more elements than the prefix, all taken from it |
| Preload.Unique | lib/preload_modules.js:7 | `filter(toUnique)` gives no more elements than the list, all taken from it |
| Preload.FilterFirstSpec | lib/preload_modules.js:13-15 | filtering a prefix keeps distinct elements, the same elements as the prefix, in first-occurrence order |
| Preload.UniqueSpec | lib/preload_modules.js:7-15 | `filter(toUnique)` has no duplicates, the same elements as the input, and first-occurrence order |
| Preload.UniqueOfDistinct | lib/preload_modules.js:13-15 | a list without repetitions passes through unchanged |
| Preload.UniqueIdempotent | lib/preload_modules.js:7-15 | de-duplicating twice is the same as de-duplicating once |

## Left out

- `flagged-respawn` (index.js:103) is an external package that reconciles argv and spawns processes. It is the parameter `Runtime.flaggedRespawn`. It is called once and answers `(ready, child, argv)`.
- `getNodeFlags.fromReorderedArgv` is the parameter `Runtime.nodeFlags`.
- The following libraries are not part of this model and appear as parameters: `fined` (`FileSystem.locate`), `fileSearch`, `buildConfigName`, `findModulePackage`, `findCwd`, `Object.keys` on the extensions (`Runtime.objectKeys`), `resolve.sync` with `require`, `path.resolve`, `path.dirname`, `process.cwd()` and the success of `fs.statSync`.
- `registerLoader` is not part of this model. Each call is recorded with its arguments, as an `Effect` in the config loader and as a `LoaderRegistered` event on the instance. The events `registerLoader` itself emits are not modelled.
- `arrayFind` is not part of this model. Its stopping test is the parameter `accept` of `ConfigFiles`. `undefined` is never accepted, and a location list that is not an array is walked as empty.
- `@fav/prop.defaults-deep` is not part of this model. `DeepMerge.DefaultsDeep` is a definition that agrees with the loader's tests; arrays and other non-object values are not merged element by element.
- `defaultsDeep` with an `undefined` destination is modelled as merging into a fresh `{}`. This decides what an `extends` entry loaded after an import failure receives; if the library threw instead, `delete config.extends` would not be reached.
- A destination key holding `null` is kept by `DeepMerge.DefaultsDeep`, like any other existing value, over the file's value.
- Liftoff.Liftoff.HandleFlags: a function-valued `v8flags` is assumed to call back exactly once, synchronously; a callback called twice or never is not modelled.
- The multi-file `extends` test (test/lib/load_extendable_file.js:69-86) is not restated as a lemma, because its fixture files are not part of this model. `ExtendableChain.LoadMergesChain` states the general rule that test exercises, and `ExtendableScenarios` works through chains of the same shape on small file tables.
- `object.map` and `is-plain-object` are a map comprehension and a predicate on the modelled values.
- Property enumeration order is not modelled. Objects are maps, so the key order of merged objects and of `configs` is lost.
- JavaScript numbers are modelled as integers. There is no separate `undefined`: an absent option is `None` or `Null`.
- `process.title` (index.js:76) is not modelled.
- `process.nextTick` (index.js:63-65) is not modelled. When `v8flags` is not a function, `execute` in the model continues at once; the order of the recorded events is unchanged.
- Real `EventEmitter` dispatch is not modelled. A listener that throws inside `requireLocal`'s `try` would add a `requireFail` after a `require`; the model records emission only.
- The value returned by `completions(completion)` is not modelled. `Liftoff.Liftoff.Prepare` records the call and returns normally.
- The callbacks are identified by a number. What they do, and `this` inside them, are not modelled.
- Preload.IndexOf: compares modules by value, whereas `indexOf` uses `===`, which compares objects and arrays by identity. With two distinct object or array entries of equal contents in `require`, the source keeps both and the model keeps one. The two agree when the modules are given as strings.
- Liftoff.Liftoff.BuildEnvironment: the configuration search's own effects (imports and loader registrations while loading `configFiles`) are computed by `ExtendableFile` but not appended to the instance trace, because `buildEnvironment` is a function here.
- The `parentPath` branches of `loadExtendableFile` (lib/load_extendable_file.js:14-16,37-41) are empty and not modelled.
- `fs.statSync(configPath)` with an empty or absent path is treated as failing, which clears `configPath`.
- `require`'s module cache is not modelled, and neither is aliasing between imported objects. An imported file is a fresh value each time.
- Spawning, waiting for the child and exit codes are process control inside `flagged-respawn`, and are not modelled.

Two places where this model follows the code rather than a looser reading of its behaviour:
- A respawn does not by itself suppress the callback. `respawn` is emitted when the child is another process, and the callback runs when `ready`; the respawn logic decides each independently (index.js:105-113).
- A name's search in `loadConfigFiles` stops at the first location whose load `arrayFind` accepts, not merely at the first existing file. An existing file that fails to import yields `undefined`, and the search goes on.
