/**
  The `Liftoff` launcher: building the environment record, preparing it for
  the caller, and executing — reconciling V8 flags through a respawn
  decision, preloading modules, and handing control to the callback. The
  events the instance emits, and the calls it makes into the loader
  registration and the callbacks, are recorded in order in `trace`.
 */
module Liftoff {
  import opened Values
  import opened Preload
  import EnvPaths
  import ExtendableFile
  import ConfigFiles

  /** The message of the error thrown when no callback is passed. */
  const CallbackRequired: Value := Str("You must provide a callback function.")

  /** An argument that may be a function (identified by `id`) or some other value. */
  datatype Arg = Fn(id: nat) | Data(value: Value)

  /**
    The `v8flags` option: a function that calls back with `(err, flags)`, or
    a value used as the flags directly.
   */
  datatype V8Flags = FlagsFunction(err: Value, flags: Value) | FlagsValue(flags: Value)

  /** The instance's options, as `parseOptions` leaves them (only the ones the core reads). */
  datatype Settings = Settings(
    moduleName: string,
    configName: string,
    extensions: Value,
    v8flags: V8Flags,
    configFiles: Value,
    completions: bool,
    searchPaths: seq<Path>)

  /** The options of `buildEnvironment` and `prepare` that the core reads. */
  datatype BuildOptions = BuildOptions(cwd: Option<string>, configPath: Option<string>, require: Value, completion: Value)

  /** `opts || {}` */
  const NoOptions: BuildOptions := BuildOptions(None, None, Null, Null)

  /** What `findModulePackage` reports; a falsy `modulePackage` means none was found. */
  datatype ModulePackage = ModulePackage(modulePath: Option<Path>, modulePackage: Value)

  /** The `child` handed back by the respawn logic: this very process, or a spawned one. */
  datatype Child = Self | Spawned(pid: nat)

  /** What `flagged-respawn` calls back with: `(ready, child, argv)`. */
  datatype Decision = Decision(ready: bool, child: Child, argv: seq<string>)

  /**
    Everything outside the instance: the path and file-system oracles of the
    configuration search, `findCwd`, `Object.keys`, `findModulePackage`,
    `require(resolve.sync(name, {basedir}))` (a thrown error as `Err`),
    `process.argv`, `flagged-respawn` and `getNodeFlags.fromReorderedArgv`.
   */
  datatype Runtime = Runtime(
    host: EnvPaths.Host,
    fs: ExtendableFile.FileSystem,
    accept: Fields -> bool,
    findCwd: BuildOptions -> Path,
    objectKeys: Value -> seq<string>,
    findModulePackage: (string, Option<Path>, Path) -> ModulePackage,
    loadModule: (Value, Path) -> Result<Value, Value>,
    argv: seq<string>,
    flaggedRespawn: (Value, seq<string>, Value) -> Decision,
    nodeFlags: seq<string> -> seq<string>)

  /** The record `buildEnvironment` returns. */
  datatype Environment = Environment(
    cwd: Path,
    require: seq<Value>,
    configNameSearch: seq<string>,
    configPath: Option<Path>,
    configBase: Option<Path>,
    modulePath: Option<Path>,
    modulePackage: Value,
    configs: map<string, Option<Fields>>)

  /** What the instance emits or calls, in order. */
  datatype Event =
    | BeforeRequire(name: Value)
    | Require(name: Value, result: Value)
    | RequireFail(name: Value, error: Value)
    | Respawn(execArgv: seq<string>, child: Child)
    | LoaderRegistered(extensions: Value, configPath: Option<Path>, cwd: Path)
    | CompletionsCalled(completion: Value)
    | Prepared(callback: nat, env: Environment)
    | Launched(callback: nat, env: Environment, argv: seq<string>)

  /** How a call ends: normally, or by throwing `error`. */
  datatype Completion = Returned | Threw(error: Value)

  /** `[].concat(require || [])`: a list is spread, any other truthy value becomes a one-element list. */
  function RequireList(v: Value): (list: seq<Value>)
    ensures !Truthy(v) ==> list == []
    ensures v.Arr? ==> list == v.items
    ensures Truthy(v) && !v.Arr? ==> list == [v]
  {
    if !Truthy(v) then [] else if v.Arr? then v.items else [v]
  }

  /** `flags || []` */
  function NormaliseFlags(flags: Value): (r: Value)
    ensures Truthy(r)
    ensures Truthy(flags) ==> r == flags
    ensures !Truthy(flags) ==> r == Arr([])
  {
    if Truthy(flags) then flags else Arr([])
  }

  /** The event that follows `beforeRequire` for one module. */
  function Answer(rt: Runtime, name: Value, basedir: Path): Event {
    match rt.loadModule(name, basedir)
    case Ok(v) => Require(name, v)
    case Err(e) => RequireFail(name, e)
  }

  /** The events of one `requireLocal(name, basedir)`. */
  function RequireEvents(rt: Runtime, name: Value, basedir: Path): (events: seq<Event>)
    ensures |events| == 2 && events[0] == BeforeRequire(name)
    ensures rt.loadModule(name, basedir).Ok? ==> events[1] == Require(name, rt.loadModule(name, basedir).value)
    ensures rt.loadModule(name, basedir).Err? ==> events[1] == RequireFail(name, rt.loadModule(name, basedir).error)
  {
    [BeforeRequire(name), Answer(rt, name, basedir)]
  }

  /** The events of requiring each of `names` in turn from `basedir`. */
  function RequireAll(rt: Runtime, names: seq<Value>, basedir: Path): seq<Event> {
    if names == [] then []
    else RequireAll(rt, names[..|names| - 1], basedir) + RequireEvents(rt, names[|names| - 1], basedir)
  }

  /** Requiring a list emits, for each name in order, `beforeRequire` and then its answer. */
  lemma {:induction false} RequireAllShape(rt: Runtime, names: seq<Value>, basedir: Path)
    ensures var events := RequireAll(rt, names, basedir);
      && |events| == 2 * |names|
      && (forall k :: 0 <= k < |names| ==> events[2 * k] == BeforeRequire(names[k]))
      && (forall k :: 0 <= k < |names| ==> events[2 * k + 1] == Answer(rt, names[k], basedir))
  {
    if names != [] {
      var init := names[..|names| - 1];
      RequireAllShape(rt, init, basedir);
      var events := RequireAll(rt, names, basedir);
      forall k | 0 <= k < |names|
        ensures events[2 * k] == BeforeRequire(names[k]) && events[2 * k + 1] == Answer(rt, names[k], basedir)
      {
        if k < |init| {
          assert names[k] == init[k];
        }
      }
    }
  }

  /** The events of `preloadModules(inst, env)`. */
  function PreloadEvents(rt: Runtime, extensions: Value, env: Environment): (events: seq<Event>)
    ensures |events| >= 1 && events[|events| - 1] == LoaderRegistered(extensions, env.configPath, env.cwd)
    ensures forall k :: 0 <= k < |events| - 1 ==> events[k].BeforeRequire? || events[k].Require? || events[k].RequireFail?
  {
    var required := RequireAll(rt, Unique(env.require), env.cwd);
    RequiresOnly(rt, Unique(env.require), env.cwd);
    var events := required + [LoaderRegistered(extensions, env.configPath, env.cwd)];
    assert forall k :: 0 <= k < |events| - 1 ==> events[k] == required[k];
    events
  }

  /**
    Preloading requires every module of `env.require` exactly once, in order
    of first occurrence, from `env.cwd`, and then registers the loaders once
    with the environment's `configPath` and `cwd`.
   */
  lemma PreloadRequiresEachModuleOnce(rt: Runtime, extensions: Value, env: Environment)
    ensures var modules := Unique(env.require);
      var events := PreloadEvents(rt, extensions, env);
      && Distinct(modules)
      && (forall m :: m in modules <==> m in env.require)
      && |events| == 2 * |modules| + 1
      && (forall k :: 0 <= k < |modules| ==> events[2 * k] == BeforeRequire(modules[k]))
      && (forall k :: 0 <= k < |modules| ==> events[2 * k + 1] == Answer(rt, modules[k], env.cwd))
      && events[|events| - 1] == LoaderRegistered(extensions, env.configPath, env.cwd)
  {
    var modules := Unique(env.require);
    UniqueSpec(env.require);
    RequireAllShape(rt, modules, env.cwd);
    var required := RequireAll(rt, modules, env.cwd);
    var events := PreloadEvents(rt, extensions, env);
    forall k | 0 <= k < |modules|
      ensures events[2 * k] == BeforeRequire(modules[k]) && events[2 * k + 1] == Answer(rt, modules[k], env.cwd)
    {
      assert events[2 * k] == required[2 * k] && events[2 * k + 1] == required[2 * k + 1];
    }
  }

  class Liftoff {
    const settings: Settings
    const runtime: Runtime
    var trace: seq<Event>

    /** `new Liftoff(opts)`: nothing emitted yet. */
    constructor(settings: Settings, runtime: Runtime)
      ensures this.settings == settings && this.runtime == runtime && trace == []
    {
      this.settings := settings;
      this.runtime := runtime;
      trace := [];
    }

    /**
      `requireLocal(moduleName, basedir)`: emits `beforeRequire`, then
      `require` with the loaded value or `requireFail` with the error, which
      it swallows.
     */
    method RequireLocal(moduleName: Value, basedir: Path) returns (result: Option<Value>)
      modifies this
      ensures trace == old(trace) + RequireEvents(runtime, moduleName, basedir)
      ensures result.Some? <==> runtime.loadModule(moduleName, basedir).Ok?
      ensures result.Some? ==> result.value == runtime.loadModule(moduleName, basedir).value
    {
      trace := trace + [BeforeRequire(moduleName)];
      var loaded := runtime.loadModule(moduleName, basedir);
      if loaded.Ok? {
        trace := trace + [Require(moduleName, loaded.value)];
        return Some(loaded.value);
      }
      trace := trace + [RequireFail(moduleName, loaded.error)];
      return None;
    }

    /** `buildEnvironment(opts)` with `opts || {}` already applied. */
    function BuildEnvironment(opts: BuildOptions): (env: Environment)
      ensures env.require == RequireList(opts.require)
      ensures var paths := EnvPaths.FindEnvPaths(EnvPaths.Options(opts.cwd, opts.configPath), settings.configName,
                                                 runtime.objectKeys(settings.extensions), settings.searchPaths, runtime.host);
        && env.cwd == paths.cwd && env.configPath == paths.configPath && env.configBase == paths.configBase
        && env.configNameSearch == paths.configNameSearch
      ensures var found := runtime.findModulePackage(settings.moduleName, env.configBase, env.cwd);
        && env.modulePath == found.modulePath
        && (Truthy(found.modulePackage) ==> env.modulePackage == found.modulePackage)
        && (!Truthy(found.modulePackage) ==> env.modulePackage == Obj(map[]))
      ensures env.configs == ConfigFiles.LoadConfigFiles(runtime.fs, settings.configFiles, runtime.findCwd(opts), Some(settings.extensions), runtime.accept)
      ensures env.configs.Keys == (if IsPlainObject(settings.configFiles) then settings.configFiles.fields.Keys else {})
      ensures env.configPath.Some? ==> runtime.host.statOk(env.configPath.value) && env.configBase.Some?
    {
      var configs := ConfigFiles.LoadConfigFiles(runtime.fs, settings.configFiles, runtime.findCwd(opts), Some(settings.extensions), runtime.accept);
      var paths := EnvPaths.FindEnvPaths(EnvPaths.Options(opts.cwd, opts.configPath), settings.configName,
                                         runtime.objectKeys(settings.extensions), settings.searchPaths, runtime.host);
      var found := runtime.findModulePackage(settings.moduleName, paths.configBase, paths.cwd);
      Environment(
        paths.cwd,
        RequireList(opts.require),
        paths.configNameSearch,
        paths.configPath,
        paths.configBase,
        found.modulePath,
        if Truthy(found.modulePackage) then found.modulePackage else Obj(map[]),
        configs)
    }

    /** `handleFlags(cb)`: what `cb` receives, an error (`Err`) or the flags (`Ok`). */
    function HandleFlags(): (r: Result<Value, Value>)
      ensures settings.v8flags.FlagsValue? ==> r == Ok(settings.v8flags.flags)
      ensures settings.v8flags.FlagsFunction? ==> (r.Err? <==> Truthy(settings.v8flags.err))
      ensures r.Err? ==> r.error == settings.v8flags.err
      ensures r.Ok? ==> r.value == settings.v8flags.flags
    {
      match settings.v8flags
      case FlagsFunction(err, flags) => if Truthy(err) then Err(err) else Ok(flags)
      case FlagsValue(flags) => Ok(flags)
    }

    /** What `prepare(opts, fn)` does: how it ends and what it emits or calls. */
    function PrepareSpec(opts: Option<BuildOptions>, fn: Arg): (r: (Completion, seq<Event>))
      ensures r.0.Threw? <==> !fn.Fn?
      ensures r.0.Threw? ==> r.1 == []
      ensures |r.1| <= 1
    {
      if !fn.Fn? then (Threw(CallbackRequired), [])
      else
        var o := opts.GetOr(NoOptions);
        if Truthy(o.completion) && settings.completions then (Returned, [CompletionsCalled(o.completion)])
        else (Returned, [Prepared(fn.id, BuildEnvironment(o))])
    }

    /** `prepare(opts, fn)`; `process.title` is not part of this model. */
    method Prepare(opts: Option<BuildOptions>, fn: Arg) returns (c: Completion)
      modifies this
      ensures c == PrepareSpec(opts, fn).0 && trace == old(trace) + PrepareSpec(opts, fn).1
    {
      if !fn.Fn? {
        assert trace == old(trace) + [];
        return Threw(CallbackRequired);
      }
      var o := opts.GetOr(NoOptions);
      if Truthy(o.completion) && settings.completions {
        trace := trace + [CompletionsCalled(o.completion)];
        return Returned;
      }
      var env := BuildEnvironment(o);
      trace := trace + [Prepared(fn.id, env)];
      return Returned;
    }

    /**
      Without a callback `prepare` throws before doing anything else; a
      requested completion, when completions exist, is served instead of
      building an environment; otherwise the callback gets the environment.
     */
    lemma PrepareGuards(opts: Option<BuildOptions>, fn: Arg)
      ensures var (c, events) := PrepareSpec(opts, fn);
        var o := opts.GetOr(NoOptions);
        && (!fn.Fn? ==> c == Threw(CallbackRequired) && events == [])
        && (fn.Fn? ==> c == Returned && |events| == 1)
        && (fn.Fn? && Truthy(o.completion) && settings.completions ==> events[0] == CompletionsCalled(o.completion))
        && (fn.Fn? && !(Truthy(o.completion) && settings.completions) ==>
              events[0] == Prepared(fn.id, BuildEnvironment(o)) && events[0].env.require == RequireList(o.require))
    {
    }

    /** What `execute(env, forcedFlags, fn)` does: how it ends and what it emits or calls. */
    function ExecuteSpec(env: Environment, forcedFlags: Arg, fn: Arg): (r: (Completion, seq<Event>))
      ensures r.0.Threw? <==> (!forcedFlags.Fn? && !fn.Fn?) || HandleFlags().Err?
      ensures r.0.Threw? ==> r.1 == []
    {
      var callback := if forcedFlags.Fn? then forcedFlags else fn;
      var forced := if forcedFlags.Fn? then Null else forcedFlags.value;
      if !callback.Fn? then (Threw(CallbackRequired), [])
      else
        match HandleFlags()
        case Err(e) => (Threw(e), [])
        case Ok(flags) =>
          var decision := runtime.flaggedRespawn(NormaliseFlags(flags), runtime.argv, forced);
          var respawn := if decision.child != Self then [Respawn(runtime.nodeFlags(decision.argv), decision.child)] else [];
          var launch := if decision.ready
                        then PreloadEvents(runtime, settings.extensions, env) + [Launched(callback.id, env, decision.argv)]
                        else [];
          (Returned, respawn + launch)
    }

    /** `execute(env, forcedFlags, fn)`. */
    method Execute(env: Environment, forcedFlags: Arg, fn: Arg) returns (c: Completion)
      modifies this
      ensures c == ExecuteSpec(env, forcedFlags, fn).0 && trace == old(trace) + ExecuteSpec(env, forcedFlags, fn).1
    {
      var callback := fn;
      var forced := forcedFlags;
      if forcedFlags.Fn? {
        callback := forcedFlags;
        forced := Data(Null);
      }
      if !callback.Fn? {
        assert trace == old(trace) + [];
        return Threw(CallbackRequired);
      }
      var handled := HandleFlags();
      if handled.Err? {
        assert trace == old(trace) + [];
        return Threw(handled.error);
      }
      var flags := NormaliseFlags(handled.value);
      var decision := runtime.flaggedRespawn(flags, runtime.argv, forced.value);
      if decision.child != Self {
        trace := trace + [Respawn(runtime.nodeFlags(decision.argv), decision.child)];
      }
      if decision.ready {
        PreloadModules(this, env);
        trace := trace + [Launched(callback.id, env, decision.argv)];
      }
      return Returned;
    }

    /**
      A function passed as `forcedFlags` is the callback: whatever `fn` is,
      `execute` behaves as if called with no forced flags and that callback.
     */
    lemma ExecuteShiftsCallback(env: Environment, callback: nat, fn: Arg)
      ensures ExecuteSpec(env, Fn(callback), fn) == ExecuteSpec(env, Data(Null), Fn(callback))
    {
    }

    /**
      Without a callback, or when the `v8flags` function reports an error,
      `execute` throws and emits nothing; absent flags reach the respawn
      logic as `[]`.
     */
    lemma ExecuteGuards(env: Environment, forcedFlags: Arg, fn: Arg)
      ensures var (c, events) := ExecuteSpec(env, forcedFlags, fn);
        && (!forcedFlags.Fn? && !fn.Fn? ==> c == Threw(CallbackRequired) && events == [])
        && ((forcedFlags.Fn? || fn.Fn?) && HandleFlags().Err? ==> c == Threw(HandleFlags().error) && events == [])
        && ((forcedFlags.Fn? || fn.Fn?) && HandleFlags().Ok? ==> c == Returned)
    {
    }

    /**
      Once the flags are known, `respawn` is emitted exactly when the child is
      another process, and comes first; preloading and then the callback run
      exactly when the respawn logic reports `ready`, the callback last.
     */
    lemma {:induction false} ExecuteSequence(env: Environment, forcedFlags: Arg, fn: Arg)
      requires forcedFlags.Fn? || fn.Fn?
      requires HandleFlags().Ok?
      ensures var events := ExecuteSpec(env, forcedFlags, fn).1;
        var callback := if forcedFlags.Fn? then forcedFlags.id else fn.id;
        var forced := if forcedFlags.Fn? then Null else forcedFlags.value;
        var decision := runtime.flaggedRespawn(NormaliseFlags(HandleFlags().value), runtime.argv, forced);
        && ((exists k :: 0 <= k < |events| && events[k].Respawn?) <==> decision.child != Self)
        && (decision.child != Self ==> events[0] == Respawn(runtime.nodeFlags(decision.argv), decision.child))
        && ((exists k :: 0 <= k < |events| && events[k].Launched?) <==> decision.ready)
        && (!decision.ready ==> forall k :: 0 <= k < |events| ==> events[k].Respawn?)
        && (decision.ready ==>
              var first := if decision.child != Self then 1 else 0;
              && |events| >= first + 2
              && events[first..|events| - 1] == PreloadEvents(runtime, settings.extensions, env)
              && events[|events| - 1] == Launched(callback, env, decision.argv)
              && events[|events| - 2] == LoaderRegistered(settings.extensions, env.configPath, env.cwd))
    {
      var callback := if forcedFlags.Fn? then forcedFlags.id else fn.id;
      var forced := if forcedFlags.Fn? then Null else forcedFlags.value;
      var decision := runtime.flaggedRespawn(NormaliseFlags(HandleFlags().value), runtime.argv, forced);
      var preload := PreloadEvents(runtime, settings.extensions, env);
      var respawn := if decision.child != Self then [Respawn(runtime.nodeFlags(decision.argv), decision.child)] else [];
      var launch := if decision.ready then preload + [Launched(callback, env, decision.argv)] else [];
      assert ExecuteSpec(env, forcedFlags, fn).1 == respawn + launch;
      ExecuteEventsShape(respawn, launch, preload, Launched(callback, env, decision.argv));
    }
  }

  /**
    The events of `execute` once the flags are known: an optional `respawn`,
    then, when ready, the preloading events and the callback.
   */
  lemma ExecuteEventsShape(respawn: seq<Event>, launch: seq<Event>, preload: seq<Event>, last: Event)
    requires |respawn| <= 1 && (forall k :: 0 <= k < |respawn| ==> respawn[k].Respawn?)
    requires launch == [] || launch == preload + [last]
    requires last.Launched? && |preload| >= 1
    requires forall k :: 0 <= k < |preload| ==> !preload[k].Respawn? && !preload[k].Launched?
    ensures var events := respawn + launch;
      && ((exists k :: 0 <= k < |events| && events[k].Respawn?) <==> respawn != [])
      && (respawn != [] ==> events[0] == respawn[0])
      && ((exists k :: 0 <= k < |events| && events[k].Launched?) <==> launch != [])
      && (launch == [] ==> forall k :: 0 <= k < |events| ==> events[k].Respawn?)
      && (launch != [] ==>
            && |events| >= |respawn| + 2
            && events[|respawn|..|events| - 1] == preload
            && events[|events| - 1] == last
            && events[|events| - 2] == preload[|preload| - 1])
  {
    var events := respawn + launch;
    if respawn != [] {
      assert events[0].Respawn?;
    }
    if launch != [] {
      assert events[|events| - 1] == last;
      assert events[|respawn|..|events| - 1] == preload;
    }
    forall k | 0 <= k < |events|
      ensures events[k].Respawn? ==> respawn != []
      ensures events[k].Launched? ==> launch != []
    {
      if k >= |respawn| && launch != [] && k - |respawn| < |preload| {
        assert events[k] == preload[k - |respawn|];
      }
    }
  }

  /** Requiring modules emits only `beforeRequire`, `require` and `requireFail`. */
  lemma {:induction false} RequiresOnly(rt: Runtime, names: seq<Value>, basedir: Path)
    ensures forall k :: 0 <= k < |RequireAll(rt, names, basedir)| ==>
      RequireAll(rt, names, basedir)[k].BeforeRequire? || RequireAll(rt, names, basedir)[k].Require? || RequireAll(rt, names, basedir)[k].RequireFail?
  {
    if names != [] {
      RequiresOnly(rt, names[..|names| - 1], basedir);
    }
  }

  /**
    `preloadModules(inst, env)`: one `requireLocal` per distinct module of
    `env.require` from `env.cwd`, then one loader registration. `env` is a
    value: the de-duplicated list is a new one and `env.require` is untouched.
   */
  method PreloadModules(inst: Liftoff, env: Environment)
    modifies inst
    ensures inst.trace == old(inst.trace) + PreloadEvents(inst.runtime, inst.settings.extensions, env)
  {
    var basedir := env.cwd;
    var modules := Unique(env.require);
    var i := 0;
    while i < |modules|
      invariant 0 <= i <= |modules|
      invariant inst.trace == old(inst.trace) + RequireAll(inst.runtime, modules[..i], basedir)
    {
      var _ := inst.RequireLocal(modules[i], basedir);
      assert modules[..i + 1][..i] == modules[..i];
      i := i + 1;
    }
    assert modules[..i] == modules;
    inst.trace := inst.trace + [LoaderRegistered(inst.settings.extensions, env.configPath, env.cwd)];
  }
}
