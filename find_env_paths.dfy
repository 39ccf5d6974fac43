/**
  `findEnvPaths`: choose the working directory, the configuration file and
  its directory from the explicit `cwd` and `configPath` options, the search
  paths and an existence check.
 */
module EnvPaths {
  import opened Values

  /** The two options read: absent, or a string (an empty string is falsy). */
  datatype Options = Options(cwd: Option<string>, configPath: Option<string>)

  /** A path value used as a condition: present and non-empty. */
  predicate Given(p: Option<string>) {
    p.Some? && p.value != ""
  }

  /**
    The process and the libraries `findEnvPaths` consults: `process.cwd()`,
    `path.resolve`, `path.dirname`, whether `fs.statSync` succeeds (`statOk`),
    `fileSearch(names, dirs)` (`undefined` as `None`) and
    `buildConfigName({configName, extensions})`.
   */
  datatype Host = Host(
    processCwd: Path,
    resolve: Path -> Path,
    dirname: Path -> Path,
    statOk: Path -> bool,
    fileSearch: (seq<string>, seq<Path>) -> Option<Path>,
    buildConfigName: (string, seq<string>) -> seq<string>)

  /** The record returned; `configPath` is `null` and `configBase` `undefined` when `None`. */
  datatype EnvPaths = EnvPaths(cwd: Path, configPath: Option<Path>, configBase: Option<Path>, configNameSearch: seq<string>)

  /** `cwd`, `configPath` and `configBase` as the branches leave them, before the existence check. */
  datatype Chosen = Chosen(cwd: Path, configPath: Option<Path>, configBase: Option<Path>)

  /** `statSync(configPath)` throws for `undefined`, for `""` and for a path that does not exist. */
  function Checked(host: Host, configPath: Option<Path>): (r: Option<Path>)
    ensures r.Some? <==> Given(configPath) && host.statOk(configPath.value)
    ensures r.Some? ==> r == configPath
  {
    if Given(configPath) && host.statOk(configPath.value) then configPath else None
  }

  /** The branch table of `findEnvPaths`. */
  function Choose(opts: Options, names: seq<string>, searchPaths: seq<Path>, host: Host): (r: Chosen)
    ensures Given(opts.configPath) ==> r.configPath == Some(host.resolve(opts.configPath.value))
    ensures !Given(opts.configPath) ==>
      r.configPath == host.fileSearch(names, if Given(opts.cwd) then [host.resolve(opts.cwd.value)] else [host.processCwd] + searchPaths)
    ensures Given(r.configPath) ==> r.configBase == Some(host.dirname(r.configPath.value))
    ensures r.configBase.Some? ==> r.configPath.Some? && r.configBase.value == host.dirname(r.configPath.value)
    ensures Given(opts.cwd) ==> r.cwd == host.resolve(opts.cwd.value)
    ensures !Given(opts.cwd) ==> r.cwd == (if r.configBase.Some? then r.configBase.value else host.processCwd)
  {
    if Given(opts.cwd) then
      var cwd := host.resolve(opts.cwd.value);
      var configPath := if Given(opts.configPath) then Some(host.resolve(opts.configPath.value))
                        else host.fileSearch(names, [cwd]);
      Chosen(cwd, configPath, if Given(configPath) then Some(host.dirname(configPath.value)) else None)
    else if Given(opts.configPath) then
      var configPath := host.resolve(opts.configPath.value);
      var configBase := host.dirname(configPath);
      Chosen(configBase, Some(configPath), Some(configBase))
    else
      var configPath := host.fileSearch(names, [host.processCwd] + searchPaths);
      if Given(configPath) then
        var configBase := host.dirname(configPath.value);
        Chosen(configBase, configPath, Some(configBase))
      else
        Chosen(host.processCwd, configPath, None)
  }

  /**
    `findEnvPaths(opts, configName, extensions, searchPaths)`, with
    `extensionKeys` the keys of `extensions` in their enumeration order.
   */
  function FindEnvPaths(opts: Options, configName: string, extensionKeys: seq<string>, searchPaths: seq<Path>, host: Host)
    : (env: EnvPaths)
    ensures env.configNameSearch == host.buildConfigName(configName, extensionKeys)
    ensures env.configPath.Some? ==> env.configPath.value != "" && host.statOk(env.configPath.value)
    ensures env.configPath.Some? ==> env.configBase == Some(host.dirname(env.configPath.value))
    ensures Given(opts.cwd) ==> env.cwd == host.resolve(opts.cwd.value)
    ensures !Given(opts.cwd) && env.configBase.Some? ==> env.cwd == env.configBase.value
    ensures !Given(opts.cwd) && env.configBase.None? ==> env.cwd == host.processCwd
  {
    var names := host.buildConfigName(configName, extensionKeys);
    var chosen := Choose(opts, names, searchPaths, host);
    EnvPaths(chosen.cwd, Checked(host, chosen.configPath), chosen.configBase, names)
  }

  /**
    An explicit `cwd` without `configPath` searches only the resolved `cwd`:
    the search paths make no difference.
   */
  lemma CwdIgnoresSearchPaths(opts: Options, configName: string, extensionKeys: seq<string>, p1: seq<Path>, p2: seq<Path>, host: Host)
    requires Given(opts.cwd) && !Given(opts.configPath)
    ensures var env := FindEnvPaths(opts, configName, extensionKeys, p1, host);
      var hit := host.fileSearch(host.buildConfigName(configName, extensionKeys), [host.resolve(opts.cwd.value)]);
      && env == FindEnvPaths(opts, configName, extensionKeys, p2, host)
      && env.configPath == Checked(host, hit)
      && env.configBase == (if Given(hit) then Some(host.dirname(hit.value)) else None)
  {
  }

  /** Explicit `cwd` and `configPath`: the `cwd` is kept and the base is the file's directory. */
  lemma CwdAndConfigPath(opts: Options, configName: string, extensionKeys: seq<string>, searchPaths: seq<Path>, host: Host)
    requires Given(opts.cwd) && Given(opts.configPath)
    ensures var env := FindEnvPaths(opts, configName, extensionKeys, searchPaths, host);
      var configPath := host.resolve(opts.configPath.value);
      && env.cwd == host.resolve(opts.cwd.value)
      && env.configPath == Checked(host, Some(configPath))
      && (configPath != "" ==> env.configBase == Some(host.dirname(configPath)))
  {
  }

  /**
    Only `configPath`: the working directory and the base are both the
    file's directory, and the base is kept even when the file does not exist.
   */
  lemma ConfigPathOnly(opts: Options, configName: string, extensionKeys: seq<string>, searchPaths: seq<Path>, host: Host)
    requires !Given(opts.cwd) && Given(opts.configPath)
    ensures var env := FindEnvPaths(opts, configName, extensionKeys, searchPaths, host);
      var configPath := host.resolve(opts.configPath.value);
      && env.cwd == host.dirname(configPath)
      && env.configBase == Some(host.dirname(configPath))
      && env.configPath == Checked(host, Some(configPath))
  {
  }

  /**
    Neither option: the process directory is searched first, then the search
    paths. A hit moves the working directory to the file's directory; a miss
    leaves the process directory and no base.
   */
  lemma SearchFromProcessCwd(opts: Options, configName: string, extensionKeys: seq<string>, searchPaths: seq<Path>, host: Host)
    requires !Given(opts.cwd) && !Given(opts.configPath)
    ensures var env := FindEnvPaths(opts, configName, extensionKeys, searchPaths, host);
      var hit := host.fileSearch(host.buildConfigName(configName, extensionKeys), [host.processCwd] + searchPaths);
      && (Given(hit) ==> env.cwd == host.dirname(hit.value) && env.configBase == Some(env.cwd) && env.configPath == Checked(host, hit))
      && (!Given(hit) ==> env.cwd == host.processCwd && env.configBase == None && env.configPath == None)
  {
  }
}
