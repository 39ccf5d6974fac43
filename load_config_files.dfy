/**
  `loadConfigFiles`: for every logical name of the `configFiles` option, try
  its search locations in order and keep the first loaded configuration that
  `arrayFind` accepts. Each location is loaded into a fresh `{}` with no
  `visited` table, so names and locations never share cycle state.
 */
module ConfigFiles {
  import opened Values
  import opened ExtendableFile

  /** Loading one search location: a fresh empty accumulator and no `visited` table. */
  function Attempt(fs: FileSystem, location: Value, d: Defaults): Outcome {
    Load(fs, Some(map[]), location, d, {})
  }

  /**
    Each location starts from an empty `visited` table: every file it reaches
    is imported once, all of them end up marked, and each one's loader is
    registered before it is imported.
   */
  lemma AttemptStartsFresh(fs: FileSystem, location: Value, d: Defaults)
    ensures var out := Attempt(fs, location, d);
      && FreshImports({}, out.visited, out.effects)
      && RegistrationsPrecedeImports(out.effects)
  {
    LoadImportsFresh(fs, Some(map[]), location, d, {});
    LoadRegistersBeforeImport(fs, Some(map[]), location, d, {});
  }

  /**
    Whether `arrayFind` stops at a loaded value. `lib/array_find.js` is not
    part of this model: its test on the callback's result is the parameter
    `accept`, applied to loaded objects; `undefined` is never accepted.
   */
  predicate Accepted(r: Option<Fields>, accept: Fields -> bool) {
    r.Some? && accept(r.value)
  }

  /** The locations `arrayFind` walks: the items of a list, none otherwise. */
  function Locations(v: Value): (locations: seq<Value>)
    ensures v.Arr? ==> locations == v.items
    ensures !v.Arr? ==> locations == []
  {
    if v.Arr? then v.items else []
  }

  /** What searching one name yields: the value found, and the effects of every location tried. */
  datatype Search = Search(result: Option<Fields>, effects: seq<Effect>)

  /** `arrayFind(searchPaths, pathObj => loadExtendableFile({}, pathObj, defaultObj))`. */
  function FindFirst(fs: FileSystem, locations: seq<Value>, d: Defaults, accept: Fields -> bool): (r: Search)
    ensures r.result.Some? ==> Accepted(r.result, accept)
    ensures locations == [] ==> r == Search(None, [])
  {
    if locations == [] then Search(None, [])
    else
      var out := Attempt(fs, locations[0], d);
      if Accepted(out.result, accept) then Search(out.result, out.effects)
      else
        var rest := FindFirst(fs, locations[1..], d, accept);
        Search(rest.result, out.effects + rest.effects)
  }

  /** The effects of loading each of `locations` in turn. */
  function Tried(fs: FileSystem, locations: seq<Value>, d: Defaults): seq<Effect> {
    if locations == [] then [] else Attempt(fs, locations[0], d).effects + Tried(fs, locations[1..], d)
  }

  /** Location `i` is accepted and no location before it is. */
  predicate FirstAccepted(fs: FileSystem, locations: seq<Value>, d: Defaults, accept: Fields -> bool, i: int) {
    && 0 <= i < |locations|
    && Accepted(Attempt(fs, locations[i], d).result, accept)
    && forall j :: 0 <= j < i ==> !Accepted(Attempt(fs, locations[j], d).result, accept)
  }

  /**
    The search yields the first accepted location's configuration, having
    loaded exactly the locations up to and including it; when no location is
    accepted it yields `undefined` after loading all of them.
   */
  lemma {:induction false} FindFirstSpec(fs: FileSystem, locations: seq<Value>, d: Defaults, accept: Fields -> bool)
    ensures var s := FindFirst(fs, locations, d, accept);
      && (s.result.Some? ==>
            exists i :: && FirstAccepted(fs, locations, d, accept, i)
                        && s.result == Attempt(fs, locations[i], d).result
                        && s.effects == Tried(fs, locations[..i + 1], d))
      && (s.result.None? ==>
            && (forall i :: 0 <= i < |locations| ==> !Accepted(Attempt(fs, locations[i], d).result, accept))
            && s.effects == Tried(fs, locations, d))
  {
    if locations != [] {
      var out := Attempt(fs, locations[0], d);
      var first := locations[..1];
      assert first[0] == locations[0] && first[1..] == [];
      if Accepted(out.result, accept) {
        assert FirstAccepted(fs, locations, d, accept, 0);
        assert Tried(fs, first, d) == out.effects + Tried(fs, [], d);
      } else {
        var tail := locations[1..];
        FindFirstSpec(fs, tail, d, accept);
        var rest := FindFirst(fs, tail, d, accept);
        if rest.result.Some? {
          var k :| FirstAccepted(fs, tail, d, accept, k)
                   && rest.result == Attempt(fs, tail[k], d).result
                   && rest.effects == Tried(fs, tail[..k + 1], d);
          assert locations[k + 1] == tail[k];
          forall j | 0 <= j < k + 1
            ensures !Accepted(Attempt(fs, locations[j], d).result, accept)
          {
            if j > 0 {
              assert locations[j] == tail[j - 1];
            }
          }
          assert FirstAccepted(fs, locations, d, accept, k + 1);
          var upTo := locations[..k + 2];
          assert upTo[0] == locations[0] && upTo[1..] == tail[..k + 1];
        } else {
          forall i | 0 <= i < |locations|
            ensures !Accepted(Attempt(fs, locations[i], d).result, accept)
          {
            if i > 0 {
              assert locations[i] == tail[i - 1];
            }
          }
        }
      }
    }
  }

  /**
    `loadConfigFiles(configFiles, opts, extensions)`, where `cwd` is
    `findCwd(opts)`, computed once for all names (`lib/find_cwd.js` is not part
    of this model).
   */
  function LoadConfigFiles(fs: FileSystem, configFiles: Value, cwd: Path, extensions: Option<Value>, accept: Fields -> bool)
    : (configs: map<string, Option<Fields>>)
    ensures !IsPlainObject(configFiles) ==> configs == map[]
    ensures IsPlainObject(configFiles) ==> configs.Keys == configFiles.fields.Keys
  {
    if !IsPlainObject(configFiles) then map[]
    else
      map name | name in configFiles.fields ::
        FindFirst(fs, Locations(configFiles.fields[name]), Defaults(Some(name), cwd, extensions), accept).result
  }

  /**
    The entry for a name is the configuration of the first of its locations
    that loads to an accepted object, each located with the name as file stem,
    the shared `cwd` and the application's extensions; it is `undefined`
    exactly when no location is accepted.
   */
  lemma ConfigFileFound(fs: FileSystem, configFiles: Value, cwd: Path, extensions: Option<Value>, accept: Fields -> bool, name: string)
    requires IsPlainObject(configFiles) && name in configFiles.fields
    ensures var configs := LoadConfigFiles(fs, configFiles, cwd, extensions, accept);
      var locations := Locations(configFiles.fields[name]);
      var d := Defaults(Some(name), cwd, extensions);
      && (configs[name].Some? <==> exists i :: 0 <= i < |locations| && Accepted(Attempt(fs, locations[i], d).result, accept))
      && (configs[name].Some? ==> exists i :: FirstAccepted(fs, locations, d, accept, i) && configs[name] == Attempt(fs, locations[i], d).result)
  {
    var locations := Locations(configFiles.fields[name]);
    var d := Defaults(Some(name), cwd, extensions);
    FindFirstSpec(fs, locations, d, accept);
  }

  /**
    Names do not influence each other: the entry for a name depends only on
    that name's own locations, whatever the other names declare.
   */
  lemma NamesIndependent(fs: FileSystem, c1: Value, c2: Value, cwd: Path, extensions: Option<Value>, accept: Fields -> bool, name: string)
    requires IsPlainObject(c1) && IsPlainObject(c2)
    requires name in c1.fields && name in c2.fields && c1.fields[name] == c2.fields[name]
    ensures LoadConfigFiles(fs, c1, cwd, extensions, accept)[name] == LoadConfigFiles(fs, c2, cwd, extensions, accept)[name]
  {
  }

  /** A name whose locations are not a list is never found. */
  lemma NoLocationsNotFound(fs: FileSystem, configFiles: Value, cwd: Path, extensions: Option<Value>, accept: Fields -> bool, name: string)
    requires IsPlainObject(configFiles) && name in configFiles.fields && !configFiles.fields[name].Arr?
    ensures LoadConfigFiles(fs, configFiles, cwd, extensions, accept)[name] == None
  {
  }
}
