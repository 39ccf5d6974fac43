/**
  `loadExtendableFile`: locate a configuration file, guard against cycles with
  a `visited` table shared by the whole traversal, register the loader of its
  extension, import it, deep-merge it into the accumulator, follow its
  `extends` references from the file's own directory, and strip `extends`.

  `Load` and `Fold` are the specification; `LoadExtendableFile` is the
  imperative traversal over a mutable accumulator object and a mutable
  visited table, proved to compute what `Load` describes.
 */
module ExtendableFile {
  import opened Values
  import opened DeepMerge

  /** What `require(path)` does with a file: yields a value or throws. */
  datatype Module = Exports(value: Value) | Throws

  /** What the locator `fined` reports: the absolute path and the matched extension entry. */
  datatype Found = Found(path: Path, extension: Value)

  /** The locator's default context (`defaultObj`): file stem, directory, extensions. */
  datatype Defaults = Defaults(name: Option<string>, cwd: Path, extensions: Option<Value>)

  /**
    The file system as the loader sees it: what `require` yields per absolute
    path, the locator `fined` and `path.dirname`.
   */
  datatype FileSystem = FileSystem(
    files: map<Path, Module>,
    locate: (Value, Defaults) -> Option<Found>,
    dirname: Path -> Path)

  /** A call the traversal makes into its collaborators, in order. */
  datatype Effect =
    | RegisterLoader(extension: Value, path: Path, cwd: Value)
    | Import(path: Path)

  /** What one call yields: the returned accumulator (`None` is `undefined`), the visited table, the effects. */
  datatype Outcome = Outcome(result: Option<Fields>, visited: set<Path>, effects: seq<Effect>)

  /**
    The value threaded through the `reduce` over `extends`: at first the
    caller's own accumulator object; once a nested call returns `undefined`,
    something detached from it whose contents are discarded.
   */
  datatype Thread = Outer | Detached(acc: Option<Fields>)

  /** The state of the `reduce` between two `extends` entries. */
  datatype FoldState = FoldState(outer: Fields, thread: Thread, visited: set<Path>)

  /** The final state of a `reduce` and the effects of its nested calls, in order. */
  datatype Folded = Folded(state: FoldState, effects: seq<Effect>)

  /** `require(path)`: `None` when it throws; a path with no file behind it throws. */
  function Require(fs: FileSystem, path: Path): (r: Option<Value>)
    ensures r.Some? ==> path in fs.files
  {
    if path in fs.files && fs.files[path].Exports? then Some(fs.files[path].value) else None
  }

  /** A list of references is used as is; any other value is a one-element list. */
  function ExtendsList(v: Value): (refs: seq<Value>)
    ensures v.Arr? ==> refs == v.items
    ensures !v.Arr? ==> refs == [v]
  {
    if v.Arr? then v.items else [v]
  }

  /** `pathObj.cwd || defaultObj.cwd`, the directory handed to the loader registration. */
  function LoaderCwd(ref: Value, d: Defaults): (cwd: Value)
    ensures HasTruthy(ref, "cwd") ==> ref.Obj? && cwd == ref.fields["cwd"] && Truthy(cwd)
    ensures !HasTruthy(ref, "cwd") ==> cwd == Str(d.cwd)
  {
    if HasTruthy(ref, "cwd") then Property(ref, "cwd").value else Str(d.cwd)
  }

  /** `pathObj.extensions || defaultObj.extensions`, inherited by the `extends` entries. */
  function InheritedExtensions(ref: Value, d: Defaults): (extensions: Option<Value>)
    ensures HasTruthy(ref, "extensions") ==> ref.Obj? && extensions == Some(ref.fields["extensions"]) && Truthy(extensions.value)
    ensures !HasTruthy(ref, "extensions") ==> extensions == d.extensions
  {
    if HasTruthy(ref, "extensions") then Property(ref, "extensions") else d.extensions
  }

  /** The loader registration made before importing a located file, if any. */
  function Registration(ref: Value, d: Defaults, found: Found): (r: seq<Effect>)
    ensures |r| <= 1
    ensures r != [] <==> IsPlainObject(found.extension)
    ensures r != [] ==> r[0] == RegisterLoader(found.extension, found.path, LoaderCwd(ref, d))
  {
    if IsPlainObject(found.extension) then [RegisterLoader(found.extension, found.path, LoaderCwd(ref, d))] else []
  }

  /**
    One call of `loadExtendableFile(acc, ref, d, visited)`. Termination: every
    recursive call happens after a path of the file table joined `visited`.
   */
  function Load(fs: FileSystem, acc: Option<Fields>, ref: Value, d: Defaults, visited: set<Path>): (out: Outcome)
    decreases fs.files.Keys - visited, 0, 0
    ensures visited <= out.visited
  {
    match fs.locate(ref, d)
    case None => Outcome(acc, visited, [])
    case Some(found) =>
      if found.path in visited then Outcome(acc, visited, [])
      else
        var seen := visited + {found.path};
        var effects := Registration(ref, d, found) + [Import(found.path)];
        match Require(fs, found.path)
        case None => Outcome(None, seen, effects)
        case Some(loaded) =>
          if !IsPlainObject(loaded) then Outcome(acc, seen, effects)
          else
            var merged := DefaultsDeep(acc.GetOr(map[]), loaded.fields);
            if HasTruthy(loaded, "extends") then
              var inherited := Defaults(None, fs.dirname(found.path), InheritedExtensions(ref, d));
              var f := Fold(fs, ExtendsList(loaded.fields["extends"]), inherited, FoldState(merged, Outer, seen));
              Outcome(Some(f.state.outer - {"extends"}), f.state.visited, effects + f.effects)
            else
              Outcome(Some(merged), seen, effects)
  }

  /** One call on a newly located plain object with a truthy `extends`, spelled out. */
  lemma LoadExtendingStep(fs: FileSystem, acc: Option<Fields>, ref: Value, d: Defaults, visited: set<Path>,
                          found: Found, loaded: Value)
    requires fs.locate(ref, d) == Some(found) && found.path !in visited
    requires Require(fs, found.path) == Some(loaded) && IsPlainObject(loaded) && HasTruthy(loaded, "extends")
    ensures var inherited := Defaults(None, fs.dirname(found.path), InheritedExtensions(ref, d));
      var st := FoldState(DefaultsDeep(acc.GetOr(map[]), loaded.fields), Outer, visited + {found.path});
      var f := Fold(fs, ExtendsList(loaded.fields["extends"]), inherited, st);
      Load(fs, acc, ref, d, visited)
        == Outcome(Some(f.state.outer - {"extends"}), f.state.visited, Registration(ref, d, found) + [Import(found.path)] + f.effects)
  {
  }

  /** The accumulator the next `extends` entry is loaded into. */
  function ThreadAcc(st: FoldState): Option<Fields> {
    match st.thread
    case Outer => Some(st.outer)
    case Detached(acc) => acc
  }

  /** The state after one `extends` entry returned `out`. */
  function Step(st: FoldState, out: Outcome): FoldState {
    match st.thread
    case Outer =>
      if out.result.Some? then FoldState(out.result.value, Outer, out.visited)
      else FoldState(st.outer, Detached(None), out.visited)
    case Detached(_) => FoldState(st.outer, Detached(out.result), out.visited)
  }

  /** The `reduce` over the `extends` entries, in list order; its own result is discarded by the caller. */
  function Fold(fs: FileSystem, refs: seq<Value>, d: Defaults, st: FoldState): (r: Folded)
    decreases fs.files.Keys - st.visited, 1, |refs|
    ensures st.visited <= r.state.visited
  {
    if refs == [] then Folded(st, [])
    else
      var out := Load(fs, ThreadAcc(st), refs[0], d, st.visited);
      var rest := Fold(fs, refs[1..], d, Step(st, out));
      Folded(rest.state, out.effects + rest.effects)
  }

  // ---------------------------------------------------------------------------
  // What a single call promises

  lemma NotFoundUnchanged(fs: FileSystem, acc: Option<Fields>, ref: Value, d: Defaults, visited: set<Path>)
    requires fs.locate(ref, d).None?
    ensures Load(fs, acc, ref, d, visited) == Outcome(acc, visited, [])
  {
  }

  lemma VisitedUnchanged(fs: FileSystem, acc: Option<Fields>, ref: Value, d: Defaults, visited: set<Path>)
    requires fs.locate(ref, d).Some? && fs.locate(ref, d).value.path in visited
    ensures Load(fs, acc, ref, d, visited) == Outcome(acc, visited, [])
  {
  }

  /** A located file is marked visited, and its loader registered, before it is imported. */
  lemma MarkedAndRegisteredBeforeImport(fs: FileSystem, acc: Option<Fields>, ref: Value, d: Defaults, visited: set<Path>)
    requires fs.locate(ref, d).Some? && fs.locate(ref, d).value.path !in visited
    ensures var found := fs.locate(ref, d).value;
      var out := Load(fs, acc, ref, d, visited);
      var head := if found.extension.Obj? then [RegisterLoader(found.extension, found.path, LoaderCwd(ref, d)), Import(found.path)]
                  else [Import(found.path)];
      && found.path in out.visited
      && |head| <= |out.effects| && out.effects[..|head|] == head
  {
    var found := fs.locate(ref, d).value;
    var head := Registration(ref, d, found) + [Import(found.path)];
    assert head == if found.extension.Obj? then [RegisterLoader(found.extension, found.path, LoaderCwd(ref, d)), Import(found.path)]
                   else [Import(found.path)];
    match Require(fs, found.path)
    case None =>
    case Some(loaded) =>
      if IsPlainObject(loaded) && HasTruthy(loaded, "extends") {
        var inherited := Defaults(None, fs.dirname(found.path), InheritedExtensions(ref, d));
        var f := Fold(fs, ExtendsList(loaded.fields["extends"]), inherited,
          FoldState(DefaultsDeep(acc.GetOr(map[]), loaded.fields), Outer, visited + {found.path}));
        assert found.path in f.state.visited;
        assert (head + f.effects)[..|head|] == head;
      }
  }

  lemma ImportFailureIsUndefined(fs: FileSystem, acc: Option<Fields>, ref: Value, d: Defaults, visited: set<Path>)
    requires fs.locate(ref, d).Some? && fs.locate(ref, d).value.path !in visited
    requires Require(fs, fs.locate(ref, d).value.path).None?
    ensures Load(fs, acc, ref, d, visited).result.None?
  {
  }

  lemma NonObjectUnchanged(fs: FileSystem, acc: Option<Fields>, ref: Value, d: Defaults, visited: set<Path>)
    requires fs.locate(ref, d).Some? && fs.locate(ref, d).value.path !in visited
    requires Require(fs, fs.locate(ref, d).value.path).Some?
    requires !IsPlainObject(Require(fs, fs.locate(ref, d).value.path).value)
    ensures Load(fs, acc, ref, d, visited).result == acc
  {
  }

  /** A file whose `extends` is truthy leaves no `extends` key in the result. */
  lemma ExtendsStripped(fs: FileSystem, acc: Option<Fields>, ref: Value, d: Defaults, visited: set<Path>)
    requires fs.locate(ref, d).Some? && fs.locate(ref, d).value.path !in visited
    requires Require(fs, fs.locate(ref, d).value.path).Some?
    requires HasTruthy(Require(fs, fs.locate(ref, d).value.path).value, "extends")
    ensures Load(fs, acc, ref, d, visited).result.Some?
    ensures "extends" !in Load(fs, acc, ref, d, visited).result.value
  {
  }

  // ---------------------------------------------------------------------------
  // Merge precedence over a whole chain

  /** Apart from the `extends` key, every leaf of `a` survives unchanged in `f`. */
  predicate KeptBelow(a: Fields, f: Fields) {
    forall k :: k in a && k != "extends" ==> k in f && Kept(a[k], f[k])
  }

  lemma KeptBelowTransitive(a: Fields, b: Fields, c: Fields)
    requires KeptBelow(a, b) && KeptBelow(b, c)
    ensures KeptBelow(a, c)
  {
    forall k | k in a && k != "extends"
      ensures k in c && Kept(a[k], c[k])
    {
      KeptTransitive(a[k], b[k], c[k]);
    }
  }

  /**
    Whatever the chain of `extends` loads, a value already in the accumulator
    is never overwritten: nested objects only gain keys (`extends` itself excepted).
   */
  lemma {:induction false} LoadKeepsAccumulator(fs: FileSystem, a: Fields, ref: Value, d: Defaults, visited: set<Path>)
    decreases fs.files.Keys - visited, 0, 0
    ensures var out := Load(fs, Some(a), ref, d, visited);
      out.result.Some? ==> KeptBelow(a, out.result.value)
  {
    KeptReflexiveAll(a);
    match fs.locate(ref, d)
    case None =>
    case Some(found) =>
      if found.path !in visited {
        var seen := visited + {found.path};
        match Require(fs, found.path)
        case None =>
        case Some(loaded) =>
          if IsPlainObject(loaded) {
            var merged := DefaultsDeep(a, loaded.fields);
            DefaultsDeepPrecedence(a, loaded.fields);
            if HasTruthy(loaded, "extends") {
              var inherited := Defaults(None, fs.dirname(found.path), InheritedExtensions(ref, d));
              var st := FoldState(merged, Outer, seen);
              FoldKeepsOuter(fs, ExtendsList(loaded.fields["extends"]), inherited, st);
              var f := Fold(fs, ExtendsList(loaded.fields["extends"]), inherited, st);
              KeptBelowTransitive(a, merged, f.state.outer);
            }
          }
      }
  }

  lemma {:induction false} FoldKeepsOuter(fs: FileSystem, refs: seq<Value>, d: Defaults, st: FoldState)
    decreases fs.files.Keys - st.visited, 1, |refs|
    ensures KeptBelow(st.outer, Fold(fs, refs, d, st).state.outer)
  {
    KeptReflexiveAll(st.outer);
    if refs != [] {
      var out := Load(fs, ThreadAcc(st), refs[0], d, st.visited);
      var next := Step(st, out);
      FoldKeepsOuter(fs, refs[1..], d, next);
      if st.thread.Outer? {
        LoadKeepsAccumulator(fs, st.outer, refs[0], d, st.visited);
        KeptBelowTransitive(st.outer, next.outer, Fold(fs, refs[1..], d, next).state.outer);
      }
    }
  }

  /** Every key of a successfully loaded file (apart from `extends`) appears in the result. */
  lemma LoadIncludesFile(fs: FileSystem, acc: Option<Fields>, ref: Value, d: Defaults, visited: set<Path>)
    requires fs.locate(ref, d).Some? && fs.locate(ref, d).value.path !in visited
    requires Require(fs, fs.locate(ref, d).value.path).Some?
    requires IsPlainObject(Require(fs, fs.locate(ref, d).value.path).value)
    ensures var loaded := Require(fs, fs.locate(ref, d).value.path).value;
      var out := Load(fs, acc, ref, d, visited);
      && out.result.Some?
      && forall k :: k in loaded.fields && k != "extends" ==> k in out.result.value
  {
    var found := fs.locate(ref, d).value;
    var loaded := Require(fs, found.path).value;
    var merged := DefaultsDeep(acc.GetOr(map[]), loaded.fields);
    if HasTruthy(loaded, "extends") {
      var seen := visited + {found.path};
      var inherited := Defaults(None, fs.dirname(found.path), InheritedExtensions(ref, d));
      FoldKeepsOuter(fs, ExtendsList(loaded.fields["extends"]), inherited, FoldState(merged, Outer, seen));
    }
  }

  // ---------------------------------------------------------------------------
  // The visited table: each file is imported at most once per traversal

  function Imports(effects: seq<Effect>): (paths: seq<Path>)
    ensures |paths| <= |effects|
  {
    if effects == [] then []
    else Imports(effects[..|effects| - 1]) + (if effects[|effects| - 1].Import? then [effects[|effects| - 1].path] else [])
  }

  lemma {:induction false} ImportsAppend(a: seq<Effect>, b: seq<Effect>)
    decreases |b|
    ensures Imports(a + b) == Imports(a) + Imports(b)
  {
    if b != [] {
      assert (a + b)[..|a + b| - 1] == a + b[..|b| - 1];
      ImportsAppend(a, b[..|b| - 1]);
    } else {
      assert a + b == a;
    }
  }

  function Elements<T>(s: seq<T>): set<T> {
    set x | x in s
  }

  /**
    The effects import pairwise distinct paths, none of them already in
    `before`, and `after` is `before` plus exactly those paths.
   */
  predicate FreshImports(before: set<Path>, after: set<Path>, effects: seq<Effect>) {
    var paths := Imports(effects);
    && Distinct(paths)
    && (forall i :: 0 <= i < |paths| ==> paths[i] !in before)
    && after == before + Elements(paths)
  }

  lemma FreshImportsCompose(a: set<Path>, b: set<Path>, c: set<Path>, e1: seq<Effect>, e2: seq<Effect>)
    requires FreshImports(a, b, e1) && FreshImports(b, c, e2)
    ensures FreshImports(a, c, e1 + e2)
  {
    ImportsAppend(e1, e2);
    var p1, p2 := Imports(e1), Imports(e2);
    var p := p1 + p2;
    assert forall i :: 0 <= i < |p1| ==> p1[i] in b;
    forall i, j | 0 <= i < j < |p|
      ensures p[i] != p[j]
    {
      if j >= |p1| && i < |p1| {
        assert p[i] == p1[i] && p[j] == p2[j - |p1|];
      }
    }
    assert Elements(p) == Elements(p1) + Elements(p2);
  }

  lemma {:induction false} ImportsNone(reg: seq<Effect>)
    requires forall i :: 0 <= i < |reg| ==> reg[i].RegisterLoader?
    ensures Imports(reg) == []
  {
    if reg != [] {
      ImportsNone(reg[..|reg| - 1]);
    }
  }

  /** The effects of locating a new file: an optional registration, then its import. */
  lemma HeadImportsFresh(visited: set<Path>, reg: seq<Effect>, p: Path)
    requires p !in visited
    requires forall i :: 0 <= i < |reg| ==> reg[i].RegisterLoader?
    ensures FreshImports(visited, visited + {p}, reg + [Import(p)])
  {
    ImportsNone(reg);
    ImportsAppend(reg, [Import(p)]);
    assert Imports([Import(p)]) == Imports([]) + [p];
    assert Elements([p]) == {p};
  }

  /**
    One traversal imports each file at most once, never one that was already
    visited, and the visited table grows by exactly the imported files: cyclic
    and diamond-shaped `extends` graphs are walked once per file.
   */
  lemma {:induction false} LoadImportsFresh(fs: FileSystem, acc: Option<Fields>, ref: Value, d: Defaults, visited: set<Path>)
    decreases fs.files.Keys - visited, 0, 0
    ensures var out := Load(fs, acc, ref, d, visited);
      FreshImports(visited, out.visited, out.effects)
  {
    assert Imports([]) == [];
    match fs.locate(ref, d)
    case None =>
    case Some(found) =>
      if found.path !in visited {
        var seen := visited + {found.path};
        var effects := Registration(ref, d, found) + [Import(found.path)];
        HeadImportsFresh(visited, Registration(ref, d, found), found.path);
        match Require(fs, found.path)
        case None =>
        case Some(loaded) =>
          if IsPlainObject(loaded) && HasTruthy(loaded, "extends") {
            var merged := DefaultsDeep(acc.GetOr(map[]), loaded.fields);
            var inherited := Defaults(None, fs.dirname(found.path), InheritedExtensions(ref, d));
            var st := FoldState(merged, Outer, seen);
            var refs := ExtendsList(loaded.fields["extends"]);
            FoldImportsFresh(fs, refs, inherited, st);
            var f := Fold(fs, refs, inherited, st);
            FreshImportsCompose(visited, seen, f.state.visited, effects, f.effects);
          }
      }
  }

  lemma {:induction false} FoldImportsFresh(fs: FileSystem, refs: seq<Value>, d: Defaults, st: FoldState)
    decreases fs.files.Keys - st.visited, 1, |refs|
    ensures var f := Fold(fs, refs, d, st);
      FreshImports(st.visited, f.state.visited, f.effects)
  {
    if refs == [] {
      assert Imports([]) == [];
    } else {
      var out := Load(fs, ThreadAcc(st), refs[0], d, st.visited);
      var next := Step(st, out);
      var rest := Fold(fs, refs[1..], d, next);
      LoadImportsFresh(fs, ThreadAcc(st), refs[0], d, st.visited);
      FoldImportsFresh(fs, refs[1..], d, next);
      FreshImportsCompose(st.visited, out.visited, rest.state.visited, out.effects, rest.effects);
    }
  }

  // ---------------------------------------------------------------------------
  // Loader registration order

  /** Every registration concerns a mapped extension and is immediately followed by the import of its file. */
  predicate RegistrationsPrecedeImports(e: seq<Effect>) {
    forall i :: 0 <= i < |e| && e[i].RegisterLoader? ==>
      e[i].extension.Obj? && i + 1 < |e| && e[i + 1] == Import(e[i].path)
  }

  lemma RegistrationsAppend(a: seq<Effect>, b: seq<Effect>)
    requires RegistrationsPrecedeImports(a) && RegistrationsPrecedeImports(b)
    ensures RegistrationsPrecedeImports(a + b)
  {
    var e := a + b;
    forall i | 0 <= i < |e| && e[i].RegisterLoader?
      ensures e[i].extension.Obj? && i + 1 < |e| && e[i + 1] == Import(e[i].path)
    {
      if i < |a| {
        assert e[i] == a[i];
        assert e[i + 1] == a[i + 1];
      } else {
        assert e[i] == b[i - |a|];
      }
    }
  }

  lemma {:induction false} LoadRegistersBeforeImport(fs: FileSystem, acc: Option<Fields>, ref: Value, d: Defaults, visited: set<Path>)
    decreases fs.files.Keys - visited, 0, 0
    ensures RegistrationsPrecedeImports(Load(fs, acc, ref, d, visited).effects)
  {
    match fs.locate(ref, d)
    case None =>
    case Some(found) =>
      if found.path !in visited {
        var seen := visited + {found.path};
        var effects := Registration(ref, d, found) + [Import(found.path)];
        assert RegistrationsPrecedeImports(effects);
        match Require(fs, found.path)
        case None =>
        case Some(loaded) =>
          if IsPlainObject(loaded) && HasTruthy(loaded, "extends") {
            var merged := DefaultsDeep(acc.GetOr(map[]), loaded.fields);
            var inherited := Defaults(None, fs.dirname(found.path), InheritedExtensions(ref, d));
            var refs := ExtendsList(loaded.fields["extends"]);
            FoldRegistersBeforeImport(fs, refs, inherited, FoldState(merged, Outer, seen));
            RegistrationsAppend(effects, Fold(fs, refs, inherited, FoldState(merged, Outer, seen)).effects);
          }
      }
  }

  lemma {:induction false} FoldRegistersBeforeImport(fs: FileSystem, refs: seq<Value>, d: Defaults, st: FoldState)
    decreases fs.files.Keys - st.visited, 1, |refs|
    ensures RegistrationsPrecedeImports(Fold(fs, refs, d, st).effects)
  {
    if refs != [] {
      var out := Load(fs, ThreadAcc(st), refs[0], d, st.visited);
      var next := Step(st, out);
      LoadRegistersBeforeImport(fs, ThreadAcc(st), refs[0], d, st.visited);
      FoldRegistersBeforeImport(fs, refs[1..], d, next);
      RegistrationsAppend(out.effects, Fold(fs, refs[1..], d, next).effects);
    }
  }

  // ---------------------------------------------------------------------------
  // The traversal does not depend on the accumulator

  /**
    Which files are located, registered and imported depends only on the
    references and the visited table, never on the accumulator: `extends` is
    read from the imported file, not from the merged object.
   */
  lemma {:induction false} LoadTraversalIgnoresAccumulator(fs: FileSystem, a1: Option<Fields>, a2: Option<Fields>, ref: Value, d: Defaults, visited: set<Path>)
    decreases fs.files.Keys - visited, 0, 0
    ensures Load(fs, a1, ref, d, visited).visited == Load(fs, a2, ref, d, visited).visited
    ensures Load(fs, a1, ref, d, visited).effects == Load(fs, a2, ref, d, visited).effects
  {
    match fs.locate(ref, d)
    case None =>
    case Some(found) =>
      if found.path !in visited {
        var seen := visited + {found.path};
        match Require(fs, found.path)
        case None =>
        case Some(loaded) =>
          if IsPlainObject(loaded) && HasTruthy(loaded, "extends") {
            var inherited := Defaults(None, fs.dirname(found.path), InheritedExtensions(ref, d));
            FoldTraversalIgnoresAccumulator(fs, ExtendsList(loaded.fields["extends"]), inherited,
              FoldState(DefaultsDeep(a1.GetOr(map[]), loaded.fields), Outer, seen),
              FoldState(DefaultsDeep(a2.GetOr(map[]), loaded.fields), Outer, seen));
          }
      }
  }

  lemma {:induction false} FoldTraversalIgnoresAccumulator(fs: FileSystem, refs: seq<Value>, d: Defaults, s1: FoldState, s2: FoldState)
    requires s1.visited == s2.visited
    decreases fs.files.Keys - s1.visited, 1, |refs|
    ensures Fold(fs, refs, d, s1).state.visited == Fold(fs, refs, d, s2).state.visited
    ensures Fold(fs, refs, d, s1).effects == Fold(fs, refs, d, s2).effects
  {
    if refs != [] {
      var out1 := Load(fs, ThreadAcc(s1), refs[0], d, s1.visited);
      var out2 := Load(fs, ThreadAcc(s2), refs[0], d, s2.visited);
      LoadTraversalIgnoresAccumulator(fs, ThreadAcc(s1), ThreadAcc(s2), refs[0], d, s1.visited);
      FoldTraversalIgnoresAccumulator(fs, refs[1..], d, Step(s1, out1), Step(s2, out2));
    }
  }

  // ---------------------------------------------------------------------------
  // The imperative traversal

  /** A plain object that the loader merges into and deletes from in place. */
  class ConfigObject {
    var fields: Fields

    constructor(fields: Fields)
      ensures this.fields == fields
    {
      this.fields := fields;
    }
  }

  /** The `visited` table, shared by reference through one traversal. */
  class Visited {
    var paths: set<Path>

    constructor()
      ensures paths == {}
    {
      paths := {};
    }
  }

  function AccOf(c: ConfigObject?): Option<Fields>
    reads c
  {
    if c == null then None else Some(c.fields)
  }

  function PathsOf(v: Visited?): set<Path>
    reads v
  {
    if v == null then {} else v.paths
  }

  /**
    `loadExtendableFile(config, pathObj, defaultObj, eventEmitter, parentPath, visited)`.
    `config == null` and `r == null` stand for `undefined`. The accumulator is
    changed in place; when it is `undefined`, the merge starts a fresh object.
   */
  method LoadExtendableFile(fs: FileSystem, config: ConfigObject?, ref: Value, d: Defaults, visited: Visited?)
    returns (r: ConfigObject?, effects: seq<Effect>)
    modifies config, visited
    decreases if visited == null then 1 else 0, fs.files.Keys - PathsOf(visited), 1
    ensures var out := Load(fs, old(AccOf(config)), ref, d, old(PathsOf(visited)));
      && effects == out.effects
      && (visited != null ==> visited.paths == out.visited)
      && (r == null <==> out.result.None?)
      && (r != null ==> r.fields == out.result.value)
      && (r != null && config != null ==> r == config)
      && (r != null && config == null ==> fresh(r))
      && (r == null && config != null ==> config.fields == old(config.fields))
  {
    ghost var acc0 := AccOf(config);
    ghost var before := PathsOf(visited);
    var located := fs.locate(ref, d);
    if located.None? {
      return config, [];
    }
    var found := located.value;
    var seen := visited;
    if seen == null {
      seen := new Visited();
    }
    if found.path in seen.paths {
      return config, [];
    }
    seen.paths := seen.paths + {found.path};

    effects := Registration(ref, d, found) + [Import(found.path)];
    var imported := Require(fs, found.path);
    if imported.None? {
      return null, effects;
    }
    var loaded := imported.value;
    if !IsPlainObject(loaded) {
      return config, effects;
    }

    var acc: ConfigObject;
    if config == null {
      acc := new ConfigObject(map[]);
    } else {
      acc := config;
    }
    acc.fields := DefaultsDeep(acc.fields, loaded.fields);

    if HasTruthy(loaded, "extends") {
      var refs := ExtendsList(loaded.fields["extends"]);
      var inherited := Defaults(None, fs.dirname(found.path), InheritedExtensions(ref, d));
      ghost var f := Fold(fs, refs, inherited, FoldState(acc.fields, Outer, seen.paths));
      var more := FollowExtends(fs, acc, refs, inherited, seen, found.path);
      effects := effects + more;
      acc.fields := acc.fields - {"extends"};
      assert Load(fs, acc0, ref, d, before) == Outcome(Some(acc.fields), seen.paths, effects);
    }
    return acc, effects;
  }

  /**
    One turn of the `reduce`: when the entries from `i` on, run from `st`, reach
    `goal` after `done`, then entry `i` followed by the rest run from the state
    it leaves reach the same `goal`.
   */
  lemma FoldStep(fs: FileSystem, refs: seq<Value>, i: nat, d: Defaults, st: FoldState, done: seq<Effect>, goal: Folded)
    requires i < |refs|
    requires Fold(fs, refs[i..], d, st).state == goal.state
    requires done + Fold(fs, refs[i..], d, st).effects == goal.effects
    ensures var out := Load(fs, ThreadAcc(st), refs[i], d, st.visited);
      var rest := Fold(fs, refs[i + 1..], d, Step(st, out));
      && rest.state == goal.state
      && (done + out.effects) + rest.effects == goal.effects
  {
    assert refs[i..][0] == refs[i] && refs[i..][1..] == refs[i + 1..];
    var out := Load(fs, ThreadAcc(st), refs[i], d, st.visited);
    var rest := Fold(fs, refs[i + 1..], d, Step(st, out));
    assert done + (out.effects + rest.effects) == (done + out.effects) + rest.effects;
  }

  /**
    The `reduce` over the `extends` entries of the file at `parent`: each entry
    is loaded into the value the previous one returned, starting from `acc`.
    The ghost `cur` is the `reduce` state the objects stand for.
   */
  method FollowExtends(fs: FileSystem, acc: ConfigObject, refs: seq<Value>, d: Defaults, seen: Visited, ghost parent: Path)
    returns (effects: seq<Effect>)
    requires parent in fs.files && parent in seen.paths
    modifies acc, seen
    decreases 0, fs.files.Keys - (seen.paths - {parent}), 0
    ensures var f := Fold(fs, refs, d, FoldState(old(acc.fields), Outer, old(seen.paths)));
      && acc.fields == f.state.outer
      && seen.paths == f.state.visited
      && effects == f.effects
  {
    ghost var cur := FoldState(acc.fields, Outer, seen.paths);
    ghost var goal := Fold(fs, refs, d, cur);
    ghost var entry := seen.paths;
    effects := [];
    var thread: ConfigObject? := acc;
    var i := 0;
    while i < |refs|
      invariant 0 <= i <= |refs|
      invariant entry <= seen.paths
      invariant acc.fields == cur.outer && seen.paths == cur.visited
      invariant cur.thread.Outer? ==> thread == acc
      invariant cur.thread.Detached? ==> thread != acc && AccOf(thread) == cur.thread.acc && (thread != null ==> fresh(thread))
      invariant Fold(fs, refs[i..], d, cur).state == goal.state
      invariant effects + Fold(fs, refs[i..], d, cur).effects == goal.effects
    {
      ghost var out := Load(fs, ThreadAcc(cur), refs[i], d, cur.visited);
      FoldStep(fs, refs, i, d, cur, effects, goal);
      var next, more := LoadExtendableFile(fs, thread, refs[i], d, seen);
      effects := effects + more;
      cur := Step(cur, out);
      thread := next;
      i := i + 1;
    }
    assert refs[i..] == [];
  }
}
