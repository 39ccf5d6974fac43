/**
  What the files of an `extends` chain contribute to the loaded
  configuration. When every file reached could be imported, the result is the
  deep merge of the imported files in the order they were imported, onto the
  caller's accumulator (`extends` aside): a file imported earlier wins over a
  later one, and nested objects merge across files.
 */
module ExtendableChain {
  import opened Values
  import opened DeepMerge
  import opened ExtendableFile

  /** Every file the effects import could be imported. */
  predicate NoFailures(fs: FileSystem, effects: seq<Effect>) {
    forall i :: 0 <= i < |effects| && effects[i].Import? ==> Require(fs, effects[i].path).Some?
  }

  /** Every key of `file`, when it is a plain object, apart from `extends`, is a key of `r`. */
  predicate KeysIn(file: Value, r: Fields) {
    file.Obj? ==> forall k :: k in file.fields && k != "extends" ==> k in r
  }

  /** Every key (apart from `extends`) of every plain object the effects import is a key of `r`. */
  predicate ImportedKeysIn(fs: FileSystem, effects: seq<Effect>, r: Fields) {
    forall i :: 0 <= i < |effects| && effects[i].Import? && Require(fs, effects[i].path).Some? ==>
      KeysIn(Require(fs, effects[i].path).value, r)
  }

  lemma NoFailuresSplit(fs: FileSystem, a: seq<Effect>, b: seq<Effect>)
    requires NoFailures(fs, a + b)
    ensures NoFailures(fs, a) && NoFailures(fs, b)
  {
    forall i | 0 <= i < |a| && a[i].Import?
      ensures Require(fs, a[i].path).Some?
    {
      assert (a + b)[i] == a[i];
    }
    forall i | 0 <= i < |b| && b[i].Import?
      ensures Require(fs, b[i].path).Some?
    {
      assert (a + b)[|a| + i] == b[i];
    }
  }

  lemma ImportedKeysInJoin(fs: FileSystem, a: seq<Effect>, b: seq<Effect>, r: Fields)
    requires ImportedKeysIn(fs, a, r) && ImportedKeysIn(fs, b, r)
    ensures ImportedKeysIn(fs, a + b, r)
  {
    var e := a + b;
    forall i | 0 <= i < |e| && e[i].Import? && Require(fs, e[i].path).Some?
      ensures KeysIn(Require(fs, e[i].path).value, r)
    {
      if i >= |a| {
        assert e[i] == b[i - |a|];
      }
    }
  }

  lemma ImportedKeysInKept(fs: FileSystem, e: seq<Effect>, a: Fields, b: Fields)
    requires ImportedKeysIn(fs, e, a) && KeptBelow(a, b)
    ensures ImportedKeysIn(fs, e, b) && ImportedKeysIn(fs, e, b - {"extends"})
  {
  }

  /**
    When every file a traversal reaches could be imported, the traversal
    yields an object whenever it was given one, and every key of every file
    of the `extends` chain (apart from `extends`) is in it: what the files
    the chain reaches declare ends up in the result.
   */
  lemma {:induction false} LoadGathersChain(fs: FileSystem, acc: Option<Fields>, ref: Value, d: Defaults, visited: set<Path>)
    decreases fs.files.Keys - visited, 0, 0
    ensures var out := Load(fs, acc, ref, d, visited);
      NoFailures(fs, out.effects) ==>
        && (acc.Some? ==> out.result.Some?)
        && (out.result.Some? ==> ImportedKeysIn(fs, out.effects, out.result.value))
  {
    match fs.locate(ref, d)
    case None =>
    case Some(found) =>
      if found.path !in visited {
        var seen := visited + {found.path};
        var reg := Registration(ref, d, found);
        var head := reg + [Import(found.path)];
        assert head[|reg|] == Import(found.path);
        assert forall i :: 0 <= i < |reg| ==> head[i].RegisterLoader?;
        match Require(fs, found.path)
        case None =>
        case Some(loaded) =>
          if IsPlainObject(loaded) {
            var merged := DefaultsDeep(acc.GetOr(map[]), loaded.fields);
            assert KeysIn(loaded, merged);
            assert ImportedKeysIn(fs, head, merged);
            if HasTruthy(loaded, "extends") {
              var inherited := Defaults(None, fs.dirname(found.path), InheritedExtensions(ref, d));
              var refs := ExtendsList(loaded.fields["extends"]);
              var st := FoldState(merged, Outer, seen);
              var f := Fold(fs, refs, inherited, st);
              if NoFailures(fs, head + f.effects) {
                NoFailuresSplit(fs, head, f.effects);
                FoldGathersChain(fs, refs, inherited, st);
                FoldKeepsOuter(fs, refs, inherited, st);
                ImportedKeysInKept(fs, head, merged, f.state.outer);
                KeptReflexiveAll(f.state.outer);
                ImportedKeysInKept(fs, f.effects, f.state.outer, f.state.outer);
                ImportedKeysInJoin(fs, head, f.effects, f.state.outer - {"extends"});
              }
            }
          }
      }
  }

  lemma {:induction false} FoldGathersChain(fs: FileSystem, refs: seq<Value>, d: Defaults, st: FoldState)
    requires st.thread.Outer?
    decreases fs.files.Keys - st.visited, 1, |refs|
    ensures var f := Fold(fs, refs, d, st);
      NoFailures(fs, f.effects) ==> f.state.thread.Outer? && ImportedKeysIn(fs, f.effects, f.state.outer)
  {
    if refs != [] {
      var out := Load(fs, Some(st.outer), refs[0], d, st.visited);
      var next := Step(st, out);
      var rest := Fold(fs, refs[1..], d, next);
      var f := Fold(fs, refs, d, st);
      assert f.effects == out.effects + rest.effects;
      if NoFailures(fs, f.effects) {
        NoFailuresSplit(fs, out.effects, rest.effects);
        LoadGathersChain(fs, Some(st.outer), refs[0], d, st.visited);
        assert next == FoldState(out.result.value, Outer, out.visited);
        FoldGathersChain(fs, refs[1..], d, next);
        FoldKeepsOuter(fs, refs[1..], d, next);
        ImportedKeysInKept(fs, out.effects, out.result.value, rest.state.outer);
        ImportedKeysInJoin(fs, out.effects, rest.effects, rest.state.outer);
      }
    }
  }

  // ---------------------------------------------------------------------------
  // The result is the merge of the imported files, in import order

  /** What importing `p` adds to the accumulator: its properties when it is a plain object. */
  function Contribution(fs: FileSystem, p: Path): (c: Option<Fields>)
    ensures c.Some? <==> Require(fs, p).Some? && IsPlainObject(Require(fs, p).value)
    ensures c.Some? ==> Require(fs, p).value == Obj(c.value)
  {
    match Require(fs, p)
    case Some(Obj(fields)) => Some(fields)
    case _ => None
  }

  /** `defaultsDeep` of the files at `paths`, one after the other, onto `acc`. */
  function MergeAll(fs: FileSystem, acc: Fields, paths: seq<Path>): (r: Fields)
    decreases |paths|
    ensures acc.Keys <= r.Keys
  {
    if paths == [] then acc
    else
      var prev := MergeAll(fs, acc, paths[..|paths| - 1]);
      match Contribution(fs, paths[|paths| - 1])
      case None => prev
      case Some(file) => DefaultsDeep(prev, file)
  }

  lemma {:induction false} MergeAllAppend(fs: FileSystem, acc: Fields, p: seq<Path>, q: seq<Path>)
    decreases |q|
    ensures MergeAll(fs, acc, p + q) == MergeAll(fs, MergeAll(fs, acc, p), q)
  {
    if q == [] {
      assert p + q == p;
    } else {
      assert (p + q)[..|p + q| - 1] == p + q[..|q| - 1];
      assert (p + q)[|p + q| - 1] == q[|q| - 1];
      MergeAllAppend(fs, acc, p, q[..|q| - 1]);
    }
  }

  lemma MergeOne(fs: FileSystem, acc: Fields, p: Path)
    ensures MergeAll(fs, acc, [p]) == if Contribution(fs, p).Some? then DefaultsDeep(acc, Contribution(fs, p).value) else acc
  {
    assert [p][..0] == [];
  }

  /** Deleting `extends` before a merge makes no difference once it is deleted afterwards. */
  lemma StripMerge(x: Fields, file: Fields)
    ensures DefaultsDeep(x - {"extends"}, file) - {"extends"} == DefaultsDeep(x, file) - {"extends"}
  {
  }

  lemma {:induction false} StripMergeAll(fs: FileSystem, x: Fields, paths: seq<Path>)
    decreases |paths|
    ensures MergeAll(fs, x - {"extends"}, paths) - {"extends"} == MergeAll(fs, x, paths) - {"extends"}
  {
    if paths != [] {
      var init := paths[..|paths| - 1];
      StripMergeAll(fs, x, init);
      match Contribution(fs, paths[|paths| - 1])
      case None =>
      case Some(file) =>
        StripMerge(MergeAll(fs, x - {"extends"}, init), file);
        StripMerge(MergeAll(fs, x, init), file);
    }
  }

  /** A located file's own effects import exactly that file. */
  lemma ImportsHead(reg: seq<Effect>, p: Path)
    requires forall i :: 0 <= i < |reg| ==> reg[i].RegisterLoader?
    ensures Imports(reg + [Import(p)]) == [p]
  {
    ImportsNone(reg);
    ImportsAppend(reg, [Import(p)]);
    assert Imports([Import(p)]) == Imports([]) + [p];
  }

  /**
    When every file a traversal reaches could be imported, loading into `a`
    yields, apart from `extends`, the deep merge onto `a` of the imported
    files in import order: each file is merged in before the files it extends.
   */
  lemma {:induction false} LoadMergesChain(fs: FileSystem, a: Fields, ref: Value, d: Defaults, visited: set<Path>)
    decreases fs.files.Keys - visited, 0, 1
    ensures var out := Load(fs, Some(a), ref, d, visited);
      NoFailures(fs, out.effects) ==>
        && out.result.Some?
        && out.result.value - {"extends"} == MergeAll(fs, a, Imports(out.effects)) - {"extends"}
  {
    assert Imports([]) == [];
    var out := Load(fs, Some(a), ref, d, visited);
    match fs.locate(ref, d)
    case None =>
    case Some(found) =>
      if found.path !in visited {
        var seen := visited + {found.path};
        var reg := Registration(ref, d, found);
        var head := reg + [Import(found.path)];
        assert head[|reg|] == Import(found.path);
        match Require(fs, found.path)
        case None =>
        case Some(loaded) =>
          if HasTruthy(loaded, "extends") && IsPlainObject(loaded) {
            LoadMergesExtending(fs, a, ref, d, visited, found, loaded);
          } else {
            ImportsHead(reg, found.path);
            MergeOne(fs, a, found.path);
            LoadSingleStep(fs, a, ref, d, visited, found, loaded);
          }
      }
  }

  /** One call on a newly located file that extends nothing: it is merged in, if it is a plain object, and that is all. */
  lemma LoadSingleStep(fs: FileSystem, a: Fields, ref: Value, d: Defaults, visited: set<Path>, found: Found, loaded: Value)
    requires fs.locate(ref, d) == Some(found) && found.path !in visited
    requires Require(fs, found.path) == Some(loaded) && !(IsPlainObject(loaded) && HasTruthy(loaded, "extends"))
    ensures Load(fs, Some(a), ref, d, visited)
         == Outcome(Some(if IsPlainObject(loaded) then DefaultsDeep(a, loaded.fields) else a),
                    visited + {found.path}, Registration(ref, d, found) + [Import(found.path)])
  {
  }

  /** `LoadMergesChain` for a newly located plain object with a truthy `extends`. */
  lemma {:induction false} LoadMergesExtending(fs: FileSystem, a: Fields, ref: Value, d: Defaults, visited: set<Path>,
                                               found: Found, loaded: Value)
    requires fs.locate(ref, d) == Some(found) && found.path !in visited
    requires Require(fs, found.path) == Some(loaded) && IsPlainObject(loaded) && HasTruthy(loaded, "extends")
    decreases fs.files.Keys - visited, 0, 0
    ensures var out := Load(fs, Some(a), ref, d, visited);
      NoFailures(fs, out.effects) ==>
        && out.result.Some?
        && out.result.value - {"extends"} == MergeAll(fs, a, Imports(out.effects)) - {"extends"}
  {
    var reg := Registration(ref, d, found);
    var head := reg + [Import(found.path)];
    var inherited := Defaults(None, fs.dirname(found.path), InheritedExtensions(ref, d));
    var st := FoldState(DefaultsDeep(a, loaded.fields), Outer, visited + {found.path});
    var f := Fold(fs, ExtendsList(loaded.fields["extends"]), inherited, st);
    LoadExtendingStep(fs, Some(a), ref, d, visited, found, loaded);
    if NoFailures(fs, head + f.effects) {
      var later := Imports(f.effects);
      assert Imports(head + f.effects) == [found.path] + later by {
        ImportsHead(reg, found.path);
        ImportsAppend(head, f.effects);
      }
      assert MergeAll(fs, a, [found.path] + later) == MergeAll(fs, st.outer, later) by {
        MergeOne(fs, a, found.path);
        MergeAllAppend(fs, a, [found.path], later);
      }
      assert f.state.outer - {"extends"} == MergeAll(fs, st.outer, later) - {"extends"} by {
        NoFailuresSplit(fs, head, f.effects);
        FoldMergesChain(fs, ExtendsList(loaded.fields["extends"]), inherited, st);
      }
      assert (f.state.outer - {"extends"}) - {"extends"} == f.state.outer - {"extends"};
    }
  }


  /**
    The same for the `reduce` over `extends`: with no import failure the
    threaded value stays the caller's own object, and it ends as the merge of
    the imported files onto it, apart from `extends`.
   */
  lemma {:induction false} FoldMergesChain(fs: FileSystem, refs: seq<Value>, d: Defaults, st: FoldState)
    requires st.thread.Outer?
    decreases fs.files.Keys - st.visited, 1, |refs|
    ensures var f := Fold(fs, refs, d, st);
      NoFailures(fs, f.effects) ==>
        && f.state.thread.Outer?
        && f.state.outer - {"extends"} == MergeAll(fs, st.outer, Imports(f.effects)) - {"extends"}
  {
    if refs == [] {
      assert Imports([]) == [];
    } else {
      var out := Load(fs, Some(st.outer), refs[0], d, st.visited);
      var next := Step(st, out);
      var rest := Fold(fs, refs[1..], d, next);
      var f := Fold(fs, refs, d, st);
      assert f.effects == out.effects + rest.effects;
      if NoFailures(fs, f.effects) {
        NoFailuresSplit(fs, out.effects, rest.effects);
        LoadMergesChain(fs, st.outer, refs[0], d, st.visited);
        assert next == FoldState(out.result.value, Outer, out.visited);
        FoldMergesChain(fs, refs[1..], d, next);
        var first, later := Imports(out.effects), Imports(rest.effects);
        ImportsAppend(out.effects, rest.effects);
        MergeAllAppend(fs, st.outer, first, later);
        StripMergeAll(fs, out.result.value, later);
        StripMergeAll(fs, MergeAll(fs, st.outer, first), later);
      }
    }
  }

  /** Merging more files never changes a leaf already there: the accumulator and the earlier files win. */
  lemma {:induction false} MergeAllKeeps(fs: FileSystem, acc: Fields, paths: seq<Path>)
    decreases |paths|
    ensures Kept(Obj(acc), Obj(MergeAll(fs, acc, paths)))
  {
    if paths == [] {
      KeptReflexive(Obj(acc));
    } else {
      var prev := MergeAll(fs, acc, paths[..|paths| - 1]);
      MergeAllKeeps(fs, acc, paths[..|paths| - 1]);
      match Contribution(fs, paths[|paths| - 1])
      case None =>
      case Some(file) =>
        DefaultsDeepPrecedence(prev, file);
        KeptTransitive(Obj(acc), Obj(prev), Obj(DefaultsDeep(prev, file)));
    }
  }

  /** Whatever the files imported first put in place survives the files imported after them. */
  lemma EarlierFilesWin(fs: FileSystem, acc: Fields, earlier: seq<Path>, later: seq<Path>)
    ensures Kept(Obj(MergeAll(fs, acc, earlier)), Obj(MergeAll(fs, acc, earlier + later)))
  {
    MergeAllAppend(fs, acc, earlier, later);
    MergeAllKeeps(fs, MergeAll(fs, acc, earlier), later);
  }
}
