/**
  Small `extends` graphs worked through `loadExtendableFile` step by step:
  a chain resolved from the importing file's directory, a cycle, and the
  `reduce` that loses track of the accumulator after an import failure.
 */
module ExtendableScenarios {
  import opened Values
  import opened DeepMerge
  import opened ExtendableFile

  const A: Path := "/cfg/a.json"
  const B: Path := "/cfg/b.json"
  const C: Path := "/cfg/c.json"

  /** Finds `a` anywhere, and `b` and `c` only when resolved from `/cfg`. */
  function Locate(ref: Value, d: Defaults): Option<Found> {
    if ref == Str("a") then Some(Found(A, Str(".json")))
    else if ref == Str("b") && d.cwd == "/cfg" then Some(Found(B, Str(".json")))
    else if ref == Str("c") && d.cwd == "/cfg" then Some(Found(C, Str(".json")))
    else None
  }

  function Dirname(p: Path): Path {
    if p == A || p == B || p == C then "/cfg" else "/"
  }

  function Disk(files: map<Path, Module>): FileSystem {
    FileSystem(files, Locate, Dirname)
  }

  /**
    `LoadExtendingStep` for a file whose extension maps to no loader, with the
    arguments of the `reduce` named: no registration precedes the import.
   */
  lemma LoadExtending(fs: FileSystem, acc: Option<Fields>, ref: Value, d: Defaults, visited: set<Path>, found: Found, file: Fields,
                      refs: seq<Value>, inherited: Defaults, merged: Fields, seen: set<Path>)
    requires fs.locate(ref, d) == Some(found) && !found.extension.Obj?
    requires found.path !in visited && visited + {found.path} == seen
    requires found.path in fs.files && fs.files[found.path] == Exports(Obj(file))
    requires "extends" in file && Truthy(file["extends"]) && ExtendsList(file["extends"]) == refs
    requires Defaults(None, fs.dirname(found.path), InheritedExtensions(ref, d)) == inherited
    requires DefaultsDeep(acc.GetOr(map[]), file) == merged
    ensures var f := Fold(fs, refs, inherited, FoldState(merged, Outer, seen));
      Load(fs, acc, ref, d, visited) == Outcome(Some(f.state.outer - {"extends"}), f.state.visited, [Import(found.path)] + f.effects)
  {
    LoadExtendingStep(fs, acc, ref, d, visited, found, Obj(file));
  }

  /** How the caller asks for `a`: stem `a`, from `/`, no extension table. */
  const Top: Defaults := Defaults(Some("a"), "/", None)

  /** What the `extends` entries of any file in `/cfg` are resolved with. */
  const FromCfg: Defaults := Defaults(None, "/cfg", None)

  // ---------------------------------------------------------------------------
  // a = {x: 1, extends: "b"}, b = {x: 2, y: 2}

  const ChainA: Fields := map["x" := Num(1), "extends" := Str("b")]
  const ChainB: Fields := map["x" := Num(2), "y" := Num(2)]
  const ChainAB: Fields := map["x" := Num(1), "extends" := Str("b"), "y" := Num(2)]

  function ChainDisk(): FileSystem {
    Disk(map[A := Exports(Obj(ChainA)), B := Exports(Obj(ChainB))])
  }

  lemma ChainLoadsB()
    ensures Load(ChainDisk(), Some(ChainA), Str("b"), FromCfg, {A}) == Outcome(Some(ChainAB), {A, B}, [Import(B)])
  {
    assert DefaultsDeep(ChainA, ChainB) == ChainAB;
    assert {A} + {B} == {A, B};
  }

  lemma ChainFoldsB()
    ensures Fold(ChainDisk(), [Str("b")], FromCfg, FoldState(ChainA, Outer, {A}))
         == Folded(FoldState(ChainAB, Outer, {A, B}), [Import(B)])
  {
    ChainLoadsB();
    var next := FoldState(ChainAB, Outer, {A, B});
    assert [Str("b")][1..] == [];
    assert Fold(ChainDisk(), [], FromCfg, next) == Folded(next, []);
  }

  /** `b` is found from `a`'s directory, `a`'s own `x` wins, and `extends` is gone. */
  lemma ChainScenario()
    ensures Load(ChainDisk(), Some(map[]), Str("a"), Top, {})
         == Outcome(Some(map["x" := Num(1), "y" := Num(2)]), {A, B}, [Import(A), Import(B)])
  {
    DefaultsDeepUnits(ChainA);
    ChainFoldsB();
    LoadExtending(ChainDisk(), Some(map[]), Str("a"), Top, {}, Found(A, Str(".json")), ChainA, [Str("b")], FromCfg, ChainA, {A});
    assert ChainAB - {"extends"} == map["x" := Num(1), "y" := Num(2)];
  }

  // ---------------------------------------------------------------------------
  // a = {extends: "b"}, b = {extends: "a", y: 2}

  const CycleA: Fields := map["extends" := Str("b")]
  const CycleB: Fields := map["extends" := Str("a"), "y" := Num(2)]
  const CycleAB: Fields := map["extends" := Str("b"), "y" := Num(2)]

  function CycleDisk(): FileSystem {
    Disk(map[A := Exports(Obj(CycleA)), B := Exports(Obj(CycleB))])
  }

  /** Reaching `a` again from `b`: already visited, nothing happens. */
  lemma CycleFoldsA()
    ensures Fold(CycleDisk(), [Str("a")], FromCfg, FoldState(CycleAB, Outer, {A, B}))
         == Folded(FoldState(CycleAB, Outer, {A, B}), [])
  {
    var back := FoldState(CycleAB, Outer, {A, B});
    assert Load(CycleDisk(), Some(CycleAB), Str("a"), FromCfg, {A, B}) == Outcome(Some(CycleAB), {A, B}, []);
    assert [Str("a")][1..] == [];
    assert Fold(CycleDisk(), [], FromCfg, back) == Folded(back, []);
  }

  lemma CycleLoadsB()
    ensures Load(CycleDisk(), Some(CycleA), Str("b"), FromCfg, {A}) == Outcome(Some(map["y" := Num(2)]), {A, B}, [Import(B)])
  {
    assert DefaultsDeep(CycleA, CycleB) == CycleAB;
    CycleFoldsA();
    LoadExtending(CycleDisk(), Some(CycleA), Str("b"), FromCfg, {A}, Found(B, Str(".json")), CycleB, [Str("a")], FromCfg, CycleAB, {A, B});
    assert CycleAB - {"extends"} == map["y" := Num(2)];
  }

  lemma CycleFoldsB()
    ensures Fold(CycleDisk(), [Str("b")], FromCfg, FoldState(CycleA, Outer, {A}))
         == Folded(FoldState(map["y" := Num(2)], Outer, {A, B}), [Import(B)])
  {
    CycleLoadsB();
    var next := FoldState(map["y" := Num(2)], Outer, {A, B});
    assert [Str("b")][1..] == [];
    assert Fold(CycleDisk(), [], FromCfg, next) == Folded(next, []);
  }

  /** The cycle is cut at the second visit of `a`; each file is imported once and no `extends` survives. */
  lemma CycleScenario()
    ensures Load(CycleDisk(), Some(map[]), Str("a"), Top, {})
         == Outcome(Some(map["y" := Num(2)]), {A, B}, [Import(A), Import(B)])
  {
    DefaultsDeepUnits(CycleA);
    CycleFoldsB();
    LoadExtending(CycleDisk(), Some(map[]), Str("a"), Top, {}, Found(A, Str(".json")), CycleA, [Str("b")], FromCfg, CycleA, {A});
    assert map["y" := Num(2)] - {"extends"} == map["y" := Num(2)];
  }

  // ---------------------------------------------------------------------------
  // a = {x: 1, extends: ["b", "c"]}, importing b throws, c = {z: 3}

  const DetachedA: Fields := map["x" := Num(1), "extends" := Arr([Str("b"), Str("c")])]
  const DetachedC: Fields := map["z" := Num(3)]

  function DetachedDisk(): FileSystem {
    Disk(map[A := Exports(Obj(DetachedA)), B := Throws, C := Exports(Obj(DetachedC))])
  }

  lemma DetachedLoadsC()
    ensures Load(DetachedDisk(), None, Str("c"), FromCfg, {A, B}) == Outcome(Some(DetachedC), {A, B, C}, [Import(C)])
  {
    DefaultsDeepUnits(DetachedC);
    assert {A, B} + {C} == {A, B, C};
  }

  lemma DetachedFoldsC()
    ensures Fold(DetachedDisk(), [Str("c")], FromCfg, FoldState(DetachedA, Detached(None), {A, B}))
         == Folded(FoldState(DetachedA, Detached(Some(DetachedC)), {A, B, C}), [Import(C)])
  {
    DetachedLoadsC();
    var last := FoldState(DetachedA, Detached(Some(DetachedC)), {A, B, C});
    assert [Str("c")][1..] == [];
    assert Fold(DetachedDisk(), [], FromCfg, last) == Folded(last, []);
  }

  lemma DetachedFoldsBC()
    ensures Fold(DetachedDisk(), [Str("b"), Str("c")], FromCfg, FoldState(DetachedA, Outer, {A}))
         == Folded(FoldState(DetachedA, Detached(Some(DetachedC)), {A, B, C}), [Import(B), Import(C)])
  {
    assert Load(DetachedDisk(), Some(DetachedA), Str("b"), FromCfg, {A}) == Outcome(None, {A, B}, [Import(B)]) by {
      assert {A} + {B} == {A, B};
    }
    assert [Str("b"), Str("c")][1..] == [Str("c")];
    DetachedFoldsC();
  }

  /**
    Importing `b` fails, so the `reduce` goes on with `undefined`: `c` is
    imported and merged into a fresh object that nobody keeps, and none of
    its keys reach the result.
   */
  lemma DetachedAfterFailureScenario()
    ensures var out := Load(DetachedDisk(), Some(map[]), Str("a"), Top, {});
      && out.result == Some(map["x" := Num(1)])
      && out.effects == [Import(A), Import(B), Import(C)]
  {
    DefaultsDeepUnits(DetachedA);
    DetachedFoldsBC();
    LoadExtending(DetachedDisk(), Some(map[]), Str("a"), Top, {}, Found(A, Str(".json")), DetachedA, [Str("b"), Str("c")], FromCfg, DetachedA, {A});
    assert [Import(A)] + [Import(B), Import(C)] == [Import(A), Import(B), Import(C)];
    assert DetachedA - {"extends"} == map["x" := Num(1)];
  }
}
