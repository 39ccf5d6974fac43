/**
  The deep merge used by the config loader (`@fav/prop.defaults-deep`).
  The library is not part of this model; the definition below follows the
  behaviour the loader's tests observe: a key already present in the
  destination wins, a key missing from it is copied from the source, and when
  both sides hold plain objects they are merged key by key.
 */
module DeepMerge {
  import opened Values

  /** `w` keeps every leaf of `v`: plain objects may gain keys, nothing else changes. */
  predicate Kept(v: Value, w: Value)
    decreases v
  {
    if v.Obj? then
      w.Obj? && forall k :: k in v.fields ==> k in w.fields && Kept(v.fields[k], w.fields[k])
    else
      w == v
  }

  /** Every key path of `v` also exists in `w` (values may differ where `w` had its own). */
  predicate Covers(v: Value, w: Value)
    decreases v
  {
    v.Obj? && w.Obj? ==>
      forall k :: k in v.fields ==> k in w.fields && Covers(v.fields[k], w.fields[k])
  }

  /** `defaultsDeep(dest, src)` on the property maps of two plain objects. */
  function DefaultsDeep(dest: Fields, src: Fields): (r: Fields)
    decreases Obj(src)
    ensures r.Keys == dest.Keys + src.Keys
  {
    map k | k in dest.Keys + src.Keys ::
      if k !in dest then src[k]
      else if k in src && dest[k].Obj? && src[k].Obj? then Obj(DefaultsDeep(dest[k].fields, src[k].fields))
      else dest[k]
  }

  /**
    The destination's leaves all survive, every key path of the source is
    present afterwards, an absent key takes the source's value, and a present
    key keeps its value unless both sides hold plain objects.
   */
  lemma {:induction false} DefaultsDeepPrecedence(dest: Fields, src: Fields)
    decreases Obj(src)
    ensures var r := DefaultsDeep(dest, src);
      && Kept(Obj(dest), Obj(r))
      && Covers(Obj(src), Obj(r))
      && (forall k :: k in src && k !in dest ==> r[k] == src[k])
      && (forall k :: k in dest && !(k in src && dest[k].Obj? && src[k].Obj?) ==> r[k] == dest[k])
  {
    var r := DefaultsDeep(dest, src);
    forall k | k in dest
      ensures Kept(dest[k], r[k])
    {
      if k in src && dest[k].Obj? && src[k].Obj? {
        DefaultsDeepPrecedence(dest[k].fields, src[k].fields);
      } else {
        KeptReflexive(dest[k]);
      }
    }
    forall k | k in src
      ensures Covers(src[k], r[k])
    {
      if k in dest && dest[k].Obj? && src[k].Obj? {
        DefaultsDeepPrecedence(dest[k].fields, src[k].fields);
      } else if k !in dest {
        CoversReflexive(src[k]);
      }
    }
  }

  lemma {:induction false} KeptReflexive(v: Value)
    decreases v
    ensures Kept(v, v)
  {
    if v.Obj? {
      forall k | k in v.fields
        ensures Kept(v.fields[k], v.fields[k])
      {
        KeptReflexive(v.fields[k]);
      }
    }
  }

  lemma {:induction false} KeptTransitive(u: Value, v: Value, w: Value)
    requires Kept(u, v) && Kept(v, w)
    decreases u
    ensures Kept(u, w)
  {
    if u.Obj? {
      forall k | k in u.fields
        ensures k in w.fields && Kept(u.fields[k], w.fields[k])
      {
        KeptTransitive(u.fields[k], v.fields[k], w.fields[k]);
      }
    }
  }

  lemma {:induction false} CoversReflexive(v: Value)
    decreases v
    ensures Covers(v, v)
  {
    if v.Obj? {
      forall k | k in v.fields
        ensures Covers(v.fields[k], v.fields[k])
      {
        CoversReflexive(v.fields[k]);
      }
    }
  }

  lemma KeptReflexiveAll(f: Fields)
    ensures forall k :: k in f ==> Kept(f[k], f[k])
  {
    forall k | k in f
      ensures Kept(f[k], f[k])
    {
      KeptReflexive(f[k]);
    }
  }

  /** Merging a file into itself yields the file. */
  lemma {:induction false} DefaultsDeepSelf(f: Fields)
    decreases Obj(f)
    ensures DefaultsDeep(f, f) == f
  {
    var r := DefaultsDeep(f, f);
    forall k | k in r.Keys
      ensures r[k] == f[k]
    {
      if f[k].Obj? {
        DefaultsDeepSelf(f[k].fields);
      }
    }
  }

  /** Merging an empty source, or into an empty destination, is the identity. */
  lemma {:induction false} DefaultsDeepUnits(f: Fields)
    ensures DefaultsDeep(f, map[]) == f
    ensures DefaultsDeep(map[], f) == f
  {
    assert DefaultsDeep(f, map[]).Keys == f.Keys;
    assert DefaultsDeep(map[], f).Keys == f.Keys;
  }

  /** Merging the same file a second time changes nothing. */
  lemma {:induction false} DefaultsDeepIdempotent(dest: Fields, src: Fields)
    decreases Obj(src)
    ensures DefaultsDeep(DefaultsDeep(dest, src), src) == DefaultsDeep(dest, src)
  {
    var once := DefaultsDeep(dest, src);
    var twice := DefaultsDeep(once, src);
    forall k | k in twice.Keys
      ensures twice[k] == once[k]
    {
      if k in dest && k in src && dest[k].Obj? && src[k].Obj? {
        DefaultsDeepIdempotent(dest[k].fields, src[k].fields);
      } else if k !in dest && src[k].Obj? {
        DefaultsDeepSelf(src[k].fields);
      }
    }
  }

  /** test/lib/load_extendable_file.js, "should not override props in config". */
  lemma ExistingPropsWin()
    ensures
      var config := map["c1" := Str("A"), "c2" := Obj(map["c3" := Num(456)])];
      var file := map["c1" := Str("C1"), "c2" := Obj(map["c3" := Num(123), "c4" := Str("C4")])];
      DefaultsDeep(config, file) == map["c1" := Str("A"), "c2" := Obj(map["c3" := Num(456), "c4" := Str("C4")])]
  {
    var inner := DefaultsDeep(map["c3" := Num(456)], map["c3" := Num(123), "c4" := Str("C4")]);
    assert inner == map["c3" := Num(456), "c4" := Str("C4")];
  }
}
