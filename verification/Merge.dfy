/** Layering settings trees: the recursive merge against the defaults (src/settings.rs). */
module Merge {
  import opened Wrappers
  import opened Json

  /** A missing default counts as null. */
  function Default(d: map<string, Json>, key: string): Json { if key in d then d[key] else Null }

  function MergeNonDefault(t: Json, o: Json, d: Json): Json
    decreases o
  {
    if t.Obj? && o.Obj? && d.Obj? then
      Obj(map k | k in t.fields.Keys + o.fields.Keys && (k in t.fields || o.fields[k] != Default(d.fields, k)) ::
        if k !in t.fields then o.fields[k]
        else if k in o.fields then MergeNonDefault(t.fields[k], o.fields[k], Default(d.fields, k))
        else t.fields[k])
    else if o != d then o
    else t
  }

  /** One key of a merge of objects. */
  function MergedField(t: Option<Json>, o: Option<Json>, d: Json): Option<Json> {
    match (t, o)
    case (_, None) => t
    case (None, Some(w)) => if w != d then o else None
    case (Some(v), Some(w)) => Some(MergeNonDefault(v, w, d))
  }

  lemma FieldOfMerge(t: Json, o: Json, d: Json, k: string)
    requires t.Obj? && o.Obj? && d.Obj?
    ensures Field(MergeNonDefault(t, o, d).fields, k)
         == MergedField(Field(t.fields, k), Field(o.fields, k), Default(d.fields, k))
  {
  }

  // ----- Laws on every tree -----

  /** Merging the defaults changes nothing. */
  lemma {:induction false} MergeDefaults(t: Json, d: Json)
    ensures MergeNonDefault(t, d, d) == t
    decreases d
  {
    if t.Obj? && d.Obj? {
      forall k | k in t.fields && k in d.fields
        ensures MergeNonDefault(t.fields[k], d.fields[k], d.fields[k]) == t.fields[k]
      {
        MergeDefaults(t.fields[k], d.fields[k]);
      }
      assert MergeNonDefault(t, d, d).fields == t.fields;
    }
  }

  lemma {:induction false} MergeSelf(t: Json, d: Json)
    ensures MergeNonDefault(t, t, d) == t
    decreases t
  {
    if t.Obj? && d.Obj? {
      forall k | k in t.fields
        ensures MergeNonDefault(t.fields[k], t.fields[k], Default(d.fields, k)) == t.fields[k]
      {
        MergeSelf(t.fields[k], Default(d.fields, k));
      }
      assert MergeNonDefault(t, t, d).fields == t.fields;
    }
  }

  lemma {:induction false} MergeIdempotent(t: Json, o: Json, d: Json)
    ensures MergeNonDefault(MergeNonDefault(t, o, d), o, d) == MergeNonDefault(t, o, d)
    decreases o
  {
    var m := MergeNonDefault(t, o, d);
    if t.Obj? && o.Obj? && d.Obj? {
      forall k | k in m.fields && k in o.fields
        ensures MergeNonDefault(m.fields[k], o.fields[k], Default(d.fields, k)) == m.fields[k]
      {
        if k in t.fields {
          MergeIdempotent(t.fields[k], o.fields[k], Default(d.fields, k));
        } else {
          MergeSelf(o.fields[k], Default(d.fields, k));
        }
      }
      assert MergeNonDefault(m, o, d).fields == m.fields;
    } else if o != d {
      MergeSelf(o, d);
    }
  }

  /** A value that was set never falls back to the default. */
  lemma {:induction false} SetStaysSet(t: Json, o: Json, d: Json)
    requires t != d
    ensures MergeNonDefault(t, o, d) != d
    decreases o
  {
    if t.Obj? && o.Obj? && d.Obj? {
      var m := MergeNonDefault(t, o, d);
      if k :| k in t.fields && Default(d.fields, k) != t.fields[k] {
        if k in o.fields {
          SetStaysSet(t.fields[k], o.fields[k], Default(d.fields, k));
        }
        assert k in m.fields && m.fields[k] != Default(d.fields, k);
      } else if k :| k in t.fields && k !in d.fields {
        assert k in m.fields;
      } else {
        var k := KeyMissing(t.fields, d.fields);
        assert k in m.fields ==> m.fields[k] == o.fields[k] != d.fields[k];
      }
    }
  }

  lemma KeyMissing(t: map<string, Json>, d: map<string, Json>) returns (k: string)
    requires forall j :: j in t ==> j in d && t[j] == d[j]
    ensures t == d || (k in d && k !in t)
  {
    if j :| j in d && j !in t {
      k := j;
    } else {
      assert t.Keys == d.Keys;
      k := "";
    }
  }

  // ----- Left identity, exactly -----

  /** Nothing of the defaults is missing, and nothing beside them is null. */
  predicate Covers(o: Json, d: Json)
    decreases o
  {
    o.Obj? && d.Obj? ==>
      && d.fields.Keys <= o.fields.Keys
      && forall k :: k in o.fields ==>
           if k in d.fields then Covers(o.fields[k], d.fields[k]) else o.fields[k] != Null
  }

  lemma {:induction false} DefaultsAreLeftIdentity(o: Json, d: Json)
    ensures MergeNonDefault(d, o, d) == o <==> Covers(o, d)
    decreases o
  {
    if o.Obj? && d.Obj? {
      var m := MergeNonDefault(d, o, d);
      forall k | k in o.fields && k in d.fields
        ensures MergeNonDefault(d.fields[k], o.fields[k], d.fields[k]) == o.fields[k] <==> Covers(o.fields[k], d.fields[k])
      {
        DefaultsAreLeftIdentity(o.fields[k], d.fields[k]);
      }
      if m == o {
        forall k | k in o.fields
          ensures if k in d.fields then Covers(o.fields[k], d.fields[k]) else o.fields[k] != Null
        {
          assert k in m.fields && m.fields[k] == o.fields[k];
        }
        forall k | k in d.fields
          ensures k in o.fields
        {
          assert k in m.fields;
        }
      }
      if Covers(o, d) {
        assert m.fields == o.fields;
      }
    }
  }

  // ----- Trees of the settings' shape -----

  /** An object wherever the defaults have one, with at least their keys. */
  predicate Conforms(x: Json, d: Json)
    decreases d
  {
    d.Obj? ==> x.Obj? && d.fields.Keys <= x.fields.Keys
               && forall k :: k in d.fields ==> Conforms(x.fields[k], d.fields[k])
  }

  lemma {:induction false} MergeConforms(t: Json, o: Json, d: Json)
    requires Conforms(t, d) && Conforms(o, d)
    ensures Conforms(MergeNonDefault(t, o, d), d)
    decreases d
  {
    if d.Obj? {
      forall k | k in d.fields
        ensures Conforms(MergeNonDefault(t, o, d).fields[k], d.fields[k])
      {
        MergeConforms(t.fields[k], o.fields[k], d.fields[k]);
      }
    }
  }

  lemma {:induction false} MergeAssociative(a: Json, b: Json, c: Json, d: Json)
    requires Conforms(a, d) && Conforms(b, d) && Conforms(c, d)
    ensures MergeNonDefault(MergeNonDefault(a, b, d), c, d) == MergeNonDefault(a, MergeNonDefault(b, c, d), d)
    decreases d
  {
    if d.Obj? {
      var l := MergeNonDefault(MergeNonDefault(a, b, d), c, d);
      var r := MergeNonDefault(a, MergeNonDefault(b, c, d), d);
      forall k
        ensures Field(l.fields, k) == Field(r.fields, k)
      {
        FieldOfMerge(a, b, d, k);
        FieldOfMerge(b, c, d, k);
        FieldOfMerge(MergeNonDefault(a, b, d), c, d, k);
        FieldOfMerge(a, MergeNonDefault(b, c, d), d, k);
        if k in d.fields {
          MergeAssociative(a.fields[k], b.fields[k], c.fields[k], d.fields[k]);
        }
      }
      EqualFields(l.fields, r.fields);
    }
  }

  // ----- Priority of the layers -----

  /** A position where the defaults have a leaf, or nothing below their objects. */
  predicate IsSlot(d: Json, path: seq<string>)
    decreases |path|
  {
    if !d.Obj? then path == []
    else if path == [] then false
    else if path[0] in d.fields then IsSlot(d.fields[path[0]], path[1..])
    else |path| == 1
  }

  /** The defaults have their own shape, and each of their leaves is a slot. */
  lemma {:induction false} DefaultsConform(d: Json)
    ensures Conforms(d, d)
    decreases d
  {
    if d.Obj? {
      forall k | k in d.fields
        ensures Conforms(d.fields[k], d.fields[k])
      {
        DefaultsConform(d.fields[k]);
      }
    }
  }

  lemma {:induction false} LeavesAreSlots(d: Json, path: seq<string>)
    requires At(d, path).Some? && !At(d, path).value.Obj?
    ensures IsSlot(d, path)
    decreases |path|
  {
    if d.Obj? {
      LeavesAreSlots(d.fields[path[0]], path[1..]);
    }
  }

  function DefaultAt(d: Json, path: seq<string>): Json {
    match At(d, path) case Some(v) => v case None => Null
  }

  /** What a layer sets at a position: a value other than the default. */
  function SetAt(x: Json, path: seq<string>, d: Json): Option<Json> {
    match At(x, path)
    case Some(v) => if v != DefaultAt(d, path) then Some(v) else None
    case None => None
  }

  function OrElse(a: Option<Json>, b: Option<Json>): Option<Json> { if a.Some? then a else b }

  lemma AtKey(x: Json, k: string)
    requires x.Obj?
    ensures At(x, [k]) == Field(x.fields, k)
  {
    assert [k][1..] == [];
  }

  lemma {:induction false} MergePrefersOther(t: Json, o: Json, d: Json, path: seq<string>)
    requires Conforms(t, d) && Conforms(o, d) && IsSlot(d, path)
    ensures SetAt(MergeNonDefault(t, o, d), path, d) == OrElse(SetAt(o, path, d), SetAt(t, path, d))
    decreases d
  {
    if d.Obj? {
      var k := path[0];
      FieldOfMerge(t, o, d, k);
      if k in d.fields {
        MergePrefersOther(t.fields[k], o.fields[k], d.fields[k], path[1..]);
      } else {
        AtKey(t, k);
        AtKey(o, k);
        AtKey(d, k);
        AtKey(MergeNonDefault(t, o, d), k);
        assert path == [k];
      }
    }
  }

  /** Said outright: a position the overlay sets takes its value, and any other keeps the base's unless that is the default. */
  lemma OverlayWins(t: Json, o: Json, d: Json, path: seq<string>)
    requires Conforms(t, d) && Conforms(o, d) && IsSlot(d, path)
    ensures var m, default := MergeNonDefault(t, o, d), if At(d, path).Some? then At(d, path) else Some(Null);
            && (At(o, path).Some? && At(o, path) != default ==> At(m, path) == At(o, path))
            && (At(o, path).None? || At(o, path) == default ==>
                  At(m, path) == At(t, path) || (At(m, path) in {None, default} && At(t, path) in {None, default}))
  {
    MergePrefersOther(t, o, d, path);
  }

  /** Load the stored settings, then apply the fresh choices again: fresh, then stored, then default. */
  lemma FreshThenStored(choices: Json, stored: Json, d: Json, path: seq<string>)
    requires Conforms(choices, d) && Conforms(stored, d) && IsSlot(d, path)
    ensures var m := MergeNonDefault(MergeNonDefault(choices, stored, d), choices, d);
            SetAt(m, path, d) == OrElse(SetAt(choices, path, d), SetAt(stored, path, d))
  {
    MergeConforms(choices, stored, d);
    MergePrefersOther(choices, stored, d, path);
    MergePrefersOther(MergeNonDefault(choices, stored, d), choices, d, path);
  }

  /** Where the defaults have a leaf every layered tree has a value, so nothing set means the default. */
  lemma {:induction false} NothingSetIsDefault(x: Json, d: Json, path: seq<string>)
    requires Conforms(x, d) && IsSlot(d, path) && At(d, path).Some?
    ensures At(x, path) == Some(match SetAt(x, path, d) case Some(v) => v case None => DefaultAt(d, path))
    decreases d
  {
    if d.Obj? {
      NothingSetIsDefault(x.fields[path[0]], d.fields[path[0]], path[1..]);
    }
  }

  /** The keys of `other` outside `left` are merged, all others are as they were. */
  ghost predicate MergedExcept(m: map<string, Json>, t: map<string, Json>, o: map<string, Json>, d: map<string, Json>, left: set<string>) {
    forall k :: Field(m, k) == if k in left then Field(t, k) else MergedField(Field(t, k), Field(o, k), Default(d, k))
  }

  /** The merge in place, key by key in any order. */
  method MergeInto(target: Json, other: Json, defaults: Json) returns (merged: Json)
    ensures merged == MergeNonDefault(target, other, defaults)
    decreases other
  {
    if target.Obj? && other.Obj? && defaults.Obj? {
      var fields := target.fields;
      var left := other.fields.Keys;
      while left != {}
        invariant left <= other.fields.Keys
        invariant MergedExcept(fields, target.fields, other.fields, defaults.fields, left)
        decreases left
      {
        var key :| key in left;
        left := left - {key};
        assert Field(fields, key) == Field(target.fields, key);
        var default := Default(defaults.fields, key);
        if key in fields {
          var v := MergeInto(fields[key], other.fields[key], default);
          fields := fields[key := v];
        } else if other.fields[key] != default {
          fields := fields[key := other.fields[key]];
        }
      }
      forall k
        ensures Field(fields, k) == Field(MergeNonDefault(target, other, defaults).fields, k)
      {
        FieldOfMerge(target, other, defaults, k);
      }
      EqualFields(fields, MergeNonDefault(target, other, defaults).fields);
      merged := Obj(fields);
    } else if other != defaults {
      merged := other;
    } else {
      merged := target;
    }
  }
}
