/** The settings object: stored as a flat map, layered, and set path by path (src/settings.rs). */
module Settings {
  import opened Wrappers
  import opened Json
  import opened Paths
  import opened SettingsTree
  import opened SettingsRoundTrip
  import opened SettingsLaws
  import Merge

  function Texts(ps: set<Path>): set<string> { set p | p in ps :: PathText(p) }

  /** One of the leaves at these paths has the text and the value. */
  ghost predicate LeafValueIn(x: Json, path: Path, ps: set<Path>, text: string, v: Json) {
    exists p :: p in ps && PathText(p) == text && |path| <= |p| && At(x, p[|path|..]) == Some(v)
  }

  /** `r` is `results` with the leaves of `x` at the paths `ps` put in. */
  ghost predicate Collected(r: map<string, Json>, results: map<string, Json>, x: Json, path: Path, ps: set<Path>) {
    && r.Keys == results.Keys + Texts(ps)
    && (forall s :: s in Texts(ps) ==> LeafValueIn(x, path, ps, s, r[s]))
    && (forall s :: s in results && s !in Texts(ps) ==> r[s] == results[s])
  }

  function LeavesOf(x: Json, path: Path, keys: set<string>): set<Path>
    requires x.Obj? && keys <= x.fields.Keys
  {
    set k, p | k in keys && p in LeafPaths(x.fields[k], path + [k]) :: p
  }

  lemma ChildLeaf(x: Json, path: Path, k: string, p: Path)
    requires x.Obj? && k in x.fields && p in LeafPaths(x.fields[k], path + [k])
    ensures |path| < |p| && At(x, p[|path|..]) == At(x.fields[k], p[|path| + 1..])
  {
    LeafPathsExtend(x.fields[k], path + [k], p);
    LongerPrefix(path, k, p);
    assert p[|path|..][1..] == p[|path| + 1..];
  }

  lemma TextsUnion(a: set<Path>, b: set<Path>)
    ensures Texts(a + b) == Texts(a) + Texts(b)
  {
  }

  lemma LeavesSnoc(x: Json, path: Path, keys: set<string>, k: string)
    requires x.Obj? && keys <= x.fields.Keys && k in x.fields
    ensures LeavesOf(x, path, keys + {k}) == LeavesOf(x, path, keys) + LeafPaths(x.fields[k], path + [k])
  {
  }

  /** The leaves of a child, as leaves of the parent. */
  lemma AsParent(r: map<string, Json>, results: map<string, Json>, x: Json, path: Path, k: string)
    requires x.Obj? && k in x.fields
    requires Collected(r, results, x.fields[k], path + [k], LeafPaths(x.fields[k], path + [k]))
    ensures Collected(r, results, x, path, LeafPaths(x.fields[k], path + [k]))
  {
    var b := LeafPaths(x.fields[k], path + [k]);
    forall s | s in Texts(b)
      ensures LeafValueIn(x, path, b, s, r[s])
    {
      assert LeafValueIn(x.fields[k], path + [k], b, s, r[s]);
      var p :| p in b && PathText(p) == s && |path + [k]| <= |p| && At(x.fields[k], p[|path + [k]|..]) == Some(r[s]);
      ChildLeaf(x, path, k, p);
    }
  }

  lemma CollectBoth(r': map<string, Json>, r: map<string, Json>, results: map<string, Json>, x: Json, path: Path,
                    a: set<Path>, b: set<Path>)
    requires Collected(r, results, x, path, a) && Collected(r', r, x, path, b)
    ensures Collected(r', results, x, path, a + b)
  {
    TextsUnion(a, b);
    forall s | s in Texts(a + b)
      ensures LeafValueIn(x, path, a + b, s, r'[s])
    {
      if s in Texts(b) {
        assert LeafValueIn(x, path, b, s, r'[s]);
      } else {
        assert LeafValueIn(x, path, a, s, r[s]);
      }
    }
  }

  /** Collecting one child more. */
  lemma CollectChild(r': map<string, Json>, r: map<string, Json>, results: map<string, Json>, x: Json, path: Path,
                     keys: set<string>, k: string)
    requires x.Obj? && keys <= x.fields.Keys && k in x.fields
    requires Collected(r, results, x, path, LeavesOf(x, path, keys))
    requires Collected(r', r, x.fields[k], path + [k], LeafPaths(x.fields[k], path + [k]))
    ensures Collected(r', results, x, path, LeavesOf(x, path, keys + {k}))
  {
    LeavesSnoc(x, path, keys, k);
    AsParent(r', r, x, path, k);
    CollectBoth(r', r, results, x, path, LeavesOf(x, path, keys), LeafPaths(x.fields[k], path + [k]));
  }

  /** The flattening in place, object by object, key by key in any order; a later leaf overwrites one of its text. */
  method CollectSettings(value: Json, prefix: string, ghost path: Path, results: map<string, Json>)
      returns (r: map<string, Json>)
    requires prefix == PathText(path)
    ensures Collected(r, results, value, path, LeafPaths(value, path))
    decreases value
  {
    if !value.Obj? {
      LeafCollected(value, path, results);
      return results[prefix := value];
    }
    r := results;
    ghost var done: set<string> := {};
    NothingCollected(value, path, results);
    var left := value.fields.Keys;
    while left != {}
      invariant done !! left && done + left == value.fields.Keys
      invariant Collected(r, results, value, path, LeavesOf(value, path, done))
      decreases left
    {
      var key :| key in left;
      PathTextSnoc(path, key);
      var next := CollectSettings(value.fields[key], Extend(prefix, key), path + [key], r);
      CollectChild(next, r, results, value, path, done, key);
      r := next;
      left := left - {key};
      done := done + {key};
    }
    AllLeaves(value, path);
  }

  lemma LeafCollected(value: Json, path: Path, results: map<string, Json>)
    requires !value.Obj?
    ensures Collected(results[PathText(path) := value], results, value, path, LeafPaths(value, path))
  {
    assert path[|path|..] == [];
    assert path in LeafPaths(value, path);
  }

  lemma NothingCollected(value: Json, path: Path, results: map<string, Json>)
    requires value.Obj?
    ensures Collected(results, results, value, path, LeavesOf(value, path, {}))
  {
    assert LeavesOf(value, path, {}) == {};
  }

  lemma AllLeaves(value: Json, path: Path)
    requires value.Obj?
    ensures LeavesOf(value, path, value.fields.Keys) == LeafPaths(value, path)
  {
  }

  /** The source's walk: down to the parent of the last key, keeping the objects on the way. */
  method WalkToParent(tree: Json, parts: Path) returns (parents: seq<Json>, current: Json, found: bool)
    requires parts != []
    ensures found ==> |parents| == |parts| - 1 && At(tree, parts[..|parts| - 1]) == Some(current)
    ensures found ==> forall i :: 0 <= i < |parents| ==>
              At(tree, parts[..i]) == Some(parents[i]) && parents[i].Obj? && parts[i] in parents[i].fields
    ensures !found <==> At(tree, parts[..|parts| - 1]).None?
  {
    parents, current, found := [], tree, true;
    var i := 0;
    assert parts[..0] == [];
    while i < |parts| - 1
      invariant 0 <= i == |parents| <= |parts| - 1 && At(tree, parts[..i]) == Some(current)
      invariant forall j :: 0 <= j < i ==>
        At(tree, parts[..j]) == Some(parents[j]) && parents[j].Obj? && parts[j] in parents[j].fields
    {
      AtNext(tree, parts, i);
      if !current.Obj? || parts[i] !in current.fields {
        AtBeyond(tree, parts, i + 1, |parts| - 1);
        found := false;
        return;
      }
      parents := parents + [current];
      current := current.fields[parts[i]];
      i := i + 1;
    }
  }

  /** One part further down. */
  lemma {:induction false} AtNext(t: Json, parts: Path, i: nat)
    requires i < |parts| && At(t, parts[..i]).Some?
    ensures At(t, parts[..i + 1]) ==
            var v := At(t, parts[..i]).value;
            if v.Obj? && parts[i] in v.fields then Some(v.fields[parts[i]]) else None
    decreases i
  {
    if i > 0 {
      assert parts[..i][1..] == parts[1..][..i - 1] && parts[..i + 1][1..] == parts[1..][..i];
      AtNext(t.fields[parts[0]], parts[1..], i - 1);
    } else {
      assert parts[..1][1..] == [];
    }
  }

  /** Below nothing there is nothing. */
  lemma {:induction false} AtBeyond(t: Json, parts: Path, i: nat, n: nat)
    requires i <= n <= |parts| && At(t, parts[..i]).None?
    ensures At(t, parts[..n]).None?
    decreases i
  {
    if i > 0 && t.Obj? && parts[0] in t.fields {
      assert parts[..i][1..] == parts[1..][..i - 1] && parts[..n][1..] == parts[1..][..n - 1];
      AtBeyond(t.fields[parts[0]], parts[1..], i - 1, n - 1);
    }
  }

  /** The tree with the object at the parent replaced, rebuilt object by object on the way up. */
  function Replaced(t: Json, parts: Path, v: Json): Json
    decreases |parts|
  {
    if parts == [] || !t.Obj? || parts[0] !in t.fields then v
    else Obj(t.fields[parts[0] := Replaced(t.fields[parts[0]], parts[1..], v)])
  }

  /** What the walk and the insert amount to. */
  lemma {:induction false} SetPathByParent(c: Codec, t: Json, full: Path, parts: Path, text: string)
    requires parts != []
    ensures var front, key := parts[..|parts| - 1], parts[|parts| - 1];
            SetPath(c, t, full, parts, text) ==
            match At(t, front)
            case None => Err(PathNotFound)
            case Some(parent) =>
              if !parent.Obj? then Err(ParentNotObject)
              else match ReadNew(c, Field(parent.fields, key), text)
                   case Err(e) => Err(e)
                   case Ok(v) =>
                     match c.admit(full, v)
                     case Rejected => Err(NotApplied)
                     case Ignored => Ok(t)
                     case Kept(w) => Ok(Replaced(t, front, Obj(parent.fields[key := w])))
    decreases |parts|
  {
    var front := parts[..|parts| - 1];
    if |parts| > 1 && t.Obj? && parts[0] in t.fields {
      SetPathByParent(c, t.fields[parts[0]], full, parts[1..], text);
      assert front[1..] == parts[1..][..|parts[1..]| - 1];
      assert t.fields[parts[0] := t.fields[parts[0]]] == t.fields;
    }
  }

  /** The objects on the way back up, innermost first. */
  method Rebuild(tree: Json, parts: Path, parents: seq<Json>, changed: Json) returns (t: Json)
    requires |parents| == |parts| && At(tree, parts).Some?
    requires forall i :: 0 <= i < |parents| ==>
               At(tree, parts[..i]) == Some(parents[i]) && parents[i].Obj? && parts[i] in parents[i].fields
    ensures t == Replaced(tree, parts, changed)
  {
    t := changed;
    var i := |parts|;
    assert parts[..|parts|] == parts;
    while i > 0
      invariant 0 <= i <= |parts| && At(tree, parts[..i]).Some?
      invariant t == Replaced(At(tree, parts[..i]).value, parts[i..], changed)
    {
      i := i - 1;
      AtNext(tree, parts, i);
      assert parts[i..][1..] == parts[i + 1..];
      t := Obj(parents[i].fields[parts[i] := t]);
    }
    assert parts[0..] == parts && parts[..0] == [];
  }

  class Settings {
    const codec: Codec
    const defaults: Json
    var tree: Json

    constructor (codec: Codec, defaults: Json)
      ensures this.codec == codec && this.defaults == defaults && tree == defaults
    {
      this.codec := codec;
      this.defaults := defaults;
      tree := defaults;
    }

    method Get(path: string) returns (r: Option<string>)
      ensures r == match At(tree, Split(path)) case Some(v) => Some(ValueText(codec, v)) case None => None
    {
      var parts, current := Split(path), tree;
      var i := 0;
      while i < |parts|
        invariant 0 <= i <= |parts|
        invariant At(tree, parts) == At(current, parts[i..])
      {
        if !current.Obj? || parts[i] !in current.fields {
          return None;
        }
        current := current.fields[parts[i]];
        i := i + 1;
      }
      return Some(ValueText(codec, current));
    }

    /** Walk to the parent, read the text by the value it replaces, insert, deserialise. */
    method Set(path: string, text: string) returns (r: Result<(), SetError>)
      modifies this
      ensures tree == Put(codec, old(tree), Split(path), Split(path), text)
      ensures r.Ok? <==> SetPath(codec, old(tree), Split(path), Split(path), text).Ok?
      ensures r.Err? ==> tree == old(tree) && Err(r.error) == SetPath(codec, old(tree), Split(path), Split(path), text)
      ensures r.Ok? ==>
                var read := ReadNew(codec, At(old(tree), Split(path)), text);
                && read.Ok?
                && match codec.admit(Split(path), read.value)
                   case Kept(w) => At(tree, Split(path)) == Some(w)
                   case Ignored => tree == old(tree)
                   case Rejected => false
      ensures forall q :: !IsPrefix(Split(path), q) && !IsPrefix(q, Split(path)) ==> At(tree, q) == At(old(tree), q)
      ensures var parts := Split(path);
              var parent := At(old(tree), parts[..|parts| - 1]);
              && (r == Err(PathNotFound) <==> parent.None?)
              && (r == Err(ParentNotObject) <==> parent.Some? && !parent.value.Obj?)
              && (r == Err(BadValue) <==> Unreadable(codec, At(old(tree), parts), text))
    {
      var parts := Split(path);
      SetPathByParent(codec, tree, parts, parts, text);
      SetMeans(codec, tree, parts, text);
      SetFails(codec, tree, parts, text);
      var parents, parent, found := WalkToParent(tree, parts);
      if !found {
        return Err(PathNotFound);
      }
      if !parent.Obj? {
        return Err(ParentNotObject);
      }
      var finalKey := parts[|parts| - 1];
      var read := ReadNew(codec, Field(parent.fields, finalKey), text);
      if read.Err? {
        return Err(read.error);
      }
      match codec.admit(parts, read.value) {
        case Rejected => r := Err(NotApplied);
        case Ignored => r := Ok(());
        case Kept(w) =>
          FrontOfFront(tree, parts, parents);
          tree := Rebuild(tree, parts[..|parts| - 1], parents, Obj(parent.fields[finalKey := w]));
          r := Ok(());
      }
    }

    method MergeFrom(other: Json)
      modifies this
      ensures tree == Merge.MergeNonDefault(old(tree), other, defaults)
      ensures tree == Merge.MergeNonDefault(tree, other, defaults)
      ensures other == defaults ==> tree == old(tree)
    {
      Merge.MergeIdempotent(tree, other, defaults);
      Merge.MergeDefaults(tree, defaults);
      tree := Merge.MergeInto(tree, other, defaults);
    }

    method ToDbMap() returns (m: map<string, Json>)
      ensures Flattens(m, tree)
    {
      m := CollectSettings(tree, "", [], map[]);
      forall s | s in m
        ensures IsLeafValue(tree, s, m[s])
      {
        assert LeafValueIn(tree, [], LeafPaths(tree, []), s, m[s]);
        var p :| p in LeafPaths(tree, []) && PathText(p) == s && At(tree, p[0..]) == Some(m[s]);
        assert p[0..] == p;
      }
    }

    /** Start from the defaults and apply the stored entries in whatever order the map gives them. */
    method FromDbMap(m: map<string, Json>) returns (ghost order: seq<string>)
      modifies this
      ensures IsOrder(order, m.Keys) && Members(order) == m.Keys
      ensures tree == ApplyAll(codec, defaults, m, order)
    {
      tree := defaults;
      order := [];
      var left := m.Keys;
      while left != {}
        invariant left <= m.Keys && IsOrder(order, m.Keys) && Members(order) == m.Keys - left
        invariant tree == ApplyAll(codec, defaults, m, order)
        decreases left
      {
        var key :| key in left;
        left := left - {key};
        if m[key] != Null {
          var _ := Set(key, ValueText(codec, m[key]));
        }
        MembersSnoc(order, key);
        assert (order + [key])[..|order|] == order;
        order := order + [key];
      }
    }

    /** Saving and loading gives back the tree exactly when no key holds a dot and it is rebuildable, in every order. */
    method SaveAndLoad()
      requires RootNamed(tree) && KeysDotFree(defaults)
      modifies this
      ensures tree == old(tree) <==> KeysDotFree(old(tree)) && Rebuildable(codec, Some(defaults), old(tree), [])
      ensures KeysDotFree(old(tree)) && HasShape(codec, Some(defaults), old(tree), []) ==> tree == old(tree)
    {
      var m := ToDbMap();
      ghost var order := FromDbMap(m);
      RebuildsIffRebuildable(codec, defaults, old(tree), m, order);
      if HasShape(codec, Some(defaults), old(tree), []) {
        ShapeIsRebuildable(codec, Some(defaults), old(tree), []);
      }
    }
  }

  lemma MembersSnoc(order: seq<string>, key: string)
    ensures Members(order + [key]) == Members(order) + {key}
  {
    var all := order + [key];
    assert all[|order|] == key;
    forall i | 0 <= i < |order|
      ensures order[i] in Members(all)
    {
      assert all[i] == order[i];
    }
  }

  /** What a set means to its caller. */
  lemma SetMeans(c: Codec, t: Json, parts: Path, text: string)
    requires parts != []
    ensures SetPath(c, t, parts, parts, text).Ok? ==>
              var t' := Put(c, t, parts, parts, text);
              var read := ReadNew(c, At(t, parts), text);
              && read.Ok?
              && match c.admit(parts, read.value)
                 case Kept(w) => At(t', parts) == Some(w)
                 case Ignored => t' == t
                 case Rejected => false
    ensures forall q :: !IsPrefix(parts, q) && !IsPrefix(q, parts) ==> At(Put(c, t, parts, parts, text), q) == At(t, q)
  {
    if SetPath(c, t, parts, parts, text).Ok? {
      SetThenGet(c, t, parts, parts, text);
    }
    forall q | !IsPrefix(parts, q) && !IsPrefix(q, parts)
      ensures At(Put(c, t, parts, parts, text), q) == At(t, q)
    {
      SetFrame(c, t, parts, parts, text, q);
    }
  }

  /** What is at a path is what its parent has under the last key. */
  lemma AtParent(t: Json, parts: Path)
    requires parts != []
    ensures At(t, parts) ==
            match At(t, parts[..|parts| - 1])
            case None => None
            case Some(parent) => if parent.Obj? then Field(parent.fields, parts[|parts| - 1]) else None
  {
    var front := parts[..|parts| - 1];
    assert parts[..|parts|] == parts && parts[..|front| + 1] == parts;
    if At(t, front).None? {
      AtBeyond(t, parts, |front|, |parts|);
    } else {
      AtNext(t, parts, |front|);
    }
  }

  /** When a set fails, by what is at the path and above it. */
  lemma SetFails(c: Codec, t: Json, parts: Path, text: string)
    requires parts != []
    ensures var r, parent := SetPath(c, t, parts, parts, text), At(t, parts[..|parts| - 1]);
            && (r == Err(PathNotFound) <==> parent.None?)
            && (r == Err(ParentNotObject) <==> parent.Some? && !parent.value.Obj?)
            && (r == Err(BadValue) <==> Unreadable(c, At(t, parts), text))
  {
    SetPathByParent(c, t, parts, parts, text);
    AtParent(t, parts);
    ReadMeans(c, At(t, parts), text, Null);
  }

  /** When a set goes through, and what it stores: what the text reads as, in the form the settings give it. */
  lemma SetStores(c: Codec, t: Json, parts: Path, text: string, v: Json)
    requires parts != [] && ReadsAs(c, At(t, parts), text, v)
    requires At(t, parts[..|parts| - 1]).Some? && At(t, parts[..|parts| - 1]).value.Obj?
    ensures match c.admit(parts, v)
            case Kept(w) => At(Put(c, t, parts, parts, text), parts) == Some(w)
            case Ignored => SetPath(c, t, parts, parts, text) == Ok(t)
            case Rejected => SetPath(c, t, parts, parts, text) == Err(NotApplied)
  {
    ReadMeans(c, At(t, parts), text, v);
    AtParent(t, parts);
    SetPathByParent(c, t, parts, parts, text);
    if c.admit(parts, v).Kept? {
      SetThenGet(c, t, parts, parts, text);
    }
  }

  lemma FrontOfFront(t: Json, parts: Path, parents: seq<Json>)
    requires parts != [] && |parents| == |parts| - 1
    requires forall i :: 0 <= i < |parents| ==>
               At(t, parts[..i]) == Some(parents[i]) && parents[i].Obj? && parts[i] in parents[i].fields
    ensures var front := parts[..|parts| - 1];
            forall i :: 0 <= i < |parents| ==>
              At(t, front[..i]) == Some(parents[i]) && parents[i].Obj? && front[i] in parents[i].fields
  {
    var front := parts[..|parts| - 1];
    forall i | 0 <= i < |parents|
      ensures At(t, front[..i]) == Some(parents[i]) && front[i] in parents[i].fields
    {
      assert front[..i] == parts[..i];
    }
  }
}
