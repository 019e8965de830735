/**
 * Flattening a settings tree to dotted paths and applying them to the defaults again,
 * in whatever order the maps are walked (src/settings.rs).
 */
module SettingsRoundTrip {
  import opened Wrappers
  import opened Json
  import opened Paths
  import opened SettingsTree

  // ----- The leaves of a tree -----

  function LeafPaths(x: Json, path: Path): set<Path>
    decreases x
  {
    if x.Obj? then set k, p | k in x.fields && p in LeafPaths(x.fields[k], path + [k]) :: p else {path}
  }

  predicate KeysDotFree(x: Json)
    decreases x
  {
    x.Obj? ==> forall k :: k in x.fields ==> DotFree(k) && KeysDotFree(x.fields[k])
  }

  /** The settings type is a struct, whose fields have names; its maps may have any keys. */
  predicate RootNamed(x: Json) { x.Obj? && "" !in x.fields }

  lemma {:induction false} LeafPathsExtend(x: Json, path: Path, p: Path)
    requires p in LeafPaths(x, path)
    ensures IsPrefix(path, p)
    ensures At(x, p[|path|..]).Some? && !At(x, p[|path|..]).value.Obj?
    ensures KeysDotFree(x) ==> forall i :: |path| <= i < |p| ==> DotFree(p[i])
    decreases x
  {
    if x.Obj? {
      var k :| k in x.fields && p in LeafPaths(x.fields[k], path + [k]);
      LeafPathsExtend(x.fields[k], path + [k], p);
      assert p[..|path|] == p[..|path| + 1][..|path|] && p[|path|] == p[..|path| + 1][|path|] == k;
      assert p[|path|..][0] == k && p[|path|..][1..] == p[|path| + 1..];
    } else {
      assert p[|path|..] == [];
    }
  }

  /** The leaves are exactly the positions of a value that is no object. */
  lemma {:induction false} LeafPathsAreLeaves(x: Json, path: Path, q: Path)
    requires At(x, q).Some? && !At(x, q).value.Obj?
    ensures path + q in LeafPaths(x, path)
    decreases |q|
  {
    if q == [] {
      assert path + q == path;
    } else {
      LeafPathsAreLeaves(x.fields[q[0]], path + [q[0]], q[1..]);
      assert path + [q[0]] + q[1..] == path + q;
    }
  }

  lemma {:induction false} BelowIsObject(x: Json, q: Path, n: nat)
    requires At(x, q).Some? && n < |q|
    ensures At(x, q[..n]).Some? && At(x, q[..n]).value.Obj?
    decreases |q|
  {
    if n > 0 {
      BelowIsObject(x.fields[q[0]], q[1..], n - 1);
      assert q[..n][1..] == q[1..][..n - 1];
    }
  }

  /** No leaf's path is a prefix of another's. */
  lemma LeafPathsPrefixFree(x: Json, p: Path, q: Path)
    requires p in LeafPaths(x, []) && q in LeafPaths(x, []) && IsPrefix(p, q)
    ensures p == q
  {
    LeafPathsExtend(x, [], p);
    LeafPathsExtend(x, [], q);
    assert p[0..] == p && q[0..] == q;
    if |p| < |q| {
      BelowIsObject(x, q, |p|);
    } else {
      assert q[..|p|] == q;
    }
  }

  // ----- The tree after some of the entries were applied -----

  function ValueText(c: Codec, v: Json): string { if v.Str? then v.s else c.show(v) }

  /** What becomes of a leaf whose default is `e`. */
  function NewLeaf(c: Codec, path: Path, e: Option<Json>, v: Json): Option<Json> {
    if v == Null then e
    else
      match ReadNew(c, e, ValueText(c, v))
      case Err(_) => e
      case Ok(w) => match c.admit(path, w) case Kept(w') => Some(w') case _ => e
  }

  /** The defaults `e` with those leaves of `x` laid over whose path is in `s`. */
  function Overlay(c: Codec, e: Option<Json>, x: Json, path: Path, s: set<Path>): Option<Json>
    decreases x, 1
  {
    if !x.Obj? then if path in s then NewLeaf(c, path, e, x) else e
    else if e.None? || !e.value.Obj? then e
    else
      Some(Obj(map k | k in e.value.fields.Keys + x.fields.Keys
                       && OverlayField(c, e.value.fields, x, k, path, s).Some?
                     :: OverlayField(c, e.value.fields, x, k, path, s).value))
  }

  function OverlayField(c: Codec, e: map<string, Json>, x: Json, k: string, path: Path, s: set<Path>): Option<Json>
    requires x.Obj?
    decreases x, 0
  {
    if k in x.fields then Overlay(c, Field(e, k), x.fields[k], path + [k], s) else Field(e, k)
  }

  lemma FieldOfOverlay(c: Codec, e: Json, x: Json, k: string, path: Path, s: set<Path>)
    requires e.Obj? && x.Obj?
    ensures var t := Overlay(c, Some(e), x, path, s);
            t.Some? && t.value.Obj? && Field(t.value.fields, k) == OverlayField(c, e.fields, x, k, path, s)
  {
  }

  lemma {:induction false} OverlayNothing(c: Codec, e: Option<Json>, x: Json, path: Path)
    ensures Overlay(c, e, x, path, {}) == e
    decreases x
  {
    if x.Obj? && e.Some? && e.value.Obj? {
      var t := Overlay(c, e, x, path, {}).value;
      forall k
        ensures Field(t.fields, k) == Field(e.value.fields, k)
      {
        FieldOfOverlay(c, e.value, x, k, path, {});
        if k in x.fields {
          OverlayNothing(c, Field(e.value.fields, k), x.fields[k], path + [k]);
        }
      }
      EqualFields(t.fields, e.value.fields);
    }
  }

  lemma LongerPrefix(path: Path, k: string, p: Path)
    ensures IsPrefix(path + [k], p) <==> IsPrefix(path, p) && |p| > |path| && p[|path|] == k
  {
    if IsPrefix(path + [k], p) {
      assert p[..|path|] == p[..|path| + 1][..|path|];
      assert p[|path|] == p[..|path| + 1][|path|];
    }
  }

  /** A leaf elsewhere changes nothing here. */
  lemma {:induction false} OverlayFrame(c: Codec, e: Option<Json>, x: Json, path: Path, s: set<Path>, p: Path)
    requires !IsPrefix(path, p)
    ensures Overlay(c, e, x, path, s + {p}) == Overlay(c, e, x, path, s)
    decreases x
  {
    if x.Obj? && e.Some? && e.value.Obj? {
      var t, t' := Overlay(c, e, x, path, s).value, Overlay(c, e, x, path, s + {p}).value;
      forall k
        ensures Field(t'.fields, k) == Field(t.fields, k)
      {
        FieldOfOverlay(c, e.value, x, k, path, s);
        FieldOfOverlay(c, e.value, x, k, path, s + {p});
        if k in x.fields {
          LongerPrefix(path, k, p);
          OverlayFrame(c, Field(e.value.fields, k), x.fields[k], path + [k], s, p);
        }
      }
      EqualFields(t'.fields, t.fields);
    }
  }

  /** One stored entry applied: null is skipped, and a failed set changes nothing. */
  function ApplyAt(c: Codec, t: Json, full: Path, q: Path, v: Json): Json
    requires q != []
  {
    if v == Null then t else Put(c, t, full, q, ValueText(c, v))
  }

  function ApplyField(c: Codec, field: Option<Json>, full: Path, q: Path, v: Json): Option<Json>
    requires q != []
  {
    if v == Null then field else PutField(c, field, full, q, ValueText(c, v))
  }

  lemma ApplyAtKey(c: Codec, t: Json, full: Path, q: Path, v: Json)
    requires q != [] && t.Obj?
    ensures ApplyAt(c, t, full, q, v) == Obj(With(t.fields, q[0], ApplyField(c, Field(t.fields, q[0]), full, q, v)))
  {
    if v == Null {
      assert With(t.fields, q[0], Field(t.fields, q[0])) == t.fields;
    } else {
      PutAt(c, t, full, q, ValueText(c, v));
    }
  }

  lemma FieldOfWith(fields: map<string, Json>, k: string, x: Option<Json>, l: string)
    requires x.None? ==> k !in fields
    ensures Field(With(fields, k, x), l) == if l == k then x else Field(fields, l)
  {
  }

  /** Applying the entry of a leaf that was not applied yet lays exactly that leaf over. */
  lemma {:induction false} ApplyLaysOver(c: Codec, e: Json, x: Json, path: Path, s: set<Path>, q: Path)
    requires x.Obj? && q != [] && At(x, q).Some? && !At(x, q).value.Obj? && path + q !in s
    ensures Overlay(c, Some(e), x, path, s).Some? && Overlay(c, Some(e), x, path, s + {path + q}).Some?
    ensures ApplyAt(c, Overlay(c, Some(e), x, path, s).value, path + q, q, At(x, q).value)
         == Overlay(c, Some(e), x, path, s + {path + q}).value
    decreases |q|, 1
  {
    var p, v, k := path + q, At(x, q).value, q[0];
    if e.Obj? {
      var t, t' := Overlay(c, Some(e), x, path, s).value, Overlay(c, Some(e), x, path, s + {p}).value;
      FieldOfOverlay(c, e, x, k, path, s);
      FieldOfOverlay(c, e, x, k, path, s + {p});
      ApplyAtKey(c, t, p, q, v);
      LaysOverField(c, e, x, path, s, q);
      forall l
        ensures Field(With(t.fields, k, ApplyField(c, Field(t.fields, k), p, q, v)), l) == Field(t'.fields, l)
      {
        FieldOfWith(t.fields, k, ApplyField(c, Field(t.fields, k), p, q, v), l);
        FieldOfOverlay(c, e, x, l, path, s);
        FieldOfOverlay(c, e, x, l, path, s + {p});
        if l != k && l in x.fields {
          LongerPrefix(path, l, p);
          OverlayFrame(c, Field(e.fields, l), x.fields[l], path + [l], s, p);
        }
      }
      EqualFields(With(t.fields, k, ApplyField(c, Field(t.fields, k), p, q, v)), t'.fields);
    }
  }

  /** The key on the leaf's own line. */
  lemma {:induction false} LaysOverField(c: Codec, e: Json, x: Json, path: Path, s: set<Path>, q: Path)
    requires e.Obj? && x.Obj? && q != [] && At(x, q).Some? && !At(x, q).value.Obj? && path + q !in s
    ensures var field := OverlayField(c, e.fields, x, q[0], path, s);
            var field' := ApplyField(c, field, path + q, q, At(x, q).value);
            && field' == OverlayField(c, e.fields, x, q[0], path, s + {path + q})
            && (field'.None? ==> field.None?)
    decreases |q|, 0
  {
    var k, p := q[0], path + q;
    assert p == path + [k] + q[1..];
    if |q| == 1 {
      assert q[1..] == [] && p == path + [k];
    } else if k in e.fields {
      ApplyLaysOver(c, e.fields[k], x.fields[k], path + [k], s, q[1..]);
    }
  }

  // ----- When the rebuilt tree is the original -----

  /** A leaf whose stored text is read back as itself, given the default in its place. */
  predicate LeafSurvives(c: Codec, path: Path, e: Option<Json>, v: Json) {
    if v == Null then e == Some(Null)
    else
      match ReadNew(c, e, ValueText(c, v))
      case Err(_) => e == Some(v)
      case Ok(w) => if c.admit(path, w).Kept? then c.admit(path, w).value == v else e == Some(v)
  }

  /** Objects only where the defaults have one and with all their keys; every leaf survives. */
  predicate Rebuildable(c: Codec, e: Option<Json>, x: Json, path: Path)
    decreases x
  {
    if x.Obj? then
      && e.Some? && e.value.Obj? && e.value.fields.Keys <= x.fields.Keys
      && forall k :: k in x.fields ==> Rebuildable(c, Field(e.value.fields, k), x.fields[k], path + [k])
    else LeafSurvives(c, path, e, x)
  }

  lemma {:induction false} OverlayAll(c: Codec, e: Option<Json>, x: Json, path: Path, s: set<Path>)
    requires LeafPaths(x, path) <= s
    ensures Overlay(c, e, x, path, s) == Some(x) <==> Rebuildable(c, e, x, path)
    decreases x
  {
    if x.Obj? && e.Some? && e.value.Obj? {
      var f, t := e.value.fields, Overlay(c, e, x, path, s).value;
      forall k | k in x.fields
        ensures OverlayField(c, f, x, k, path, s) == Some(x.fields[k])
                <==> Rebuildable(c, Field(f, k), x.fields[k], path + [k])
      {
        OverlayAll(c, Field(f, k), x.fields[k], path + [k], s);
      }
      forall k
        ensures Field(t.fields, k) == OverlayField(c, f, x, k, path, s)
      {
        FieldOfOverlay(c, e.value, x, k, path, s);
      }
      if Rebuildable(c, e, x, path) {
        forall k
          ensures Field(t.fields, k) == Field(x.fields, k)
        {
        }
        EqualFields(t.fields, x.fields);
      }
      if t == x {
        forall k | k in x.fields
          ensures Rebuildable(c, Field(f, k), x.fields[k], path + [k])
        {
          assert Field(t.fields, k) == Some(x.fields[k]);
        }
        forall k | k in f
          ensures k in x.fields
        {
          assert Field(t.fields, k) == OverlayField(c, f, x, k, path, s);
        }
      }
    }
  }

  // ----- Any order of the entries -----

  /** One of the leaves with this text has the value. */
  ghost predicate IsLeafValue(x: Json, text: string, v: Json) {
    exists p :: p in LeafPaths(x, []) && PathText(p) == text && At(x, p) == Some(v)
  }

  /** The entries of a tree: the text of each leaf, with the value of a leaf of that text. */
  ghost predicate Flattens(m: map<string, Json>, x: Json) {
    && m.Keys == (set p | p in LeafPaths(x, []) :: PathText(p))
    && forall s :: s in m ==> IsLeafValue(x, s, m[s])
  }

  predicate IsOrder(order: seq<string>, keys: set<string>) {
    && (forall i :: 0 <= i < |order| ==> order[i] in keys)
    && (forall i, j :: 0 <= i < j < |order| ==> order[i] != order[j])
  }

  function Members(order: seq<string>): set<string> { set i | 0 <= i < |order| :: order[i] }

  function ApplyAll(c: Codec, d: Json, m: map<string, Json>, order: seq<string>): Json
    requires IsOrder(order, m.Keys)
  {
    if order == [] then d
    else
      var key := order[|order| - 1];
      ApplyAt(c, ApplyAll(c, d, m, order[..|order| - 1]), Split(key), Split(key), m[key])
  }

  function SplitAll(order: seq<string>): set<Path> { set i | 0 <= i < |order| :: Split(order[i]) }

  lemma SplitAllSnoc(order: seq<string>, key: string)
    ensures SplitAll(order + [key]) == SplitAll(order) + {Split(key)}
  {
    var all := order + [key];
    assert all[|order|] == key;
    forall i | 0 <= i < |order|
      ensures Split(order[i]) in SplitAll(all)
    {
      assert all[i] == order[i];
    }
  }

  lemma LeafIsPath(x: Json, p: Path)
    requires RootNamed(x) && p in LeafPaths(x, [])
    ensures p != [] && p[0] != "" && At(x, p).Some? && !At(x, p).value.Obj?
    ensures PathText(p) == Join(p)
    ensures KeysDotFree(x) ==> AllDotFree(p)
  {
    LeafPathsExtend(x, [], p);
    assert p[0..] == p;
    PathTextIsJoin(p);
  }

  lemma KeyIsLeaf(m: map<string, Json>, x: Json, key: string)
    requires RootNamed(x) && KeysDotFree(x) && Flattens(m, x) && key in m
    ensures Split(key) in LeafPaths(x, []) && At(x, Split(key)) == Some(m[key])
  {
    assert IsLeafValue(x, key, m[key]);
    var p :| p in LeafPaths(x, []) && PathText(p) == key && At(x, p) == Some(m[key]);
    LeafIsPath(x, p);
    SplitJoin(p);
  }

  /** Whatever the order, the entries applied so far lie over the defaults. */
  lemma {:induction false} AnyOrder(c: Codec, d: Json, x: Json, m: map<string, Json>, order: seq<string>)
    requires RootNamed(x) && KeysDotFree(x) && Flattens(m, x) && IsOrder(order, m.Keys)
    ensures Overlay(c, Some(d), x, [], SplitAll(order)) == Some(ApplyAll(c, d, m, order))
    decreases |order|
  {
    if order == [] {
      OverlayNothing(c, Some(d), x, []);
      assert SplitAll(order) == {};
    } else {
      var front, key := order[..|order| - 1], order[|order| - 1];
      AnyOrder(c, d, x, m, front);
      OneMoreEntry(c, d, x, m, front, key, ApplyAll(c, d, m, front));
      assert front + [key] == order;
    }
  }

  /** The next entry lays its own leaf over. */
  lemma OneMoreEntry(c: Codec, d: Json, x: Json, m: map<string, Json>, front: seq<string>, key: string, t: Json)
    requires RootNamed(x) && KeysDotFree(x) && Flattens(m, x) && key in m
    requires forall i :: 0 <= i < |front| ==> front[i] != key
    requires Overlay(c, Some(d), x, [], SplitAll(front)) == Some(t)
    ensures Overlay(c, Some(d), x, [], SplitAll(front + [key])) == Some(ApplyAt(c, t, Split(key), Split(key), m[key]))
  {
    var p := Split(key);
    KeyIsLeaf(m, x, key);
    LeafIsPath(x, p);
    NotYet(front, key);
    SplitAllSnoc(front, key);
    assert [] + p == p;
    ApplyLaysOver(c, d, x, [], SplitAll(front), p);
  }

  lemma NotYet(front: seq<string>, key: string)
    requires forall i :: 0 <= i < |front| ==> front[i] != key
    ensures Split(key) !in SplitAll(front)
  {
    if Split(key) in SplitAll(front) {
      var i :| 0 <= i < |front| && Split(front[i]) == Split(key);
      JoinSplit(front[i]);
      JoinSplit(key);
    }
  }

  /** Each leaf's path is among those of the whole order. */
  lemma LeafIsApplied(x: Json, m: map<string, Json>, order: seq<string>, p: Path)
    requires RootNamed(x) && KeysDotFree(x) && Flattens(m, x) && Members(order) == m.Keys && p in LeafPaths(x, [])
    ensures p in SplitAll(order)
  {
    LeafIsPath(x, p);
    SplitJoin(p);
    assert Join(p) in m.Keys;
    var i :| 0 <= i < |order| && order[i] == Join(p);
    assert Split(order[i]) == p;
  }

  lemma RebuildsDotFree(c: Codec, d: Json, x: Json, m: map<string, Json>, order: seq<string>)
    requires RootNamed(x) && KeysDotFree(x) && Flattens(m, x) && IsOrder(order, m.Keys) && Members(order) == m.Keys
    ensures ApplyAll(c, d, m, order) == x <==> Rebuildable(c, Some(d), x, [])
  {
    AnyOrder(c, d, x, m, order);
    forall p | p in LeafPaths(x, [])
      ensures p in SplitAll(order)
    {
      LeafIsApplied(x, m, order, p);
    }
    OverlayAll(c, Some(d), x, [], SplitAll(order));
  }

  // ----- Keys with dots -----

  /** At depth `n` of the tree an object has a key with a dot. */
  ghost predicate DottedAt(x: Json, n: nat) {
    exists p: Path, k: string :: |p| == n && IsDotted(x, p, k)
  }

  predicate IsDotted(x: Json, p: Path, k: string) {
    At(x, p).Some? && At(x, p).value.Obj? && k in At(x, p).value.fields && !DotFree(k)
  }

  lemma {:induction false} SomeDotted(x: Json) returns (n: nat)
    requires !KeysDotFree(x)
    ensures DottedAt(x, n)
    decreases x
  {
    var k :| k in x.fields && !(DotFree(k) && KeysDotFree(x.fields[k]));
    if DotFree(k) {
      var m := SomeDotted(x.fields[k]);
      var p: Path, j: string :| |p| == m && IsDotted(x.fields[k], p, j);
      assert ([k] + p)[1..] == p;
      assert IsDotted(x, [k] + p, j);
      n := m + 1;
    } else {
      assert IsDotted(x, [], k);
      n := 0;
    }
  }

  lemma {:induction false} ShallowestDotted(x: Json, n: nat) returns (m: nat)
    requires DottedAt(x, n)
    ensures m <= n && DottedAt(x, m) && forall i: nat :: i < m ==> !DottedAt(x, i)
  {
    if i: nat :| i < n && DottedAt(x, i) {
      m := ShallowestDotted(x, i);
    } else {
      m := n;
    }
  }

  lemma {:induction false} AtSnoc(x: Json, p: Path, k: string)
    requires At(x, p).Some? && At(x, p).value.Obj? && k in At(x, p).value.fields
    ensures At(x, p + [k]) == Some(At(x, p).value.fields[k])
    decreases |p|
  {
    if p == [] {
      assert ([] + [k])[1..] == [];
    } else {
      AtSnoc(x.fields[p[0]], p[1..], k);
      assert (p + [k])[1..] == p[1..] + [k];
    }
  }

  /** The defaults have no key with a dot. */
  lemma {:induction false} NothingAtDotted(d: Json, p: Path, k: string)
    requires KeysDotFree(d) && !DotFree(k)
    ensures At(d, p + [k]).None?
    decreases |p|
  {
    if p == [] {
      assert ([] + [k])[0] == k;
    } else if d.Obj? && p[0] in d.fields {
      NothingAtDotted(d.fields[p[0]], p[1..], k);
      assert (p + [k])[1..] == p[1..] + [k];
    } else {
      assert (p + [k])[0] == p[0];
    }
  }

  /** A path no longer than the depth of the shallowest dotted key holds none. */
  lemma ShortPathDotFree(x: Json, n: nat, r: Path)
    requires At(x, r).Some? && |r| <= n && forall i: nat :: i < n ==> !DottedAt(x, i)
    ensures AllDotFree(r)
  {
    forall i | 0 <= i < |r|
      ensures DotFree(r[i])
    {
      BelowIsObject(x, r, i);
      AtStep(x, r, i);
      assert !DottedAt(x, i);
      assert !IsDotted(x, r[..i], r[i]);
    }
  }

  lemma {:induction false} AtStep(x: Json, r: Path, i: nat)
    requires At(x, r).Some? && i < |r| && At(x, r[..i]).Some? && At(x, r[..i]).value.Obj?
    ensures r[i] in At(x, r[..i]).value.fields
    decreases |r|
  {
    if i > 0 {
      assert r[..i][1..] == r[1..][..i - 1];
      AtStep(x.fields[r[0]], r[1..], i - 1);
    }
  }

  lemma PrefixOfSnoc(q: Path, p: Path, k: string)
    ensures IsPrefix(q, p + [k]) ==> IsPrefix(q, p) || IsPrefix(p + [k], q)
  {
    if |q| <= |p| {
      assert (p + [k])[..|q|] == p[..|q|];
    }
  }

  /** Above an object there are only objects. */
  lemma ObjectAbove(x: Json, r: Path, p: Path)
    requires At(x, p).Some? && At(x, p).value.Obj?
    ensures IsPrefix(r, p) ==> At(x, r).Some? && At(x, r).value.Obj?
  {
    if |r| < |p| {
      BelowIsObject(x, p, |r|);
    } else {
      assert IsPrefix(r, p) ==> p[..|r|] == p;
    }
  }

  /** The path that a stored entry is applied at leaves the line of the shallowest dotted key alone. */
  lemma EntryMissesDotted(x: Json, m: map<string, Json>, p: Path, k: string, key: string)
    requires RootNamed(x) && IsDotted(x, p, k) && (forall i: nat :: i < |p| ==> !DottedAt(x, i))
    requires Flattens(m, x) && key in m
    ensures !IsPrefix(Split(key), p + [k]) && !IsPrefix(p + [k], Split(key))
  {
    assert IsLeafValue(x, key, m[key]);
    var r :| r in LeafPaths(x, []) && PathText(r) == key && At(x, r) == Some(m[key]);
    var q := Split(key);
    LeafIsPath(x, r);
    SplitIsDotFree(key);
    SplitIsLonger(r);
    LongerPrefix(p, k, q);
    PrefixOfSnoc(q, p, k);
    if |q| <= |p| {
      ShortPathDotFree(x, |p|, r);
      SplitJoin(r);
    }
    ObjectAbove(x, r, p);
  }

  /** No order of the entries brings a dotted key back. */
  lemma {:induction false} DottedNeverAppears(c: Codec, d: Json, x: Json, m: map<string, Json>, order: seq<string>, p: Path, k: string)
    requires RootNamed(x) && KeysDotFree(d) && Flattens(m, x) && IsOrder(order, m.Keys)
    requires IsDotted(x, p, k) && forall i: nat :: i < |p| ==> !DottedAt(x, i)
    ensures At(ApplyAll(c, d, m, order), p + [k]).None?
    decreases |order|
  {
    if order == [] {
      NothingAtDotted(d, p, k);
    } else {
      var front, key := order[..|order| - 1], order[|order| - 1];
      DottedNeverAppears(c, d, x, m, front, p, k);
      EntryMissesDotted(x, m, p, k, key);
      if m[key] != Null {
        SetFrame(c, ApplyAll(c, d, m, front), Split(key), Split(key), ValueText(c, m[key]), p + [k]);
      }
    }
  }

  lemma DottedIsLost(c: Codec, d: Json, x: Json, m: map<string, Json>, order: seq<string>)
    requires RootNamed(x) && KeysDotFree(d) && Flattens(m, x) && IsOrder(order, m.Keys) && !KeysDotFree(x)
    ensures ApplyAll(c, d, m, order) != x
  {
    var some := SomeDotted(x);
    var n := ShallowestDotted(x, some);
    var p: Path, k: string :| |p| == n && IsDotted(x, p, k);
    DottedNeverAppears(c, d, x, m, order, p, k);
    AtSnoc(x, p, k);
  }

  /**
   * All entries applied in any order give back the tree exactly when no key holds a dot and the tree is
   * rebuildable; colliding texts and nested maps with any keys are covered.
   */
  lemma RebuildsIffRebuildable(c: Codec, d: Json, x: Json, m: map<string, Json>, order: seq<string>)
    requires RootNamed(x) && KeysDotFree(d) && Flattens(m, x) && IsOrder(order, m.Keys) && Members(order) == m.Keys
    ensures ApplyAll(c, d, m, order) == x <==> KeysDotFree(x) && Rebuildable(c, Some(d), x, [])
  {
    if KeysDotFree(x) {
      RebuildsDotFree(c, d, x, m, order);
    } else {
      DottedIsLost(c, d, x, m, order);
    }
  }

  /** A field of optional text: any text and null are kept, everything else is refused. */
  ghost predicate OptionalText(c: Codec, path: Path) {
    forall v :: c.admit(path, v) == if v.Str? || v == Null then Kept(v) else Rejected
  }

  /** Text in the place of an unset option comes back unless it happens to be JSON for something else. */
  lemma UnsetTextSurvivesIffNoOtherJson(c: Codec, path: Path, s: string)
    requires OptionalText(c, path)
    ensures LeafSurvives(c, path, Some(Null), Str(s)) <==> c.parseJson(s) in {None, Some(Str(s))}
  {
  }

  /** Text over text always comes back, and so does an option that is unset as its default is. */
  lemma TextOverTextSurvives(c: Codec, path: Path, s: string, e: string)
    requires c.admit(path, Str(s)) == Kept(Str(s))
    ensures LeafSurvives(c, path, Some(Str(e)), Str(s)) && LeafSurvives(c, path, Some(Null), Null)
  {
  }
}
