/** Setting one dotted path of a settings tree, and rebuilding a whole tree from its leaves (src/settings.rs). */
module SettingsTree {
  import opened Wrappers
  import opened Json
  import opened Paths

  /** What deserialising into the settings type does with a new value at a path. */
  datatype Admission = Rejected | Ignored | Kept(value: Json)

  /** The parsers of Rust and serde_json, and the settings type. `parseF64` gives no number for an infinity. */
  datatype Codec = Codec(
    parseBool: string -> Option<bool>,
    parseU64: string -> Option<nat>,
    parseI64: string -> Option<int>,
    parseF64: string -> Option<Option<string>>,
    parseJson: string -> Option<Json>,
    show: Json -> string,
    admit: (Path, Json) -> Admission)

  datatype SetError = PathNotFound | ParentNotObject | BadValue | NotApplied

  /** The new value takes its type from the value it replaces. */
  function ReadNew(c: Codec, existing: Option<Json>, text: string): Result<Json, SetError> {
    match existing
    case None => Ok(JsonOrText(c, text))
    case Some(Null) => Ok(JsonOrText(c, text))
    case Some(Bool(_)) => (match c.parseBool(text) case Some(b) => Ok(Bool(b)) case None => Err(BadValue))
    case Some(Num(U64(_))) => (match c.parseU64(text) case Some(n) => Ok(Num(U64(n))) case None => Err(BadValue))
    case Some(Num(I64(_))) => (match c.parseI64(text) case Some(i) => Ok(Num(I64Number(i))) case None => Err(BadValue))
    case Some(Num(F64(_))) => (
      match c.parseF64(text)
      case Some(Some(x)) => Ok(Num(F64(x)))
      case Some(None) => Ok(Str(text))
      case None => Err(BadValue))
    case Some(Str(_)) => Ok(Str(text))
    case Some(_) => (match c.parseJson(text) case Some(v) => Ok(v) case None => Err(BadValue))
  }

  function JsonOrText(c: Codec, text: string): Json {
    match c.parseJson(text) case Some(v) => v case None => Str(text)
  }

  /** A non-negative integer is of the unsigned kind. */
  function I64Number(i: int): Number { if i >= 0 then U64(i) else I64(i) }

  /** Walk to the parent, read the value, insert it, and deserialise. */
  function SetPath(c: Codec, t: Json, full: Path, path: Path, text: string): Result<Json, SetError>
    requires path != []
    decreases |path|
  {
    var key := path[0];
    if |path| == 1 then
      if !t.Obj? then Err(ParentNotObject)
      else
        match ReadNew(c, Field(t.fields, key), text)
        case Err(e) => Err(e)
        case Ok(v) =>
          match c.admit(full, v)
          case Rejected => Err(NotApplied)
          case Ignored => Ok(t)
          case Kept(w) => Ok(Obj(t.fields[key := w]))
    else if !t.Obj? || key !in t.fields then Err(PathNotFound)
    else
      match SetPath(c, t.fields[key], full, path[1..], text)
      case Err(e) => Err(e)
      case Ok(sub) => Ok(Obj(t.fields[key := sub]))
  }

  function Put(c: Codec, t: Json, full: Path, path: Path, text: string): Json
    requires path != []
  {
    match SetPath(c, t, full, path, text) case Ok(t') => t' case Err(_) => t
  }

  predicate IsPrefix(p: Path, q: Path) { |p| <= |q| && q[..|p|] == p }

  lemma PrefixStep(p: Path, q: Path)
    requires p != [] && q != []
    ensures IsPrefix(p, q) <==> p[0] == q[0] && IsPrefix(p[1..], q[1..])
    ensures |p| == 1 && p[0] == q[0] ==> IsPrefix(p, q)
  {
    if IsPrefix(p, q) {
      assert q[1..][..|p| - 1] == q[..|p|][1..];
    }
    if p[0] == q[0] && IsPrefix(p[1..], q[1..]) {
      assert q[..|p|] == [q[0]] + q[1..][..|p| - 1];
    }
  }

  /** A value that is set is read back at its path. */
  lemma {:induction false} SetThenGet(c: Codec, t: Json, full: Path, path: Path, text: string)
    requires path != [] && SetPath(c, t, full, path, text).Ok?
    ensures var t' := SetPath(c, t, full, path, text).value;
            var read := ReadNew(c, At(t, path), text);
            && read.Ok?
            && match c.admit(full, read.value)
               case Kept(w) => At(t', path) == Some(w)
               case Ignored => t' == t
               case Rejected => false
    decreases |path|
  {
    var key := path[0];
    if |path| == 1 {
      assert path[1..] == [];
    } else {
      SetThenGet(c, t.fields[key], full, path[1..], text);
      var t' := SetPath(c, t, full, path, text).value;
      assert t.fields[key := t.fields[key]] == t.fields;
    }
  }

  /** Positions that are not on the path's line keep their values. */
  lemma {:induction false} SetFrame(c: Codec, t: Json, full: Path, path: Path, text: string, q: Path)
    requires path != [] && !IsPrefix(path, q) && !IsPrefix(q, path)
    ensures At(Put(c, t, full, path, text), q) == At(t, q)
    decreases |path|
  {
    PrefixStep(path, q);
    PrefixStep(q, path);
    if |path| > 1 && t.Obj? && path[0] in t.fields && q[0] == path[0] {
      SetFrame(c, t.fields[path[0]], full, path[1..], text, q[1..]);
    }
  }

  /** Sets at positions that are not on one line commute, errors included. */
  lemma {:induction false} SetsCommute(c: Codec, t: Json, f: Path, p: Path, v: string, g: Path, q: Path, w: string)
    requires p != [] && q != [] && !IsPrefix(p, q) && !IsPrefix(q, p)
    ensures Put(c, Put(c, t, f, p, v), g, q, w) == Put(c, Put(c, t, g, q, w), f, p, v)
    decreases |p|
  {
    PrefixStep(p, q);
    PrefixStep(q, p);
    if p[0] == q[0] {
      if t.Obj? && p[0] in t.fields {
        SetsCommute(c, t.fields[p[0]], f, p[1..], v, g, q[1..], w);
        PutBelow(c, t, f, p, v);
        PutBelow(c, t, g, q, w);
        PutBelow(c, Put(c, t, f, p, v), g, q, w);
        PutBelow(c, Put(c, t, g, q, w), f, p, v);
      }
    } else if t.Obj? {
      ApartCommute(c, t, f, p, v, g, q, w);
    }
  }

  lemma ApartCommute(c: Codec, t: Json, f: Path, p: Path, v: string, g: Path, q: Path, w: string)
    requires p != [] && q != [] && p[0] != q[0] && t.Obj?
    ensures Put(c, Put(c, t, f, p, v), g, q, w) == Put(c, Put(c, t, g, q, w), f, p, v)
  {
    var fields := t.fields;
    PutAt(c, t, f, p, v);
    PutAt(c, t, g, q, w);
    var x := PutField(c, Field(fields, p[0]), f, p, v);
    var y := PutField(c, Field(fields, q[0]), g, q, w);
    PutAt(c, Obj(With(fields, p[0], x)), g, q, w);
    PutAt(c, Obj(With(fields, q[0], y)), f, p, v);
    WithApart(fields, p[0], x, q[0], y);
  }

  function With(fields: map<string, Json>, key: string, x: Option<Json>): map<string, Json> {
    if x.None? then fields else fields[key := x.value]
  }

  lemma WithApart(fields: map<string, Json>, k: string, x: Option<Json>, l: string, y: Option<Json>)
    requires k != l
    ensures With(With(fields, k, x), l, y) == With(With(fields, l, y), k, x)
    ensures Field(With(fields, k, x), l) == Field(fields, l) && Field(With(fields, l, y), k) == Field(fields, k)
  {
  }

  lemma PutBelow(c: Codec, t: Json, full: Path, path: Path, text: string)
    requires |path| > 1 && t.Obj? && path[0] in t.fields
    ensures Put(c, t, full, path, text)
         == Obj(t.fields[path[0] := Put(c, t.fields[path[0]], full, path[1..], text)])
  {
    assert t.fields[path[0] := t.fields[path[0]]] == t.fields;
  }

  /** A set changes one key of an object, to something that only the old value there decides. */
  function PutField(c: Codec, field: Option<Json>, full: Path, path: Path, text: string): Option<Json>
    requires path != []
  {
    if |path| > 1 then
      if field.None? then None else Some(Put(c, field.value, full, path[1..], text))
    else
      match ReadNew(c, field, text)
      case Err(_) => field
      case Ok(v) => match c.admit(full, v) case Kept(w) => Some(w) case _ => field
  }

  lemma PutAt(c: Codec, t: Json, full: Path, path: Path, text: string)
    requires path != [] && t.Obj?
    ensures Put(c, t, full, path, text)
         == Obj(With(t.fields, path[0], PutField(c, Field(t.fields, path[0]), full, path, text)))
  {
    if path[0] in t.fields {
      assert t.fields[path[0] := t.fields[path[0]]] == t.fields;
    }
  }
}
