/**
 * What a set stores and what comes back from the stored texts, said in terms of the parsers alone
 * (src/settings.rs).
 */
module SettingsLaws {
  import opened Wrappers
  import opened Json
  import opened Paths
  import opened SettingsTree
  import opened SettingsRoundTrip

  // ----- What a text is read as -----

  predicate IsInteger(v: Json, i: int) {
    v.Num? && if i < 0 then v.number == I64(i) else v.number.U64? && v.number.n == i
  }

  /** The value has the kind of the one it replaces and is what that kind's parser made of the text. */
  ghost predicate ReadsAs(c: Codec, was: Option<Json>, text: string, v: Json) {
    && (was.None? || was.value.Null? ==> c.parseJson(text) == Some(v) || (c.parseJson(text).None? && v == Str(text)))
    && (was.Some? && was.value.Bool? ==> v.Bool? && c.parseBool(text) == Some(v.b))
    && (was.Some? && was.value.Num? ==>
          && (was.value.number.U64? ==> v.Num? && v.number.U64? && c.parseU64(text) == Some(v.number.n))
          && (was.value.number.I64? ==> exists i :: c.parseI64(text) == Some(i) && IsInteger(v, i))
          && (was.value.number.F64? ==>
                || (v.Num? && v.number.F64? && c.parseF64(text) == Some(Some(v.number.text)))
                || (v == Str(text) && c.parseF64(text) == Some(None))))
    && (was.Some? && was.value.Str? ==> v == Str(text))
    && (was.Some? && (was.value.Arr? || was.value.Obj?) ==> c.parseJson(text) == Some(v))
  }

  /** The text is none that the kind of the old value can be read from. */
  predicate Unreadable(c: Codec, was: Option<Json>, text: string) {
    && was.Some?
    && match was.value
       case Bool(_) => c.parseBool(text).None?
       case Num(U64(_)) => c.parseU64(text).None?
       case Num(I64(_)) => c.parseI64(text).None?
       case Num(F64(_)) => c.parseF64(text).None?
       case Arr(_) => c.parseJson(text).None?
       case Obj(_) => c.parseJson(text).None?
       case _ => false
  }

  lemma ReadMeans(c: Codec, was: Option<Json>, text: string, v: Json)
    ensures ReadNew(c, was, text) == Ok(v) <==> ReadsAs(c, was, text, v)
    ensures ReadNew(c, was, text) == Err(BadValue) <==> Unreadable(c, was, text)
    ensures ReadNew(c, was, text).Ok? <==> !Unreadable(c, was, text)
  {
  }

  // ----- What comes back -----

  /** A value's own text is read back as the value by the parser for its kind, and the settings keep it. */
  ghost predicate ReadsBack(c: Codec, path: Path, v: Json) {
    && c.admit(path, v) == Kept(v)
    && match v
       case Null => true
       case Bool(b) => c.parseBool(c.show(v)) == Some(b)
       case Num(U64(n)) => c.parseU64(c.show(v)) == Some(n)
       case Num(I64(i)) => i < 0 && c.parseI64(c.show(v)) == Some(i)
       case Num(F64(x)) => c.parseF64(c.show(v)) == Some(Some(x))
       case Str(_) => true
       case Arr(_) => c.parseJson(c.show(v)) == Some(v)
       case Obj(_) => c.parseJson(c.show(v)) == Some(v)
  }

  predicate SameKind(e: Json, v: Json) {
    match e
    case Null => v.Null?
    case Bool(_) => v.Bool?
    case Num(U64(_)) => v.Num? && v.number.U64?
    case Num(I64(_)) => v.Num? && v.number.I64?
    case Num(F64(_)) => v.Num? && v.number.F64?
    case Str(_) => v.Str?
    case Arr(_) => v.Arr?
    case Obj(_) => v.Obj?
  }

  /** Over a default of the same kind every boolean, number, array and text comes back. */
  lemma SameKindSurvives(c: Codec, path: Path, e: Json, v: Json)
    requires SameKind(e, v) && ReadsBack(c, path, v)
    ensures LeafSurvives(c, path, Some(e), v)
  {
  }

  /** So does what is no text over an unset option or a missing key, if its JSON reads as itself. */
  lemma UnsetSurvives(c: Codec, path: Path, e: Option<Json>, v: Json)
    requires e.None? || e == Some(Null)
    requires !v.Null? && !v.Str? && c.parseJson(c.show(v)) == Some(v) && c.admit(path, v) == Kept(v)
    ensures LeafSurvives(c, path, e, v)
  {
  }

  /** An unsigned value comes back over a negative default, too, but a negative one is lost over an unsigned default. */
  lemma IntegersSurvive(c: Codec, path: Path, n: nat, i: int, j: int)
    requires i < 0 && c.parseI64(c.show(Num(U64(n)))) == Some(n as int) && c.admit(path, Num(U64(n))) == Kept(Num(U64(n)))
    requires c.parseU64(c.show(Num(I64(i)))) == None
    ensures LeafSurvives(c, path, Some(Num(I64(j))), Num(U64(n)))
    ensures !LeafSurvives(c, path, Some(Num(U64(n))), Num(I64(i)))
  {
  }

  /** A setting whose default is set and which was unset does not come back: null is not stored. */
  lemma UnsetIsLost(c: Codec, path: Path, e: Json)
    ensures LeafSurvives(c, path, Some(e), Null) <==> e == Null
  {
  }

  // ----- Trees of the defaults' shape -----

  /** A leaf of its default's kind, or over an unset option or a missing key one whose stored text is JSON for itself. */
  ghost predicate LeafComesBack(c: Codec, path: Path, e: Option<Json>, v: Json) {
    || (e.Some? && SameKind(e.value, v) && ReadsBack(c, path, v))
    || ((e.None? || e == Some(Null)) && c.admit(path, v) == Kept(v)
        && match v
           case Null => false
           case Str(s) => c.parseJson(s) in {None, Some(v)}
           case _ => c.parseJson(c.show(v)) == Some(v))
  }

  /** Objects only where the defaults have one and with at least their keys, and every leaf comes back. */
  ghost predicate HasShape(c: Codec, e: Option<Json>, x: Json, path: Path)
    decreases x
  {
    if x.Obj? then
      && e.Some? && e.value.Obj? && e.value.fields.Keys <= x.fields.Keys
      && forall k :: k in x.fields ==> HasShape(c, Field(e.value.fields, k), x.fields[k], path + [k])
    else LeafComesBack(c, path, e, x)
  }

  /** Every tree of the defaults' shape is rebuilt. */
  lemma {:induction false} ShapeIsRebuildable(c: Codec, e: Option<Json>, x: Json, path: Path)
    requires HasShape(c, e, x, path)
    ensures Rebuildable(c, e, x, path)
    decreases x
  {
    if x.Obj? {
      forall k | k in x.fields
        ensures Rebuildable(c, Field(e.value.fields, k), x.fields[k], path + [k])
      {
        ShapeIsRebuildable(c, Field(e.value.fields, k), x.fields[k], path + [k]);
      }
    } else if e.Some? && SameKind(e.value, x) && ReadsBack(c, path, x) {
      SameKindSurvives(c, path, e.value, x);
    }
  }
}
