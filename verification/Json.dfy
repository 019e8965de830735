/** JSON trees as settings are serialised to. Numbers carry the kind that serde_json distinguishes. */
module Json {
  import opened Wrappers

  datatype Number = U64(n: nat) | I64(i: int) | F64(text: string)

  datatype Json =
    | Null
    | Bool(b: bool)
    | Num(number: Number)
    | Str(s: string)
    | Arr(items: seq<Json>)
    | Obj(fields: map<string, Json>)

  function Field(fields: map<string, Json>, key: string): Option<Json> {
    if key in fields then Some(fields[key]) else None
  }

  function At(t: Json, path: seq<string>): Option<Json>
    decreases |path|
  {
    if path == [] then Some(t)
    else if t.Obj? && path[0] in t.fields then At(t.fields[path[0]], path[1..])
    else None
  }

  lemma EqualFields(l: map<string, Json>, r: map<string, Json>)
    requires forall k :: Field(l, k) == Field(r, k)
    ensures l == r
  {
    forall k
      ensures k in l <==> k in r
      ensures k in l ==> l[k] == r[k]
    {
      assert Field(l, k) == Field(r, k);
    }
  }
}
