/** Parsed JSON values. An object keeps its fields in insertion order, as a Python dict does. */
module Json {
  import opened Wrappers

  datatype Json =
    | Null
    | Bool(b: bool)
    | Num(text: string)
    | Str(s: string)
    | Arr(items: seq<Json>)
    | Obj(fields: seq<(string, Json)>)

  function Arity(v: Json): nat {
    match v
    case Arr(items) => |items|
    case Obj(fields) => |fields|
    case _ => 0
  }

  /** The i-th value directly inside v. */
  function Child(v: Json, i: nat): (c: Json)
    requires i < Arity(v)
    ensures c < v
  {
    if v.Arr? then v.items[i] else
    assert v.fields[i] < v;
    v.fields[i].1
  }

  /** Looking up a field by name. */
  function Get(fields: seq<(string, Json)>, key: string): Option<Json> {
    if fields == [] then None
    else if fields[0].0 == key then Some(fields[0].1)
    else Get(fields[1..], key)
  }

  ghost predicate DistinctKeys(fields: seq<(string, Json)>) {
    forall i, j | 0 <= i < j < |fields| :: fields[i].0 != fields[j].0
  }

  lemma {:induction false} GetFinds(fields: seq<(string, Json)>, key: string, x: Json)
    requires DistinctKeys(fields)
    ensures Get(fields, key) == Some(x) <==> (key, x) in fields
  {
    if fields != [] {
      assert forall i | 0 < i < |fields| :: fields[i] == fields[1..][i - 1];
      GetFinds(fields[1..], key, x);
    }
  }
}
