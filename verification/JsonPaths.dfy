/** Values inside a JSON value, by their paths, and fields of an object by their keys, without recursion over the
    value: what traversals and lookups are compared with. */
module JsonPaths {
  import opened Json
  import opened Wrappers

  /** A sequence of positions in lists and objects. */
  type Path = seq<nat>

  /** The value at the end of the path. */
  ghost function At(v: Json, path: Path): Option<Json>
    decreases |path|
  {
    if path == [] then Some(v)
    else
      match v
      case Arr(items) => if path[0] < |items| then At(items[path[0]], path[1..]) else None
      case Obj(fields) => if path[0] < |fields| then At(fields[path[0]].1, path[1..]) else None
      case _ => None
  }

  lemma AtChild(v: Json, i: nat, path: Path)
    ensures At(v, [i] + path) == if i < Arity(v) then At(Child(v, i), path) else None
  {
    assert ([i] + path)[1..] == path;
  }

  /** The object's value under the key is x. */
  ghost predicate HasField(fields: seq<(string, Json)>, key: string, x: Json) {
    exists j :: 0 <= j < |fields| && FirstAt(fields, j, key) && fields[j].1 == x
  }

  ghost predicate FirstAt(fields: seq<(string, Json)>, j: nat, key: string)
    requires j < |fields|
  {
    fields[j].0 == key && forall i | 0 <= i < j :: fields[i].0 != key
  }

  lemma {:induction false} GetIsField(fields: seq<(string, Json)>, key: string, x: Json)
    ensures Get(fields, key) == Some(x) <==> HasField(fields, key, x)
  {
    if fields != [] {
      GetIsField(fields[1..], key, x);
      if fields[0].0 == key {
        assert FirstAt(fields, 0, key);
      } else {
        if HasField(fields[1..], key, x) {
          var j :| 0 <= j < |fields[1..]| && FirstAt(fields[1..], j, key) && fields[1..][j].1 == x;
          assert FirstAt(fields, j + 1, key);
        }
        if HasField(fields, key, x) {
          var j :| 0 <= j < |fields| && FirstAt(fields, j, key) && fields[j].1 == x;
          assert FirstAt(fields[1..], j - 1, key);
        }
      }
    }
  }
}
