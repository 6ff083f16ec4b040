/** JSON values as the request decoder hands them to the exporter, and the
    two dictionary operations the exporter uses on JSON objects: the key
    list (`d.keys()`) and lookup with a default (`d.get(k, default)`). */
module JsonValues {

  /** A decoded JSON value. Objects keep their keys in insertion order,
      as Python dictionaries do. */
  datatype Json =
    | Null
    | Bool(b: bool)
    | Num(n: real)
    | Str(s: string)
    | List(elems: seq<Json>)
    | Obj(fields: Fields)

  /** The entries of a dictionary, in insertion order. */
  type Fields = seq<(string, Json)>

  /** A Python dictionary never holds the same key twice. */
  ghost predicate DistinctKeys(fields: Fields) {
    forall i, j | 0 <= i < j < |fields| :: fields[i].0 != fields[j].0
  }

  /** `list(d.keys())`: the keys in insertion order. */
  function Keys(fields: Fields): seq<string> {
    seq(|fields|, i requires 0 <= i < |fields| => fields[i].0)
  }

  /** `d.get(key, default)`: the value of the entry holding `key`, or the
      default when no entry holds it. */
  function Get(fields: Fields, key: string, default: Json): (v: Json)
    ensures key !in Keys(fields) ==> v == default
    ensures key in Keys(fields) ==>
      exists i | 0 <= i < |fields| :: fields[i].0 == key && v == fields[i].1 &&
        forall j | 0 <= j < i :: fields[j].0 != key
  {
    if |fields| == 0 then default
    else if fields[0].0 == key then
      assert Keys(fields)[0] == key;
      fields[0].1
    else
      assert Keys(fields[1..]) == Keys(fields)[1..];
      var v := Get(fields[1..], key, default);
      assert key in Keys(fields) ==> key in Keys(fields[1..]);
      assert key in Keys(fields[1..]) ==>
        exists i | 0 <= i < |fields| :: fields[i].0 == key && v == fields[i].1 &&
          forall j | 0 <= j < i :: fields[j].0 != key
      by {
        if key in Keys(fields[1..]) {
          var i :| 0 <= i < |fields[1..]| && fields[1..][i].0 == key && v == fields[1..][i].1 &&
            forall j | 0 <= j < i :: fields[1..][j].0 != key;
          assert fields[i + 1] == fields[1..][i];
          assert forall j | 0 <= j < i + 1 :: fields[j].0 != key by {
            forall j | 0 <= j < i + 1 ensures fields[j].0 != key {
              if j > 0 { assert fields[j] == fields[1..][j - 1]; }
            }
          }
        }
      }
      v
  }

  /** The key list keeps every key once, in insertion order. */
  lemma KeysOfFields(fields: Fields)
    ensures |Keys(fields)| == |fields|
    ensures forall i | 0 <= i < |fields| :: Keys(fields)[i] == fields[i].0
    ensures forall k :: k in Keys(fields) <==> exists i | 0 <= i < |fields| :: fields[i].0 == k
    ensures DistinctKeys(fields) ==>
      forall a, b | 0 <= a < b < |fields| :: Keys(fields)[a] != Keys(fields)[b]
  {
  }

  /** A key that is present is looked up to its own value. */
  lemma {:induction false} GetAt(fields: Fields, i: nat, default: Json)
    requires DistinctKeys(fields) && i < |fields|
    ensures Get(fields, fields[i].0, default) == fields[i].1
  {
    if i > 0 {
      assert fields[0].0 != fields[i].0;
      assert DistinctKeys(fields[1..]) by {
        forall a, b | 0 <= a < b < |fields[1..]|
          ensures fields[1..][a].0 != fields[1..][b].0
        {
          assert fields[1..][a] == fields[a + 1] && fields[1..][b] == fields[b + 1];
        }
      }
      GetAt(fields[1..], i - 1, default);
    }
  }

  /** A key that is absent is looked up to the default. */
  lemma GetMissing(fields: Fields, key: string, default: Json)
    requires key !in Keys(fields)
    ensures Get(fields, key, default) == default
  {
  }
}
