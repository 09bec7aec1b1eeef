/** JSON values as the controller client sees them: what `json.loads` yields and
    what the request payloads are built from. Objects keep their fields in
    insertion order, as Python dictionaries do. */
module Json {

  datatype Option<+T> = None | Some(value: T)

  datatype Json =
    | JNull
    | JBool(b: bool)
    | JNumber(n: int)
    | JString(s: string)
    | JArray(items: seq<Json>)
    | JObject(fields: seq<(string, Json)>)

  /** The field names of an object, in order. */
  function Keys(fields: seq<(string, Json)>): seq<string>
  {
    if fields == [] then [] else [fields[0].0] + Keys(fields[1..])
  }

  /** The value stored under `key` in a field list (the first one, should a
      key repeat; the payloads of this client never repeat one). */
  function LookupField(fields: seq<(string, Json)>, key: string): Option<Json>
  {
    if fields == [] then None
    else if fields[0].0 == key then Some(fields[0].1)
    else LookupField(fields[1..], key)
  }

  /** `obj[key]` on an object; nothing on any other value. */
  function Lookup(j: Json, key: string): Option<Json>
  {
    match j
    case JObject(fields) => LookupField(fields, key)
    case _ => None
  }

  /** `obj[k1][k2]...` along a path of keys. */
  function LookupPath(j: Json, path: seq<string>): Option<Json>
    decreases path
  {
    if path == [] then Some(j)
    else match Lookup(j, path[0])
      case None => None
      case Some(child) => LookupPath(child, path[1..])
  }

  lemma LookupFieldCons(field: (string, Json), rest: seq<(string, Json)>, key: string)
    ensures LookupField([field] + rest, key) == if field.0 == key then Some(field.1) else LookupField(rest, key)
    ensures Keys([field] + rest) == [field.0] + Keys(rest)
  {
    assert ([field] + rest)[1..] == rest;
  }

  /** Looking a key up in a concatenation of field lists searches the first
      list, then the second. */
  lemma {:induction false} LookupFieldAppend(a: seq<(string, Json)>, b: seq<(string, Json)>, key: string)
    ensures LookupField(a + b, key) == if key in Keys(a) then LookupField(a, key) else LookupField(b, key)
  {
    if a != [] {
      assert (a + b)[1..] == a[1..] + b;
      if a[0].0 != key {
        LookupFieldAppend(a[1..], b, key);
        assert key in Keys(a) <==> key in Keys(a[1..]) by {
          assert Keys(a) == [a[0].0] + Keys(a[1..]);
        }
      }
    } else {
      assert a + b == b;
    }
  }
}
