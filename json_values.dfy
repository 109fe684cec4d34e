/** Decoded JSON documents, Python's truthiness of them, `dict.get`, and the
    JSON codec the relay calls into (`json.loads`, `json.dumps`, UTF-8). */
module JsonValues {
  import opened Runtime

  /** A JSON value as `json.loads` returns it. Numbers are integers only. */
  datatype Json =
    | JNull
    | JBool(b: bool)
    | JInt(i: int)
    | JStr(s: string)
    | JArr(items: seq<Json>)
    | JObj(fields: map<string, Json>)

  /** A JSON object, i.e. a Python dict with string keys. */
  type Obj = map<string, Json>

  /** Python's `if x:` on a JSON value: None, False, 0, "", [] and {} are
      falsy, everything else is truthy. */
  predicate Truthy(j: Json)
  {
    match j
    case JNull => false
    case JBool(b) => b
    case JInt(i) => i != 0
    case JStr(s) => s != ""
    case JArr(items) => items != []
    case JObj(fields) => fields != map[]
  }

  /** `d.get(key)`: a missing key reads as None, which is JSON null. */
  function GetOrNull(d: Obj, key: string): Json
  {
    if key in d then d[key] else JNull
  }

  /** `d.get(key, default)`. */
  function GetOr(d: Obj, key: string, default: Json): Json
  {
    if key in d then d[key] else default
  }

  /** `d.get(key, {})` for a block that is then used as a dict: absent gives
      the empty dict, a present dict is returned, and anything else makes the
      next `.get` raise AttributeError. */
  function Block(d: Obj, key: string): (r: Result<Obj>)
    ensures r.Ok? <==> key !in d || d[key].JObj?
    ensures r.Ok? && key in d ==> r.value == d[key].fields
    ensures r.Ok? && key !in d ==> r.value == map[]
  {
    if key !in d then Ok(map[])
    else match d[key]
      case JObj(fields) => Ok(fields)
      case _ => Err(AttributeError)
  }

  /** The entries of `src` whose keys are listed in `keys`. */
  function Pick(src: Obj, keys: seq<string>): (r: Obj)
    ensures forall k :: k in r <==> k in src && k in keys
    ensures forall k :: k in r ==> r[k] == src[k]
  {
    map k | k in src && k in keys :: src[k]
  }

  /** Extending the key list by one key adds that key's entry, if any. */
  lemma PickSnoc(src: Obj, keys: seq<string>, key: string)
    ensures Pick(src, keys + [key]) ==
              if key in src then Pick(src, keys)[key := src[key]] else Pick(src, keys)
  {
    if key in src {
      assert Pick(src, keys + [key]).Keys == Pick(src, keys).Keys + {key};
    } else {
      assert Pick(src, keys + [key]).Keys == Pick(src, keys).Keys;
    }
  }

  /** Assigning into `a + b` is assigning into its right operand. */
  lemma UnionUpdate(a: Obj, b: Obj, key: string, value: Json)
    ensures (a + b)[key := value] == a + b[key := value]
  {
  }

  /** `[JObj(p) for p in ps]`: a list of dicts as one JSON array. */
  function ObjArray(ps: seq<Obj>): (r: Json)
    ensures r.JArr? && |r.items| == |ps|
    ensures forall i :: 0 <= i < |ps| ==> r.items[i] == JObj(ps[i])
  {
    JArr(seq(|ps|, i requires 0 <= i < |ps| => JObj(ps[i])))
  }

  /** The standard-library conversions the relay calls: `json.loads` on
      bytes (None when the bytes are not valid JSON), `json.dumps` to text,
      `str.encode("utf-8")`, and `str()` of a list or dict. Their internals
      are not modelled. */
  datatype JsonCodec = JsonCodec(
    loads: seq<byte> -> Option<Json>,
    dumps: Json -> string,
    utf8: string -> seq<byte>,
    containerStr: Json -> string)
}
