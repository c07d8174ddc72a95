/**
 * Decoded JSON as the ETL code receives it from the API client: Python
 * `None`, `bool`, `int`, `str`, `list` and `dict` (JSON floats are not
 * modelled; the API sends numbers as strings), with the few Python
 * behaviours the transformers lean on: truthiness, `dict.get`, item
 * assignment and `int(...)`.
 */
module Json {
  import opened Wrappers
  import opened Text

  datatype Json =
    | JNull
    | JBool(b: bool)
    | JInt(i: int)
    | JStr(s: string)
    | JList(items: seq<Json>)
    | JObject(obj: Dict)

  /** A Python `dict` with string keys: the keys in insertion order and the
      mapping itself. */
  datatype Dict = Dict(keys: seq<string>, fields: map<string, Json>)

  predicate DistinctKeys(keys: seq<string>) {
    forall i, j :: 0 <= i < j < |keys| ==> keys[i] != keys[j]
  }

  /** The key order lists every key of the mapping once. */
  predicate ValidDict(d: Dict) {
    && DistinctKeys(d.keys)
    && (forall k :: k in d.fields ==> k in d.keys)
    && (forall i :: 0 <= i < |d.keys| ==> d.keys[i] in d.fields)
  }

  const EmptyDict: Dict := Dict([], map[])

  /** `d.get(k, default)`: presence of the key decides, not its value. */
  function Get(d: Dict, k: string, default: Json): (v: Json)
    ensures k in d.fields ==> v == d.fields[k]
    ensures k !in d.fields ==> v == default
  {
    if k in d.fields then d.fields[k] else default
  }

  /** `d[k] = v`: an existing key keeps its position, a new one goes last. */
  function Set(d: Dict, k: string, v: Json): (r: Dict)
    ensures r.fields == d.fields[k := v]
    ensures k in d.fields ==> r.keys == d.keys
    ensures k !in d.fields ==> r.keys == d.keys + [k]
  {
    if k in d.fields then Dict(d.keys, d.fields[k := v]) else Dict(d.keys + [k], d.fields[k := v])
  }

  /** Item assignment keeps every key listed once. */
  lemma SetValid(d: Dict, k: string, v: Json)
    requires ValidDict(d)
    ensures ValidDict(Set(d, k, v))
  {
  }

  /** Python truthiness: `None`, `False`, `0`, `""`, `[]` and `{}` are false. */
  predicate Truthy(j: Json) {
    match j
    case JNull => false
    case JBool(b) => b
    case JInt(i) => i != 0
    case JStr(s) => s != ""
    case JList(items) => items != []
    case JObject(d) => d.fields != map[]
  }

  /** `raw and key in raw`: a non-empty dict holding `key`. */
  predicate HasKey(raw: Json, key: string) {
    raw.JObject? && Truthy(raw) && key in raw.obj.fields
  }

  /** `int(j)`, with `None` where Python raises `ValueError` or `TypeError`. */
  function PyInt(j: Json): (r: Option<int>)
    ensures j.JInt? ==> r == Some(j.i)
    ensures j.JNull? || j.JList? || j.JObject? ==> r == None
    ensures j.JStr? ==> r == ParseInt(j.s)
    ensures j.JBool? ==> r == Some(if j.b then 1 else 0)
  {
    match j
    case JInt(i) => Some(i)
    case JBool(b) => Some(if b then 1 else 0)
    case JStr(s) => ParseInt(s)
    case _ => None
  }

  /** The `_safe_int` helper each transformer defines: `None` for `None` and
      `""`, otherwise `int(val)` with its exceptions turned into `None`. */
  function SafeInt(val: Json): (r: Option<int>)
    ensures val.JNull? || val == JStr("") ==> r == None
    ensures val.JInt? ==> r == Some(val.i)
    ensures val.JStr? ==> r == ParseInt(val.s)
    ensures r.Some? ==> PyInt(val) == r
  {
    if val == JNull || val == JStr("") then None else PyInt(val)
  }

  /** `_safe_int` never fails and reads back every integer it is shown as a
      decimal string. */
  lemma SafeIntReadsDecimal(n: int)
    ensures SafeInt(JStr(Decimal(n))) == Some(n)
  {
    DecimalRoundTrip(n);
  }
}
