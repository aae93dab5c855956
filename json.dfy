/**
 * JSON values as Python's `json.loads` hands them to the server, and the
 * few Python and pydantic primitives that the core applies to them.
 */
module Json {
  import opened Wrappers

  /** A decoded JSON document. JSON numbers without a fraction or exponent
      decode to a Python `int` (JInt), all others to a `float` (JFloat). */
  datatype Json =
    | JNull
    | JBool(b: bool)
    | JInt(i: int)
    | JFloat(r: real)
    | JStr(s: string)
    | JArr(items: seq<Json>)
    | JObj(fields: map<string, Json>)

  /** `d.get(key, default)` on a decoded JSON object. */
  function Get(d: map<string, Json>, key: string, default: Json): (v: Json)
    ensures key in d ==> v == d[key]
    ensures key !in d ==> v == default
  {
    if key in d then d[key] else default
  }

  /** The values a `for x in j` loop visits, when its body fails on a string
      item: the items of a list; an empty dict or string iterates zero times,
      and every item of a non-empty one is a string; other values are not
      iterable. */
  function LoopItems(j: Json): (r: Option<seq<Json>>)
    ensures r.Some? <==> j.JArr? || j == JObj(map[]) || j == JStr([])
    ensures j.JArr? ==> r == Some(j.items)
    ensures r.Some? && !j.JArr? ==> r.value == []
  {
    match j
    case JArr(items) => Some(items)
    case JObj(m) => if m == map[] then Some([]) else None
    case JStr(s) => if s == [] then Some([]) else None
    case _ => None
  }

  /** The name of the Python type that `json.loads` produces for `j`. */
  function PyTypeName(j: Json): string {
    match j
    case JNull => "NoneType"
    case JBool(_) => "bool"
    case JInt(_) => "int"
    case JFloat(_) => "float"
    case JStr(_) => "str"
    case JArr(_) => "list"
    case JObj(_) => "dict"
  }

  /** `len(j)`, or None where Python raises TypeError. */
  function PyLen(j: Json): (n: Option<nat>)
    ensures n.Some? <==> (j.JStr? || j.JArr? || j.JObj?)
  {
    match j
    case JStr(s) => Some(|s|)
    case JArr(a) => Some(|a|)
    case JObj(m) => Some(|m|)
    case _ => None
  }

  /** A pydantic `int` field: an int, or a float with no fractional part. */
  function AsInt(j: Json): (r: Option<int>)
    ensures r.Some? ==> j == JInt(r.value) || j == JFloat(r.value as real)
  {
    match j
    case JInt(i) => Some(i)
    case JFloat(x) => if x.Floor as real == x then Some(x.Floor) else None
    case _ => None
  }

  /** A pydantic `float` field: an int or a float. */
  function AsFloat(j: Json): (r: Option<real>)
    ensures r.Some? <==> (j.JInt? || j.JFloat?)
  {
    match j
    case JInt(i) => Some(i as real)
    case JFloat(x) => Some(x)
    case _ => None
  }

  /** A pydantic `str` field. */
  function AsStr(j: Json): (r: Option<string>)
    ensures r.Some? <==> j.JStr?
  {
    if j.JStr? then Some(j.s) else None
  }

  /** A pydantic `bool` field. */
  function AsBool(j: Json): (r: Option<bool>)
    ensures r.Some? <==> j.JBool?
  {
    if j.JBool? then Some(j.b) else None
  }

  /** An `Optional[str]` value as `model_dump` and `json.dumps` write it. */
  function OptStr(o: Option<string>): (j: Json)
    ensures o.None? <==> j == JNull
  {
    if o.Some? then JStr(o.value) else JNull
  }

  /** An `Optional[str]` field: null or absent is None, a string is present. */
  function AsOptStr(j: Json): (r: Option<Option<string>>)
    ensures r == Some(None) <==> j == JNull
  {
    match j
    case JNull => Some(None)
    case JStr(s) => Some(Some(s))
    case _ => None
  }

  lemma OptStrRoundTrip(o: Option<string>)
    ensures AsOptStr(OptStr(o)) == Some(o)
  {
  }

  /** The object behind a JSON value, if it is one. */
  function AsObj(j: Json): (r: Option<map<string, Json>>)
    ensures r.Some? <==> j.JObj?
  {
    if j.JObj? then Some(j.fields) else None
  }

  /** A required pydantic field of type `float`. */
  function FloatField(o: map<string, Json>, key: string): Option<real> {
    if key in o then AsFloat(o[key]) else None
  }

  /** A required pydantic field of type `str`. */
  function StrField(o: map<string, Json>, key: string): Option<string> {
    if key in o then AsStr(o[key]) else None
  }

  /** A required pydantic field of type `int`. */
  function IntField(o: map<string, Json>, key: string): Option<int> {
    if key in o then AsInt(o[key]) else None
  }

  /** An `Optional[str] = None` field: absent or null gives None. */
  function OptStrField(o: map<string, Json>, key: string): Option<Option<string>> {
    if key in o then AsOptStr(o[key]) else Some(None)
  }

  /** An `Optional[float] = None` field. */
  function OptFloatField(o: map<string, Json>, key: string): Option<Option<real>> {
    if key !in o || o[key] == JNull then Some(None)
    else if AsFloat(o[key]).Some? then Some(Some(AsFloat(o[key]).value))
    else None
  }

  /** An `Optional[int] = None` field. */
  function OptIntField(o: map<string, Json>, key: string): Option<Option<int>> {
    if key !in o || o[key] == JNull then Some(None)
    else if AsInt(o[key]).Some? then Some(Some(AsInt(o[key]).value))
    else None
  }
}
