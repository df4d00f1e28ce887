/** JSON values as Python holds them after `json.loads`, numbers being
    integers only (floating-point numbers are not modelled), the few Python
    operators the modelled code applies to them, and the json library itself
    as a parameter (its text format is not modelled). */
module Json {
  import opened Wrappers
  import opened Text

  datatype Json =
    | JNull
    | JBool(b: bool)
    | JInt(i: int)
    | JStr(s: string)
    | JArr(items: seq<Json>)
    | JObj(fields: map<string, Json>)

  /** A Python dict with string keys: a request body, keyword arguments, a row. */
  type Kwargs = map<string, Json>

  /** json.dumps and json.loads; loads answers None where Python raises
      JSONDecodeError. */
  datatype Codec = Codec(dumps: Json -> string, loads: string -> Option<Json>)

  /** What the json library guarantees: a serialised value parses back. */
  ghost predicate Lawful(codec: Codec) {
    forall j :: codec.loads(codec.dumps(j)) == Some(j)
  }

  /** dict.get(key, default) */
  function Get(m: Kwargs, key: string, default: Json): (r: Json)
    ensures key in m ==> r == m[key]
    ensures key !in m ==> r == default
  {
    if key in m then m[key] else default
  }

  /** Python's `v == 0`: False equals 0 as well. */
  predicate IsZero(v: Json) {
    v == JInt(0) || v == JBool(false)
  }

  /** Python's `int(v)`. Strings are read as an optional sign and decimal
      digits (surrounding blanks and digit underscores are not modelled). */
  function PyInt(v: Json): (r: Outcome<int>)
    ensures v.JInt? ==> r == Ok(v.i)
    ensures (v.JNull? || v.JArr? || v.JObj?) ==> r == Raised(TypeError)
  {
    match v
    case JInt(i) => Ok(i)
    case JBool(b) => Ok(if b then 1 else 0)
    case JStr(s) => (match ParseInt(s) case Some(n) => Ok(n) case None => Raised(ValueError))
    case _ => Raised(TypeError)
  }

  /** Python's `str(v)`. A list or dict is rendered by the codec's
      serialiser, which differs from Python's repr in its quoting. */
  function PyStr(codec: Codec, v: Json): (r: string)
    ensures v.JStr? ==> r == v.s
    ensures v.JInt? ==> ParseInt(r) == Some(v.i)
  {
    match v
    case JNull => "None"
    case JBool(b) => if b then "True" else "False"
    case JInt(i) => IntToStringParses(i); IntToString(i)
    case JStr(s) => s
    case _ => codec.dumps(v)
  }

  /** Python's `key in container`: a dict's keys, a list's elements, a
      string's substrings; anything else is not iterable. */
  function PyContains(container: Json, key: string): (r: Outcome<bool>)
    ensures r.Raised? <==> !(container.JObj? || container.JArr? || container.JStr?)
    ensures container.JObj? ==> r == Ok(key in container.fields)
  {
    match container
    case JObj(m) => Ok(key in m)
    case JArr(items) => Ok(JStr(key) in items)
    case JStr(s) => Ok(HasSubstring(s, key))
    case _ => Raised(TypeError)
  }

  /** Python's `container[key]` with a string key. */
  function PyIndex(container: Json, key: string): (r: Outcome<Json>)
    ensures r.Ok? <==> container.JObj? && key in container.fields
    ensures r.Ok? ==> r.value == container.fields[key]
  {
    match container
    case JObj(m) => if key in m then Ok(m[key]) else Raised(KeyError)
    case _ => Raised(TypeError)
  }

  /** The value sqlite3 stores for a bound parameter: a bool is bound as 0 or 1. */
  function SqlValue(v: Json): Json {
    if v.JBool? then JInt(if v.b then 1 else 0) else v
  }

  /** SQL `a = b`: NULL equals nothing, not even NULL. */
  predicate SqlEq(a: Json, b: Json) {
    a != JNull && b != JNull && SqlValue(a) == SqlValue(b)
  }
}
