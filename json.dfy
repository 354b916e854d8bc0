/** The Python values that tools receive as keyword arguments and return as
    results: None, booleans, integers, strings, lists and dicts with string
    keys. Dict key order is not represented. */
module Json {
  import opened Common

  datatype Json =
    | JNull
    | JBool(b: bool)
    | JInt(i: int)
    | JStr(s: string)
    | JList(items: seq<Json>)
    | JObj(fields: map<string, Json>)

  type Obj = map<string, Json>

  /** Python truthiness. */
  predicate Truthy(j: Json) {
    match j
    case JNull => false
    case JBool(b) => b
    case JInt(i) => i != 0
    case JStr(s) => s != ""
    case JList(items) => items != []
    case JObj(fields) => fields != map[]
  }

  /** `isinstance(j, int)`: Python's bool is a subclass of int. */
  predicate IsInt(j: Json) {
    j.JInt? || j.JBool?
  }

  /** The integer value of an `int` (True is 1, False is 0). */
  function IntValue(j: Json): int
    requires IsInt(j)
  {
    if j.JInt? then j.i else if j.b then 1 else 0
  }

  /** Whether `len(j)` is defined. */
  predicate Sized(j: Json) {
    j.JStr? || j.JList? || j.JObj?
  }

  /** Python's type name, as it appears in TypeError and AttributeError texts. */
  function TypeName(j: Json): string {
    match j
    case JNull => "NoneType"
    case JBool(_) => "bool"
    case JInt(_) => "int"
    case JStr(_) => "str"
    case JList(_) => "list"
    case JObj(_) => "dict"
  }

  /** `d.get(k, default)` */
  function Get(d: Obj, k: string, default: Json): (r: Json)
    ensures k in d ==> r == d[k]
    ensures k !in d ==> r == default
  {
    if k in d then d[k] else default
  }

  /** `str(j)` for the scalar values; lists and dicts are rendered only
      by their brackets. */
  function Str(j: Json): string {
    match j
    case JNull => "None"
    case JBool(b) => if b then "True" else "False"
    case JInt(i) => IntToString(i)
    case JStr(s) => s
    case JList(_) => "[...]"
    case JObj(_) => "{...}"
  }

  /** A string-valued dict entry, or None when the key is absent or not a string. */
  function GetStr(d: Obj, k: string): (r: Option<string>)
    ensures r.Some? <==> k in d && d[k].JStr?
  {
    if k in d && d[k].JStr? then Some(d[k].s) else None
  }

  function OptStr(s: Option<string>): (r: Json)
    ensures s.None? <==> r == JNull
  {
    if s.Some? then JStr(s.value) else JNull
  }

  /** The `{"error": message, "status": "error"}` dict most tools return. */
  function ErrorResult(message: string): (r: Json)
    ensures r.JObj? && r.fields.Keys == {"error", "status"}
    ensures r.fields["status"] == JStr("error") && r.fields["error"] == JStr(message)
  {
    JObj(map["error" := JStr(message), "status" := JStr("error")])
  }

  /** The `{"result": value, "status": status}` dict most tools return on success. */
  function SuccessResult(value: Json, status: string): (r: Json)
    ensures r.JObj? && r.fields.Keys == {"result", "status"}
    ensures r.fields["result"] == value && r.fields["status"] == JStr(status)
  {
    JObj(map["result" := value, "status" := JStr(status)])
  }
}
