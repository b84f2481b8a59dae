/**
 * The Python values the router and the accessor pass around: decoded JSON values
 * (what `json.loads` yields and what the response dictionaries hold), timestamps, and
 * the few renderings of the Python runtime the core depends on but does not define.
 */
module PyValues {
  import opened Wrappers

  /** A value as `json.loads` produces it; an object's keys are always strings. */
  datatype Json =
    | JNull
    | JBool(b: bool)
    | JInt(i: int)
    | JFloat(f: real)
    | JStr(s: string)
    | JArr(items: seq<Json>)
    | JObj(fields: map<string, Json>)

  /** A `datetime.datetime` as the control plane reports it (offset in seconds, if aware). */
  datatype DateTime = DateTime(
    year: int, month: int, day: int,
    hour: int, minute: int, second: int, microsecond: int,
    utcOffset: Option<int>)

  /**
   * The parts of the Python runtime the model leaves uninterpreted:
   * `isoformat` is `datetime.isoformat()`, `strOther` is `str()` on a JSON value
   * that is not a string (`None`, a bool, a number, a list or a dict), and
   * `unhashable` is the text of the TypeError raised when an unhashable value (a list
   * or a dict) is looked up as a dictionary key; its wording differs between
   * interpreter versions.
   */
  datatype Runtime = Runtime(
    isoformat: DateTime -> string,
    strOther: Json -> string,
    unhashable: Json -> string)

  /** Python `str()` (and f-string formatting) of a decoded JSON value: a string is itself. */
  function Str(rt: Runtime, v: Json): (r: string)
    ensures v.JStr? ==> r == v.s
  {
    if v.JStr? then v.s else rt.strOther(v)
  }

  /** The text of the AttributeError raised by reading attribute `attr` of `None`. */
  function NoneHasNo(attr: string): string
  {
    "'NoneType' object has no attribute '" + attr + "'"
  }

  /** A nullable string attribute as it lands in a response dictionary. */
  function NullableStr(o: Option<string>): (r: Json)
    ensures r == JNull <==> o.None?
    ensures o.Some? ==> r == JStr(o.value)
  {
    match o
    case None => JNull
    case Some(s) => JStr(s)
  }

  /** A nullable integer attribute as it lands in a response dictionary. */
  function NullableInt(o: Option<int>): (r: Json)
    ensures r == JNull <==> o.None?
    ensures o.Some? ==> r == JInt(o.value)
  {
    match o
    case None => JNull
    case Some(n) => JInt(n)
  }
}
