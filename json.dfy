/** Decoded JSON values, as the Python `json` module hands them to the task code. */
module Json {

  /**
   * One JSON value. `JNull` is Python's None, `JObj` a dict keyed by strings,
   * `JArr` a list. Numbers are kept as reals: the task never does arithmetic on them.
   */
  datatype Json =
    | JNull
    | JBool(b: bool)
    | JNum(n: real)
    | JStr(s: string)
    | JArr(items: seq<Json>)
    | JObj(fields: map<string, Json>)

  /**
   * Python's `d.get(key)` on a dict: the stored value, or None when the key is
   * absent. An explicit JSON null and a missing key are therefore indistinguishable.
   */
  function Get(fields: map<string, Json>, key: string): (v: Json)
    ensures v != JNull ==> key in fields && fields[key] == v
    ensures key !in fields ==> v == JNull
    ensures key in fields ==> v == fields[key]
  {
    if key in fields then fields[key] else JNull
  }
}
