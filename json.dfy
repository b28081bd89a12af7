/** JSON-shaped values: the dictionaries and lists that the tools send to and read from the
    calendar and task services. */
module Json {

  datatype Json =
    | Null
    | Bool(b: bool)
    | Num(n: int)
    | Str(s: string)
    | Arr(items: seq<Json>)
    | Obj(fields: map<string, Json>)

  /** The errors Python raises when a value of the wrong shape is iterated or subscripted. */
  datatype PyError =
    | KeyError(key: string)   // a dictionary lookup whose key is absent
    | TypeError               // iterating a non-iterable, or subscripting a non-dictionary

  /** `d.get(key, default)` on a dictionary. */
  function Get(d: map<string, Json>, key: string, default: Json): (r: Json)
    ensures key in d ==> r == d[key]
    ensures key !in d ==> r == default
  {
    if key in d then d[key] else default
  }
}
