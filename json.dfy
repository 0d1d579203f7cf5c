/** Decoded JSON values, as `json.loads` hands them to the tools.

    An object keeps its members in the order the decoder produced them
    (a Python dict remembers insertion order); its member names are distinct
    in every value the tools can see, although no function below relies on it.
    `JOther` stands for a host value of any other type: `json.loads` never
    produces one, but the library functions can be called with one directly. */
module JsonValues {
  import opened Wrappers

  datatype Json =
    | JObj(members: seq<(string, Json)>)
    | JArr(items: seq<Json>)
    | JStr(str: string)
    | JBool(b: bool)
    | JInt(n: int)
    | JFloat(x: real)     // only ever tagged, never computed on
    | JNull
    | JOther

  /** `obj[name]` on a dict: the value of the first member named `name`. */
  function Lookup(members: seq<(string, Json)>, name: string): (r: Option<Json>)
    ensures r.Some? <==> exists i :: 0 <= i < |members| && members[i].0 == name
    ensures r.Some? ==> exists i :: 0 <= i < |members| && members[i] == (name, r.value)
  {
    if members == [] then None
    else if members[0].0 == name then Some(members[0].1)
    else
      var r := Lookup(members[1..], name);
      assert forall i :: 1 <= i < |members| ==> members[i] == members[1..][i - 1];
      r
  }

  /** True when no `JOther` occurs anywhere in `v`. */
  predicate Supported(v: Json)
  {
    match v
    case JObj(ms) => forall i | 0 <= i < |ms| :: Supported(ms[i].1)
    case JArr(xs) => forall i | 0 <= i < |xs| :: Supported(xs[i])
    case JOther => false
    case _ => true
  }
}
