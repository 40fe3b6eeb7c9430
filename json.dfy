/** Parsed JSON values, as `json.load` hands them to the script, and the handful of
    Python operations the core applies to them. */
module JsonValues {
  import opened Failures

  datatype Option<T> = None | Some(value: T)

  /** A parsed JSON value. Object members keep their order in the file, and json.load
      never yields two members with the same key. Numbers, integral or not, take part in
      no rule of the core except "is not a string, a list or an object", so one case
      stands for all of them. */
  datatype Json =
    | JNull
    | JBool(b: bool)
    | JNum(n: int)
    | JStr(s: string)
    | JArr(items: seq<Json>)
    | JObj(fields: seq<(string, Json)>)

  /** A JSON object: a Python dict with its insertion order. */
  type Object = seq<(string, Json)>

  /** Dict lookup `o[k]`; None where Python raises KeyError. */
  function Get(o: Object, k: string): (r: Option<Json>)
    ensures r.Some? <==> exists i :: 0 <= i < |o| && o[i].0 == k
    ensures r.Some? ==> exists i :: 0 <= i < |o| && o[i] == (k, r.value)
    decreases |o|
  {
    if o == [] then None
    else if o[0].0 == k then Some(o[0].1)
    else
      var r := Get(o[1..], k);
      assert forall j :: 0 <= j < |o| - 1 ==> o[1..][j] == o[j + 1];
      r
  }

  /** Dict membership `k in o`. */
  predicate HasKey(o: Object, k: string)
  {
    Get(o, k).Some?
  }

  /** `len(o.keys()) == len(expected) and all(attr in o.keys() for attr in expected)`, the
      field test applied to the params and endpoints objects. */
  predicate HasFields(o: Object, expected: seq<string>)
  {
    |o| == |expected| && forall i :: 0 <= i < |expected| ==> HasKey(o, expected[i])
  }

  /** What a Python `for` loop visits in a value: the elements of a list, the one-character
      strings of a string, the keys of a dict; None where Python raises TypeError
      ("object is not iterable"). */
  function Iterated(v: Json): (r: Option<seq<Json>>)
    ensures r.Some? <==> v.JArr? || v.JStr? || v.JObj?
    ensures v.JArr? ==> r == Some(v.items)
    ensures v.JStr? ==> r.Some? && |r.value| == |v.s| && forall i :: 0 <= i < |v.s| ==> r.value[i] == JStr([v.s[i]])
    ensures v.JObj? ==> r.Some? && |r.value| == |v.fields| && forall i :: 0 <= i < |v.fields| ==> r.value[i] == JStr(v.fields[i].0)
  {
    match v
    case JArr(items) => Some(items)
    case JStr(s) => Some(seq(|s|, i requires 0 <= i < |s| => JStr([s[i]])))
    case JObj(fields) => Some(seq(|fields|, i requires 0 <= i < |fields| => JStr(fields[i].0)))
    case _ => None
  }

  /** Subscript `v[0]`: the first element of a list, the first character of a string.
      An empty list or string raises IndexError, a dict (whose keys are strings) KeyError,
      and a number, boolean or null TypeError. */
  function Index0(v: Json): (r: Result<Json>)
    ensures r.Ok? <==> (v.JArr? && |v.items| > 0) || (v.JStr? && |v.s| > 0)
    ensures v.JArr? && |v.items| > 0 ==> r == Ok(v.items[0])
    ensures v.JStr? && |v.s| > 0 ==> r == Ok(JStr([v.s[0]]))
  {
    match v
    case JArr(items) => if |items| > 0 then Ok(items[0]) else Err(Raise(IndexError))
    case JStr(s) => if |s| > 0 then Ok(JStr([s[0]])) else Err(Raise(IndexError))
    case JObj(_) => Err(Raise(KeyError))
    case _ => Err(Raise(TypeError))
  }
}
