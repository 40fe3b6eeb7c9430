/** The endpoints object and the choice of HTTP verb (dejavu.py:163-182). */
module EndpointConfig {
  import opened Failures
  import opened JsonValues
  import opened Text

  /** The seven verbs; each stands for the `requests` function the script would call. */
  datatype Verb = GET | POST | PUT | DELETE | PATCH | OPTIONS | HEAD

  const ExpectedEndpointFields := ["legacy", "migrated", "method"]
  const ExpectedEndpointMethods := ["GET", "POST", "PUT", "DELETE", "PATCH", "OPTIONS", "HEAD"]

  function VerbName(v: Verb): string
  {
    match v
    case GET => "GET"
    case POST => "POST"
    case PUT => "PUT"
    case DELETE => "DELETE"
    case PATCH => "PATCH"
    case OPTIONS => "OPTIONS"
    case HEAD => "HEAD"
  }

  /** The `if method == ...: call_api = ...` chain. It selects a verb for exactly the names
      in the list the script checks against, and the selected verb carries that name. */
  function SelectVerb(name: string): (r: Option<Verb>)
    ensures r.Some? <==> name in ExpectedEndpointMethods
    ensures r.Some? ==> VerbName(r.value) == name
  {
    if name == "GET" then Some(GET)
    else if name == "POST" then Some(POST)
    else if name == "PUT" then Some(PUT)
    else if name == "DELETE" then Some(DELETE)
    else if name == "PATCH" then Some(PATCH)
    else if name == "OPTIONS" then Some(OPTIONS)
    else if name == "HEAD" then Some(HEAD)
    else None
  }

  /** Distinct verbs have distinct names, so each accepted name selects one call. */
  lemma VerbNamesDistinct(a: Verb, b: Verb)
    ensures VerbName(a) == VerbName(b) ==> a == b
    ensures SelectVerb(VerbName(a)) == Some(a)
  {
  }

  /** The method name is matched without regard to ASCII case: any spelling of a verb's
      name in upper- and lower-case letters selects that verb. */
  lemma VerbAcceptedInAnyCase(given: string, v: Verb)
    requires |given| == |VerbName(v)|
    requires forall i :: 0 <= i < |given| ==> SameLetterIgnoringCase(given[i], VerbName(v)[i])
    ensures Upper(given) in ExpectedEndpointMethods
    ensures SelectVerb(Upper(given)) == Some(v)
  {
    UpperIgnoresCase(given, VerbName(v));
    var name := VerbName(v);
    assert forall i :: 0 <= i < |name| ==> 'A' <= name[i] <= 'Z' by {
      match v
      case GET =>
      case POST =>
      case PUT =>
      case DELETE =>
      case PATCH =>
      case OPTIONS =>
      case HEAD =>
    }
    UpperKeepsCapitals(name);
    VerbNamesDistinct(v, v);
  }

  datatype Endpoints = Endpoints(legacy: string, migrated: string, verb: Verb)

  predicate AllStrings(o: Object)
  {
    forall i :: 0 <= i < |o| ==> o[i].1.JStr?
  }

  /** The evident meaning of dejavu.py:163-182, with `endpoints.keys()` at line 164. */
  function CheckEndpoints(endpoints: Json): Result<Endpoints>
  {
    if !endpoints.JObj? then Err(Raise(AttributeError))
    else if !HasFields(endpoints.fields, ExpectedEndpointFields) then Err(Exit(BadEndpointFields))
    else if !AllStrings(endpoints.fields) then Err(Exit(NonStringEndpoint))
    else
      assert HasKey(endpoints.fields, ExpectedEndpointFields[0]) &&
             HasKey(endpoints.fields, ExpectedEndpointFields[1]) &&
             HasKey(endpoints.fields, ExpectedEndpointFields[2]);
      var given := Get(endpoints.fields, "method").value.s;
      var name := Upper(given);
      if name !in ExpectedEndpointMethods then Err(Exit(UnsupportedMethod(given)))
      else
        Ok(Endpoints(Get(endpoints.fields, "legacy").value.s,
                     Get(endpoints.fields, "migrated").value.s,
                     SelectVerb(name).value))
  }

  /** dejavu.py:163-166 as written: with three members the second operand of `or` calls
      `endpoints.key()`, which a dict does not have, so it raises AttributeError; with any
      other number of members the script exits. */
  function CheckEndpointsAsWritten(endpoints: Json): Result<Endpoints>
  {
    if !endpoints.JObj? then Err(Raise(AttributeError))
    else if |endpoints.fields| != |ExpectedEndpointFields| then Err(Exit(BadEndpointFields))
    else Err(Raise(AttributeError))
  }

  /** As written, no endpoints file is ever accepted ... */
  lemma EndpointsRejectedAsWritten(endpoints: Json)
    ensures CheckEndpointsAsWritten(endpoints).Err?
  {
  }

  /** ... while the intended check accepts an ordinary one. */
  lemma EndpointsAcceptedWhenIntended()
    ensures CheckEndpoints(JObj([("legacy", JStr("http://old/")), ("migrated", JStr("http://new/")),
                                 ("method", JStr("get"))])).Ok?
  {
    var fields := [("legacy", JStr("http://old/")), ("migrated", JStr("http://new/")), ("method", JStr("get"))];
    assert fields[0].0 == "legacy" && fields[1].0 == "migrated" && fields[2].0 == "method";
    assert HasKey(fields, "legacy") && HasKey(fields, "migrated") && HasKey(fields, "method");
    assert HasFields(fields, ExpectedEndpointFields);
    assert Get(fields, "method") == Some(JStr("get"));
    assert Upper("get") == "GET";
  }

  /** The field check accepts exactly the objects with the three members `legacy`,
      `migrated` and `method`, in any order. */
  lemma EndpointFieldsExactly(o: Object)
    ensures HasFields(o, ExpectedEndpointFields) <==>
            |o| == 3 && {o[0].0, o[1].0, o[2].0} == {"legacy", "migrated", "method"}
  {
    assert "legacy" != "migrated" && "legacy" != "method" && "migrated" != "method" by {
      assert "legacy"[0] != "migrated"[0] && "legacy"[0] != "method"[0] && "migrated"[1] != "method"[1];
    }
    if HasFields(o, ExpectedEndpointFields) {
      assert HasKey(o, ExpectedEndpointFields[0]) && HasKey(o, ExpectedEndpointFields[1]) &&
             HasKey(o, ExpectedEndpointFields[2]);
      var i :| 0 <= i < |o| && o[i].0 == "legacy";
      var j :| 0 <= j < |o| && o[j].0 == "migrated";
      var k :| 0 <= k < |o| && o[k].0 == "method";
      assert {o[0].0, o[1].0, o[2].0} == {o[i].0, o[j].0, o[k].0};
    }
    if |o| == 3 && {o[0].0, o[1].0, o[2].0} == {"legacy", "migrated", "method"} {
      assert "legacy" in {o[0].0, o[1].0, o[2].0};
      assert "migrated" in {o[0].0, o[1].0, o[2].0};
      assert "method" in {o[0].0, o[1].0, o[2].0};
      assert HasKey(o, "legacy") && HasKey(o, "migrated") && HasKey(o, "method");
    }
  }

  predicate EndpointsOk(endpoints: Json)
  {
    endpoints.JObj? && |endpoints.fields| == 3 &&
    {endpoints.fields[0].0, endpoints.fields[1].0, endpoints.fields[2].0} == {"legacy", "migrated", "method"} &&
    AllStrings(endpoints.fields) &&
    Upper(Get(endpoints.fields, "method").value.s) in ExpectedEndpointMethods
  }

  /** An endpoints object is accepted exactly when it has the three string members and its
      upper-cased method is one of the seven verbs; the result carries the two URL
      templates and the verb with that name. */
  lemma EndpointsAccepted(endpoints: Json)
    ensures CheckEndpoints(endpoints).Ok? <==> EndpointsOk(endpoints)
    ensures CheckEndpoints(endpoints).Ok? ==>
            var e := CheckEndpoints(endpoints).value;
            Get(endpoints.fields, "legacy") == Some(JStr(e.legacy)) &&
            Get(endpoints.fields, "migrated") == Some(JStr(e.migrated)) &&
            VerbName(e.verb) == Upper(Get(endpoints.fields, "method").value.s)
  {
    if endpoints.JObj? {
      EndpointFieldsExactly(endpoints.fields);
      if HasFields(endpoints.fields, ExpectedEndpointFields) && AllStrings(endpoints.fields) {
        assert HasKey(endpoints.fields, ExpectedEndpointFields[0]) &&
               HasKey(endpoints.fields, ExpectedEndpointFields[1]) &&
               HasKey(endpoints.fields, ExpectedEndpointFields[2]);
      }
    }
  }
}
