/** The `__main__` block of dejavu.py (lines 101-184) minus its I/O: each optional input
    file arrives already parsed (None when its option was not given), is validated in the
    script's order, and the accepted values make up one configuration instead of the
    script's module-level globals (lines 7-17). */
module Configuration {
  import opened Failures
  import opened JsonValues
  import opened Keywords
  import opened Validation
  import opened EndpointConfig

  datatype Config = Config(custom: Object, params: Params, body: Json, headers: Json, endpoints: Endpoints)

  /** The headers the script sends when no headers file is given (dejavu.py:10-13). */
  const DefaultHeaders := JObj([("Content-Type", JStr("application/json")), ("Accept", JStr("application/json"))])

  function LoadCustom(custom: Option<Json>): Result<Object>
  {
    match custom
    case None => Ok([])
    case Some(JObj(fields)) =>
      var c := CheckCustom(fields);
      if c.Fail? then Err(c.failure) else Ok(fields)
    case Some(_) => Err(Raise(AttributeError))
  }

  function LoadParams(params: Option<Json>, custom: Object): Result<Params>
  {
    match params
    case None => Ok(NoParams)
    case Some(p) => CheckParams(p, custom)
  }

  function LoadBody(body: Option<Json>, custom: Object): Result<Json>
  {
    match body
    case None => Ok(JObj([]))
    case Some(b) =>
      var c := CheckTable(b, custom);
      if c.Fail? then Err(c.failure) else Ok(b)
  }

  /** Custom table, params, body, headers, endpoints: the first failure ends the run. */
  function Load(custom: Option<Json>, params: Option<Json>, body: Option<Json>,
                headers: Option<Json>, endpoints: Json): Result<Config>
  {
    var c :- LoadCustom(custom);
    var p :- LoadParams(params, c);
    var b :- LoadBody(body, c);
    var h := if headers.Some? then headers.value else DefaultHeaders;
    var e :- CheckEndpoints(endpoints);
    Ok(Config(c, p, b, h, e))
  }

  method LoadConfig(custom: Option<Json>, params: Option<Json>, body: Option<Json>,
                    headers: Option<Json>, endpoints: Json) returns (r: Result<Config>)
    ensures r == Load(custom, params, body, headers, endpoints)
  {
    var table: Object := [];
    if custom.Some? {
      if !custom.value.JObj? {
        return Err(Raise(AttributeError));
      }
      table := custom.value.fields;
      var c := ValidateCustom(table);
      if c.Fail? {
        return Err(c.failure);
      }
    }
    var ps := NoParams;
    if params.Some? {
      var p := ValidateParams(params.value, table);
      if p.Err? {
        return Err(p.failure);
      }
      ps := p.value;
    }
    var b := JObj([]);
    if body.Some? {
      var o := ValidateTable(body.value, table);
      if o.Fail? {
        return Err(o.failure);
      }
      b := body.value;
    }
    var h := DefaultHeaders;
    if headers.Some? {
      h := headers.value;
    }
    var e := CheckEndpoints(endpoints);
    if e.Err? {
      return Err(e.failure);
    }
    return Ok(Config(table, ps, b, h, e.value));
  }

  /** The declarative acceptance rules for the input files. */
  predicate InputsOk(custom: Option<Json>, params: Option<Json>, body: Option<Json>, endpoints: Json)
  {
    var table := if custom.Some? && custom.value.JObj? then custom.value.fields else [];
    (custom.Some? ==> custom.value.JObj? && CustomValid(table)) &&
    (params.Some? ==> ParamsOk(params.value, table)) &&
    (body.Some? ==> TableOk(body.value, table)) &&
    EndpointsOk(endpoints)
  }

  /** A configuration is accepted exactly when every given file satisfies its rules;
      the headers file is never inspected. */
  lemma LoadAccepted(custom: Option<Json>, params: Option<Json>, body: Option<Json>,
                     headers: Option<Json>, endpoints: Json)
    ensures Load(custom, params, body, headers, endpoints).Ok? <==> InputsOk(custom, params, body, endpoints)
  {
    var table := if custom.Some? && custom.value.JObj? then custom.value.fields else [];
    if custom.Some? && custom.value.JObj? {
      CustomAccepted(table);
    }
    if params.Some? {
      ParamsAccepted(params.value, table);
    }
    if body.Some? {
      TableAccepted(body.value, table);
    }
    EndpointsAccepted(endpoints);
  }

  /** An accepted configuration satisfies every rule: a well-formed keyword table, and in
      the path table, the query table and the body every string option beginning with `$`
      names one of its keywords. */
  lemma AcceptedConfigValid(custom: Option<Json>, params: Option<Json>, body: Option<Json>,
                                headers: Option<Json>, endpoints: Json, cfg: Config)
    requires Load(custom, params, body, headers, endpoints) == Ok(cfg)
    ensures CustomValid(cfg.custom)
    ensures cfg.params.Params? ==> PathValid(cfg.params.path, cfg.custom) && TableOk(cfg.params.query, cfg.custom)
    ensures TableOk(cfg.body, cfg.custom)
  {
    LoadAccepted(custom, params, body, headers, endpoints);
    if params.Some? {
      ParamsAccepted(params.value, cfg.custom);
    }
  }
}
