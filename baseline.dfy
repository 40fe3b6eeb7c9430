/** `establish_baseline` (dejavu.py:25-69): the stable projection of each parameter table,
    the placeholder substitution into the URL templates, and the gate on the two status
    codes. The calls themselves are outside the model: each backend's answer enters as its
    status code. */
module Baseline {
  import opened Failures
  import opened JsonValues
  import opened Text
  import opened Keywords
  import opened Validation
  import opened EndpointConfig
  import opened Configuration

  /** The status both baseline calls must return (dejavu.py:54). */
  const RequiredStatus := 200

  // ---------------------------------------------------------------------------
  // Stable projection (dejavu.py:26-30)

  /** One member of the comprehension: option 0 of the value, unless the KEY is a custom
      keyword, in which case that keyword's value for the backend. Options that are
      themselves keywords are passed on unresolved. */
  function StableValue(key: string, options: Json, custom: Object, inLegacy: bool): Result<Json>
  {
    if !HasKey(custom, key) then Index0(options) else KeywordCode(custom, key, inLegacy)
  }

  /** `get_stable_elements` on a dict: the same keys in the same order, each mapped to its
      stable value; the first member that raises ends the run. */
  function StableElements(table: Object, custom: Object, inLegacy: bool): (r: Result<Object>)
    ensures r.Ok? <==> forall i :: 0 <= i < |table| ==> StableValue(table[i].0, table[i].1, custom, inLegacy).Ok?
    ensures r.Ok? ==> |r.value| == |table| &&
                      forall i :: 0 <= i < |table| ==>
                        r.value[i].0 == table[i].0 &&
                        StableValue(table[i].0, table[i].1, custom, inLegacy) == Ok(r.value[i].1)
    decreases |table|
  {
    if table == [] then Ok([])
    else
      var v :- StableValue(table[0].0, table[0].1, custom, inLegacy);
      var rest :- StableElements(table[1..], custom, inLegacy);
      assert forall i :: 1 <= i < |table| ==> table[1..][i - 1] == table[i];
      Ok([(table[0].0, v)] + rest)
  }

  /** `get_stable_elements(t)` on any value: only a dict has `.items()`. */
  function StableOf(table: Json, custom: Object, inLegacy: bool): Result<Object>
  {
    if table.JObj? then StableElements(table.fields, custom, inLegacy) else Err(Raise(AttributeError))
  }

  /** The baseline value of every placeholder in a validated path table: a key that is a
      keyword takes its pair element for the backend, every other key its option 0. */
  function BaselinePath(path: Object, custom: Object, inLegacy: bool): (r: Object)
    requires CustomValid(custom) && PathValid(path, custom)
    ensures |r| == |path| && forall i :: 0 <= i < |path| ==> r[i].0 == path[i].0
  {
    seq(|path|, i requires 0 <= i < |path| =>
      (path[i].0, if HasKey(custom, path[i].0) then Get(custom, path[i].0).value.items[Side(inLegacy)]
                  else path[i].1.items[0]))
  }

  /** For a validated path table and keyword table, the projection never fails and yields
      the baseline value of every placeholder. */
  lemma StablePathIsBaselineOption(path: Object, custom: Object, inLegacy: bool)
    requires CustomValid(custom) && PathValid(path, custom)
    ensures StableElements(path, custom, inLegacy) == Ok(BaselinePath(path, custom, inLegacy))
  {
    var expected := BaselinePath(path, custom, inLegacy);
    forall i | 0 <= i < |path|
      ensures StableValue(path[i].0, path[i].1, custom, inLegacy) == Ok(expected[i].1)
    {
      assert PathEntryOk(path[i].0, path[i].1, custom);
      if HasKey(custom, path[i].0) {
        ResolvesToPairSide(custom, path[i].0, inLegacy);
      }
    }
    var r := StableElements(path, custom, inLegacy).value;
    assert forall i :: 0 <= i < |path| ==> r[i] == expected[i];
    assert r == expected;
  }

  /** Validation does not guarantee that the baseline can be built: a query or body table
      whose member has an empty option list passes the check, yet its option 0 raises
      IndexError; an empty list passes the check, yet it has no `.items()`. */
  lemma ValidatedTableMayNotProject(custom: Object, inLegacy: bool)
    requires CustomValid(custom)
    ensures CheckTable(JObj([("q", JArr([]))]), custom) == Pass
    ensures StableOf(JObj([("q", JArr([]))]), custom, inLegacy) == Err(Raise(IndexError))
    ensures CheckTable(JArr([]), custom) == Pass
    ensures StableOf(JArr([]), custom, inLegacy) == Err(Raise(AttributeError))
  {
  }

  // ---------------------------------------------------------------------------
  // URL substitution (dejavu.py:32-34, 43-45)

  /** The substitution loop's meaning: each placeholder in turn, every occurrence of it
      replaced by its stable value. `str.replace` raises TypeError on a value that is not
      a string. */
  function Substituted(url: string, stable: Object): (r: Result<string>)
    ensures r.Ok? <==> forall i :: 0 <= i < |stable| ==> stable[i].1.JStr?
    decreases |stable|
  {
    if stable == [] then Ok(url)
    else if !stable[0].1.JStr? then Err(Raise(TypeError))
    else
      assert forall i :: 1 <= i < |stable| ==> stable[1..][i - 1] == stable[i];
      Substituted(ReplaceAll(url, stable[0].0, stable[0].1.s), stable[1..])
  }

  /** The loop at dejavu.py:43-45, which reassigns the URL after each replacement. */
  method SubstitutePath(template: string, stable: Object) returns (r: Result<string>)
    ensures r == Substituted(template, stable)
  {
    var url := template;
    var i := 0;
    while i < |stable|
      invariant 0 <= i <= |stable|
      invariant Substituted(url, stable[i..]) == Substituted(template, stable)
    {
      var pathMatch, pathVariable := stable[i].0, stable[i].1;
      assert stable[i..][1..] == stable[i + 1..];
      if !pathVariable.JStr? {
        return Err(Raise(TypeError));
      }
      url := ReplaceAll(url, pathMatch, pathVariable.s);
      i := i + 1;
    }
    return Ok(url);
  }

  /** The loop at dejavu.py:32-34 as written: the result of each `replace` is discarded,
      so the URL stays the template; a value that is not a string still raises. */
  method LegacyUrlAsWritten(template: string, stable: Object) returns (r: Result<string>)
    ensures r.Ok? <==> forall i :: 0 <= i < |stable| ==> stable[i].1.JStr?
    ensures r.Ok? ==> r.value == template
  {
    var legacyUrl := template;
    var i := 0;
    while i < |stable|
      invariant 0 <= i <= |stable|
      invariant forall k :: 0 <= k < i ==> stable[k].1.JStr?
    {
      var pathMatch, pathVariable := stable[i].0, stable[i].1;
      if !pathVariable.JStr? {
        return Err(Raise(TypeError));
      }
      var _ := ReplaceAll(legacyUrl, pathMatch, pathVariable.s);
      i := i + 1;
    }
    return Ok(legacyUrl);
  }

  /** When no placeholder occurs in the template, substitution leaves it unchanged, so
      the source's legacy URL and the intended one agree. */
  lemma {:induction false} SubstitutedKeepsTemplateWithoutPlaceholders(url: string, stable: Object)
    requires forall i :: 0 <= i < |stable| ==> stable[i].1.JStr? && |stable[i].0| > 0 && !Occurs(url, stable[i].0)
    ensures Substituted(url, stable) == Ok(url)
    decreases |stable|
  {
    if stable != [] {
      ReplaceAbsent(url, stable[0].0, stable[0].1.s);
      assert forall i :: 1 <= i < |stable| ==> stable[1..][i - 1] == stable[i];
      SubstitutedKeepsTemplateWithoutPlaceholders(url, stable[1..]);
    }
  }

  /** A placeholder that does occur is replaced: the intended legacy URL for `/@ID` with
      `@ID` at `7` is `/7`, where the source sends `/@ID`. */
  lemma PlaceholderReplacedWhenIntended()
    ensures Substituted("/@ID", [("@ID", JStr("7"))]) == Ok("/7")
  {
    var s := "/@ID";
    assert s[..3] != "@ID" by { assert s[0] != '@'; }
    assert s[1..] == "@ID";
    assert ReplaceAll(s[1..], "@ID", "7") == "7" + ReplaceAll([], "@ID", "7");
    assert ReplaceAll(s, "@ID", "7") == "/7";
  }

  // ---------------------------------------------------------------------------
  // The baseline requests and the gate (dejavu.py:32-69)

  /** What `call_api` receives for one backend. */
  datatype Request = Request(url: string, headers: Json, query: Object, body: Object)

  datatype BaselineCalls = BaselineCalls(legacy: Request, migrated: Request)

  /** The stable request for one backend, evaluated in the source's order: path
      projection, substitution, query projection, body projection. Without a params file
      `params["path"]` raises KeyError. The legacy URL is the intended one: the
      substitution is assigned, with the legacy values. */
  function StableRequest(cfg: Config, inLegacy: bool): Result<Request>
  {
    if cfg.params.NoParams? then Err(Raise(KeyError))
    else
      var template := if inLegacy then cfg.endpoints.legacy else cfg.endpoints.migrated;
      var path :- StableElements(cfg.params.path, cfg.custom, inLegacy);
      var url :- Substituted(template, path);
      var query :- StableOf(cfg.params.query, cfg.custom, inLegacy);
      var body :- StableOf(cfg.body, cfg.custom, inLegacy);
      Ok(Request(url, cfg.headers, query, body))
  }

  /** The baseline's outcome given the two status codes the calls returned. */
  function BaselineOutcome(cfg: Config, legacyStatus: int, migratedStatus: int): Result<BaselineCalls>
  {
    var legacy :- StableRequest(cfg, true);
    var migrated :- StableRequest(cfg, false);
    if legacyStatus != RequiredStatus || migratedStatus != RequiredStatus then
      Err(Exit(BaselineRejected(legacyStatus, migratedStatus)))
    else Ok(BaselineCalls(legacy, migrated))
  }

  /** One of the two request-building blocks of `establish_baseline`, with the URL built
      by the substitution loop. */
  method BuildStableRequest(cfg: Config, inLegacy: bool) returns (r: Result<Request>)
    ensures r == StableRequest(cfg, inLegacy)
  {
    if cfg.params.NoParams? {
      return Err(Raise(KeyError));
    }
    var template := if inLegacy then cfg.endpoints.legacy else cfg.endpoints.migrated;
    var path := StableElements(cfg.params.path, cfg.custom, inLegacy);
    if path.Err? {
      return Err(path.failure);
    }
    var url := SubstitutePath(template, path.value);
    if url.Err? {
      return Err(url.failure);
    }
    var query := StableOf(cfg.params.query, cfg.custom, inLegacy);
    if query.Err? {
      return Err(query.failure);
    }
    var body := StableOf(cfg.body, cfg.custom, inLegacy);
    if body.Err? {
      return Err(body.failure);
    }
    return Ok(Request(url.value, cfg.headers, query.value, body.value));
  }

  /** What the stable request of a validated configuration is, and when it can be built:
      the backend's template with every placeholder replaced by its baseline value (which
      needs every baseline value to be a string), the configured headers, and the stable
      projections of the query and body tables (which need both to be objects whose
      members project). */
  lemma StableRequestContents(cfg: Config, inLegacy: bool)
    requires cfg.params.Params? && CustomValid(cfg.custom) && PathValid(cfg.params.path, cfg.custom)
    ensures var path := BaselinePath(cfg.params.path, cfg.custom, inLegacy);
            StableRequest(cfg, inLegacy).Ok? <==>
              (forall i :: 0 <= i < |path| ==> path[i].1.JStr?) &&
              StableOf(cfg.params.query, cfg.custom, inLegacy).Ok? &&
              StableOf(cfg.body, cfg.custom, inLegacy).Ok?
    ensures var path := BaselinePath(cfg.params.path, cfg.custom, inLegacy);
            var template := if inLegacy then cfg.endpoints.legacy else cfg.endpoints.migrated;
            var r := StableRequest(cfg, inLegacy);
            r.Ok? ==>
              r.value.url == Substituted(template, path).value &&
              r.value.headers == cfg.headers &&
              cfg.params.query.JObj? &&
              Ok(r.value.query) == StableElements(cfg.params.query.fields, cfg.custom, inLegacy) &&
              cfg.body.JObj? &&
              Ok(r.value.body) == StableElements(cfg.body.fields, cfg.custom, inLegacy)
  {
    StablePathIsBaselineOption(cfg.params.path, cfg.custom, inLegacy);
  }

  /** The legacy request as dejavu.py:32-41 builds it: the path values are projected for
      the migrated backend (`in_legacy=False`), each `replace` is evaluated and its result
      discarded, so only its TypeError survives, and the URL stays the legacy template. */
  function LegacyRequestAsWritten(cfg: Config): (r: Result<Request>)
    ensures r.Ok? ==> r.value.url == cfg.endpoints.legacy && r.value.headers == cfg.headers
    ensures r.Ok? <==>
              cfg.params.Params? &&
              StableElements(cfg.params.path, cfg.custom, false).Ok? &&
              (forall i :: 0 <= i < |cfg.params.path| ==> StableElements(cfg.params.path, cfg.custom, false).value[i].1.JStr?) &&
              StableOf(cfg.params.query, cfg.custom, true).Ok? &&
              StableOf(cfg.body, cfg.custom, true).Ok?
  {
    if cfg.params.NoParams? then Err(Raise(KeyError))
    else
      var path :- StableElements(cfg.params.path, cfg.custom, false);
      var discarded :- Substituted(cfg.endpoints.legacy, path);
      var query :- StableOf(cfg.params.query, cfg.custom, true);
      var body :- StableOf(cfg.body, cfg.custom, true);
      Ok(Request(cfg.endpoints.legacy, cfg.headers, query, body))
  }

  /** The `in_legacy=False` flag matters even though the result is discarded: with the
      keyword `$K` standing for `1` on the legacy side and `"2"` on the migrated side, and
      the placeholder `$K`, a valid configuration builds its legacy request as written,
      because the migrated value is a string, while the intended legacy request, which
      substitutes the legacy value, raises TypeError. */
  lemma LegacyFlagMatters()
    ensures var custom := [("$K", JArr([JNum(1), JStr("2")]))];
            var path := [("$K", JArr([JStr("x")]))];
            var cfg := Config(custom, Params(path, JObj([])), JObj([]), DefaultHeaders, Endpoints("/$K", "/$K", GET));
            CustomValid(custom) && PathValid(path, custom) &&
            LegacyRequestAsWritten(cfg) == Ok(Request("/$K", DefaultHeaders, [], [])) &&
            StableRequest(cfg, true) == Err(Raise(TypeError))
  {
    var custom := [("$K", JArr([JNum(1), JStr("2")]))];
    var path := [("$K", JArr([JStr("x")]))];
    assert HasKey(custom, "$K");
    assert KeywordCode(custom, "$K", false) == Ok(JStr("2"));
    assert KeywordCode(custom, "$K", true) == Ok(JNum(1));
  }

  method EstablishBaseline(cfg: Config, legacyStatus: int, migratedStatus: int) returns (r: Result<BaselineCalls>)
    ensures r == BaselineOutcome(cfg, legacyStatus, migratedStatus)
  {
    var legacy := BuildStableRequest(cfg, true);
    if legacy.Err? {
      return Err(legacy.failure);
    }
    var migrated := BuildStableRequest(cfg, false);
    if migrated.Err? {
      return Err(migrated.failure);
    }
    if legacyStatus != RequiredStatus || migratedStatus != RequiredStatus {
      return Err(Exit(BaselineRejected(legacyStatus, migratedStatus)));
    }
    return Ok(BaselineCalls(legacy.value, migrated.value));
  }

  /** The run goes on past the baseline exactly when both stable requests can be built and
      both backends answered 200; when the requests are built and either status differs,
      the run stops with both codes. */
  lemma BaselineGate(cfg: Config, legacyStatus: int, migratedStatus: int)
    ensures BaselineOutcome(cfg, legacyStatus, migratedStatus).Ok? <==>
            StableRequest(cfg, true).Ok? && StableRequest(cfg, false).Ok? &&
            legacyStatus == 200 && migratedStatus == 200
    ensures StableRequest(cfg, true).Ok? && StableRequest(cfg, false).Ok? &&
            (legacyStatus != 200 || migratedStatus != 200) ==>
            BaselineOutcome(cfg, legacyStatus, migratedStatus) == Err(Exit(BaselineRejected(legacyStatus, migratedStatus)))
  {
  }
}
