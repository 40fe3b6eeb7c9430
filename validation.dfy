/** The checks the `__main__` block of dejavu.py runs on the custom keyword table, the
    `params` object and the `body` object (dejavu.py:104-151). Each check is a method with
    the source's loops and early exits, proved equal to a recursive function that returns
    the first failure; lemmas then say which inputs the function accepts. */
module Validation {
  import opened Failures
  import opened JsonValues
  import opened Text
  import opened Keywords

  // ---------------------------------------------------------------------------
  // The custom keyword table (dejavu.py:105-112)

  /** One entry of the custom table: the keyword is checked first, then its value. */
  function CheckCustomEntry(keyword: string, options: Json): (r: Outcome)
    ensures r == Pass <==> KeywordOk(keyword) && PairOk(options)
    ensures !KeywordOk(keyword) ==> r == Fail(Exit(BadKeyword(keyword)))
    ensures KeywordOk(keyword) && !PairOk(options) ==> r == Fail(Exit(BadCustomValue(keyword)))
  {
    if |keyword| < MinKeywordSize || keyword[0] != '$' then Fail(Exit(BadKeyword(keyword)))
    else if !options.JArr? || |options.items| != 2 then Fail(Exit(BadCustomValue(keyword)))
    else Pass
  }

  /** The custom table is checked entry by entry; the first bad entry ends the run. */
  function CheckCustom(custom: Object): Outcome
    decreases |custom|
  {
    if custom == [] then Pass
    else
      var e := CheckCustomEntry(custom[0].0, custom[0].1);
      if e.Fail? then e else CheckCustom(custom[1..])
  }

  method ValidateCustom(custom: Object) returns (r: Outcome)
    ensures r == CheckCustom(custom)
  {
    var i := 0;
    while i < |custom|
      invariant 0 <= i <= |custom|
      invariant CheckCustom(custom[i..]) == CheckCustom(custom)
    {
      var keyword, options := custom[i].0, custom[i].1;
      assert custom[i..][1..] == custom[i + 1..];
      if |keyword| < MinKeywordSize || keyword[0] != '$' {
        return Fail(Exit(BadKeyword(keyword)));
      }
      if !options.JArr? || |options.items| != 2 {
        return Fail(Exit(BadCustomValue(keyword)));
      }
      i := i + 1;
    }
    return Pass;
  }

  /** The table is accepted exactly when every keyword is `$`-prefixed, at least two
      characters long, and holds a list of exactly two values. */
  lemma {:induction false} CustomAccepted(custom: Object)
    ensures CheckCustom(custom) == Pass <==> CustomValid(custom)
    decreases |custom|
  {
    if custom != [] {
      CustomAccepted(custom[1..]);
      assert forall i :: 1 <= i < |custom| ==> custom[1..][i - 1] == custom[i];
    }
  }

  /** A rejection is the one the first offending entry produces; every entry before it
      is well formed. */
  lemma {:induction false} CustomRejectionIsFirstOffender(custom: Object)
    requires CheckCustom(custom).Fail?
    ensures exists j :: 0 <= j < |custom| && CustomValid(custom[..j]) &&
                        CheckCustomEntry(custom[j].0, custom[j].1) == CheckCustom(custom)
    decreases |custom|
  {
    if CheckCustomEntry(custom[0].0, custom[0].1).Pass? {
      CustomRejectionIsFirstOffender(custom[1..]);
      var j :| 0 <= j < |custom[1..]| && CustomValid(custom[1..][..j]) &&
               CheckCustomEntry(custom[1..][j].0, custom[1..][j].1) == CheckCustom(custom[1..]);
      assert custom[1..][j] == custom[j + 1];
      assert custom[..j + 1] == [custom[0]] + custom[1..][..j];
      assert CustomValid(custom[..j + 1]);
    } else {
      assert CustomValid(custom[..0]);
    }
  }

  // ---------------------------------------------------------------------------
  // Option lists (dejavu.py:132-135, 137-140, 148-151)

  /** A string option that starts with `$` must name a custom keyword. Options of other
      types are not inspected. An empty string is rejected: `option[0]` raises IndexError. */
  predicate OptionOk(option: Json, custom: Object)
  {
    option.JStr? ==> |option.s| > 0 && (option.s[0] == '$' ==> HasKey(custom, option.s))
  }

  function CheckOption(option: Json, custom: Object): (r: Outcome)
    ensures r == Pass <==> OptionOk(option, custom)
    ensures r.Fail? && option.JStr? && |option.s| > 0 ==> r == Fail(Exit(UndefinedKeyword(option.s)))
  {
    if option.JStr? && |option.s| == 0 then Fail(Raise(IndexError))
    else if option.JStr? && option.s[0] == '$' && !HasKey(custom, option.s) then Fail(Exit(UndefinedKeyword(option.s)))
    else Pass
  }

  function CheckOptions(options: seq<Json>, custom: Object): Outcome
    decreases |options|
  {
    if options == [] then Pass
    else
      var e := CheckOption(options[0], custom);
      if e.Fail? then e else CheckOptions(options[1..], custom)
  }

  /** The inner `for option in ...` loop shared by the path, query and body checks. */
  method ValidateOptions(options: seq<Json>, custom: Object) returns (r: Outcome)
    ensures r == CheckOptions(options, custom)
  {
    var i := 0;
    while i < |options|
      invariant 0 <= i <= |options|
      invariant CheckOptions(options[i..], custom) == CheckOptions(options, custom)
    {
      var option := options[i];
      assert options[i..][1..] == options[i + 1..];
      if option.JStr? && |option.s| == 0 {
        return Fail(Raise(IndexError));
      }
      if option.JStr? && option.s[0] == '$' && !HasKey(custom, option.s) {
        return Fail(Exit(UndefinedKeyword(option.s)));
      }
      i := i + 1;
    }
    return Pass;
  }

  lemma {:induction false} OptionsAccepted(options: seq<Json>, custom: Object)
    ensures CheckOptions(options, custom) == Pass <==>
            forall i :: 0 <= i < |options| ==> OptionOk(options[i], custom)
    decreases |options|
  {
    if options != [] {
      OptionsAccepted(options[1..], custom);
      assert forall i :: 1 <= i < |options| ==> options[1..][i - 1] == options[i];
    }
  }

  // ---------------------------------------------------------------------------
  // Path placeholders (dejavu.py:124-135)

  const MinPathAttrSize := 2

  /** A placeholder has at least two characters and every character after the first is
      upper case. The `@` that the diagnostic asks for is not checked: any first character
      is accepted. */
  predicate PathVariableOk(attr: string)
  {
    |attr| >= MinPathAttrSize && forall i :: 1 <= i < |attr| ==> IsUpper(attr[i])
  }

  /** The first character, `@` or not, never decides whether a placeholder is accepted:
      two placeholders that differ only there are accepted or rejected together. */
  lemma AtPrefixNotChecked(first: char, other: char, rest: string)
    ensures PathVariableOk([first] + rest) <==> PathVariableOk([other] + rest)
  {
    var a, b := [first] + rest, [other] + rest;
    assert a[1..] == rest && b[1..] == rest;
    forall i | 1 <= i < |a| ensures a[i] == rest[i - 1] {}
    forall i | 1 <= i < |b| ensures b[i] == rest[i - 1] {}
  }

  predicate PathEntryOk(attr: string, value: Json, custom: Object)
  {
    PathVariableOk(attr) && value.JArr? && |value.items| >= 1 &&
    forall i :: 0 <= i < |value.items| ==> OptionOk(value.items[i], custom)
  }

  predicate PathValid(path: Object, custom: Object)
  {
    forall i :: 0 <= i < |path| ==> PathEntryOk(path[i].0, path[i].1, custom)
  }

  function CheckPathEntry(attr: string, value: Json, custom: Object): Outcome
  {
    if |attr| < MinPathAttrSize || !(forall i :: 1 <= i < |attr| ==> IsUpper(attr[i])) then
      Fail(Exit(BadPathVariable(attr)))
    else if !value.JArr? || |value.items| < 1 then Fail(Exit(NoPathOptions(attr)))
    else CheckOptions(value.items, custom)
  }

  function CheckPath(path: Object, custom: Object): Outcome
    decreases |path|
  {
    if path == [] then Pass
    else
      var e := CheckPathEntry(path[0].0, path[0].1, custom);
      if e.Fail? then e else CheckPath(path[1..], custom)
  }

  method ValidatePath(path: Object, custom: Object) returns (r: Outcome)
    ensures r == CheckPath(path, custom)
  {
    var i := 0;
    while i < |path|
      invariant 0 <= i <= |path|
      invariant CheckPath(path[i..], custom) == CheckPath(path, custom)
    {
      var attr, value := path[i].0, path[i].1;
      assert path[i..][1..] == path[i + 1..];
      if |attr| < MinPathAttrSize || !(forall k :: 1 <= k < |attr| ==> IsUpper(attr[k])) {
        return Fail(Exit(BadPathVariable(attr)));
      }
      if !value.JArr? || |value.items| < 1 {
        return Fail(Exit(NoPathOptions(attr)));
      }
      var o := ValidateOptions(value.items, custom);
      if o.Fail? {
        return o;
      }
      i := i + 1;
    }
    return Pass;
  }

  lemma {:induction false} PathAccepted(path: Object, custom: Object)
    ensures CheckPath(path, custom) == Pass <==> PathValid(path, custom)
    decreases |path|
  {
    if path != [] {
      PathAccepted(path[1..], custom);
      if path[0].1.JArr? {
        OptionsAccepted(path[0].1.items, custom);
      }
      assert forall i :: 1 <= i < |path| ==> path[1..][i - 1] == path[i];
    }
  }

  // ---------------------------------------------------------------------------
  // Query and body tables (dejavu.py:136-140, 147-151): `for attr in t: for option in t[attr]`

  /** A value the inner loop can iterate, every element of which is an acceptable option. */
  predicate TableEntryOk(value: Json, custom: Object)
  {
    Iterated(value).Some? &&
    forall i :: 0 <= i < |Iterated(value).value| ==> OptionOk(Iterated(value).value[i], custom)
  }

  /** An object whose every value passes, or an empty list or string, over which the outer
      loop does not run at all. */
  predicate TableOk(table: Json, custom: Object)
  {
    table == JArr([]) || table == JStr([]) ||
    (table.JObj? && forall i :: 0 <= i < |table.fields| ==> TableEntryOk(table.fields[i].1, custom))
  }

  function CheckTableEntry(value: Json, custom: Object): Outcome
  {
    match Iterated(value)
    case None => Fail(Raise(TypeError))
    case Some(options) => CheckOptions(options, custom)
  }

  function CheckTableEntries(entries: Object, custom: Object): Outcome
    decreases |entries|
  {
    if entries == [] then Pass
    else
      var e := CheckTableEntry(entries[0].1, custom);
      if e.Fail? then e else CheckTableEntries(entries[1..], custom)
  }

  /** A non-empty list or string at the top raises TypeError: it is subscripted by its own
      elements. Numbers, booleans and null are not iterable. */
  function CheckTable(table: Json, custom: Object): Outcome
  {
    match table
    case JObj(fields) => CheckTableEntries(fields, custom)
    case JArr(items) => if items == [] then Pass else Fail(Raise(TypeError))
    case JStr(s) => if s == [] then Pass else Fail(Raise(TypeError))
    case _ => Fail(Raise(TypeError))
  }

  method ValidateTable(table: Json, custom: Object) returns (r: Outcome)
    ensures r == CheckTable(table, custom)
  {
    if !table.JObj? {
      return if table == JArr([]) || table == JStr([]) then Pass else Fail(Raise(TypeError));
    }
    var entries := table.fields;
    var i := 0;
    while i < |entries|
      invariant 0 <= i <= |entries|
      invariant CheckTableEntries(entries[i..], custom) == CheckTableEntries(entries, custom)
    {
      var value := entries[i].1;
      assert entries[i..][1..] == entries[i + 1..];
      var options := Iterated(value);
      if options.None? {
        return Fail(Raise(TypeError));
      }
      var o := ValidateOptions(options.value, custom);
      if o.Fail? {
        return o;
      }
      i := i + 1;
    }
    return Pass;
  }

  lemma {:induction false} TableEntriesAccepted(entries: Object, custom: Object)
    ensures CheckTableEntries(entries, custom) == Pass <==>
            forall i :: 0 <= i < |entries| ==> TableEntryOk(entries[i].1, custom)
    decreases |entries|
  {
    if entries != [] {
      TableEntriesAccepted(entries[1..], custom);
      if Iterated(entries[0].1).Some? {
        OptionsAccepted(Iterated(entries[0].1).value, custom);
      }
      assert forall i :: 1 <= i < |entries| ==> entries[1..][i - 1] == entries[i];
    }
  }

  lemma TableAccepted(table: Json, custom: Object)
    ensures CheckTable(table, custom) == Pass <==> TableOk(table, custom)
  {
    if table.JObj? {
      TableEntriesAccepted(table.fields, custom);
    }
  }

  // ---------------------------------------------------------------------------
  // The params object (dejavu.py:120-140)

  const ExpectedParamFields := ["path", "query"]

  /** The validated parameter space; NoParams when no params file was given, in which case
      the script keeps its empty dict. */
  datatype Params = NoParams | Params(path: Object, query: Json)

  function CheckParams(params: Json, custom: Object): Result<Params>
  {
    if !params.JObj? then Err(Raise(AttributeError))
    else if !HasFields(params.fields, ExpectedParamFields) then Err(Exit(BadParamsFields))
    else
      assert HasKey(params.fields, ExpectedParamFields[0]) && HasKey(params.fields, ExpectedParamFields[1]);
      var path := Get(params.fields, "path").value;
      var query := Get(params.fields, "query").value;
      if !path.JObj? then Err(Raise(AttributeError))
      else
        var p := CheckPath(path.fields, custom);
        if p.Fail? then Err(p.failure)
        else
          var q := CheckTable(query, custom);
          if q.Fail? then Err(q.failure)
          else Ok(Params(path.fields, query))
  }

  method ValidateParams(params: Json, custom: Object) returns (r: Result<Params>)
    ensures r == CheckParams(params, custom)
  {
    if !params.JObj? {
      return Err(Raise(AttributeError));
    }
    if !HasFields(params.fields, ExpectedParamFields) {
      return Err(Exit(BadParamsFields));
    }
    assert HasKey(params.fields, ExpectedParamFields[0]) && HasKey(params.fields, ExpectedParamFields[1]);
    var path := Get(params.fields, "path").value;
    var query := Get(params.fields, "query").value;
    if !path.JObj? {
      return Err(Raise(AttributeError));
    }
    var p := ValidatePath(path.fields, custom);
    if p.Fail? {
      return Err(p.failure);
    }
    var q := ValidateTable(query, custom);
    if q.Fail? {
      return Err(q.failure);
    }
    return Ok(Params(path.fields, query));
  }

  /** The field check accepts exactly the objects with the two members `path` and `query`,
      in either order. */
  lemma ParamFieldsExactly(o: Object)
    ensures HasFields(o, ExpectedParamFields) <==> |o| == 2 && {o[0].0, o[1].0} == {"path", "query"}
  {
    assert "path" != "query" by { assert "path"[0] != "query"[0]; }
    if HasFields(o, ExpectedParamFields) {
      assert HasKey(o, ExpectedParamFields[0]) && HasKey(o, ExpectedParamFields[1]);
      var i :| 0 <= i < |o| && o[i].0 == "path";
      var j :| 0 <= j < |o| && o[j].0 == "query";
      assert {o[0].0, o[1].0} == {o[i].0, o[j].0};
    }
    if |o| == 2 && {o[0].0, o[1].0} == {"path", "query"} {
      if o[0].0 == "path" {
        assert o[1].0 == "query";
      } else {
        assert o[1].0 == "path" && o[0].0 == "query";
      }
      assert HasKey(o, "path") && HasKey(o, "query");
    }
  }

  predicate ParamsOk(params: Json, custom: Object)
  {
    params.JObj? && |params.fields| == 2 &&
    {params.fields[0].0, params.fields[1].0} == {"path", "query"} &&
    Get(params.fields, "path").value.JObj? &&
    PathValid(Get(params.fields, "path").value.fields, custom) &&
    TableOk(Get(params.fields, "query").value, custom)
  }

  /** A params object is accepted exactly when it has the two members, its path table
      passes and its query table passes; the result holds those two tables. */
  lemma ParamsAccepted(params: Json, custom: Object)
    ensures CheckParams(params, custom).Ok? <==> ParamsOk(params, custom)
    ensures CheckParams(params, custom).Ok? ==>
            CheckParams(params, custom).value ==
            Params(Get(params.fields, "path").value.fields, Get(params.fields, "query").value)
  {
    if params.JObj? {
      ParamFieldsExactly(params.fields);
      if HasFields(params.fields, ExpectedParamFields) {
        assert HasKey(params.fields, ExpectedParamFields[0]) && HasKey(params.fields, ExpectedParamFields[1]);
        var path := Get(params.fields, "path").value;
        if path.JObj? {
          PathAccepted(path.fields, custom);
        }
        TableAccepted(Get(params.fields, "query").value, custom);
      }
    }
  }
}
