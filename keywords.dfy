/** Custom keywords: a `$`-prefixed token standing for one value on the legacy backend and
    another on the migrated one (dejavu.py:19-23, 105-112). */
module Keywords {
  import opened Failures
  import opened JsonValues

  const MinKeywordSize := 2

  /** A custom keyword is at least two characters long and starts with `$`. */
  predicate KeywordOk(keyword: string)
  {
    |keyword| >= MinKeywordSize && keyword[0] == '$'
  }

  /** A custom value is a list of exactly two elements: legacy first, migrated second. */
  predicate PairOk(options: Json)
  {
    options.JArr? && |options.items| == 2
  }

  /** Every entry of the custom table is a well-formed keyword with a pair of values. */
  predicate CustomValid(custom: Object)
  {
    forall i :: 0 <= i < |custom| ==> KeywordOk(custom[i].0) && PairOk(custom[i].1)
  }

  /** The position in a pair that a backend reads. */
  function Side(inLegacy: bool): nat
  {
    if inLegacy then 0 else 1
  }

  /** `get_keyword_code(keyword, in_legacy)`. The source writes `custom.keyword`, attribute
      access on a dict, which raises AttributeError on every call; this is the evident
      meaning `custom[keyword]`. A list yields its element for the backend (IndexError when
      the list is too short), any other value is returned unchanged, and a keyword missing
      from the table raises KeyError. */
  function KeywordCode(custom: Object, keyword: string, inLegacy: bool): (r: Result<Json>)
    ensures !HasKey(custom, keyword) ==> r == Err(Raise(KeyError))
    ensures HasKey(custom, keyword) && !Get(custom, keyword).value.JArr? ==> r == Ok(Get(custom, keyword).value)
    ensures HasKey(custom, keyword) && Get(custom, keyword).value.JArr? ==>
            var options := Get(custom, keyword).value.items;
            if Side(inLegacy) < |options| then r == Ok(options[Side(inLegacy)]) else r == Err(Raise(IndexError))
  {
    match Get(custom, keyword)
    case None => Err(Raise(KeyError))
    case Some(value) =>
      if value.JArr? then
        if Side(inLegacy) < |value.items| then Ok(value.items[Side(inLegacy)]) else Err(Raise(IndexError))
      else Ok(value)
  }

  /** In a validated table every keyword resolves, for legacy to element 0 of its pair and
      for migrated to element 1, whatever was resolved before. */
  lemma ResolvesToPairSide(custom: Object, keyword: string, inLegacy: bool)
    requires CustomValid(custom) && HasKey(custom, keyword)
    ensures PairOk(Get(custom, keyword).value)
    ensures inLegacy ==> KeywordCode(custom, keyword, inLegacy) == Ok(Get(custom, keyword).value.items[0])
    ensures !inLegacy ==> KeywordCode(custom, keyword, inLegacy) == Ok(Get(custom, keyword).value.items[1])
  {
    var i :| 0 <= i < |custom| && custom[i] == (keyword, Get(custom, keyword).value);
  }
}
