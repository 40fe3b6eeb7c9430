# DejaVu configuration and baseline, in Dafny

DejaVu compares a legacy HTTP API with its migrated replacement. The script `dejavu.py` loads a declarative
configuration and validates it:

- a table of custom keywords (`$TOKEN` → `[legacy value, migrated value]`);
- a `params` object with path placeholders and query options;
- a `body` object of options;
- an optional headers object;
- an `endpoints` object naming the two URL templates and the HTTP method.

It then builds the baseline ("stable") request for each backend. The baseline uses option 0 of every
parameter, or a key's custom-keyword value for that backend. It substitutes the stable path values into
the URL templates, and the run goes on only if both backends answer 200.

The model has eight modules:

| file | module | what it holds |
|---|---|---|
| `failures.dfy` | `Failures` | how a run ends early: `Exit(reason)` for each `sys.exit()`, `Raise(exception)` for an uncaught Python exception |
| `json.dfy` | `JsonValues` | parsed JSON values; objects are ordered member lists; dict lookup, `for` iteration and `v[0]` as Python performs them |
| `text.dfy` | `Text` | `str.replace`, characterised by `str.split` / `str.join`; `str.upper`; `isupper` |
| `keywords.dfy` | `Keywords` | the keyword rules and `get_keyword_code` |
| `validation.dfy` | `Validation` | the custom, path, query, body and params checks |
| `endpoints.dfy` | `EndpointConfig` | the endpoints check and the verb dispatch |
| `configuration.dfy` | `Configuration` | the load sequence of the `__main__` block, producing one `Config` value in place of the script's globals |
| `baseline.dfy` | `Baseline` | `get_stable_elements`, the URL substitution loops and the status gate |

The validation loops and the URL substitution loop are methods with `while` loops, each proved equal to a
recursive function. Lemmas then characterise these functions: which inputs are accepted, what the projection
yields, and what replacement does.

How the source is read:

- The source uses attribute access on dicts in several places: `custom.keyword` (dejavu.py:20-23),
  `endpoints.legacy` / `endpoints.migrated` (32, 43) and `params.path` / `params.query` (33, 39, 44, 50).
  In Python each of these would raise AttributeError. The model reads them as the subscripts they evidently
  mean (`custom[keyword]`, `endpoints["legacy"]`, …).
- The gate demands exactly 200 from both backends (dejavu.py:54), not merely a success status that agrees.
- A `$`-prefixed option is accepted only when it names a custom keyword (dejavu.py:133, 138, 149). This code
  has no special tokens such as `$omit` and no range directives. The `@` of a path placeholder is never
  checked either.
- An empty string in an option list makes `option[0]` raise IndexError (dejavu.py:133, 138, 149). The model
  treats this as a rejection, `Raise(IndexError)`.
- Two defects are modelled both as written and as intended (see "## Findings"):
  - the `endpoints.key()` call at dejavu.py:164;
  - the discarded `replace` result at dejavu.py:33-34.

  The rest of the model uses the intended versions.

## Model

| member | source | states |
|---|---|---|
| `Keywords.KeywordCode` | dejavu.py:19-23 | a keyword absent from the table raises KeyError; a list value yields its element 0 for legacy and 1 for migrated (IndexError if too short); any other value is returned unchanged |
| `Keywords.ResolvesToPairSide` | dejavu.py:19-23 | in a validated table every keyword's value is a pair; legacy resolves to element 0 and migrated to element 1 |
| `Validation.CheckCustomEntry` | dejavu.py:107-112 | an entry passes iff the keyword is `$`-prefixed with length ≥ 2 and the value is a 2-element list; a bad keyword is reported before a bad value, each naming the keyword |
| `Validation.ValidateCustom` | dejavu.py:104-112 | the loop with early exit returns exactly the first failure of the entry-by-entry check |
| `Validation.CustomAccepted` | dejavu.py:105-112 | the custom table is accepted iff every entry has a well-formed keyword and a 2-element list value |
| `Validation.CustomRejectionIsFirstOffender` | dejavu.py:106-112 | a rejection is the error of the first bad entry, and every earlier entry is well formed |
| `Validation.CheckOption` | dejavu.py:133-135 | an option passes iff it is not a string, or it is a non-empty string that does not start with `$` or names a custom keyword; an undefined keyword is reported by name |
| `Validation.ValidateOptions` | dejavu.py:132-135 | the inner option loop returns exactly the first failing option's error |
| `Validation.OptionsAccepted` | dejavu.py:132-140 | an option list passes iff every option passes |
| `Validation.AtPrefixNotChecked` | dejavu.py:126-128 | the first character, `@` or not, never decides acceptance: two placeholders that differ only in it are accepted or rejected together |
| `Validation.ValidatePath` | dejavu.py:125-135 | the path loop (name, then list length, then options) returns exactly the first failure |
| `Validation.PathAccepted` | dejavu.py:124-135 | the path table is accepted iff every placeholder has ≥ 2 characters, all upper case after the first, and a non-empty option list of acceptable options |
| `Validation.ValidateTable` | dejavu.py:136-140 | the query/body double loop returns exactly the first failure, or TypeError for a value that cannot be iterated |
| `Validation.TableEntriesAccepted` | dejavu.py:147-151 | the members of a table pass iff each value is iterable and every element it yields is an acceptable option |
| `Validation.TableAccepted` | dejavu.py:136-151 | a query or body table is accepted iff it is an object whose members pass, or an empty list or string |
| `Validation.ValidateParams` | dejavu.py:119-140 | the params check, run in the source's order, returns the validated path and query tables or the first failure |
| `Validation.ParamFieldsExactly` | dejavu.py:120-123 | the field test passes iff the object has exactly the two members `path` and `query` |
| `Validation.ParamsAccepted` | dejavu.py:119-140 | params is accepted iff it has exactly those members, `path` is an object whose entries pass and `query` passes; the result holds those two tables |
| `EndpointConfig.SelectVerb` | dejavu.py:170-182 | the dispatch chain selects a verb iff the name is in the seven-verb list, and the verb selected carries that name |
| `EndpointConfig.VerbNamesDistinct` | dejavu.py:176-182 | distinct verbs have distinct names, and each verb's name selects that verb |
| `EndpointConfig.VerbAcceptedInAnyCase` | dejavu.py:171-172 | any upper/lower-case spelling of a verb name is accepted and selects that verb |
| `EndpointConfig.EndpointsRejectedAsWritten` | dejavu.py:163-166 | as written, every endpoints value is rejected (exit, or AttributeError from `endpoints.key()`) |
| `EndpointConfig.EndpointsAcceptedWhenIntended` | dejavu.py:163-182 | the intended check accepts an ordinary endpoints object |
| `EndpointConfig.EndpointFieldsExactly` | dejavu.py:163-166 | the intended field test passes iff the object has exactly the members `legacy`, `migrated`, `method` |
| `EndpointConfig.EndpointsAccepted` | dejavu.py:163-182 | endpoints is accepted iff it has exactly those three members, all strings, and the upper-cased method is one of the seven verbs; the result holds the two templates and the verb of that name |
| `Configuration.LoadConfig` | dejavu.py:101-184 | custom, params, body, headers and endpoints are loaded in that order; the first failure ends the load; an input whose option was not given (None) leaves the script's default |
| `Configuration.LoadAccepted` | dejavu.py:101-184 | a configuration is accepted iff every given file satisfies its rules; the headers file is never checked |
| `Configuration.AcceptedConfigValid` | dejavu.py:101-151 | an accepted configuration has a well-formed keyword table, and every `$` string option in path, query and body names a keyword |
| `Baseline.StableElements` | dejavu.py:26-30 | the projection succeeds iff every member's stable value does; the result has the same keys in the same order; each key maps to option 0, or to its keyword value when the key itself is a custom keyword |
| `Baseline.StablePathIsBaselineOption` | dejavu.py:26-30 | for validated tables the path projection never fails and equals the baseline table: the same keys, keyword keys mapped to their pair element for the backend, all other keys to their option 0 |
| `Baseline.ValidatedTableMayNotProject` | dejavu.py:26-30 | validation (dejavu.py:136-151) does not guarantee the baseline: a query or body `{"q": []}` passes the check but its projection raises IndexError, and `[]` passes but raises AttributeError |
| `Baseline.Substituted` | dejavu.py:43-45 | sequential substitution succeeds iff every stable path value is a string, since `replace` raises TypeError otherwise |
| `Baseline.SubstitutePath` | dejavu.py:43-45 | the loop that reassigns the URL yields the template with each placeholder in turn replaced everywhere by its stable value |
| `Baseline.LegacyUrlAsWritten` | dejavu.py:32-34 | the loop as written, on any projected table: the URL is the template unchanged, since every `replace` result is discarded, though a non-string value still raises TypeError |
| `Baseline.SubstitutedKeepsTemplateWithoutPlaceholders` | dejavu.py:43-45 | a template containing none of the placeholders is unchanged by substitution |
| `Baseline.PlaceholderReplacedWhenIntended` | dejavu.py:32-34 | with the result assigned, the legacy URL `/@ID` becomes `/7` for `@ID` = `7` |
| `Baseline.BuildStableRequest` | dejavu.py:43-52 | the request-building block, with the URL from the substitution loop, yields exactly the stable request characterised by `Baseline.StableRequestContents` |
| `Baseline.StableRequestContents` | dejavu.py:26-52 | for a validated keyword table and path table, the request builds iff every baseline path value is a string and the query and body tables project; it then holds the backend's template with the baseline values substituted, the configured headers, and the stable query and body (same keys, option 0 or keyword value) |
| `Baseline.LegacyRequestAsWritten` | dejavu.py:32-41 | as written, the legacy request builds iff params is given, the path projected with `in_legacy=False` has only string values and the legacy query and body project; its URL is then the legacy template unchanged |
| `Baseline.LegacyFlagMatters` | dejavu.py:32-34 | for a valid configuration with keyword `$K` = `[1, "2"]` and placeholder `$K`, the legacy request builds as written but the intended one raises TypeError |
| `Baseline.EstablishBaseline` | dejavu.py:25-69 | builds the legacy request, then the migrated request, then applies the status gate |
| `Baseline.BaselineGate` | dejavu.py:54-69 | the run proceeds iff both requests can be built and both status codes equal 200; otherwise it stops, reporting both codes |
| `Text.ReplaceIsJoinOfSplit` | dejavu.py:45 | `s.replace(p, r)` equals `r.join(s.split(p))` |
| `Text.SplitPiecesAreFree` | dejavu.py:45 | the pattern does not occur in any piece of the split |
| `Text.SplitJoinRoundTrip` | dejavu.py:45 | `p.join(s.split(p)) == s` |
| `Text.ReplaceBySelf` | dejavu.py:45 | replacing a pattern by itself changes nothing |
| `Text.ReplaceAbsent` | dejavu.py:45 | a string in which the pattern does not occur is unchanged by replace |
| `Text.UpperKeepsCapitals` | dejavu.py:171 | `upper()` leaves an ASCII capital word unchanged |
| `Text.UpperIgnoresCase` | dejavu.py:171 | `upper()` maps two ASCII words that differ only in case to the same string |

## Left out

- Argument parsing, file-existence checks and JSON reading (dejavu.py:78-99 and the `read_json` calls) are I/O. Each input arrives as a parsed value, or None when its option was not given. A missing or unparsable file is not modelled.
- The `requests` calls (dejavu.py:36-41, 47-52) are foreign network calls. Each backend's answer enters `EstablishBaseline` as its status code. The model does not capture that `requests` would refuse the `body=` keyword argument.
- The `print` diagnostics are terminal output. Only the reason of each `sys.exit()` is kept. The diagnostics at dejavu.py:59 and 66 call `get_stable_elements` without `in_legacy`, which would raise TypeError while the message is being built. The model reports `BaselineRejected` instead.
- `__main__` never calls `establish_baseline`. The model treats the baseline as a step that runs on a loaded configuration.
- `run_tests` and `generate_table` (dejavu.py:71-75) are empty. Range expansion, omit tokens, response diffing, latency checks and the result ledger have no code here.
- The module-level globals (dejavu.py:7-17) are replaced by one `Config` value that is passed explicitly.
- Validation.PathVariableOk: only `A`-`Z` count as upper case. Python's `isupper` also accepts non-ASCII capitals such as `É` or `Σ`, which the model rejects.
- Validation.CheckTable: a non-empty list or string at the top level of `query` or `body` makes the script index itself with its own elements. The model maps every such case to TypeError. A few contrived arrays would instead end with an undefined-keyword exit or an IndexError.
- Text.Upper: non-ASCII characters are kept as they are. The exceptions are the dotless i, the long s, the sharp s and the Latin ligatures U+FB00-U+FB06, whose upper-case forms are all ASCII. Every other non-ASCII character upper-cases to non-ASCII text. So whether the result is one of the seven verbs comes out the same, though the string itself may differ.
- JSON numbers are one case holding an integer (`JNum`). No rule of the core inspects a number, but a fractional baseline value such as `1.5` cannot be carried into the stable request with its value; the model keeps only that it is a number.
- JSON objects with repeated keys are not modelled. `json.load` keeps one member per key, and the model assumes the same.
- Before Python 3.12, the f-string at dejavu.py:173 (nested double quotes) stops the file from parsing at all. The model follows 3.12 and later.

## Findings

| source | as written | input that shows it | evidently intended | confidence | as-written member | corrected member |
|---|---|---|---|---|---|---|
| dejavu.py:164 | `endpoints.key()`: a dict has no `key` method, so an endpoints object with three members raises AttributeError, and with any other count the script exits; no configuration is ever accepted | `{"legacy": "http://old/", "migrated": "http://new/", "method": "get"}` | `endpoints.keys()`: accept exactly the members `legacy`, `migrated`, `method` | not executed; high | `EndpointConfig.EndpointsRejectedAsWritten` | `EndpointConfig.EndpointsAccepted` |
| dejavu.py:33-34 | `legacy_url.replace(path_match, path_variable)` discards its result, and the projection uses `in_legacy=False`, so the legacy backend gets the raw template | template `/@ID` with path `{"@ID": ["7"]}`: legacy is sent `/@ID`, migrated `/7` | `legacy_url = legacy_url.replace(...)` over the projection with `in_legacy=True`, as the migrated loop at 44-45 does for its side; the URL is then the template with the legacy baseline values substituted, and the build fails exactly when one of those is not a string. The flag alone changes the outcome: with `$K` = `[1, "2"]` and path `{"$K": ["x"]}` the written code builds the legacy request and the intended code raises TypeError (`Baseline.LegacyFlagMatters`) | not executed; high for the discarded result, medium for the flag | `Baseline.LegacyRequestAsWritten` | `Baseline.StableRequestContents` |
