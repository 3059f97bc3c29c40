# Dart-aware DevTools front end: blackboxing, Dart scopes and console

This project is a Dafny model of the Dart-specific core of a fork of the
Chrome DevTools front end. It covers five parts.

- **Blackbox manager** (`front_end/bindings/BlackboxManager.js`). It keeps the
  user's list of "skip stack frames" URL patterns and a memo of URL decisions.
  - It builds the pattern that blackboxes one URL and edits the rule list when
    a URL is blackboxed or un-blackboxed.
  - For a script with a source map, it computes the run-length ranges
    (positions where the blackboxed state toggles) that are sent to the
    debugger.
  - It carves the `dart.throw` definition out of a blackboxed Dart SDK.
- **Dart scopes** (`front_end/sdk/DartScopes.js`). The chain of method,
  `this` and library scopes is turned into Dart-visible scopes: symbol-named
  and ignored members are removed, and private-field symbols are stripped to
  their names. The result is then put in the form the completion engine
  expects.
- **Dart evaluation** (`front_end/sdk/DartEval.js`). This covers:
  - rewriting `this` to `THIS` in expressions;
  - mapping library URLs to legacy module names;
  - the query string of the expression-compilation request;
  - the sorted list of visible qualified names;
  - the heuristic, remembered lookup of the current Dart library.
- **Console model** (`front_end/sdk/ConsoleModel.js`). This covers:
  - the message store with its per-runtime exception index and error and
    warning counters;
  - message construction defaults;
  - message equality, used for repeat collapsing;
  - message classification;
  - the receiver split used to route Dart console expressions.
- **Dart expression generator** (`front_end/sdk/DartSupport.js`). This is
  `$dartExpressionFor`: it turns a dotted Dart expression into page
  JavaScript, or hands it to JavaScript evaluation.

Module layout:

| file | module |
|---|---|
| `wrappers.dfy` | `Wrappers` (Option) |
| `strings.dfy` | `Strings` (string helpers shared by the modules) |
| `url_pattern.dfy` | `UrlPattern` |
| `blackbox_rules.dfy` | `BlackboxRules` |
| `blackbox_ranges.dfy` | `BlackboxRanges` |
| `blackbox_manager.dfy` | `BlackboxManagerModel` |
| `dart_scopes.dfy` | `DartScopes` |
| `dart_eval.dfy` | `DartEval` |
| `console_model.dfy` | `ConsoleModel` |
| `dart_support.dfy` | `DartSupport` |

The blackbox manager and the console model update their state in place. They
are classes whose methods state the whole new state, and they keep an
invariant:
- For the manager, every memoised URL decision equals the decision under the
  current rules.
- For the console, every exception-index entry points at a message of that
  runtime and exception id. The counters equal the number of counted
  messages until an exception is revoked whose indexed message is not, or
  is no longer, a counted error; see "Revoking an exception twice" below.

Outside services are parameters of the model:
- in the manager, an `Externals` value carries the regular-expression engine,
  the URL parser, `escapeForRegExp` and the URL `pathname`;
- the debugger's answer to `setBlackboxedRanges` is a boolean `accepted`;
- for the evaluation, `encodeURIComponent` in `_queryParameters`;
- for the console: the set of live worker targets, the `preserveConsoleLog`
  setting, `Date.now()`, and the runtime model's execution-context lookups.

Where the documented behaviour and the code differ, the model follows the
code:
- **Content scripts.** In `isBlackboxedURL`, the content-script short-circuit
  is not memoised, and a memoised `false` for the same URL wins over it
  (`BlackboxManager.js:118-127`).
- **The leading range.** The range computation emits `(0,0)` as a toggle
  whenever the first mapping sits at `(0,0)` and is blackboxed. A synthetic
  leading `(0,0)` is added only when the first mapping is elsewhere
  (`BlackboxManager.js:162-174`, `ThreeMappingExample`).
- **A blackboxed script.** A script whose own URL is blackboxed has its
  stored ranges cleared, not set (`BlackboxManager.js:153-159`).
- **The memo bound.** `isBlackboxedURL` never checks the memo's size. A
  global-object clear only runs `_clearCacheIfNeeded`, which empties the
  memo when it holds more than 1024 entries (`BlackboxManager.js:15-16`,
  `81-84`). `_globalObjectCleared`, which would empty it outright, is
  subscribed to no event (`BlackboxManager.js:312-316`). A pattern change
  empties it too. So `IsBlackboxedURL` lets the memo grow without bound
  between those events (`BlackboxManager.js:118-127`).
- **The position table.** The constructor never creates
  `_debuggerModelData` (`BlackboxManager.js:12-42`), so `_scriptPositions`,
  `_setScriptPositions` and `_globalObjectCleared` would fail with a
  `TypeError` on first use (`BlackboxManager.js:314`, `409-424`).
  `BlackboxManager.constructor` starts the table empty, which is the state
  these methods expect.
- **A stored empty range list** counts as present (`BlackboxManager.js:156`,
  `433`).
- **Dart SDK ranges.** `findAndBlackbox` yields line `-1` when `dart.throw`
  is on line 0 (`BlackboxManager.js:390`).
- **Message equality** is not symmetric. Only the left message's parameters
  decide whether parameters are compared (`ConsoleModel.js:721-735`,
  `EqualNotSymmetric`).
- **Revoking an exception twice** decrements the error count twice, because
  the index entry is kept and the level is not checked
  (`ConsoleModel.js:378-387`, `RevokedTwice`).
- **A console `clear` message** is stamped with the page-load number from
  before the increment it triggers (`ConsoleModel.js:344-346`).

## Model

| member | source | states |
|---|---|---|
| UrlPattern.SchemePrefix | front_end/bindings/BlackboxManager.js:486-493 | no prefix exactly for no scheme, http or https; otherwise `^scheme://` … `.*`, with the host and `\b` inserted for chrome-extension |
| UrlPattern.UrlToRegExpString | front_end/bindings/BlackboxManager.js:471-495 | about:blank and data URLs give ""; an unparsable URL gives `^escaped$`; otherwise "" exactly when there is no path component, folder or host, else prefix + escaped name + terminator, ending in `$` exactly when the URL ends with the name |
| UrlPattern.CanBlackboxExactly | front_end/bindings/BlackboxManager.js:209-212 | a URL has a pattern exactly when it is neither about:blank nor data and either does not parse or has a path component, folder or host |
| BlackboxRules.ActivePatterns | front_end/bindings/BlackboxManager.js:93-96 | the patterns sent are exactly the patterns of the enabled, non-empty rules, never "" and never more than the rules |
| BlackboxRules.ActivePatternsConcat | front_end/bindings/BlackboxManager.js:93-96 | the enabled patterns of two rule lists concatenate |
| BlackboxRules.EnabledPatterns | front_end/bindings/BlackboxManager.js:90-98 | the loop collects exactly the enabled patterns |
| BlackboxRules.FindRule | front_end/bindings/BlackboxManager.js:249-256 | the first rule with the pattern, or none exactly when no rule has it |
| BlackboxRules.EnableOrAppend | front_end/bindings/BlackboxManager.js:248-258 | the first rule with the pattern is enabled and nothing else changes, or a new enabled rule is appended |
| BlackboxRules.EnableOrAppendActivates | front_end/bindings/BlackboxManager.js:243-260 | after blackboxing, the URL's pattern is among the enabled patterns |
| BlackboxRules.Without | front_end/bindings/BlackboxManager.js:270-272 | the order-preserving rules without the pattern, keeping every other rule |
| BlackboxRules.RemoveAndDisable | front_end/bindings/BlackboxManager.js:270-283 | the URL's own rules are dropped and each remaining enabled rule whose valid regex matches the URL is disabled, others unchanged |
| BlackboxRules.RemoveAndDisableLeavesNoMatch | front_end/bindings/BlackboxManager.js:265-285 | after un-blackboxing, no enabled pattern matches the URL and its own pattern is gone |
| BlackboxRules.BlackboxThenUnblackbox | front_end/bindings/BlackboxManager.js:243-285 | blackboxing makes the URL's pattern active; un-blackboxing afterwards leaves it inactive |
| BlackboxRules.MissingDartRules | front_end/bindings/BlackboxManager.js:29-41 | the ng_zone and stack_zone patterns not yet present, added enabled, so both are present afterwards |
| BlackboxRules.MergeDartPatterns | front_end/bindings/BlackboxManager.js:29-42 | the setting becomes the old rules followed by the missing Dart rules |
| BlackboxRanges.TogglesFromConcat | front_end/bindings/BlackboxManager.js:169-174 | scanning two runs of mappings is scanning the first, then the second from the state it left |
| BlackboxRanges.TogglesFromParity | front_end/bindings/BlackboxManager.js:164-174 | an even number of toggles exactly when the final state is the initial one |
| BlackboxRanges.StateAfterLastMapping | front_end/bindings/BlackboxManager.js:169-174 | after the scan the state is the decision for the last mapping's source |
| BlackboxRanges.TogglesEncodeStatus | front_end/bindings/BlackboxManager.js:162-174 | the ranges up to mapping i are a prefix of all ranges, and their count is odd exactly when mapping i's source is blackboxed |
| BlackboxRanges.TogglesFromSubsequence | front_end/bindings/BlackboxManager.js:169-174 | every toggle is a mapping position, in mapping order |
| BlackboxRanges.TogglesSubsequence | front_end/bindings/BlackboxManager.js:162-174 | the ranges are an ordered selection of `(0,0)` and the mapping positions |
| BlackboxRanges.TogglesIncreasing | front_end/bindings/BlackboxManager.js:162-174 | strictly increasing mappings give strictly increasing ranges |
| BlackboxRanges.ThreeMappingExample | front_end/bindings/BlackboxManager.js:162-174 | sources A, B, A at (0,0), (1,0), (2,0) with only A blackboxed give ranges (0,0), (1,0), (2,0) |
| BlackboxRanges.RangesEqual | front_end/bindings/BlackboxManager.js:186-194 | true exactly when the two range lists are equal |
| BlackboxRanges.ClearStep | front_end/bindings/BlackboxManager.js:155-159 | stored ranges are cleared by sending `[]` and forgotten only if accepted; without stored ranges nothing is sent |
| BlackboxRanges.ApplyStep | front_end/bindings/BlackboxManager.js:176-178 | new ranges are sent only when they differ from the stored ones (missing counts as `[]`) and stored only if accepted |
| BlackboxRanges.ScriptStateStep | front_end/bindings/BlackboxManager.js:431-465 | unchanged positions send nothing; first empty positions store `[]` unsent; otherwise they are sent and stored if accepted, a refused first attempt storing `[]`; afterwards positions are always stored |
| BlackboxRanges.ReapplyIsNoOp | front_end/bindings/BlackboxManager.js:176-178 | applying, clearing or setting the same ranges again after acceptance sends nothing |
| BlackboxRanges.RefusalKeepsBaseline | front_end/bindings/BlackboxManager.js:156-157 | a refused request leaves the stored ranges as they were |
| BlackboxRanges.WithScriptPositions | front_end/bindings/BlackboxManager.js:419-424 | one script's positions are recorded under its model, creating the model's table, and every other entry is kept |
| BlackboxRanges.FindAndBlackbox | front_end/bindings/BlackboxManager.js:379-394 | none exactly when no line is the `dart.throw` line; otherwise ranges (0,0), (k-1,0), (k+6,0) for its first line k |
| BlackboxManagerModel.Store | front_end/bindings/BlackboxManager.js:176-178 | the script's ranges are set or removed and every other script's are kept |
| BlackboxManagerModel.Decide | front_end/bindings/BlackboxManager.js:124-125 | no URL is blackboxed when the setting yields no regular expression; otherwise a URL is blackboxed exactly when that expression tests it |
| BlackboxManagerModel.BlackboxManager.LookupIsDecision | front_end/bindings/BlackboxManager.js:118-127 | apart from the unmemoised content-script case, a lookup is the rule setting's decision |
| BlackboxManagerModel.BlackboxManager.constructor | front_end/bindings/BlackboxManager.js:12-42 | the setting gains the missing Dart patterns; empty memo, listeners and range tables, with the position table started empty although the code never creates it (see "The position table") |
| BlackboxManagerModel.BlackboxManager.AddChangeListener | front_end/bindings/BlackboxManager.js:48-50 | the listener set gains the listener, nothing else changes |
| BlackboxManagerModel.BlackboxManager.RemoveChangeListener | front_end/bindings/BlackboxManager.js:55-57 | the listener set loses the listener, nothing else changes |
| BlackboxManagerModel.BlackboxManager.ClearCacheIfNeeded | front_end/bindings/BlackboxManager.js:81-84 | the memo is emptied exactly when it holds more than 1024 URLs |
| BlackboxManagerModel.BlackboxManager.PatternChanged | front_end/bindings/BlackboxManager.js:287-288 | the memo is emptied, the rest kept |
| BlackboxManagerModel.BlackboxManager.IsBlackboxedURL | front_end/bindings/BlackboxManager.js:118-127 | a memoised answer is returned unchanged; a content script with skipping on is blackboxed without memoising; otherwise the regex decision is returned and memoised |
| BlackboxManagerModel.BlackboxManager.SetBlackboxPatterns | front_end/bindings/BlackboxManager.js:90-98 | the enabled patterns are what is sent to the debugger |
| BlackboxManagerModel.BlackboxManager.BlackboxURL | front_end/bindings/BlackboxManager.js:243-260 | no pattern changes nothing; otherwise the rule is enabled or appended, the pattern becomes active and the memo is emptied |
| BlackboxManagerModel.BlackboxManager.UnblackboxURL | front_end/bindings/BlackboxManager.js:265-285 | no pattern changes nothing; otherwise its rules go, matching rules are disabled, no active pattern matches the URL and the memo is emptied; when every URL the compiled setting tests is tested by some enabled, valid pattern (true of an alternation of the enabled patterns, whether it skips invalid ones or fails on them), the URL is no longer blackboxed |
| BlackboxManagerModel.BlackboxManager.SetSkipContentScripts | front_end/bindings/BlackboxManager.js:232-238 | the switch takes the value and the memo is emptied |
| BlackboxManagerModel.BlackboxManager.AnySourceBlackboxed | front_end/bindings/BlackboxManager.js:154 | true exactly when some source URL is blackboxed by the rules; only the memo grows |
| BlackboxManagerModel.BlackboxManager.ComputeRanges | front_end/bindings/BlackboxManager.js:162-174 | the ranges are the run-length toggles of the mappings under the rules |
| BlackboxManagerModel.BlackboxManager.UpdateScriptRanges | front_end/bindings/BlackboxManager.js:151-195 | a blackboxed script or one without blackboxed sources clears its ranges; otherwise the toggles are applied when they differ; an empty mapping list throws |
| BlackboxManagerModel.BlackboxManager.ScriptState | front_end/bindings/BlackboxManager.js:409-413 | positions are known exactly when the script's model and id are in the table |
| BlackboxManagerModel.BlackboxManager.SetScriptPositions | front_end/bindings/BlackboxManager.js:419-424 | the script's positions are recorded, every other entry kept |
| BlackboxManagerModel.BlackboxManager.SetScriptState | front_end/bindings/BlackboxManager.js:431-465 | the table follows `ScriptStateStep`, and the script has positions afterwards |
| BlackboxManagerModel.BlackboxManager.BlackboxDartSDK | front_end/bindings/BlackboxManager.js:351-395 | without a `dart.throw` line nothing happens; otherwise the SDK ranges go through the script-state step, which sets at most this script's entry of the position table and keeps every other entry |
| BlackboxManagerModel.BlackboxManager.AddScript | front_end/bindings/BlackboxManager.js:330-344 | no URLs: nothing; a non-SDK script gets `[(0,0)]` or `[]` by its URL decision; an SDK URL whose path ends in dart_sdk.js gets the SDK carve-out; other SDK-looking URLs nothing; the position table changes at most in this script's entry, and not at all without URLs; the memo keeps every entry it had |
| DartScopes.PropertyNamed | front_end/sdk/DartScopes.js:120-122 | the first property with the name, none exactly when no property has it |
| DartScopes.PropertiesWithoutSymbols | front_end/sdk/DartScopes.js:127-142 | the order-preserving properties whose names do not start with `Symbol(`, all of them kept |
| DartScopes.PropertiesWithoutSymbolsConcat | front_end/sdk/DartScopes.js:127-133 | the filter distributes over concatenation |
| DartScopes.Unsymbol | front_end/sdk/DartScopes.js:275-283 | a `Symbol(_…)` name loses its wrapper and its value; other properties unchanged |
| DartScopes.UnsymbolPrivateField | front_end/sdk/DartScopes.js:275-280 | `Symbol(_x)` becomes the valueless `_x` |
| DartScopes.UnsymbolAll | front_end/sdk/DartScopes.js:273-284 | each property is stripped in place, same length |
| DartScopes.IsIgnoredProperty | front_end/sdk/DartScopes.js:316-318 | no symbol-keyed property is ignored, so the two filters remove different properties |
| DartScopes.IsEmpty | front_end/sdk/DartScopes.js:295-297 | an empty scope stays empty through both filters; a non-empty one has a property |
| DartScopes.IsLibrary | front_end/sdk/DartScopes.js:373-378 | a library property has a value and is not the active library |
| DartScopes.WithoutIgnored | front_end/sdk/DartScopes.js:316-338 | exactly the properties not named `_is_…` or in the ignore set are kept |
| DartScopes.ToDartScope | front_end/sdk/DartScopes.js:270-292 | the stripped scope without symbols and ignored names; every remaining property is visible |
| DartScopes.ToDartScopeMembers | front_end/sdk/DartScopes.js:270-292 | a property is in the Dart scope exactly when it is the visible stripped form of an original property |
| DartScopes.ToDartScopeEmpty | front_end/sdk/DartScopes.js:270-302 | the Dart scope is empty exactly when no original property strips to a visible one |
| DartScopes.NewMethodScope | front_end/sdk/DartScopes.js:183-188 | a method scope keeps name and properties, and `self` is its first `this` property |
| DartScopes.MethodToDevtoolsForm | front_end/sdk/DartScopes.js:243-247 | the same properties in order, `this` replaced by the alias, no prefix |
| DartScopes.ToDevtoolsForm | front_end/sdk/DartScopes.js:342-344 | method scopes alias `this`; the `this` scope is prefixed `this`; library scopes by the active library name |
| DartScopes.AliasThisKeepsNames | front_end/sdk/DartScopes.js:243-247 | with the completion alias `this`, the devtools form keeps every property's name |
| DartScopes.OtherLibraries | front_end/sdk/DartScopes.js:418-421 | exactly the properties with an Object or Proxy value not named after the active library |
| DartScopes.ActiveLibrary | front_end/sdk/DartScopes.js:383-385 | the property named after the active library, none exactly when absent |
| DartScopes.ActiveLibraryNotOther | front_end/sdk/DartScopes.js:373-385 | the active library is never among the other libraries |
| DartScopes.NewJsScopeChain | front_end/sdk/DartScopes.js:13-27 | all but the last two scopes are method scopes and the second-last is the library; fewer than two scopes gives none |
| DartScopes.AllScopes | front_end/sdk/DartScopes.js:88-90 | method scopes, then the `this` scope, then the library scopes |
| DartScopes.ChainToDevtoolsForm | front_end/sdk/DartScopes.js:93-95 | each scope in that order in devtools form; method scopes unprefixed, the `this` scope prefixed `this` |
| DartEval.RewriteThis | front_end/sdk/DartEval.js:19-21 | the loop produces the whole-word `this` rewrite of the expression, a missing expression read as "" |
| DartEval.ThisRewrittenComplete | front_end/sdk/DartEval.js:19-21 | no whole-word `this` remains and characters outside a rewritten word are unchanged |
| DartEval.NoWholeWordThisAt | front_end/sdk/DartEval.js:19-21 | no position of the rewritten text starts a whole-word `this` |
| DartEval.AliasForThis | front_end/sdk/DartEval.js:25 | `this` exactly for completion, `THIS` otherwise |
| DartEval.UrlToLibrary | front_end/sdk/DartEval.js:233-245 | no or empty URL gives none; a package URL gives the text after its last `/` (the whole URL when there is none) up to its first `.`; a path loses `.dart` and has `/` replaced by `__` |
| DartEval.PackageUrlNamesFile | front_end/sdk/DartEval.js:235-238 | `package:…/name.ext` gives `name` |
| DartEval.PackageUrlNames | front_end/sdk/DartEval.js:235-238 | conversely, the text after the last `/` cut at the first `.` is the name of every package URL |
| DartEval.PackageUrlWithoutExtension | front_end/sdk/DartEval.js:236 | `package:a/b` gives `b` |
| DartEval.PackageUrlWithoutSlash | front_end/sdk/DartEval.js:236 | `package:foo.dart` gives `package:foo` |
| DartEval.PathUrlNamesPath | front_end/sdk/DartEval.js:241-244 | `path.dart` gives the path's segments joined by `__` |
| DartEval.UrlToLibraryExample | front_end/sdk/DartEval.js:232 | `package:whatever/my_file.dart` gives `my_file` |
| DartEval.SinglePieces | front_end/sdk/DartEval.js:156-159 | at most one piece per single parameter |
| DartEval.SinglePieceIsParameter | front_end/sdk/DartEval.js:156-159 | every piece is `name=encoded` for a present single parameter |
| DartEval.SinglePresentAppears | front_end/sdk/DartEval.js:156-159 | every present single parameter appears as its piece |
| DartEval.VariablePieces | front_end/sdk/DartEval.js:160-161 | one `property=encoded` piece per variable, in order |
| DartEval.QueryParameters | front_end/sdk/DartEval.js:150-163 | `?` followed by the pieces joined by `&` |
| DartEval.QueryParametersRoundTrip | front_end/sdk/DartEval.js:156-162 | when encoding produces no `&`, splitting the query at `&` gives back the pieces |
| DartEval.VariableNames | front_end/sdk/DartEval.js:274-292 | strictly sorted, duplicate-free names, exactly the prefixed or bare items of the environments |
| DartEval.ThirdSegment | front_end/sdk/DartEval.js:185 | the third dot segment, containing no dot |
| DartEval.FirstMarked | front_end/sdk/DartEval.js:183-184 | the first non-empty scope name starting with the library marker, none exactly when there is none |
| DartEval.Evaluation.constructor | front_end/sdk/DartEval.js:15-27 | the expression with `this` rewritten, the alias, and no remembered library |
| DartEval.Evaluation.CurrentLibrary | front_end/sdk/DartEval.js:171-201 | a remembered name is returned; otherwise the first marked scope name's library (the SDK gives null, unremembered), then the marked class name's, and otherwise a module lookup is needed |
| ConsoleModel.SplitReceiver | front_end/sdk/ConsoleModel.js:131-151 | the whole expression exactly when it has no `.` and no `[`; otherwise the text before the first of them and the text after it |
| ConsoleModel.EvaluatedExpression | front_end/sdk/ConsoleModel.js:279-309 | an expression with a leading space or no receiver is evaluated as given; otherwise through `window.$d(prefix,"suffix")` |
| ConsoleModel.NumberOr | front_end/sdk/ConsoleModel.js:581-588 | a missing or zero number gives the default |
| ConsoleModel.NonEmpty | front_end/sdk/ConsoleModel.js:579 | a missing or empty string gives none |
| ConsoleModel.ContextPrefix | front_end/sdk/ConsoleModel.js:600 | the longest `#`-free prefix of the context |
| ConsoleModel.NewMessage | front_end/sdk/ConsoleModel.js:570-601 | the constructor's defaults, the context id lookups for a zero id, and the context cut at its first `#` (a `#`-free prefix followed by `#` or the end) |
| ConsoleModel.IsEqualStackTraces | front_end/sdk/ConsoleModel.js:748-764 | equal exactly when both are absent, or frames agree on url, function, line and column with equal parents |
| ConsoleModel.IsEqual | front_end/sdk/ConsoleModel.js:714-741 | the loop computes the equality predicate |
| ConsoleModel.EqualReflexiveUnlessObject | front_end/sdk/ConsoleModel.js:714-741 | a message equals itself exactly when it has no live object parameter |
| ConsoleModel.EqualNotSymmetric | front_end/sdk/ConsoleModel.js:721-735 | a message without parameters equals one with none, but not conversely |
| ConsoleModel.EqualSymmetricWithoutLiveObjects | front_end/sdk/ConsoleModel.js:714-741 | with no live object parameter and parameters on both messages or on neither, equality holds in one direction exactly when it holds in the other |
| ConsoleModel.ScriptIdsIgnored | front_end/sdk/ConsoleModel.js:757-761 | renaming frames' script ids does not affect stack-trace equality |
| ConsoleModel.IsGroupMessage | front_end/sdk/ConsoleModel.js:668-672 | a group message is groupable whenever it is not a console call and not a JavaScript or network error |
| ConsoleModel.IsGroupStartMessage | front_end/sdk/ConsoleModel.js:677-680 | every group start is a group message, and the only group message that is not a start is the group end |
| ConsoleModel.IsErrorOrWarning | front_end/sdk/ConsoleModel.js:685-688 | outside violations, true exactly for the messages counted as a warning or an error |
| ConsoleModel.IsGroupable | front_end/sdk/ConsoleModel.js:693-701 | a groupable message is never a console call and never a counted JavaScript or network error |
| ConsoleModel.CountersCountErrorsAndWarnings | front_end/sdk/ConsoleModel.js:489-497 | the warning and error counts together equal the number of stored non-violation messages that are errors or warnings |
| ConsoleModel.ConsoleApiLevel | front_end/sdk/ConsoleModel.js:395-403 | debug is verbose, error and assert are errors, warning is a warning, everything else info |
| ConsoleModel.ConsoleApiCounting | front_end/sdk/ConsoleModel.js:393-417 | a console API message counts as an error exactly for error/assert calls and as a warning exactly for warning calls |
| ConsoleModel.WithEntry | front_end/sdk/ConsoleModel.js:350-357 | the runtime's table, created if missing, maps the exception id to the message; other runtimes kept |
| ConsoleModel.ConsoleModel.constructor | front_end/sdk/ConsoleModel.js:35-46 | no messages, empty index, zero counters and page load 0 |
| ConsoleModel.ConsoleModel.Clear | front_end/sdk/ConsoleModel.js:517-523 | messages, index and counters are emptied; the page load number is kept |
| ConsoleModel.ConsoleModel.ClearIfNecessary | front_end/sdk/ConsoleModel.js:431-435 | clears unless the log is preserved, and always advances the page load number |
| ConsoleModel.ConsoleModel.IncrementErrorWarningCount | front_end/sdk/ConsoleModel.js:489-500 | a non-violation warning or error raises its counter by one |
| ConsoleModel.ConsoleModel.AddMessage | front_end/sdk/ConsoleModel.js:340-360 | live worker messages are dropped; otherwise stamped, a console clear clears first, appended, indexed when it has a nonzero exception id, counted; invariant and counters kept |
| ConsoleModel.ConsoleModel.Record | front_end/sdk/ConsoleModel.js:348-358 | appended, indexed and counted, invariant kept |
| ConsoleModel.ConsoleModel.ExceptionRevoked | front_end/sdk/ConsoleModel.js:378-387 | an unknown exception changes nothing; otherwise errors drop by one and the message becomes info, the index entry staying |
| ConsoleModel.RevokedTwice | front_end/sdk/ConsoleModel.js:378-387 | revoking the same exception twice leaves errors at -1 while no message is an error |
| DartSupport.Fallback | front_end/sdk/DartSupport.js:32-34 | the log prefix followed by the expression and `;` |
| DartSupport.DartExpressionFor | front_end/sdk/DartSupport.js:23-67 | the two loops produce the fallback or the receiver lookup, one getter line per further component, and the closing text |
| DartSupport.FallbackKeepsExpression | front_end/sdk/DartSupport.js:29-36 | a component that is not identifier-like sends the expression, verbatim, to JavaScript |
| DartSupport.ComponentsRecoverExpression | front_end/sdk/DartSupport.js:37-38 | receiver and getters joined by dots give back the expression |
| DartSupport.EmptyComponentPasses | front_end/sdk/DartSupport.js:29-31 | `a..b` passes the check and reads getters `` and `b` |
| DartSupport.ReceiverOnly | front_end/sdk/DartSupport.js:37-66 | a plain identifier is only looked up, with no getter line |

## Left out

- Events and listeners. Model-listener registration, event dispatch, calls to
  the change listeners and `updateLocations` / `maybeLoadSourceMap` are left
  out. They are notifications with no state in this core.
- Asynchrony. The promise fan-out of `_patternChanged` (`BlackboxManager.js:289-302`)
  is not modelled: each debugger model's patterns and each script's ranges are
  separate operations (`SetBlackboxPatterns`, `UpdateScriptRanges`), and
  concurrent interleavings are not captured.
- Regular expressions, URL parsing, `escapeForRegExp`, `encodeURIComponent`
  and the `dart_sdk.js` pathname are function-valued parameters. Their own
  semantics are not modelled.
- `_blackboxDartSDK`'s network load is not modelled; the loaded text is a
  parameter. `_addScript` is reachable only through `_parsedScriptSource`,
  which no event is wired to (`BlackboxManager.js:321-324`).
- UI source-code wrappers (`isBlackboxedUISourceCode`, `blackboxUISourceCode`,
  `_uiSourceCodeURL`), `isBlackboxedRawLocation`, the debugger-model
  observers and `_globalObjectCleared` are not modelled: they forward to the
  modelled operations or to the debugger workspace.
- BlackboxManagerModel.BlackboxManager.UpdateScriptRanges: the stored ranges
  are keyed by model and script id instead of being a symbol on the script
  object.
- Remote evaluation in `DartEval.js` is left out: `environments`,
  `_bindings`, the compile URL and request, `_currentModuleId`, and the
  module-list lookup that ends `currentLibrary`. The last is returned as
  `NeedsModuleLookup`. `_makeEnvironment` is the `Environment` datatype.
- DartEval.VariableNames: it takes the environments as input instead of
  awaiting them. Its order is code-point order, which differs from UTF-16
  order only for characters outside the basic plane.
- Remote scope expansion in `DartScopes.js` (`expand`, `expanded`,
  `_expandThisLibrary`, `thisScope`, `_addThisIfMissing`,
  `toDartScopeChain`) needs remote property lists and page evaluation, so it
  is left out. The synchronous parts they use are modelled.
- ConsoleModel: the inlined page script (`ridiculousInline`), the remote
  evaluation calls, target wiring (`targetAdded`, `_initTarget`,
  `targetRemoved`), profile messages, `_exceptionThrown`'s text extraction and
  `_consoleAPICalled`'s message-text derivation are left out. They concern
  the protocol, not the store.
- ConsoleModel.ConsoleModel.AddMessage: messages are values. The level
  change on revocation rewrites the indexed position instead of an object
  shared with other holders, so aliasing is not captured.
- ConsoleModel.IsEqual: JavaScript's `===` on NaN and on distinct runtime
  objects is reduced to value equality on the modelled fields. The unset
  `request` field is left out.
- `groupCategoryKey`, the setters (`setOriginatingMessage`,
  `setExecutionContextId`, `setExceptionId`), `fromException` and the
  MessageSourceDisplayName table are simple field accessors and formatting,
  so they are left out.
- DartSupport.DartExpressionFor: the long page-side text pieces are a
  `Templates` parameter. `PageTemplates` holds the page's own text, and the
  generator is proved for every choice of pieces.
