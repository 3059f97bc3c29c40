/** The blackbox manager: the rule list and the content-script switch, the
    memo of URL decisions, the listener set, the ranges stored on scripts
    and the per-debugger-model position table, with the operations that
    read and update them. Library code it calls (URL parsing, escaping for
    and compiling of regular expressions, `new URL`) is a record of function
    values; the debugger's answer to `setBlackboxedRanges` is an argument. */
module BlackboxManagerModel {
  import opened Wrappers
  import opened Strings
  import opened UrlPattern
  import opened BlackboxRules
  import opened BlackboxRanges

  /** The library code the manager calls. `compile` is `asRegExp` of the
      rule setting (None when it yields no regular expression); `test(p, u)`
      is `new RegExp(p).test(u)` and `valid(p)` says that constructor does
      not throw; `pathname` is `new URL(u).pathname`, None when it throws. */
  datatype Externals = Externals(
    parse: string -> ParsedUrl,
    escape: string -> string,
    compile: seq<PatternRule> -> Option<string>,
    valid: string -> bool,
    test: (string, string) -> bool,
    pathname: string -> Option<string>)

  /** The fields of a script the manager reads; "" stands for an absent URL. */
  datatype Script = Script(model: ModelId, scriptId: ScriptId, sourceURL: string, sourceMapURL: string, isContentScript: bool)

  /** The fields of a source map the manager reads. */
  datatype SourceMap = SourceMap(sourceURLs: seq<string>, mappings: seq<Mapping>)

  /** The ranges property that the manager keeps on each script object. */
  datatype ScriptKey = ScriptKey(model: ModelId, scriptId: ScriptId)

  function KeyOf(script: Script): ScriptKey {
    ScriptKey(script.model, script.scriptId)
  }

  /** How a step that may end in `setBlackboxedRanges` finished: the ranges
      it sent (None when it made no call), or a thrown error. */
  datatype Outcome = Done(sent: Option<seq<Position>>) | Thrown

  type ListenerId = nat

  /** Sizes above this make `_clearCacheIfNeeded` drop the whole memo. */
  const CacheLimit := 1024

  /** The rule setting's decision for a URL, without the memo: no URL is
      blackboxed when the setting yields no regular expression, and
      otherwise a URL is blackboxed exactly when that expression tests it. */
  function Decide(ext: Externals, rules: seq<PatternRule>): (decide: string -> bool)
    ensures ext.compile(rules).None? ==> forall url :: !decide(url)
    ensures ext.compile(rules).Some? ==> forall url :: decide(url) == ext.test(ext.compile(rules).value, url)
  {
    url => match ext.compile(rules)
           case None => false
           case Some(regex) => ext.test(regex, url)
  }

  /** What the model needs of `asRegExp`, which is not part of this model:
      a URL the compiled setting tests is tested by some enabled, valid
      pattern. An alternation of the enabled patterns has this property
      whether it skips the patterns `new RegExp` rejects or yields no
      regular expression as soon as one of them is rejected. */
  ghost predicate MatchesOnlyActivePatterns(ext: Externals) {
    forall rules: seq<PatternRule>, url: string ::
      Decide(ext, rules)(url) ==> exists p :: p in ActivePatterns(rules) && ext.valid(p) && ext.test(p, url)
  }

  /** The ranges property after a step stored `stored` (None deletes it). */
  function Store(ranges: map<ScriptKey, seq<Position>>, key: ScriptKey, stored: Option<seq<Position>>)
    : (r: map<ScriptKey, seq<Position>>)
    ensures stored.Some? ==> key in r && r[key] == stored.value
    ensures stored.None? ==> key !in r
    ensures forall k :: k != key ==> (k in r <==> k in ranges) && (k in r ==> r[k] == ranges[k])
  {
    if stored.Some? then ranges[key := stored.value] else ranges - {key}
  }

  class BlackboxManager {
    const ext: Externals
    var rules: seq<PatternRule>
    var skipContentScripts: bool
    var cache: map<string, bool>
    var listeners: set<ListenerId>
    var blackboxedRanges: map<ScriptKey, seq<Position>>
    var debuggerModelData: map<ModelId, map<ScriptId, seq<Position>>>

    /** Every memoised decision agrees with the rule setting. */
    ghost predicate Valid()
      reads this
    {
      forall url :: url in cache ==> cache[url] == Decide(ext, rules)(url)
    }

    /** What `isBlackboxedURL` answers in the current state. */
    function Lookup(url: string, isContentScript: bool): bool
      reads this
    {
      if url in cache then cache[url]
      else (isContentScript && skipContentScripts) || Decide(ext, rules)(url)
    }

    function StoredRanges(script: Script): Option<seq<Position>>
      reads this
    {
      if KeyOf(script) in blackboxedRanges then Some(blackboxedRanges[KeyOf(script)]) else None
    }

    /** Under the memo invariant, a lookup that is not a content script
        with the skip switch on is the rule setting's decision. */
    lemma LookupIsDecision(url: string, isContentScript: bool)
      requires Valid()
      ensures Lookup(url, isContentScript) == Decide(ext, rules)(url)
           || (url !in cache && isContentScript && skipContentScripts)
      ensures !(isContentScript && skipContentScripts) ==> Lookup(url, isContentScript) == Decide(ext, rules)(url)
    {
    }

    /** The constructor: the memo and the tables start empty and the default
        Dart patterns are merged into the rule setting. */
    constructor(ext: Externals, settingRules: seq<PatternRule>, skipContentScripts: bool)
      ensures this.ext == ext && this.skipContentScripts == skipContentScripts
      ensures rules == settingRules + MissingDartRules(settingRules)
      ensures cache == map[] && listeners == {}
      ensures blackboxedRanges == map[] && debuggerModelData == map[]
      ensures Valid()
    {
      this.ext := ext;
      this.skipContentScripts := skipContentScripts;
      var merged := MergeDartPatterns(settingRules);
      rules := merged;
      cache := map[];
      listeners := {};
      blackboxedRanges := map[];
      debuggerModelData := map[];
    }

    method AddChangeListener(listener: ListenerId)
      modifies this
      ensures listeners == old(listeners) + {listener}
      ensures rules == old(rules) && skipContentScripts == old(skipContentScripts) && cache == old(cache)
      ensures blackboxedRanges == old(blackboxedRanges) && debuggerModelData == old(debuggerModelData)
    {
      listeners := listeners + {listener};
    }

    method RemoveChangeListener(listener: ListenerId)
      modifies this
      ensures listeners == old(listeners) - {listener}
      ensures rules == old(rules) && skipContentScripts == old(skipContentScripts) && cache == old(cache)
      ensures blackboxedRanges == old(blackboxedRanges) && debuggerModelData == old(debuggerModelData)
    {
      listeners := listeners - {listener};
    }

    /** `_clearCacheIfNeeded`: the memo is emptied exactly when it holds more
        than CacheLimit entries. */
    method ClearCacheIfNeeded()
      requires Valid()
      modifies this
      ensures Valid()
      ensures cache == if |old(cache)| > CacheLimit then map[] else old(cache)
      ensures |cache| <= CacheLimit || cache == old(cache)
      ensures rules == old(rules) && skipContentScripts == old(skipContentScripts) && listeners == old(listeners)
      ensures blackboxedRanges == old(blackboxedRanges) && debuggerModelData == old(debuggerModelData)
    {
      if |cache| > CacheLimit {
        cache := map[];
      }
    }

    /** The synchronous first step of `_patternChanged`, run whenever either
        setting changes: the memo is emptied. */
    method PatternChanged()
      modifies this
      ensures cache == map[] && Valid()
      ensures rules == old(rules) && skipContentScripts == old(skipContentScripts) && listeners == old(listeners)
      ensures blackboxedRanges == old(blackboxedRanges) && debuggerModelData == old(debuggerModelData)
    {
      cache := map[];
    }

    /** `isBlackboxedURL`: a memoised URL answers from the memo; otherwise a
        content script with the skip switch on answers true without being
        memoised; otherwise the rule setting decides and the answer is
        memoised. */
    method IsBlackboxedURL(url: string, isContentScript: bool) returns (blackboxed: bool)
      requires Valid()
      modifies this
      ensures Valid()
      ensures blackboxed == old(Lookup(url, isContentScript))
      ensures url in old(cache) ==> cache == old(cache)
      ensures url !in old(cache) && isContentScript && skipContentScripts ==> blackboxed && cache == old(cache)
      ensures url !in old(cache) && !(isContentScript && skipContentScripts) ==>
        blackboxed == Decide(ext, rules)(url) && cache == old(cache)[url := blackboxed]
      ensures rules == old(rules) && skipContentScripts == old(skipContentScripts) && listeners == old(listeners)
      ensures blackboxedRanges == old(blackboxedRanges) && debuggerModelData == old(debuggerModelData)
    {
      if url in cache {
        return cache[url];
      }
      if isContentScript && skipContentScripts {
        return true;
      }
      var regex := ext.compile(rules);
      blackboxed := regex.Some? && ext.test(regex.value, url);
      cache := cache[url := blackboxed];
    }

    /** `_setBlackboxPatterns`: the patterns sent to a debugger model. */
    method SetBlackboxPatterns() returns (patterns: seq<string>)
      ensures patterns == ActivePatterns(rules)
    {
      patterns := EnabledPatterns(rules);
    }

    /** `_blackboxURL`: a URL without a pattern of its own changes nothing;
        otherwise its pattern is enabled or appended, which empties the memo. */
    method BlackboxURL(url: string)
      requires Valid()
      modifies this
      ensures Valid()
      ensures var pattern := UrlToRegExpString(url, ext.parse(url), ext.escape);
        if pattern == "" then rules == old(rules) && cache == old(cache)
        else
          cache == map[] && pattern in ActivePatterns(rules) &&
          (FindRule(old(rules), pattern).None? ==> rules == old(rules) + [PatternRule(pattern, false)]) &&
          (FindRule(old(rules), pattern).Some? ==>
             var k := FindRule(old(rules), pattern).value;
             |rules| == |old(rules)| && rules[k] == PatternRule(pattern, false) &&
             forall i :: 0 <= i < |rules| && i != k ==> rules[i] == old(rules)[i])
      ensures skipContentScripts == old(skipContentScripts) && listeners == old(listeners)
      ensures blackboxedRanges == old(blackboxedRanges) && debuggerModelData == old(debuggerModelData)
    {
      var pattern := UrlToRegExpString(url, ext.parse(url), ext.escape);
      if pattern == "" {
        return;
      }
      var edited := EnableOrAppend(rules, pattern);
      EnableOrAppendActivates(rules, pattern, edited);
      rules := edited;
      PatternChanged();
    }

    /** `_unblackboxURL`: a URL without a pattern of its own changes nothing;
        otherwise the rules with its pattern are removed and the remaining
        rules that match it are disabled, which empties the memo. */
    method UnblackboxURL(url: string)
      requires Valid()
      modifies this
      ensures Valid()
      ensures var pattern := UrlToRegExpString(url, ext.parse(url), ext.escape);
        if pattern == "" then rules == old(rules) && cache == old(cache)
        else
          var kept := Without(old(rules), pattern);
          cache == map[] && |rules| == |kept| &&
          (forall i :: 0 <= i < |rules| ==>
             rules[i].pattern == kept[i].pattern &&
             rules[i].disabled == (kept[i].disabled || (ext.valid(kept[i].pattern) && ext.test(kept[i].pattern, url)))) &&
          pattern !in ActivePatterns(rules) &&
          (forall p :: p in ActivePatterns(rules) ==> !(ext.valid(p) && ext.test(p, url))) &&
          (MatchesOnlyActivePatterns(ext) ==> !Decide(ext, rules)(url))
      ensures skipContentScripts == old(skipContentScripts) && listeners == old(listeners)
      ensures blackboxedRanges == old(blackboxedRanges) && debuggerModelData == old(debuggerModelData)
    {
      var pattern := UrlToRegExpString(url, ext.parse(url), ext.escape);
      if pattern == "" {
        return;
      }
      var edited := RemoveAndDisable(rules, pattern, url, ext.valid, ext.test);
      RemoveAndDisableLeavesNoMatch(rules, pattern, url, ext.valid, ext.test, edited);
      rules := edited;
      PatternChanged();
    }

    /** `blackboxContentScripts` and `unblackboxContentScripts`: set the
        switch, which empties the memo. */
    method SetSkipContentScripts(skip: bool)
      modifies this
      ensures skipContentScripts == skip && cache == map[] && Valid()
      ensures rules == old(rules) && listeners == old(listeners)
      ensures blackboxedRanges == old(blackboxedRanges) && debuggerModelData == old(debuggerModelData)
    {
      skipContentScripts := skip;
      PatternChanged();
    }

    /** Only the memo changed, and only by gaining entries. */
    twostate predicate OnlyMemoGrew()
      reads this
    {
      (forall url :: url in old(cache) ==> url in cache && cache[url] == old(cache)[url]) &&
      rules == old(rules) && skipContentScripts == old(skipContentScripts) && listeners == old(listeners) &&
      blackboxedRanges == old(blackboxedRanges) && debuggerModelData == old(debuggerModelData)
    }

    /** `sourceMap.sourceURLs().some(url => this.isBlackboxedURL(url))`. */
    method AnySourceBlackboxed(urls: seq<string>) returns (found: bool)
      requires Valid()
      modifies this
      ensures Valid() && OnlyMemoGrew()
      ensures found <==> exists url :: url in urls && Decide(ext, rules)(url)
    {
      var i := 0;
      while i < |urls|
        invariant 0 <= i <= |urls| && Valid() && OnlyMemoGrew()
        invariant forall j :: 0 <= j < i ==> !Decide(ext, rules)(urls[j])
      {
        var b := IsBlackboxedURL(urls[i], false);
        if b {
          return true;
        }
        i := i + 1;
      }
      return false;
    }

    /** The range loop of `_updateScriptRanges`: the run-length toggles of
        the mappings under the rule setting. */
    method ComputeRanges(mappings: seq<Mapping>) returns (newRanges: seq<Position>)
      requires Valid() && |mappings| > 0
      modifies this
      ensures Valid() && OnlyMemoGrew()
      ensures newRanges == Toggles(mappings, Decide(ext, rules))
    {
      ghost var blackboxed := Decide(ext, rules);
      newRanges := [];
      var current := false;
      if mappings[0].line != 0 || mappings[0].column != 0 {
        newRanges := [Position(0, 0)];
        current := true;
      }
      var i := 0;
      while i < |mappings|
        invariant 0 <= i <= |mappings| && Valid() && OnlyMemoGrew()
        invariant newRanges + TogglesFrom(mappings[i..], current, blackboxed) == Toggles(mappings, blackboxed)
      {
        assert mappings[i..][1..] == mappings[i + 1..];
        var mapping := mappings[i];
        if mapping.sourceURL != "" {
          var b := IsBlackboxedURL(mapping.sourceURL, false);
          if current != b {
            newRanges := newRanges + [At(mapping)];
            current := !current;
          }
        }
        i := i + 1;
      }
    }

    /** `_updateScriptRanges` for one script, its source map (None when it
        was detached) and the debugger's answer to `setBlackboxedRanges`.
        A script that is itself blackboxed, or whose source map has no
        blackboxed source, has its stored ranges cleared; otherwise the
        run-length ranges of the mappings are applied when they differ from
        the stored ones. An empty mapping list there throws. */
    method UpdateScriptRanges(script: Script, sourceMap: Option<SourceMap>, accepted: bool) returns (outcome: Outcome)
      requires Valid()
      modifies this
      ensures Valid()
      ensures forall url :: url in old(cache) ==> url in cache && cache[url] == old(cache)[url]
      ensures rules == old(rules) && skipContentScripts == old(skipContentScripts) && listeners == old(listeners)
      ensures debuggerModelData == old(debuggerModelData)
      ensures var prev := old(StoredRanges(script));
        var hasBlackboxedMappings := !old(Lookup(script.sourceURL, script.isContentScript)) && sourceMap.Some? &&
          exists url :: url in sourceMap.value.sourceURLs && Decide(ext, rules)(url);
        if !hasBlackboxedMappings then
          var step := ClearStep(prev, accepted);
          outcome == Done(step.sent) && blackboxedRanges == Store(old(blackboxedRanges), KeyOf(script), step.stored)
        else if sourceMap.value.mappings == [] then
          outcome == Thrown && blackboxedRanges == old(blackboxedRanges)
        else
          var step := ApplyStep(prev, Toggles(sourceMap.value.mappings, Decide(ext, rules)), accepted);
          outcome == Done(step.sent) && blackboxedRanges == Store(old(blackboxedRanges), KeyOf(script), step.stored)
    {
      var prev := StoredRanges(script);
      var hasBlackboxedMappings := false;
      var scriptBlackboxed := IsBlackboxedURL(script.sourceURL, script.isContentScript);
      if !scriptBlackboxed && sourceMap.Some? {
        hasBlackboxedMappings := AnySourceBlackboxed(sourceMap.value.sourceURLs);
      }
      if !hasBlackboxedMappings {
        if prev.Some? {
          if accepted {
            blackboxedRanges := blackboxedRanges - {KeyOf(script)};
          }
          return Done(Some([]));
        }
        return Done(None);
      }
      var mappings := sourceMap.value.mappings;
      if mappings == [] {
        return Thrown;
      }
      var newRanges := ComputeRanges(mappings);
      var equal := RangesEqual(prev.GetOr([]), newRanges);
      if !equal {
        if accepted {
          blackboxedRanges := blackboxedRanges[KeyOf(script) := newRanges];
        }
        return Done(Some(newRanges));
      }
      return Done(None);
    }

    /** `_scriptPositions`. */
    function ScriptState(script: Script): (positions: Option<seq<Position>>)
      reads this
      ensures positions.Some? <==> script.model in debuggerModelData && script.scriptId in debuggerModelData[script.model]
    {
      ScriptPositions(debuggerModelData, script.model, script.scriptId)
    }

    /** `_setScriptPositions`: records the positions of one script and leaves
        every other entry of the table as it was. */
    method SetScriptPositions(script: Script, positions: seq<Position>)
      modifies this
      ensures debuggerModelData == WithScriptPositions(old(debuggerModelData), script.model, script.scriptId, positions)
      ensures ScriptState(script) == Some(positions)
      ensures rules == old(rules) && skipContentScripts == old(skipContentScripts) && cache == old(cache)
      ensures listeners == old(listeners) && blackboxedRanges == old(blackboxedRanges)
    {
      var table := if script.model in debuggerModelData then debuggerModelData[script.model] else map[];
      debuggerModelData := debuggerModelData[script.model := table[script.scriptId := positions]];
    }

    /** `_setScriptState` with the debugger's answer to `setBlackboxedRanges`. */
    method SetScriptState(script: Script, positions: seq<Position>, accepted: bool) returns (sent: Option<seq<Position>>)
      modifies this
      ensures var prev := old(ScriptState(script));
        var step := ScriptStateStep(prev, positions, accepted);
        sent == step.sent &&
        debuggerModelData == if step.stored == prev then old(debuggerModelData)
                             else WithScriptPositions(old(debuggerModelData), script.model, script.scriptId, step.stored.value)
      ensures ScriptState(script) == ScriptStateStep(old(ScriptState(script)), positions, accepted).stored
      ensures rules == old(rules) && skipContentScripts == old(skipContentScripts) && cache == old(cache)
      ensures listeners == old(listeners) && blackboxedRanges == old(blackboxedRanges)
    {
      var prev := ScriptState(script);
      if prev.Some? {
        var equal := RangesEqual(prev.value, positions);
        if equal {
          return None;
        }
      } else if positions == [] {
        SetScriptPositions(script, []);
        return None;
      }
      sent := Some(positions);
      if accepted {
        SetScriptPositions(script, positions);
      } else if ScriptState(script).None? {
        SetScriptPositions(script, []);
      }
    }

    /** `_blackboxDartSDK` once the SDK's text has been loaded: when the
        dart.throw line is found, its neighbourhood is left out of the
        blackboxed ranges of the script. */
    method BlackboxDartSDK(script: Script, content: string, accepted: bool) returns (sent: Option<seq<Position>>)
      modifies this
      ensures var lines := Split(content, '\n');
        DartThrowLine !in lines ==> sent.None? && debuggerModelData == old(debuggerModelData)
      ensures var lines := Split(content, '\n');
        DartThrowLine in lines ==>
          exists k :: 0 <= k < |lines| && lines[k] == DartThrowLine && DartThrowLine !in lines[..k] &&
                      var prev := old(ScriptState(script));
                      var step := ScriptStateStep(prev, [Position(0, 0), Position(k - 1, 0), Position(k + 6, 0)], accepted);
                      sent == step.sent && ScriptState(script) == step.stored &&
                      debuggerModelData == if step.stored == prev then old(debuggerModelData)
                                           else WithScriptPositions(old(debuggerModelData), script.model, script.scriptId, step.stored.value)
      ensures rules == old(rules) && skipContentScripts == old(skipContentScripts) && cache == old(cache)
      ensures listeners == old(listeners) && blackboxedRanges == old(blackboxedRanges)
    {
      var ranges := FindAndBlackbox(content);
      if ranges.None? {
        return None;
      }
      sent := SetScriptState(script, ranges.value, accepted);
    }

    /** `_addScript`: a script with neither a source URL nor a source-map URL
        is skipped; the Dart SDK gets its dart.throw carve-out (a script whose
        URL merely contains the SDK's name gets nothing); any other script
        gets the whole-script range when its URL is blackboxed and no range
        otherwise. */
    method AddScript(script: Script, sdkContent: string, accepted: bool) returns (outcome: Outcome)
      requires Valid()
      modifies this
      ensures Valid()
      ensures rules == old(rules) && skipContentScripts == old(skipContentScripts)
      ensures listeners == old(listeners) && blackboxedRanges == old(blackboxedRanges)
      ensures forall url :: url in old(cache) ==> url in cache && cache[url] == old(cache)[url]
      ensures script.sourceURL == "" && script.sourceMapURL == "" ==>
        outcome == Done(None) && cache == old(cache) && debuggerModelData == old(debuggerModelData)
      ensures (script.sourceURL != "" || script.sourceMapURL != "") && !Contains(script.sourceURL, "dart_sdk.js") ==>
        var ranges := if old(Lookup(script.sourceURL, script.isContentScript)) then [Position(0, 0)] else [];
        var prev := old(ScriptState(script));
        var step := ScriptStateStep(prev, ranges, accepted);
        outcome == Done(step.sent) && ScriptState(script) == step.stored &&
        debuggerModelData == if step.stored == prev then old(debuggerModelData)
                             else WithScriptPositions(old(debuggerModelData), script.model, script.scriptId, step.stored.value)
      ensures Contains(script.sourceURL, "dart_sdk.js") && ext.pathname(script.sourceURL).None? ==>
        outcome == Thrown && debuggerModelData == old(debuggerModelData)
      ensures Contains(script.sourceURL, "dart_sdk.js") && ext.pathname(script.sourceURL).Some? &&
              !EndsWith(ext.pathname(script.sourceURL).value, "dart_sdk.js") ==>
        outcome == Done(None) && debuggerModelData == old(debuggerModelData)
      ensures Contains(script.sourceURL, "dart_sdk.js") && ext.pathname(script.sourceURL).Some? &&
              EndsWith(ext.pathname(script.sourceURL).value, "dart_sdk.js") ==>
        var lines := Split(sdkContent, '\n');
        if DartThrowLine !in lines then outcome == Done(None) && debuggerModelData == old(debuggerModelData)
        else
          exists k :: 0 <= k < |lines| && lines[k] == DartThrowLine && DartThrowLine !in lines[..k] &&
                      var prev := old(ScriptState(script));
                      var step := ScriptStateStep(prev, [Position(0, 0), Position(k - 1, 0), Position(k + 6, 0)], accepted);
                      outcome == Done(step.sent) && ScriptState(script) == step.stored &&
                      debuggerModelData == if step.stored == prev then old(debuggerModelData)
                                           else WithScriptPositions(old(debuggerModelData), script.model, script.scriptId, step.stored.value)
    {
      if script.sourceURL == "" && script.sourceMapURL == "" {
        return Done(None);
      }
      var blackboxed := IsBlackboxedURL(script.sourceURL, script.isContentScript);
      var ranges := if blackboxed then [Position(0, 0)] else [];
      if Contains(script.sourceURL, "dart_sdk.js") {
        var path := ext.pathname(script.sourceURL);
        if path.None? {
          return Thrown;
        }
        if EndsWith(path.value, "dart_sdk.js") {
          var sent := BlackboxDartSDK(script, sdkContent, accepted);
          return Done(sent);
        }
        return Done(None);
      }
      var sent := SetScriptState(script, ranges, accepted);
      return Done(sent);
    }
  }
}
