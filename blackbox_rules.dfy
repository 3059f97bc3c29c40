/** The ordered list of blackbox rules (the `skipStackFramesPattern`
    setting) and the edits made to it: filtering the patterns sent to a
    debugger, enabling or appending a rule for a URL, removing and disabling
    the rules that cover a URL, and adding the default Dart patterns. */
module BlackboxRules {
  import opened Wrappers
  import opened Strings

  /** One rule of the setting; a rule added by the manager is enabled. */
  datatype PatternRule = PatternRule(pattern: string, disabled: bool)

  /** A rule that takes part in matching: enabled and with a pattern. */
  predicate Active(rule: PatternRule) {
    !rule.disabled && rule.pattern != ""
  }

  /** The patterns of the active rules, in rule order. */
  function ActivePatterns(rules: seq<PatternRule>): (ps: seq<string>)
    ensures |ps| <= |rules|
    ensures forall i :: 0 <= i < |rules| && Active(rules[i]) ==> rules[i].pattern in ps
    ensures forall p :: p in ps ==> exists i :: 0 <= i < |rules| && Active(rules[i]) && rules[i].pattern == p
    ensures "" !in ps
  {
    if rules == [] then []
    else
      var rest := ActivePatterns(rules[1..]);
      if Active(rules[0]) then [rules[0].pattern] + rest else rest
  }

  lemma {:induction false} ActivePatternsConcat(a: seq<PatternRule>, b: seq<PatternRule>)
    ensures ActivePatterns(a + b) == ActivePatterns(a) + ActivePatterns(b)
  {
    if a == [] {
      assert a + b == b;
    } else {
      assert (a + b)[0] == a[0] && (a + b)[1..] == a[1..] + b;
      ActivePatternsConcat(a[1..], b);
    }
  }

  /** `_setBlackboxPatterns`: the patterns handed to a debugger model. */
  method EnabledPatterns(rules: seq<PatternRule>) returns (patterns: seq<string>)
    ensures patterns == ActivePatterns(rules)
  {
    patterns := [];
    var i := 0;
    while i < |rules|
      invariant 0 <= i <= |rules|
      invariant patterns == ActivePatterns(rules[..i])
    {
      assert rules[..i + 1] == rules[..i] + [rules[i]];
      ActivePatternsConcat(rules[..i], [rules[i]]);
      assert [rules[i]][1..] == [];
      if !rules[i].disabled && rules[i].pattern != "" {
        patterns := patterns + [rules[i].pattern];
      }
      i := i + 1;
    }
    assert rules[..i] == rules;
  }

  /** The index of the first rule with exactly this pattern. */
  function FindRule(rules: seq<PatternRule>, pattern: string): (k: Option<nat>)
    ensures k.None? <==> forall i :: 0 <= i < |rules| ==> rules[i].pattern != pattern
    ensures k.Some? ==> k.value < |rules| && rules[k.value].pattern == pattern &&
                        forall i :: 0 <= i < k.value ==> rules[i].pattern != pattern
  {
    if rules == [] then None
    else if rules[0].pattern == pattern then Some(0)
    else
      match FindRule(rules[1..], pattern)
      case None => None
      case Some(j) => Some(j + 1)
  }

  /** The list-edit part of `_blackboxURL`: the first rule with the pattern
      is enabled and nothing else changes, or a new enabled rule is
      appended when there is none. */
  method EnableOrAppend(rules: seq<PatternRule>, pattern: string) returns (r: seq<PatternRule>)
    ensures FindRule(rules, pattern).Some? ==>
      var k := FindRule(rules, pattern).value;
      |r| == |rules| && r[k] == PatternRule(pattern, false) &&
      forall i :: 0 <= i < |rules| && i != k ==> r[i] == rules[i]
    ensures FindRule(rules, pattern).None? ==> r == rules + [PatternRule(pattern, false)]
  {
    r := rules;
    var i := 0;
    while i < |r|
      invariant 0 <= i <= |r| && r == rules
      invariant forall j :: 0 <= j < i ==> rules[j].pattern != pattern
    {
      if r[i].pattern == pattern {
        r := r[i := r[i].(disabled := false)];
        return;
      }
      i := i + 1;
    }
    r := r + [PatternRule(pattern, false)];
  }

  /** After enabling or appending, the pattern is active. */
  lemma EnableOrAppendActivates(rules: seq<PatternRule>, pattern: string, r: seq<PatternRule>)
    requires pattern != ""
    requires FindRule(rules, pattern).Some? ==>
      var k := FindRule(rules, pattern).value;
      |r| == |rules| && r[k] == PatternRule(pattern, false)
    requires FindRule(rules, pattern).None? ==> r == rules + [PatternRule(pattern, false)]
    ensures pattern in ActivePatterns(r)
  {
    if FindRule(rules, pattern).Some? {
      var k := FindRule(rules, pattern).value;
      assert Active(r[k]) && r[k].pattern == pattern;
    } else {
      assert Active(r[|rules|]) && r[|rules|].pattern == pattern;
    }
  }

  /** The rules whose pattern differs from `pattern`, in order. */
  function Without(rules: seq<PatternRule>, pattern: string): (kept: seq<PatternRule>)
    ensures forall i :: 0 <= i < |kept| ==> kept[i].pattern != pattern && kept[i] in rules
    ensures forall i :: 0 <= i < |rules| && rules[i].pattern != pattern ==> rules[i] in kept
    ensures IsSubsequence(kept, rules)
  {
    Filter(rules, (rule: PatternRule) => rule.pattern != pattern)
  }

  /** The list-edit part of `_unblackboxURL`: rules with the URL's pattern
      are removed, and every remaining enabled rule whose pattern is a valid
      regular expression matching the URL is disabled. `valid` and `test`
      stand for `new RegExp(p)` not throwing and `test(url)`. */
  method RemoveAndDisable(rules: seq<PatternRule>, pattern: string, url: string,
                          valid: string -> bool, test: (string, string) -> bool)
    returns (r: seq<PatternRule>)
    ensures var kept := Without(rules, pattern);
      |r| == |kept| &&
      forall i :: 0 <= i < |r| ==>
        r[i].pattern == kept[i].pattern &&
        r[i].disabled == (kept[i].disabled || (valid(kept[i].pattern) && test(kept[i].pattern, url)))
  {
    r := Without(rules, pattern);
    ghost var kept := r;
    var i := 0;
    while i < |r|
      invariant 0 <= i <= |r| && |r| == |kept|
      invariant forall j :: 0 <= j < |r| ==> r[j].pattern == kept[j].pattern
      invariant forall j :: 0 <= j < i ==>
        r[j].disabled == (kept[j].disabled || (valid(kept[j].pattern) && test(kept[j].pattern, url)))
      invariant forall j :: i <= j < |r| ==> r[j] == kept[j]
    {
      if !r[i].disabled && valid(r[i].pattern) && test(r[i].pattern, url) {
        r := r[i := r[i].(disabled := true)];
      }
      i := i + 1;
    }
  }

  /** After removing and disabling, the pattern is gone and no active rule
      is a valid pattern that matches the URL. */
  lemma RemoveAndDisableLeavesNoMatch(rules: seq<PatternRule>, pattern: string, url: string,
                                      valid: string -> bool, test: (string, string) -> bool, r: seq<PatternRule>)
    requires var kept := Without(rules, pattern);
      |r| == |kept| &&
      forall i :: 0 <= i < |r| ==>
        r[i].pattern == kept[i].pattern &&
        r[i].disabled == (kept[i].disabled || (valid(kept[i].pattern) && test(kept[i].pattern, url)))
    ensures forall i :: 0 <= i < |r| ==> r[i].pattern != pattern
    ensures forall p :: p in ActivePatterns(r) ==> !(valid(p) && test(p, url))
    ensures pattern !in ActivePatterns(r)
  {
    forall p | p in ActivePatterns(r) ensures !(valid(p) && test(p, url)) {
      var i :| 0 <= i < |r| && Active(r[i]) && r[i].pattern == p;
    }
  }

  /** Blackboxing a URL's pattern and then unblackboxing it leaves no rule
      with that pattern. */
  lemma BlackboxThenUnblackbox(rules: seq<PatternRule>, pattern: string, url: string,
                               valid: string -> bool, test: (string, string) -> bool,
                               enabled: seq<PatternRule>, r: seq<PatternRule>)
    requires pattern != ""
    requires FindRule(rules, pattern).None? ==> enabled == rules + [PatternRule(pattern, false)]
    requires FindRule(rules, pattern).Some? ==>
      var k := FindRule(rules, pattern).value;
      |enabled| == |rules| && enabled[k] == PatternRule(pattern, false)
    requires var kept := Without(enabled, pattern);
      |r| == |kept| &&
      forall i :: 0 <= i < |r| ==>
        r[i].pattern == kept[i].pattern &&
        r[i].disabled == (kept[i].disabled || (valid(kept[i].pattern) && test(kept[i].pattern, url)))
    ensures pattern in ActivePatterns(enabled)
    ensures pattern !in ActivePatterns(r)
  {
    EnableOrAppendActivates(rules, pattern, enabled);
    RemoveAndDisableLeavesNoMatch(enabled, pattern, url, valid, test, r);
  }

  /** The default Dart patterns: the string values of the literals
      '\/ng_zone\.dart$' and '\/stack_zone_specification\.dart$', in which
      the backslashes are not escapes JavaScript keeps. */
  const NgZonePattern := "/ng_zone.dart$"
  const StackZonePattern := "/stack_zone_specification.dart$"
  const DartPatterns := [NgZonePattern, StackZonePattern]

  function Patterns(rules: seq<PatternRule>): (ps: seq<string>)
    ensures |ps| == |rules|
    ensures forall i :: 0 <= i < |rules| ==> ps[i] == rules[i].pattern
  {
    seq(|rules|, i requires 0 <= i < |rules| => rules[i].pattern)
  }

  /** The default Dart rules that the constructor adds to `rules`: each
      default pattern that no existing rule (enabled or not) has, in order,
      as an enabled rule. */
  function MissingDartRules(rules: seq<PatternRule>): (added: seq<PatternRule>)
    ensures |added| <= |DartPatterns|
    ensures forall i :: 0 <= i < |added| ==> added[i].pattern !in Patterns(rules) && Active(added[i])
    ensures forall p :: p in DartPatterns ==> p in Patterns(rules + added)
  {
    var ps := Patterns(rules);
    var r := (if NgZonePattern in ps then [] else [PatternRule(NgZonePattern, false)])
           + (if StackZonePattern in ps then [] else [PatternRule(StackZonePattern, false)]);
    assert forall p :: p in DartPatterns && p !in ps ==> p in Patterns(r) by {
      if NgZonePattern !in ps { assert Patterns(r)[0] == NgZonePattern; }
      if StackZonePattern !in ps { assert Patterns(r)[|r| - 1] == StackZonePattern; }
    }
    assert Patterns(rules + r) == ps + Patterns(r);
    r
  }

  /** The rules for those of patterns that are not among existing, in order. */
  function MissingAmong(patterns: seq<string>, existing: seq<string>): seq<PatternRule> {
    if patterns == [] then []
    else
      var last := patterns[|patterns| - 1];
      MissingAmong(patterns[..|patterns| - 1], existing) + (if last in existing then [] else [PatternRule(last, false)])
  }

  lemma MissingDartRulesAmong(rules: seq<PatternRule>)
    ensures MissingAmong(DartPatterns, Patterns(rules)) == MissingDartRules(rules)
  {
    var ps := Patterns(rules);
    assert DartPatterns[..1] == [NgZonePattern] && [NgZonePattern][..0] == [];
    assert MissingAmong([NgZonePattern], ps) == (if NgZonePattern in ps then [] else [PatternRule(NgZonePattern, false)]);
    assert MissingAmong(DartPatterns, ps) == MissingAmong([NgZonePattern], ps)
      + (if StackZonePattern in ps then [] else [PatternRule(StackZonePattern, false)]);
  }

  /** The constructor's merge loop over the default Dart patterns. */
  method MergeDartPatterns(rules: seq<PatternRule>) returns (r: seq<PatternRule>)
    ensures r == rules + MissingDartRules(rules)
  {
    var oldPatterns := Patterns(rules);
    r := rules;
    var i := 0;
    while i < |DartPatterns|
      invariant 0 <= i <= |DartPatterns|
      invariant r == rules + MissingAmong(DartPatterns[..i], oldPatterns)
    {
      var dartPattern := DartPatterns[i];
      assert DartPatterns[..i + 1][..i] == DartPatterns[..i];
      if dartPattern !in oldPatterns {
        r := r + [PatternRule(dartPattern, false)];
      }
      i := i + 1;
    }
    assert DartPatterns[..i] == DartPatterns;
    MissingDartRulesAmong(rules);
  }
}
