/** Blackboxed ranges inside a generated script. A ranges array lists the
    positions where the blackbox state toggles: the script starts not
    blackboxed at (0, 0) and every listed position flips the state. This
    module holds the pure parts of the range engine: the run-length
    computation over source-map mappings, the Dart SDK line scan, the
    comparison of two ranges arrays, the store-or-skip decisions that make
    re-applying ranges idempotent, and the per-model position table. */
module BlackboxRanges {
  import opened Wrappers
  import opened Strings

  /** A generated-code position; the line is -1 in one case (FindAndBlackbox). */
  datatype Position = Position(line: int, column: int)

  /** A source-map mapping at a generated position; an absent source URL is "". */
  datatype Mapping = Mapping(line: nat, column: nat, sourceURL: string)

  function At(m: Mapping): Position {
    Position(m.line, m.column)
  }

  function Positions(ms: seq<Mapping>): (ps: seq<Position>)
    ensures |ps| == |ms|
    ensures forall i :: 0 <= i < |ms| ==> ps[i] == At(ms[i])
  {
    seq(|ms|, i requires 0 <= i < |ms| => At(ms[i]))
  }

  // ---------------------------------------------------------------------
  // The run-length toggle computation

  /** The toggles emitted while scanning ms from blackbox state `state`: a
      mapping that has a source URL whose status differs from the state
      emits its position and flips the state. */
  function TogglesFrom(ms: seq<Mapping>, state: bool, blackboxed: string -> bool): seq<Position>
  {
    if ms == [] then []
    else if ms[0].sourceURL != "" && state != blackboxed(ms[0].sourceURL) then
      [At(ms[0])] + TogglesFrom(ms[1..], !state, blackboxed)
    else TogglesFrom(ms[1..], state, blackboxed)
  }

  /** The blackbox state after scanning ms from `state`. */
  function StateAfter(ms: seq<Mapping>, state: bool, blackboxed: string -> bool): bool
  {
    if ms == [] then state
    else if ms[0].sourceURL != "" && state != blackboxed(ms[0].sourceURL) then
      StateAfter(ms[1..], !state, blackboxed)
    else StateAfter(ms[1..], state, blackboxed)
  }

  /** Code before the first mapping is unmapped glue and counts as blackboxed. */
  predicate StartsBlackboxed(ms: seq<Mapping>)
    requires |ms| > 0
  {
    ms[0].line != 0 || ms[0].column != 0
  }

  /** The ranges `_updateScriptRanges` computes for a non-empty mapping list. */
  function Toggles(ms: seq<Mapping>, blackboxed: string -> bool): seq<Position>
    requires |ms| > 0
  {
    if StartsBlackboxed(ms) then [Position(0, 0)] + TogglesFrom(ms, true, blackboxed)
    else TogglesFrom(ms, false, blackboxed)
  }

  /** Scanning a concatenation is scanning the first part, then the second
      from the state the first part left. */
  lemma {:induction false} TogglesFromConcat(a: seq<Mapping>, b: seq<Mapping>, state: bool, blackboxed: string -> bool)
    ensures TogglesFrom(a + b, state, blackboxed)
         == TogglesFrom(a, state, blackboxed) + TogglesFrom(b, StateAfter(a, state, blackboxed), blackboxed)
    ensures StateAfter(a + b, state, blackboxed) == StateAfter(b, StateAfter(a, state, blackboxed), blackboxed)
  {
    if a == [] {
      assert a + b == b;
    } else {
      assert (a + b)[0] == a[0] && (a + b)[1..] == a[1..] + b;
      var next := if a[0].sourceURL != "" && state != blackboxed(a[0].sourceURL) then !state else state;
      TogglesFromConcat(a[1..], b, next, blackboxed);
    }
  }

  /** An even number of toggles leaves the state where it started. */
  lemma {:induction false} TogglesFromParity(ms: seq<Mapping>, state: bool, blackboxed: string -> bool)
    ensures (|TogglesFrom(ms, state, blackboxed)| % 2 == 0) == (StateAfter(ms, state, blackboxed) == state)
  {
    if ms != [] {
      if ms[0].sourceURL != "" && state != blackboxed(ms[0].sourceURL) {
        TogglesFromParity(ms[1..], !state, blackboxed);
      } else {
        TogglesFromParity(ms[1..], state, blackboxed);
      }
    }
  }

  /** After a mapping with a source URL, the state is that URL's status. */
  lemma {:induction false} StateAfterLastMapping(ms: seq<Mapping>, state: bool, blackboxed: string -> bool)
    requires |ms| > 0 && ms[|ms| - 1].sourceURL != ""
    ensures StateAfter(ms, state, blackboxed) == blackboxed(ms[|ms| - 1].sourceURL)
  {
    if |ms| > 1 {
      var next := if ms[0].sourceURL != "" && state != blackboxed(ms[0].sourceURL) then !state else state;
      assert ms[1..][|ms[1..]| - 1] == ms[|ms| - 1];
      StateAfterLastMapping(ms[1..], next, blackboxed);
    }
  }

  /** The ranges are a correct run-length encoding: the toggles emitted up to
      and including mapping i are a prefix of all the ranges, and there is
      an odd number of them exactly when mapping i's source is blackboxed. */
  lemma {:induction false} TogglesEncodeStatus(ms: seq<Mapping>, blackboxed: string -> bool, i: nat)
    requires i < |ms| && ms[i].sourceURL != ""
    ensures IsPrefix(Toggles(ms[..i + 1], blackboxed), Toggles(ms, blackboxed))
    ensures |Toggles(ms[..i + 1], blackboxed)| % 2 == 1 <==> blackboxed(ms[i].sourceURL)
  {
    var pre := ms[..i + 1];
    var start := StartsBlackboxed(ms);
    assert pre[0] == ms[0];
    assert ms == pre + ms[i + 1..];
    TogglesFromConcat(pre, ms[i + 1..], start, blackboxed);
    TogglesFromParity(pre, start, blackboxed);
    assert pre[|pre| - 1] == ms[i];
    StateAfterLastMapping(pre, start, blackboxed);
  }

  predicate IsPrefix(a: seq<Position>, b: seq<Position>) {
    |a| <= |b| && b[..|a|] == a
  }

  /** Scanning emits a subsequence of the mapping positions. */
  lemma {:induction false} TogglesFromSubsequence(ms: seq<Mapping>, state: bool, blackboxed: string -> bool)
    ensures IsSubsequence(TogglesFrom(ms, state, blackboxed), Positions(ms))
  {
    if ms != [] {
      var next := if ms[0].sourceURL != "" && state != blackboxed(ms[0].sourceURL) then !state else state;
      TogglesFromSubsequence(ms[1..], next, blackboxed);
      var t := TogglesFrom(ms[1..], next, blackboxed);
      assert Positions(ms)[1..] == Positions(ms[1..]);
      if next != state {
        assert ([At(ms[0])] + t)[1..] == t;
      } else {
        assert t == [] || IsSubsequence(t, Positions(ms)[1..]);
      }
    }
  }

  /** The ranges are an order-preserving subsequence of (0, 0) followed by
      the mapping positions. */
  lemma TogglesSubsequence(ms: seq<Mapping>, blackboxed: string -> bool)
    requires |ms| > 0
    ensures IsSubsequence(Toggles(ms, blackboxed), [Position(0, 0)] + Positions(ms))
  {
    var start := StartsBlackboxed(ms);
    var t := TogglesFrom(ms, start, blackboxed);
    TogglesFromSubsequence(ms, start, blackboxed);
    assert ([Position(0, 0)] + Positions(ms))[1..] == Positions(ms);
    if start {
      assert ([Position(0, 0)] + t)[1..] == t;
    }
  }

  predicate Before(a: Position, b: Position) {
    a.line < b.line || (a.line == b.line && a.column < b.column)
  }

  ghost predicate StrictlyIncreasing(ps: seq<Position>) {
    forall i, j :: 0 <= i < j < |ps| ==> Before(ps[i], ps[j])
  }

  lemma {:induction false} SubsequenceMembers(a: seq<Position>, b: seq<Position>)
    requires IsSubsequence(a, b)
    ensures forall x :: x in a ==> x in b
  {
    if a != [] {
      if a[0] == b[0] && IsSubsequence(a[1..], b[1..]) {
        SubsequenceMembers(a[1..], b[1..]);
        assert forall x :: x in a ==> x == a[0] || x in a[1..];
      } else {
        SubsequenceMembers(a, b[1..]);
      }
    }
  }

  lemma {:induction false} SubsequenceIncreasing(a: seq<Position>, b: seq<Position>)
    requires IsSubsequence(a, b) && StrictlyIncreasing(b)
    ensures StrictlyIncreasing(a)
  {
    if a != [] {
      assert StrictlyIncreasing(b[1..]);
      if a[0] == b[0] && IsSubsequence(a[1..], b[1..]) {
        SubsequenceIncreasing(a[1..], b[1..]);
        SubsequenceMembers(a[1..], b[1..]);
        forall j | 0 < j < |a| ensures Before(a[0], a[j]) {
          assert a[j] in a[1..];
          var k :| 0 <= k < |b[1..]| && b[1..][k] == a[j];
          assert b[k + 1] == a[j];
        }
      } else {
        SubsequenceIncreasing(a, b[1..]);
      }
    }
  }

  /** When the mapping positions strictly increase, so do the ranges. */
  lemma TogglesIncreasing(ms: seq<Mapping>, blackboxed: string -> bool)
    requires |ms| > 0 && StrictlyIncreasing(Positions(ms))
    ensures StrictlyIncreasing(Toggles(ms, blackboxed))
  {
    var ps := Positions(ms);
    TogglesSubsequence(ms, blackboxed);
    if StartsBlackboxed(ms) {
      var all := [Position(0, 0)] + ps;
      forall i, j | 0 <= i < j < |all| ensures Before(all[i], all[j]) {
        if i == 0 {
          assert all[j] == ps[j - 1];
          if j > 1 { assert Before(ps[0], ps[j - 1]); }
        } else {
          assert all[i] == ps[i - 1] && all[j] == ps[j - 1];
        }
      }
      SubsequenceIncreasing(Toggles(ms, blackboxed), all);
    } else {
      TogglesFromSubsequence(ms, false, blackboxed);
      SubsequenceIncreasing(Toggles(ms, blackboxed), ps);
    }
  }

  /** Three mappings at (0,0), (1,0), (2,0) with sources A, B, A where only
      A is blackboxed give the ranges (0,0), (1,0), (2,0): the first mapping
      sits at (0, 0), so no leading range is synthesised, and A's status
      differs from the initial "not blackboxed" state, so it toggles there. */
  lemma ThreeMappingExample(blackboxed: string -> bool)
    requires blackboxed("A") && !blackboxed("B")
    ensures Toggles([Mapping(0, 0, "A"), Mapping(1, 0, "B"), Mapping(2, 0, "A")], blackboxed)
         == [Position(0, 0), Position(1, 0), Position(2, 0)]
  {
    var ms := [Mapping(0, 0, "A"), Mapping(1, 0, "B"), Mapping(2, 0, "A")];
    var tail := [Mapping(2, 0, "A")];
    assert tail[1..] == [];
    assert TogglesFrom(tail, false, blackboxed) == [Position(2, 0)];
    var mid := [Mapping(1, 0, "B")] + tail;
    assert mid[0] == Mapping(1, 0, "B") && mid[1..] == tail;
    assert TogglesFrom(mid, true, blackboxed) == [Position(1, 0), Position(2, 0)];
    assert ms[0] == Mapping(0, 0, "A") && ms[1..] == mid;
  }

  // ---------------------------------------------------------------------
  // Comparing ranges

  /** `isEqual` in `_updateScriptRanges` and the `hasChanged` loop of
      `_setScriptState`: same length and the same line and column pointwise. */
  method RangesEqual(a: seq<Position>, b: seq<Position>) returns (equal: bool)
    ensures equal <==> a == b
  {
    if |a| != |b| {
      return false;
    }
    var i := 0;
    while i < |a|
      invariant 0 <= i <= |a|
      invariant a[..i] == b[..i]
    {
      if a[i].line != b[i].line || a[i].column != b[i].column {
        return false;
      }
      assert a[..i + 1] == a[..i] + [a[i]] && b[..i + 1] == b[..i] + [b[i]];
      i := i + 1;
    }
    assert a == a[..i] && b == b[..i];
    return true;
  }

  // ---------------------------------------------------------------------
  // Re-applying ranges idempotently

  /** What one reconciliation step does: the ranges it hands to the script's
      `setBlackboxedRanges` (None when it makes no call) and the ranges stored
      for the script afterwards (None when nothing is stored). */
  datatype Step = Step(sent: Option<seq<Position>>, stored: Option<seq<Position>>)

  /** `_updateScriptRanges` when no mapping is blackboxed: a script with
      stored ranges is asked to clear them, and they are forgotten only when
      the script reports success. */
  function ClearStep(stored: Option<seq<Position>>, accepted: bool): (s: Step)
    ensures stored.None? ==> s == Step(None, None)
    ensures stored.Some? ==> s.sent == Some([])
    ensures s.stored == (if stored.Some? && accepted then None else stored)
  {
    if stored.Some? then Step(Some([]), if accepted then None else stored)
    else Step(None, None)
  }

  /** `_updateScriptRanges` with computed ranges: they are sent only when they
      differ from the stored ones (none stored reads as []), and stored only
      when the script reports success. */
  function ApplyStep(stored: Option<seq<Position>>, ranges: seq<Position>, accepted: bool): (s: Step)
    ensures stored.GetOr([]) == ranges ==> s == Step(None, stored)
    ensures stored.GetOr([]) != ranges ==> s.sent == Some(ranges)
    ensures s.stored == (if stored.GetOr([]) != ranges && accepted then Some(ranges) else stored)
  {
    if stored.GetOr([]) != ranges then Step(Some(ranges), if accepted then Some(ranges) else stored)
    else Step(None, stored)
  }

  /** `_setScriptState`: skip when the positions equal the stored state; with
      no stored state and no positions record [] without a call; otherwise
      send, store on success, and on failure record [] only when nothing was
      stored before. */
  function ScriptStateStep(stored: Option<seq<Position>>, positions: seq<Position>, accepted: bool): (s: Step)
    ensures stored == Some(positions) ==> s == Step(None, stored)
    ensures stored.None? && positions == [] ==> s == Step(None, Some([]))
    ensures stored != Some(positions) && (stored.Some? || positions != []) ==>
      s.sent == Some(positions) &&
      s.stored == (if accepted then Some(positions) else if stored.None? then Some([]) else stored)
    ensures s.stored.Some?
  {
    if stored.Some? then
      if stored.value == positions then Step(None, stored)
      else Step(Some(positions), if accepted then Some(positions) else stored)
    else if positions == [] then Step(None, Some([]))
    else Step(Some(positions), if accepted then Some(positions) else Some([]))
  }

  /** Re-applying what was just applied makes no call to the script, whatever
      the script would answer. */
  lemma ReapplyIsNoOp(stored: Option<seq<Position>>, ranges: seq<Position>, again: bool)
    ensures ApplyStep(ApplyStep(stored, ranges, true).stored, ranges, again).sent.None?
    ensures ClearStep(ClearStep(stored, true).stored, again).sent.None?
    ensures ScriptStateStep(ScriptStateStep(stored, ranges, true).stored, ranges, again).sent.None?
  {
  }

  /** A refused call leaves the stored ranges as they were, so the next
      reconciliation retries from the old baseline. */
  lemma RefusalKeepsBaseline(stored: Option<seq<Position>>, ranges: seq<Position>)
    ensures ApplyStep(stored, ranges, false).stored == stored
    ensures ClearStep(stored, false).stored == stored
    ensures stored.Some? ==> ScriptStateStep(stored, ranges, false).stored == stored
  {
  }

  // ---------------------------------------------------------------------
  // The per-model position table

  type ModelId = string
  type ScriptId = string

  /** `_scriptPositions`: the positions stored for a script of a model. */
  function ScriptPositions(data: map<ModelId, map<ScriptId, seq<Position>>>, model: ModelId, id: ScriptId): Option<seq<Position>>
  {
    if model in data && id in data[model] then Some(data[model][id]) else None
  }

  /** `_setScriptPositions`: creates the model's table when missing and
      records the positions; every other entry is left as it was. */
  function WithScriptPositions(data: map<ModelId, map<ScriptId, seq<Position>>>, model: ModelId, id: ScriptId, positions: seq<Position>)
    : (d: map<ModelId, map<ScriptId, seq<Position>>>)
    ensures forall m, i :: ScriptPositions(d, m, i) == if m == model && i == id then Some(positions) else ScriptPositions(data, m, i)
    ensures d.Keys == data.Keys + {model}
  {
    var table := if model in data then data[model] else map[];
    data[model := table[id := positions]]
  }

  // ---------------------------------------------------------------------
  // The Dart SDK carve-out

  /** The line that starts the definition of dart.throw in the Dart SDK. */
  const DartThrowLine := "  dart.throw = function(obj) {"

  /** `findAndBlackbox`: finds the first line of content equal to DartThrowLine
      and builds ranges that blackbox the SDK except from the line before it
      to six lines after it. */
  method FindAndBlackbox(content: string) returns (ranges: Option<seq<Position>>)
    ensures var lines := Split(content, '\n');
      ranges.None? <==> DartThrowLine !in lines
    ensures var lines := Split(content, '\n');
      ranges.Some? ==>
        exists k :: 0 <= k < |lines| && lines[k] == DartThrowLine && DartThrowLine !in lines[..k] &&
                    ranges.value == [Position(0, 0), Position(k - 1, 0), Position(k + 6, 0)]
  {
    var lines := Split(content, '\n');
    var line := 0;
    while line < |lines|
      invariant 0 <= line <= |lines|
      invariant DartThrowLine !in lines[..line]
    {
      if lines[line] == DartThrowLine {
        return Some([Position(0, 0), Position(line - 1, 0), Position(line + 6, 0)]);
      }
      assert lines[..line + 1] == lines[..line] + [lines[line]];
      line := line + 1;
    }
    assert lines[..line] == lines;
    return None;
  }
}
