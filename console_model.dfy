/** The console message store: the append-only list of console messages,
    the error and warning counters, the index of messages by exception id
    and the page-load sequence number; the messages themselves, their
    defaults, their equality and their classification; and the crude
    receiver split applied to an expression typed into the console. */
module ConsoleModel {
  import opened Wrappers
  import opened Strings

  // ---------------------------------------------------------------------
  // Splitting off the receiver of a console expression

  /** What `split` returns: the expression itself, or a receiver and the rest. */
  datatype Decomposed = Whole(expr: string) | Receiver(prefix: string, suffix: string)

  /** `split` in `evaluateCommandInConsole`: cut at the first `.` or `[`,
      whichever comes first, dropping that delimiter. */
  function SplitReceiver(expr: string): (d: Decomposed)
    ensures d.Whole? <==> '.' !in expr && '[' !in expr
    ensures d.Whole? ==> d.expr == expr
    ensures d.Receiver? ==>
      '.' !in d.prefix && '[' !in d.prefix && |d.prefix| < |expr| &&
      (expr[|d.prefix|] == '.' || expr[|d.prefix|] == '[') &&
      expr == d.prefix + [expr[|d.prefix|]] + d.suffix
  {
    var dotIndex := IndexOf(expr, '.');
    var bracketIndex := IndexOf(expr, '[');
    if dotIndex < 0 && bracketIndex < 0 then Whole(expr)
    else
      var index :=
        if dotIndex < 0 then bracketIndex
        else if bracketIndex < 0 then dotIndex
        else if dotIndex <= bracketIndex then dotIndex
        else bracketIndex;
      assert dotIndex >= 0 ==> expr[..index] == expr[..dotIndex][..index];
      assert bracketIndex >= 0 ==> expr[..index] == expr[..bracketIndex][..index];
      assert expr == expr[..index] + [expr[index]] + expr[index + 1..];
      Receiver(expr[..index], expr[index + 1..])
  }

  /** The text `evaluateCommandInConsole` hands to the page: a leading
      space or an expression with no receiver is evaluated as it is;
      otherwise the receiver is evaluated and the rest is passed as a
      string literal to the page helper `$d`. */
  function EvaluatedExpression(expression: string): (text: string)
    ensures StartsWith(expression, " ") || ('.' !in expression && '[' !in expression) ==> text == expression
    ensures !StartsWith(expression, " ") && ('.' in expression || '[' in expression) ==>
      StartsWith(text, "window.$d(") && EndsWith(text, "\")") &&
      text == "window.$d(" + SplitReceiver(expression).prefix + ",\"" + SplitReceiver(expression).suffix + "\")"
  {
    var decomposed := SplitReceiver(expression);
    if !StartsWith(expression, " ") && decomposed.Receiver? then
      var text := "window.$d(" + decomposed.prefix + ",\"" + decomposed.suffix + "\")";
      assert text[..|"window.$d("|] == "window.$d(";
      assert text[|text| - 2..] == "\")";
      text
    else expression
  }

  // ---------------------------------------------------------------------
  // Messages

  datatype MessageSource =
    XML | JS | Network | ConsoleAPI | Storage | AppCache | Rendering | CSS | Security |
    Deprecation | Worker | Violation | Intervention | Recommendation | Other

  datatype MessageType =
    Log | Debug | Info | Error | Warning | Dir | DirXML | Table | Trace | Clear |
    StartGroup | StartGroupCollapsed | EndGroup | Assert | Result | Profile | ProfileEnd |
    Command | System | QueryObjectResult

  datatype MessageLevel = Verbose | Info | Warning | Error

  /** A runtime model, by identity. */
  type ModelId = nat

  /** A primitive value of a remote object, compared with `===`. */
  datatype Primitive = Undefined | Null | Str(s: string) | Num(n: int) | Bool(b: bool)

  /** A parameter of a message. */
  datatype RemoteObject = RemoteObject(objectType: string, subtype: Option<string>, value: Primitive, description: Option<string>)

  datatype CallFrame = CallFrame(functionName: string, scriptId: string, url: string, lineNumber: int, columnNumber: int)

  /** A stack trace with its asynchronous parent. */
  datatype StackTrace = StackTrace(callFrames: seq<CallFrame>, parent: Option<StackTrace>)

  /** One console message; `level` may be null, and `pageLoadSequenceNumber`
      is set when the message is added to the store. */
  datatype ConsoleMessage = ConsoleMessage(
    runtimeModel: Option<ModelId>, source: MessageSource, level: Option<MessageLevel>,
    messageText: string, messageType: MessageType, url: Option<string>, line: int, column: int,
    parameters: Option<seq<RemoteObject>>, stackTrace: Option<StackTrace>, timestamp: int,
    executionContextId: int, scriptId: Option<string>, workerId: Option<string>,
    context: Option<string>, exceptionId: Option<int>, pageLoadSequenceNumber: Option<int>)

  /** `x || fallback` for an optional number. */
  function NumberOr(x: Option<int>, fallback: int): (r: int)
    ensures x.Some? && x.value != 0 ==> r == x.value
    ensures x.None? || x.value == 0 ==> r == fallback
  {
    if x.Some? && x.value != 0 then x.value else fallback
  }

  /** `x || null` for an optional string. */
  function NonEmpty(x: Option<string>): (r: Option<string>)
    ensures r.Some? <==> x.Some? && x.value != ""
    ensures r.Some? ==> r == x
  {
    if x.Some? && x.value != "" then x else None
  }

  /** `context.match(/[^#]*\/)[0]`: the context up to its first `#`. */
  function ContextPrefix(context: string): (r: string)
    ensures '#' !in r && StartsWith(context, r)
    ensures |r| < |context| ==> context[|r|] == '#'
  {
    var i := IndexOf(context, '#');
    if i < 0 then context else context[..i]
  }

  /** The runtime-model queries the constructor falls back on. */
  datatype ContextLookups = ContextLookups(forScript: (ModelId, string) -> int, forStackTrace: (ModelId, StackTrace) -> int)

  /** The `SDK.ConsoleMessage` constructor: defaults for the missing
      arguments, the execution context looked up from the script or the
      stack trace when none is given, and the context cut at `#`. */
  function NewMessage(runtimeModel: Option<ModelId>, source: MessageSource, level: Option<MessageLevel>,
                      messageText: string, messageType: Option<MessageType>, url: Option<string>,
                      line: Option<int>, column: Option<int>, parameters: Option<seq<RemoteObject>>,
                      stackTrace: Option<StackTrace>, timestamp: Option<int>, now: int,
                      executionContextId: Option<int>, scriptId: Option<string>, workerId: Option<string>,
                      context: Option<string>, lookups: ContextLookups): (m: ConsoleMessage)
    ensures m.messageType == messageType.GetOr(MessageType.Log)
    ensures m.line == NumberOr(line, 0) && m.column == NumberOr(column, 0)
    ensures m.timestamp == NumberOr(timestamp, now)
    ensures m.url == NonEmpty(url) && m.scriptId == NonEmpty(scriptId) && m.workerId == NonEmpty(workerId)
    ensures NumberOr(executionContextId, 0) != 0 || runtimeModel.None? ==>
      m.executionContextId == NumberOr(executionContextId, 0)
    ensures NumberOr(executionContextId, 0) == 0 && runtimeModel.Some? && NonEmpty(scriptId).Some? ==>
      m.executionContextId == lookups.forScript(runtimeModel.value, scriptId.value)
    ensures NumberOr(executionContextId, 0) == 0 && runtimeModel.Some? && NonEmpty(scriptId).None? ==>
      m.executionContextId == if stackTrace.Some? then lookups.forStackTrace(runtimeModel.value, stackTrace.value) else 0
    ensures m.context.Some? <==> context.Some? && context.value != ""
    ensures m.context.Some? ==> '#' !in m.context.value && StartsWith(context.value, m.context.value)
    ensures m.context.Some? && |m.context.value| < |context.value| ==> context.value[|m.context.value|] == '#'
    ensures m.exceptionId.None? && m.pageLoadSequenceNumber.None?
    ensures m.runtimeModel == runtimeModel && m.source == source && m.level == level &&
            m.messageText == messageText && m.parameters == parameters && m.stackTrace == stackTrace
  {
    var given := NumberOr(executionContextId, 0);
    var contextId :=
      if given != 0 || runtimeModel.None? then given
      else if NonEmpty(scriptId).Some? then lookups.forScript(runtimeModel.value, scriptId.value)
      else if stackTrace.Some? then lookups.forStackTrace(runtimeModel.value, stackTrace.value)
      else given;
    ConsoleMessage(
      runtimeModel, source, level, messageText, messageType.GetOr(MessageType.Log), NonEmpty(url),
      NumberOr(line, 0), NumberOr(column, 0), parameters, stackTrace, NumberOr(timestamp, now),
      contextId, NonEmpty(scriptId), NonEmpty(workerId),
      if context.Some? && context.value != "" then Some(ContextPrefix(context.value)) else None,
      None, None)
  }

  // ---------------------------------------------------------------------
  // Equality

  /** The part of a call frame that equality looks at. */
  datatype FrameKey = FrameKey(url: string, functionName: string, lineNumber: int, columnNumber: int)

  datatype TraceShape = TraceShape(frames: seq<FrameKey>, parent: Option<TraceShape>)

  function KeyOf(frame: CallFrame): FrameKey {
    FrameKey(frame.url, frame.functionName, frame.lineNumber, frame.columnNumber)
  }

  /** A stack trace with each frame's script id forgotten. */
  function Shape(trace: Option<StackTrace>): (shape: Option<TraceShape>)
    ensures shape.Some? <==> trace.Some?
    ensures shape.Some? ==> |shape.value.frames| == |trace.value.callFrames|
    ensures shape.Some? ==>
      forall i :: 0 <= i < |trace.value.callFrames| ==> shape.value.frames[i] == KeyOf(trace.value.callFrames[i])
    decreases trace
  {
    match trace
    case None => None
    case Some(st) =>
      Some(TraceShape(seq(|st.callFrames|, i requires 0 <= i < |st.callFrames| => KeyOf(st.callFrames[i])), Shape(st.parent)))
  }

  /** `_isEqualStackTraces`: both absent, or frame lists equal in url,
      function name, line and column, with equal parents. */
  method IsEqualStackTraces(trace1: Option<StackTrace>, trace2: Option<StackTrace>) returns (equal: bool)
    ensures equal <==> Shape(trace1) == Shape(trace2)
    decreases trace1
  {
    if trace1.Some? != trace2.Some? {
      return false;
    }
    if trace1.None? {
      return true;
    }
    var callFrames1 := trace1.value.callFrames;
    var callFrames2 := trace2.value.callFrames;
    if |callFrames1| != |callFrames2| {
      assert |Shape(trace1).value.frames| != |Shape(trace2).value.frames|;
      return false;
    }
    var i := 0;
    while i < |callFrames1|
      invariant 0 <= i <= |callFrames1|
      invariant forall j :: 0 <= j < i ==> KeyOf(callFrames1[j]) == KeyOf(callFrames2[j])
    {
      if callFrames1[i].url != callFrames2[i].url || callFrames1[i].functionName != callFrames2[i].functionName ||
         callFrames1[i].lineNumber != callFrames2[i].lineNumber || callFrames1[i].columnNumber != callFrames2[i].columnNumber {
        assert Shape(trace1).value.frames[i] != Shape(trace2).value.frames[i];
        return false;
      }
      i := i + 1;
    }
    assert Shape(trace1).value.frames == Shape(trace2).value.frames;
    equal := IsEqualStackTraces(trace1.value.parent, trace2.value.parent);
  }

  /** An object parameter other than an error: never equal to anything. */
  predicate IsLiveObject(p: RemoteObject) {
    p.objectType == "object" && p.subtype != Some("error")
  }

  predicate SameParameter(p: RemoteObject, q: RemoteObject) {
    p.objectType == q.objectType && p.value == q.value && p.description == q.description
  }

  /** When `isEqual` holds, stated without its loop. */
  predicate Equal(self: ConsoleMessage, msg: Option<ConsoleMessage>) {
    msg.Some? &&
    Shape(self.stackTrace) == Shape(msg.value.stackTrace) &&
    (self.parameters.Some? ==>
      msg.value.parameters.Some? && |self.parameters.value| == |msg.value.parameters.value| &&
      forall i :: 0 <= i < |msg.value.parameters.value| ==>
        !IsLiveObject(msg.value.parameters.value[i]) &&
        SameParameter(self.parameters.value[i], msg.value.parameters.value[i])) &&
    self.runtimeModel == msg.value.runtimeModel && self.source == msg.value.source &&
    self.messageType == msg.value.messageType && self.level == msg.value.level &&
    self.line == msg.value.line && self.url == msg.value.url &&
    self.messageText == msg.value.messageText && self.executionContextId == msg.value.executionContextId
  }

  /** `isEqual`. */
  method IsEqual(self: ConsoleMessage, msg: Option<ConsoleMessage>) returns (equal: bool)
    ensures equal == Equal(self, msg)
  {
    if msg.None? {
      return false;
    }
    var m := msg.value;
    var tracesEqual := IsEqualStackTraces(self.stackTrace, m.stackTrace);
    if !tracesEqual {
      return false;
    }
    if self.parameters.Some? {
      if m.parameters.None? || |self.parameters.value| != |m.parameters.value| {
        return false;
      }
      var i := 0;
      while i < |m.parameters.value|
        invariant 0 <= i <= |m.parameters.value|
        invariant forall j :: 0 <= j < i ==>
          !IsLiveObject(m.parameters.value[j]) && SameParameter(self.parameters.value[j], m.parameters.value[j])
      {
        var p := self.parameters.value[i];
        var q := m.parameters.value[i];
        if q.objectType == "object" && q.subtype != Some("error") {
          return false;
        }
        if p.objectType != q.objectType || p.value != q.value || p.description != q.description {
          return false;
        }
        i := i + 1;
      }
    }
    equal := self.runtimeModel == m.runtimeModel && self.source == m.source && self.messageType == m.messageType &&
             self.level == m.level && self.line == m.line && self.url == m.url &&
             self.messageText == m.messageText && self.executionContextId == m.executionContextId;
  }

  /** A message equals itself exactly when none of its parameters is a
      live object. */
  lemma EqualReflexiveUnlessObject(m: ConsoleMessage)
    ensures Equal(m, Some(m)) <==>
      (m.parameters.None? || forall i :: 0 <= i < |m.parameters.value| ==> !IsLiveObject(m.parameters.value[i]))
  {
  }

  /** Equality ignores the parameters of the second message when the first
      has none, so it is not symmetric. */
  lemma EqualNotSymmetric(m: ConsoleMessage)
    requires m.parameters.None?
    ensures var n := m.(parameters := Some([])); Equal(m, Some(n)) && !Equal(n, Some(m))
  {
  }

  /** Without live objects, and with parameters on both sides or on
      neither, equality is symmetric: the asymmetry of `EqualNotSymmetric`
      comes only from those two cases. */
  lemma EqualSymmetricWithoutLiveObjects(m: ConsoleMessage, n: ConsoleMessage)
    requires m.parameters.Some? <==> n.parameters.Some?
    requires m.parameters.Some? ==> forall i :: 0 <= i < |m.parameters.value| ==> !IsLiveObject(m.parameters.value[i])
    requires n.parameters.Some? ==> forall i :: 0 <= i < |n.parameters.value| ==> !IsLiveObject(n.parameters.value[i])
    ensures Equal(m, Some(n)) <==> Equal(n, Some(m))
  {
  }

  /** Traces that differ only in script ids are equal. */
  lemma {:induction false} ScriptIdsIgnored(trace: StackTrace, scriptIds: seq<string>)
    requires |scriptIds| == |trace.callFrames|
    ensures var renamed := trace.(callFrames := seq(|trace.callFrames|, i requires 0 <= i < |trace.callFrames| =>
                                                     trace.callFrames[i].(scriptId := scriptIds[i])));
            Shape(Some(renamed)) == Shape(Some(trace))
  {
    var renamed := trace.(callFrames := seq(|trace.callFrames|, i requires 0 <= i < |trace.callFrames| =>
                                             trace.callFrames[i].(scriptId := scriptIds[i])));
    assert Shape(Some(renamed)).value.frames == Shape(Some(trace)).value.frames;
  }

  // ---------------------------------------------------------------------
  // Classification

  /** `isGroupMessage`: a group message is groupable whenever its source
      and level allow it, since no group type is a command, result or
      system type. */
  function IsGroupMessage(m: ConsoleMessage): (r: bool)
    ensures r && m.source != ConsoleAPI && !(m.level == Some(MessageLevel.Error) && (m.source == JS || m.source == Network)) ==>
      IsGroupable(m)
  {
    m.messageType == StartGroup || m.messageType == StartGroupCollapsed || m.messageType == EndGroup
  }

  /** `isGroupStartMessage`: the group messages other than the group end. */
  function IsGroupStartMessage(m: ConsoleMessage): (r: bool)
    ensures r ==> IsGroupMessage(m)
    ensures IsGroupMessage(m) && !r <==> m.messageType == EndGroup
  {
    m.messageType == StartGroup || m.messageType == StartGroupCollapsed
  }

  /** `isErrorOrWarning`: outside violations, exactly the messages the
      counters count. */
  function IsErrorOrWarning(m: ConsoleMessage): (r: bool)
    ensures m.source != Violation ==> (r <==> Counted(m, MessageLevel.Warning) || Counted(m, MessageLevel.Error))
  {
    m.level == Some(MessageLevel.Warning) || m.level == Some(MessageLevel.Error)
  }

  /** `isGroupable`: never a console call, and never a counted JavaScript
      or network error. */
  function IsGroupable(m: ConsoleMessage): (r: bool)
    ensures r ==> m.source != ConsoleAPI
    ensures r ==> !(Counted(m, MessageLevel.Error) && (m.source == JS || m.source == Network))
  {
    var isUngroupableError := m.level == Some(MessageLevel.Error) && (m.source == JS || m.source == Network);
    m.source != ConsoleAPI && m.messageType != Command && m.messageType != Result &&
    m.messageType != System && !isUngroupableError
  }

  /** A message the counters count at the given level. */
  predicate Counted(m: ConsoleMessage, level: MessageLevel) {
    m.source != Violation && m.level == Some(level)
  }

  /** The level `_consoleAPICalled` gives a console call of the given type. */
  function ConsoleApiLevel(t: MessageType): (level: MessageLevel)
    ensures level == MessageLevel.Verbose <==> t == Debug
    ensures level == MessageLevel.Error <==> t == MessageType.Error || t == Assert
    ensures level == MessageLevel.Warning <==> t == MessageType.Warning
    ensures level == MessageLevel.Info <==> !(t in {Debug, MessageType.Error, Assert, MessageType.Warning})
  {
    if t == Debug then MessageLevel.Verbose
    else if t == MessageType.Error || t == Assert then MessageLevel.Error
    else if t == MessageType.Warning then MessageLevel.Warning
    else MessageLevel.Info
  }

  /** A console call is counted as an error exactly for `error` and
      `assert`, and as a warning exactly for `warning`. */
  lemma ConsoleApiCounting(m: ConsoleMessage)
    requires m.source == ConsoleAPI && m.level == Some(ConsoleApiLevel(m.messageType))
    ensures Counted(m, MessageLevel.Error) <==> m.messageType == MessageType.Error || m.messageType == Assert
    ensures Counted(m, MessageLevel.Warning) <==> m.messageType == MessageType.Warning
  {
  }

  // ---------------------------------------------------------------------
  // The store

  /** The number of messages counted at a level. */
  function CountAt(msgs: seq<ConsoleMessage>, level: MessageLevel): (n: nat)
    ensures n <= |msgs|
  {
    if msgs == [] then 0
    else CountAt(msgs[..|msgs| - 1], level) + (if Counted(msgs[|msgs| - 1], level) then 1 else 0)
  }

  lemma CountAtAppend(msgs: seq<ConsoleMessage>, m: ConsoleMessage, level: MessageLevel)
    ensures CountAt(msgs + [m], level) == CountAt(msgs, level) + (if Counted(m, level) then 1 else 0)
  {
    assert (msgs + [m])[..|msgs|] == msgs;
  }

  /** Replacing one message changes the count by the difference. */
  lemma {:induction false} CountAtUpdate(msgs: seq<ConsoleMessage>, k: nat, m: ConsoleMessage, level: MessageLevel)
    requires k < |msgs|
    ensures CountAt(msgs[k := m], level) ==
      CountAt(msgs, level) - (if Counted(msgs[k], level) then 1 else 0) + (if Counted(m, level) then 1 else 0)
  {
    var n := |msgs| - 1;
    var updated := msgs[k := m];
    assert updated[..n] == if k == n then msgs[..n] else msgs[..n][k := m];
    if k < n {
      CountAtUpdate(msgs[..n], k, m, level);
    }
  }

  /** The messages outside violations that are errors or warnings. */
  function ErrorsAndWarnings(msgs: seq<ConsoleMessage>): (n: nat)
    ensures n <= |msgs|
  {
    if msgs == [] then 0
    else
      var last := msgs[|msgs| - 1];
      ErrorsAndWarnings(msgs[..|msgs| - 1]) + (if last.source != Violation && IsErrorOrWarning(last) then 1 else 0)
  }

  /** The two counters together count exactly the stored messages that
      are errors or warnings and not violations. */
  lemma {:induction false} CountersCountErrorsAndWarnings(msgs: seq<ConsoleMessage>)
    ensures CountAt(msgs, MessageLevel.Warning) + CountAt(msgs, MessageLevel.Error) == ErrorsAndWarnings(msgs)
  {
    if msgs != [] {
      CountersCountErrorsAndWarnings(msgs[..|msgs| - 1]);
    }
  }

  /** Message `k` is the one indexed under this runtime model and exception id. */
  predicate Indexed(msgs: seq<ConsoleMessage>, runtimeModel: ModelId, exceptionId: int, k: nat) {
    k < |msgs| && msgs[k].runtimeModel == Some(runtimeModel) && msgs[k].exceptionId == Some(exceptionId)
  }

  /** Whether `addMessage` indexes a message: it has a runtime model and a
      non-zero exception id. */
  predicate HasExceptionEntry(m: ConsoleMessage) {
    m.runtimeModel.Some? && m.exceptionId.Some? && m.exceptionId.value != 0
  }

  /** The index after `modelMap.set(exceptionId, k)` under a runtime model. */
  function WithEntry(index: map<ModelId, map<int, nat>>, runtimeModel: ModelId, exceptionId: int, k: nat)
    : (r: map<ModelId, map<int, nat>>)
    ensures r.Keys == index.Keys + {runtimeModel}
    ensures r[runtimeModel] == (if runtimeModel in index then index[runtimeModel] else map[])[exceptionId := k]
    ensures forall rm :: rm in index && rm != runtimeModel ==> r[rm] == index[rm]
  {
    index[runtimeModel := (if runtimeModel in index then index[runtimeModel] else map[])[exceptionId := k]]
  }

  class ConsoleModel {
    var messages: seq<ConsoleMessage>
    var messageByExceptionId: map<ModelId, map<int, nat>>
    var warnings: int
    var errors: int
    var pageLoadSequenceNumber: int

    /** Each index entry names a stored message with that model and id. */
    ghost predicate Valid()
      reads this
    {
      forall rm, id :: rm in messageByExceptionId && id in messageByExceptionId[rm] ==>
        Indexed(messages, rm, id, messageByExceptionId[rm][id])
    }

    /** The counters agree with the stored messages. */
    ghost predicate Counters()
      reads this
    {
      warnings == CountAt(messages, MessageLevel.Warning) && errors == CountAt(messages, MessageLevel.Error)
    }

    constructor()
      ensures messages == [] && messageByExceptionId == map[]
      ensures warnings == 0 && errors == 0 && pageLoadSequenceNumber == 0
      ensures Valid() && Counters()
    {
      messages := [];
      messageByExceptionId := map[];
      warnings := 0;
      errors := 0;
      pageLoadSequenceNumber := 0;
    }

    /** `_clear`. */
    method Clear()
      modifies this
      ensures messages == [] && messageByExceptionId == map[] && errors == 0 && warnings == 0
      ensures pageLoadSequenceNumber == old(pageLoadSequenceNumber)
      ensures Valid() && Counters()
    {
      messages := [];
      messageByExceptionId := map[];
      errors := 0;
      warnings := 0;
    }

    /** `_clearIfNecessary`: clear unless the log is preserved, and always
        start a new page load. */
    method ClearIfNecessary(preserveLog: bool)
      modifies this
      ensures pageLoadSequenceNumber == old(pageLoadSequenceNumber) + 1
      ensures preserveLog ==> messages == old(messages) && messageByExceptionId == old(messageByExceptionId) &&
                              errors == old(errors) && warnings == old(warnings)
      ensures !preserveLog ==> messages == [] && messageByExceptionId == map[] && errors == 0 && warnings == 0
      ensures old(Valid()) ==> Valid()
      ensures old(Counters()) ==> Counters()
    {
      if !preserveLog {
        Clear();
      }
      pageLoadSequenceNumber := pageLoadSequenceNumber + 1;
    }

    /** `_incrementErrorWarningCount`. */
    method IncrementErrorWarningCount(msg: ConsoleMessage)
      modifies this
      ensures warnings == old(warnings) + (if Counted(msg, MessageLevel.Warning) then 1 else 0)
      ensures errors == old(errors) + (if Counted(msg, MessageLevel.Error) then 1 else 0)
      ensures messages == old(messages) && messageByExceptionId == old(messageByExceptionId)
      ensures pageLoadSequenceNumber == old(pageLoadSequenceNumber)
    {
      if msg.source == Violation {
        return;
      }
      if msg.level == Some(MessageLevel.Warning) {
        warnings := warnings + 1;
      } else if msg.level == Some(MessageLevel.Error) {
        errors := errors + 1;
      }
    }

    /** `addMessage`: a message from a live worker target is dropped;
        otherwise it is stamped with the current page load, a console
        `clear` call clears first when the log is not preserved, the
        message is appended, indexed by exception id and counted. */
    method AddMessage(msg: ConsoleMessage, liveTargets: set<string>, preserveLog: bool)
      modifies this
      ensures msg.source == Worker && msg.workerId.Some? && msg.workerId.value in liveTargets ==>
        messages == old(messages) && messageByExceptionId == old(messageByExceptionId) &&
        warnings == old(warnings) && errors == old(errors) && pageLoadSequenceNumber == old(pageLoadSequenceNumber)
      ensures !(msg.source == Worker && msg.workerId.Some? && msg.workerId.value in liveTargets) ==>
        var stamped := msg.(pageLoadSequenceNumber := Some(old(pageLoadSequenceNumber)));
        var isClear := msg.source == ConsoleAPI && msg.messageType == MessageType.Clear;
        var cleared := isClear && !preserveLog;
        var index := if cleared then map[] else old(messageByExceptionId);
        messages == (if cleared then [] else old(messages)) + [stamped] &&
        pageLoadSequenceNumber == old(pageLoadSequenceNumber) + (if isClear then 1 else 0) &&
        messageByExceptionId ==
          (if HasExceptionEntry(msg)
           then WithEntry(index, msg.runtimeModel.value, msg.exceptionId.value, |messages| - 1)
           else index) &&
        warnings == (if cleared then 0 else old(warnings)) + (if Counted(msg, MessageLevel.Warning) then 1 else 0) &&
        errors == (if cleared then 0 else old(errors)) + (if Counted(msg, MessageLevel.Error) then 1 else 0)
      ensures old(Valid()) ==> Valid()
      ensures old(Counters()) ==> Counters()
    {
      if msg.source == Worker && msg.workerId.Some? && msg.workerId.value in liveTargets {
        return;
      }
      var stamped := msg.(pageLoadSequenceNumber := Some(pageLoadSequenceNumber));
      if msg.source == ConsoleAPI && msg.messageType == MessageType.Clear {
        ClearIfNecessary(preserveLog);
      }
      Record(stamped);
    }

    /** The second half of `addMessage`: append, index and count. */
    method Record(msg: ConsoleMessage)
      modifies this
      ensures messages == old(messages) + [msg]
      ensures messageByExceptionId ==
        (if HasExceptionEntry(msg)
         then WithEntry(old(messageByExceptionId), msg.runtimeModel.value, msg.exceptionId.value, |old(messages)|)
         else old(messageByExceptionId))
      ensures warnings == old(warnings) + (if Counted(msg, MessageLevel.Warning) then 1 else 0)
      ensures errors == old(errors) + (if Counted(msg, MessageLevel.Error) then 1 else 0)
      ensures pageLoadSequenceNumber == old(pageLoadSequenceNumber)
      ensures old(Valid()) ==> Valid()
      ensures old(Counters()) ==> Counters()
    {
      ghost var before := messages;
      messages := messages + [msg];
      assert forall k :: 0 <= k < |before| ==> messages[k] == before[k];
      if HasExceptionEntry(msg) {
        messageByExceptionId := WithEntry(messageByExceptionId, msg.runtimeModel.value, msg.exceptionId.value, |messages| - 1);
      }
      CountAtAppend(before, msg, MessageLevel.Warning);
      CountAtAppend(before, msg, MessageLevel.Error);
      IncrementErrorWarningCount(msg);
    }

    /** `_exceptionRevoked`: an exception id not indexed under the runtime
        model changes nothing; otherwise the error count drops by one and
        the indexed message becomes an info message. The entry stays. */
    method ExceptionRevoked(runtimeModel: ModelId, exceptionId: int)
      requires Valid()
      modifies this
      ensures !(runtimeModel in messageByExceptionId && exceptionId in messageByExceptionId[runtimeModel]) ==>
        messages == old(messages) && errors == old(errors)
      ensures runtimeModel in messageByExceptionId && exceptionId in messageByExceptionId[runtimeModel] ==>
        var k := messageByExceptionId[runtimeModel][exceptionId];
        k < |old(messages)| &&
        messages == old(messages)[k := old(messages)[k].(level := Some(MessageLevel.Info))] &&
        errors == old(errors) - 1
      ensures messageByExceptionId == old(messageByExceptionId) && warnings == old(warnings)
      ensures pageLoadSequenceNumber == old(pageLoadSequenceNumber)
      ensures Valid()
      ensures old(Counters()) && runtimeModel in messageByExceptionId && exceptionId in messageByExceptionId[runtimeModel] ==>
        Counted(old(messages)[messageByExceptionId[runtimeModel][exceptionId]], MessageLevel.Error) ==> Counters()
    {
      if !(runtimeModel in messageByExceptionId && exceptionId in messageByExceptionId[runtimeModel]) {
        return;
      }
      var k := messageByExceptionId[runtimeModel][exceptionId];
      assert Indexed(messages, runtimeModel, exceptionId, k);
      var revoked := messages[k].(level := Some(MessageLevel.Info));
      CountAtUpdate(messages, k, revoked, MessageLevel.Warning);
      CountAtUpdate(messages, k, revoked, MessageLevel.Error);
      errors := errors - 1;
      messages := messages[k := revoked];
    }
  }

  /** Revoking the same exception twice takes two off the error count,
      although only one error message was ever counted. */
  method RevokedTwice() returns (errorsBefore: int, errorsAfter: int, counted: nat)
    ensures errorsBefore == 1 && counted == 0 && errorsAfter == -1
  {
    var model := new ConsoleModel();
    var msg := ConsoleMessage(Some(0), JS, Some(MessageLevel.Error), "", Log, None, 0, 0, None, None, 0, 0,
                              None, None, None, Some(7), None);
    model.AddMessage(msg, {}, false);
    errorsBefore := model.errors;
    model.ExceptionRevoked(0, 7);
    model.ExceptionRevoked(0, 7);
    errorsAfter := model.errors;
    counted := CountAt(model.messages, MessageLevel.Error);
  }
}
