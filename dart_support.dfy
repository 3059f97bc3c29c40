/** `$dartExpressionFor`: the JavaScript text that evaluates a dotted Dart
    expression in the page. Each dot-separated component must look like a
    Dart identifier; otherwise the expression is wrapped to be evaluated
    as JavaScript. The first component is the receiver, looked up in the
    JavaScript scope, on `this` or by `eval`, and each further component is
    one dynamic getter call. */
module DartSupport {
  import opened Strings

  /** A character of `[_$a-zA-Z0-9]`. */
  predicate IsIdentifierChar(c: char) {
    c == '_' || c == '$' || ('a' <= c <= 'z') || ('A' <= c <= 'Z') || ('0' <= c <= '9')
  }

  /** `component.match(/^[_\$a-zA-Z0-9]*$/g)` is non-null: the empty
      component matches too. */
  predicate LooksLikeIdentifier(component: string) {
    forall i :: 0 <= i < |component| ==> IsIdentifierChar(component[i])
  }

  /** The fixed parts of the generated text: what precedes the
      expression in the JavaScript fallback, and what surrounds the receiver
      name in the lookup. The generator is stated for any such parts;
      `PageTemplates` holds the ones the page uses. */
  datatype Templates = Templates(fallbackHead: string, receiverHead: string, receiverTail: string)

  // The page-side helpers and fixed parts of the generated text.

  const LookupInJsScope := @"function lookupInJsScope(name) {
  try {
    if (name != window[name] || !(name in window)) {
      return name;
    }
  } catch(e) {}
}"

  const LookupInThis := @"function lookupInThis(__this, name) {
  var found = false;
  let type = dart.getReifiedType(__this) == ""NativeJavaScriptObject""
      ? null : dart.getType(__this);
  dart._dhelperRepl(__this, name, (resolvedName) => {
    var f = dart._canonicalMember(__this, resolvedName);
    if (dart.hasField(type, f) || dart.hasGetter(type, f) || dart.hasMethod(type, f)) {
      found = true;
    }
  });
  if (found) return name;
};"

  const FallbackHead := @"console.log(""%c(Cannot evaluate as a Dart expression, using JS eval)"",
          ""background-color: hsl(50, 100%, 95%)"");
      "

  const ReceiverHead := @"
(function(__this) {
  // TODO: These should probably be helper functions in the DDC runtime.
" + LookupInJsScope + "\n" + LookupInThis + @"

  var dart;
  if (window.dart_library) {
    dart = dart_library.import('dart_sdk').dart;
  } else {
    dart = requirejs('dart_sdk').dart;
  }
  var name = """

  const ReceiverTail := @""";
  var jsScopeName = lookupInJsScope(name);
  var thisScopeName = lookupInThis(__this,name);
  var receiverObject;
  if (name == ""this"") {
    receiverObject = __this;
  } else if (thisScopeName) {
    receiverObject = dart.dloadRepl(__this, thisScopeName);
  }
  var result = receiverObject || eval(jsScopeName || name);"

  const PageTemplates := Templates(FallbackHead, ReceiverHead, ReceiverTail)

  const ExpressionTail := "return result;})(this)"

  /** The text that hands an expression over to JavaScript evaluation. */
  function Fallback(t: Templates, dartExpression: string): (text: string)
    ensures StartsWith(text, t.fallbackHead)
    ensures text[|t.fallbackHead|..] == dartExpression + ";"
  {
    var text := t.fallbackHead + dartExpression + ";";
    assert text[..|t.fallbackHead|] == t.fallbackHead;
    text
  }

  /** The receiver lookup for the first component. */
  function ReceiverLookup(t: Templates, receiver: string): string {
    t.receiverHead + receiver + t.receiverTail
  }

  /** One getter line. */
  function GetterLine(getter: string): string {
    "result = dart.dloadRepl(result, \"" + getter + "\");\n"
  }

  /** The getter lines for the given components, in order. */
  function Getters(components: seq<string>): (text: string)
    ensures components == [] ==> text == ""
  {
    if components == [] then "" else GetterLine(components[0]) + Getters(components[1..])
  }

  lemma {:induction false} GettersConcat(a: seq<string>, b: seq<string>)
    ensures Getters(a + b) == Getters(a) + Getters(b)
  {
    if a == [] {
      assert a + b == b;
    } else {
      assert (a + b)[0] == a[0] && (a + b)[1..] == a[1..] + b;
      GettersConcat(a[1..], b);
    }
  }

  /** The text `$dartExpressionFor` returns, stated without its loops. */
  function ExpressionFor(t: Templates, dartExpression: string): string {
    var components := Split(dartExpression, '.');
    if exists i :: 0 <= i < |components| && !LooksLikeIdentifier(components[i]) then Fallback(t, dartExpression)
    else ReceiverLookup(t, components[0]) + Getters(components[1..]) + ExpressionTail
  }

  /** `window.$dartExpressionFor`, with its checking loop and its
      appending loop. The execution context argument is unused. */
  method DartExpressionFor(t: Templates, dartExpression: string) returns (expression: string)
    ensures expression == ExpressionFor(t, dartExpression)
  {
    var components := Split(dartExpression, '.');
    var i := 0;
    while i < |components|
      invariant 0 <= i <= |components|
      invariant forall j :: 0 <= j < i ==> LooksLikeIdentifier(components[j])
    {
      if !LooksLikeIdentifier(components[i]) {
        return Fallback(t, dartExpression);
      }
      i := i + 1;
    }
    var receiver := components[0];
    components := components[1..];
    ghost var getters := components;
    expression := ReceiverLookup(t, receiver);
    while components != []
      invariant expression + Getters(components) == ReceiverLookup(t, receiver) + Getters(getters)
      decreases |components|
    {
      expression := expression + GetterLine(components[0]);
      components := components[1..];
    }
    expression := expression + ExpressionTail;
  }

  /** An expression with a component that is not identifier-like is
      evaluated as JavaScript, verbatim. */
  lemma FallbackKeepsExpression(t: Templates, dartExpression: string, k: nat)
    requires k < |Split(dartExpression, '.')| && !LooksLikeIdentifier(Split(dartExpression, '.')[k])
    ensures ExpressionFor(t, dartExpression) == Fallback(t, dartExpression)
    ensures ExpressionFor(t, dartExpression)[|t.fallbackHead|..|t.fallbackHead| + |dartExpression|] == dartExpression
  {
  }

  /** The receiver and the getters of an identifier-like expression put
      back together with dots give the expression. */
  lemma ComponentsRecoverExpression(dartExpression: string)
    ensures var components := Split(dartExpression, '.');
      Join([components[0]] + components[1..], ".") == dartExpression
  {
    var components := Split(dartExpression, '.');
    assert [components[0]] + components[1..] == components;
    JoinSplit(dartExpression, '.');
  }

  /** Empty components pass the check: `a..b` reads the getters `` and `b`. */
  lemma EmptyComponentPasses(t: Templates)
    ensures ExpressionFor(t, "a..b") == ReceiverLookup(t, "a") + GetterLine("") + GetterLine("b") + ExpressionTail
  {
    assert "a..b"[0] == 'a' && "a..b"[1..] == "..b";
    assert Split("..b", '.') == ["", "", "b"] by {
      assert "..b"[1..] == ".b";
      assert ".b"[1..] == "b";
      assert "b"[1..] == "" && "b"[0] == 'b';
      assert ['b'] + "" == "b";
      assert Split("b", '.') == ["b"];
      assert Split(".b", '.') == ["", "b"];
    }
    var components := Split("a..b", '.');
    assert ['a'] + "" == "a";
    assert components == ["a", "", "b"];
    assert LooksLikeIdentifier("a") && LooksLikeIdentifier("") && LooksLikeIdentifier("b");
    assert forall i :: 0 <= i < |components| ==> LooksLikeIdentifier(components[i]);
    assert components[1..] == ["", "b"];
    assert Getters(["b"]) == GetterLine("b") + Getters([]);
  }

  /** A plain receiver with no getters is just looked up. */
  lemma ReceiverOnly(t: Templates, name: string)
    requires '.' !in name && LooksLikeIdentifier(name)
    ensures ExpressionFor(t, name) == ReceiverLookup(t, name) + ExpressionTail
  {
    SplitJoin([name], '.');
    assert Join([name], ".") == name;
    assert Split(name, '.')[1..] == [];
  }
}
