/** Dart evaluation scopes: the JavaScript scope chain a debugger reports is
    turned into the scopes a Dart program can see, by splitting it into
    method scopes and a library scope, stripping symbol-named and
    JavaScript-only properties from the scope of `this`, and aliasing the
    reserved word `this` in parameter lists. Remote objects appear only
    through their description. */
module DartScopes {
  import opened Wrappers
  import opened Strings

  datatype RemoteObject = RemoteObject(description: string)

  /** A remote property; a property built here has no value. */
  datatype Property = Property(name: string, value: Option<RemoteObject>)

  /** A scope as the debugger reports it. */
  datatype RawScope = RawScope(name: string, properties: seq<Property>)

  /** A method or closure scope; `self` is its first property named `this`. */
  datatype MethodScope = MethodScope(name: string, properties: seq<Property>, self: Option<Property>, aliasForThis: string)

  /** The fields and torn-off methods of `this`. */
  datatype ThisScope = ThisScope(name: string, properties: seq<Property>, aliasForThis: string)

  /** The scope of a library; `activeLibraryName` is its key in the module. */
  datatype LibraryScope = LibraryScope(name: string, properties: seq<Property>, activeLibraryName: string)

  datatype Scope = Method(methodScope: MethodScope) | This(thisScope: ThisScope) | Library(libraryScope: LibraryScope)

  /** The object form the debugger front end expects; the prefix is absent
      for method scopes. */
  datatype Environment = Environment(name: string, properties: seq<Property>, prefix: Option<string>)

  /** `propertyNamed`: the first property with the name, None when there is none. */
  function PropertyNamed(properties: seq<Property>, propertyName: string): (p: Option<Property>)
    ensures p.None? <==> forall i :: 0 <= i < |properties| ==> properties[i].name != propertyName
    ensures p.Some? ==> exists k :: 0 <= k < |properties| && properties[k] == p.value &&
                          p.value.name == propertyName &&
                          forall i :: 0 <= i < k ==> properties[i].name != propertyName
  {
    if properties == [] then None
    else if properties[0].name == propertyName then Some(properties[0])
    else
      var rest := PropertyNamed(properties[1..], propertyName);
      if rest.Some? then
        var k :| 0 <= k < |properties[1..]| && properties[1..][k] == rest.value &&
                 forall i :: 0 <= i < k ==> properties[1..][i].name != propertyName;
        assert properties[k + 1] == rest.value;
        rest
      else rest
  }

  /** `propertyIsSymbol`: symbol-keyed properties show as `Symbol(...)`. */
  predicate IsSymbol(p: Property) {
    StartsWith(p.name, "Symbol(")
  }

  /** `propertiesWithoutSymbols`: the properties that are not symbols, in order. */
  function PropertiesWithoutSymbols(properties: seq<Property>): (r: seq<Property>)
    ensures forall i :: 0 <= i < |r| ==> !IsSymbol(r[i]) && r[i] in properties
    ensures forall i :: 0 <= i < |properties| && !IsSymbol(properties[i]) ==> properties[i] in r
    ensures IsSubsequence(r, properties)
    ensures (forall i :: 0 <= i < |properties| ==> !IsSymbol(properties[i])) ==> r == properties
  {
    Filter(properties, (p: Property) => !IsSymbol(p))
  }

  /** Filtering symbols works list piece by list piece, so exactly the
      symbol occurrences are removed. */
  lemma PropertiesWithoutSymbolsConcat(a: seq<Property>, b: seq<Property>)
    ensures PropertiesWithoutSymbols(a + b) == PropertiesWithoutSymbols(a) + PropertiesWithoutSymbols(b)
  {
    FilterConcat(a, b, (p: Property) => !IsSymbol(p));
  }

  /** `Dart._namesToIgnore`: JavaScript and compiler-generated names. */
  const NamesToIgnore: set<string> := {
    "constructor", "noSuchMethod", "runtimeType", "toString", "_equals",
    "__defineGetter__", "__defineSetter__", "__lookupGetter__", "__lookupSetter__",
    "__proto__", "classGetter", "hasOwnProperty", "hashCode", "isPrototypeOf",
    "propertyIsEnumerable", "toLocaleString", "valueOf", "_identityHashCode"}

  /** `isIgnoredProperty`: never a symbol-keyed property, so the symbol
      filter and this one remove different properties. */
  function IsIgnoredProperty(p: Property): (r: bool)
    ensures IsSymbol(p) ==> !r
  {
    assert IsSymbol(p) ==> p.name[0] == 'S';
    assert forall name :: name in NamesToIgnore ==> name[0] != 'S';
    StartsWith(p.name, "_is_") || p.name in NamesToIgnore
  }

  /** Visible in a Dart `this` scope: neither a symbol nor ignored. */
  predicate Visible(p: Property) {
    !IsSymbol(p) && !IsIgnoredProperty(p)
  }

  /** A private field is keyed by a symbol whose description starts with `_`. */
  predicate IsPrivateFieldSymbol(p: Property) {
    StartsWith(p.name, "Symbol(_")
  }

  /** The renaming of one property in `toDartScope`: `Symbol(_x)` becomes a
      value-less property named `_x`; anything else is kept. */
  function Unsymbol(p: Property): (q: Property)
    ensures IsPrivateFieldSymbol(p) ==> p.name == "Symbol(" + q.name + [p.name[|p.name| - 1]] && q.value.None?
    ensures !IsPrivateFieldSymbol(p) ==> q == p
  {
    if IsPrivateFieldSymbol(p) then
      var q := Property(p.name[|"Symbol("|..|p.name| - 1], None);
      assert p.name == "Symbol(" + q.name + [p.name[|p.name| - 1]];
      q
    else p
  }

  /** A private field's symbol `Symbol(_x)` is renamed back to `_x`. */
  lemma UnsymbolPrivateField(field: string, value: Option<RemoteObject>)
    requires StartsWith(field, "_")
    ensures Unsymbol(Property("Symbol(" + field + ")", value)) == Property(field, None)
  {
    var name := "Symbol(" + field + ")";
    assert name[..|"Symbol(_"|] == "Symbol(" + field[..1];
    assert name[|"Symbol("|..|name| - 1] == field;
  }

  /** The rename loop of `toDartScope`, as a function of the property list. */
  function UnsymbolAll(properties: seq<Property>): (r: seq<Property>)
    ensures |r| == |properties|
    ensures forall i :: 0 <= i < |properties| ==> r[i] == Unsymbol(properties[i])
  {
    seq(|properties|, i requires 0 <= i < |properties| => Unsymbol(properties[i]))
  }

  /** `withoutSymbols`. */
  function WithoutSymbols(scope: ThisScope): ThisScope {
    ThisScope(scope.name, PropertiesWithoutSymbols(scope.properties), scope.aliasForThis)
  }

  /** `withoutIgnored`. */
  function WithoutIgnored(scope: ThisScope): (r: ThisScope)
    ensures r.name == scope.name && r.aliasForThis == scope.aliasForThis
    ensures forall i :: 0 <= i < |r.properties| ==> !IsIgnoredProperty(r.properties[i]) && r.properties[i] in scope.properties
    ensures forall i :: 0 <= i < |scope.properties| && !IsIgnoredProperty(scope.properties[i]) ==> scope.properties[i] in r.properties
  {
    ThisScope(scope.name, Filter(scope.properties, (p: Property) => !IsIgnoredProperty(p)), scope.aliasForThis)
  }

  /** `_ThisScope.toDartScope`: private-field symbols are renamed to their
      field names, then symbols and ignored names are dropped. */
  method ToDartScope(scope: ThisScope) returns (r: ThisScope)
    ensures r == WithoutIgnored(WithoutSymbols(ThisScope(scope.name, UnsymbolAll(scope.properties), scope.aliasForThis)))
    ensures forall i :: 0 <= i < |r.properties| ==> Visible(r.properties[i])
  {
    var newProperties: seq<Property> := [];
    var i := 0;
    while i < |scope.properties|
      invariant 0 <= i <= |scope.properties|
      invariant newProperties == UnsymbolAll(scope.properties[..i])
    {
      var property := scope.properties[i];
      if StartsWith(property.name, "Symbol(_") {
        newProperties := newProperties + [Property(property.name[|"Symbol("|..|property.name| - 1], None)];
      } else {
        newProperties := newProperties + [property];
      }
      i := i + 1;
    }
    assert scope.properties[..i] == scope.properties;
    var newScope := ThisScope(scope.name, newProperties, scope.aliasForThis);
    r := WithoutIgnored(WithoutSymbols(newScope));
    forall k | 0 <= k < |r.properties| ensures Visible(r.properties[k]) {
      assert r.properties[k] in WithoutSymbols(newScope).properties;
    }
  }

  /** A property survives `toDartScope` exactly when its renamed form is
      visible, so a private field `Symbol(_x)` shows as `_x` unless `_x` is
      an ignored name. */
  lemma ToDartScopeMembers(scope: ThisScope, q: Property)
    ensures var r := WithoutIgnored(WithoutSymbols(ThisScope(scope.name, UnsymbolAll(scope.properties), scope.aliasForThis)));
      q in r.properties <==> Visible(q) && exists i :: 0 <= i < |scope.properties| && Unsymbol(scope.properties[i]) == q
  {
    var renamed := UnsymbolAll(scope.properties);
    var r := WithoutIgnored(WithoutSymbols(ThisScope(scope.name, renamed, scope.aliasForThis)));
    if q in r.properties {
      assert q in PropertiesWithoutSymbols(renamed);
      var i :| 0 <= i < |renamed| && renamed[i] == q;
    }
    if Visible(q) && exists i :: 0 <= i < |scope.properties| && Unsymbol(scope.properties[i]) == q {
      var i :| 0 <= i < |scope.properties| && Unsymbol(scope.properties[i]) == q;
      assert renamed[i] == q;
      var ws := PropertiesWithoutSymbols(renamed);
      var k :| 0 <= k < |ws| && ws[k] == q;
    }
  }

  /** `isEmpty`: an empty scope stays empty through both filters. */
  function IsEmpty(scope: ThisScope): (r: bool)
    ensures r ==> WithoutSymbols(scope).properties == [] && WithoutIgnored(scope).properties == []
    ensures !r ==> exists p :: p in scope.properties
  {
    assert scope.properties != [] ==> scope.properties[0] in scope.properties;
    |scope.properties| == 0
  }

  /** `isNotEmpty`. */
  predicate IsNotEmpty(scope: ThisScope) {
    !IsEmpty(scope)
  }

  /** The Dart form of `this` is empty exactly when no property of it is
      visible after renaming, which is what makes the scope chain fall back
      to the first method's `this`. */
  lemma ToDartScopeEmpty(scope: ThisScope)
    ensures IsEmpty(WithoutIgnored(WithoutSymbols(ThisScope(scope.name, UnsymbolAll(scope.properties), scope.aliasForThis))))
        <==> forall i :: 0 <= i < |scope.properties| ==> !Visible(Unsymbol(scope.properties[i]))
  {
    var r := WithoutIgnored(WithoutSymbols(ThisScope(scope.name, UnsymbolAll(scope.properties), scope.aliasForThis)));
    if !IsEmpty(r) {
      ToDartScopeMembers(scope, r.properties[0]);
    }
    forall i | 0 <= i < |scope.properties| && Visible(Unsymbol(scope.properties[i])) ensures !IsEmpty(r) {
      ToDartScopeMembers(scope, Unsymbol(scope.properties[i]));
    }
  }

  /** The `_MethodScope` constructor over a reported scope. */
  function NewMethodScope(raw: RawScope, aliasForThis: string): (m: MethodScope)
    ensures m.name == raw.name && m.properties == raw.properties && m.aliasForThis == aliasForThis
    ensures m.self == PropertyNamed(raw.properties, "this")
    ensures m.self.Some? ==> m.self.value.name == "this" && m.self.value in raw.properties
  {
    MethodScope(raw.name, raw.properties, PropertyNamed(raw.properties, "this"), aliasForThis)
  }

  /** The `this` alias of one property in `_MethodScope.toDevtoolsForm`. */
  function AliasThis(p: Property, aliasForThis: string): Property {
    if p.name == "this" then Property(aliasForThis, None) else p
  }

  /** `_MethodScope.toDevtoolsForm`: each property named `this` is replaced
      by a value-less property named after the alias; length, order and all
      other properties are kept. */
  function MethodToDevtoolsForm(scope: MethodScope): (e: Environment)
    ensures e.name == scope.name && e.prefix.None?
    ensures |e.properties| == |scope.properties|
    ensures forall i :: 0 <= i < |scope.properties| ==>
      e.properties[i] == (if scope.properties[i].name == "this" then Property(scope.aliasForThis, None) else scope.properties[i])
  {
    Environment(scope.name, seq(|scope.properties|, i requires 0 <= i < |scope.properties| => AliasThis(scope.properties[i], scope.aliasForThis)), None)
  }

  /** `toDevtoolsForm` of each kind of scope: the `this` scope is prefixed
      with `this`, a library scope with its library name. */
  function ToDevtoolsForm(scope: Scope): (e: Environment)
    ensures scope.Method? ==> e == MethodToDevtoolsForm(scope.methodScope)
    ensures scope.This? ==> e == Environment(scope.thisScope.name, scope.thisScope.properties, Some("this"))
    ensures scope.Library? ==> e == Environment(scope.libraryScope.name, scope.libraryScope.properties, Some(scope.libraryScope.activeLibraryName))
  {
    match scope
    case Method(m) => MethodToDevtoolsForm(m)
    case This(t) => Environment(t.name, t.properties, Some("this"))
    case Library(l) => Environment(l.name, l.properties, Some(l.activeLibraryName))
  }

  /** When the alias is `this` itself (completion), only the values of the
      `this` properties are dropped. */
  lemma AliasThisKeepsNames(scope: MethodScope)
    requires scope.aliasForThis == "this"
    ensures forall i :: 0 <= i < |scope.properties| ==>
      MethodToDevtoolsForm(scope).properties[i].name == scope.properties[i].name
  {
  }

  /** `_isLibrary`: a property holds another library when it has a value
      described as `Object` or `Proxy` and is not the active library. */
  function IsLibrary(p: Property, activeLibraryName: string): (r: bool)
    ensures r ==> p.name != activeLibraryName && p.value.Some?
  {
    p.value.Some? && p.name != activeLibraryName &&
    (p.value.value.description == "Object" || p.value.value.description == "Proxy")
  }

  /** The filter `_expandOthers` applies before expanding each library. */
  function OtherLibraries(scope: LibraryScope): (libs: seq<Property>)
    ensures forall i :: 0 <= i < |libs| ==>
      libs[i] in scope.properties && libs[i].name != scope.activeLibraryName && libs[i].value.Some? &&
      libs[i].value.value.description in {"Object", "Proxy"}
    ensures forall i :: 0 <= i < |scope.properties| && IsLibrary(scope.properties[i], scope.activeLibraryName) ==>
      scope.properties[i] in libs
  {
    Filter(scope.properties, (p: Property) => IsLibrary(p, scope.activeLibraryName))
  }

  /** `activeLibrary`. */
  function ActiveLibrary(scope: LibraryScope): (lib: Option<Property>)
    ensures lib.Some? ==> lib.value.name == scope.activeLibraryName && lib.value in scope.properties
    ensures lib.None? <==> forall i :: 0 <= i < |scope.properties| ==> scope.properties[i].name != scope.activeLibraryName
  {
    PropertyNamed(scope.properties, scope.activeLibraryName)
  }

  /** The active library is never among the other libraries. */
  lemma ActiveLibraryNotOther(scope: LibraryScope)
    ensures ActiveLibrary(scope).Some? ==> ActiveLibrary(scope).value !in OtherLibraries(scope)
  {
  }

  /** The scope chain as the debugger reports it, split into parts. */
  datatype JsScopeChain = JsScopeChain(
    methodScopes: seq<MethodScope>,
    libraryScope: LibraryScope,
    libraryName: string,
    forCompletion: bool,
    aliasForThis: string)

  /** The `_JsScopeChain` constructor: all scopes but the last two are
      method scopes, the second-last is the library and the last (global)
      one is dropped. With fewer than two scopes reading the library scope
      throws (None). */
  function NewJsScopeChain(scopeList: seq<RawScope>, libraryName: string, forCompletion: bool, aliasForThis: string)
    : (chain: Option<JsScopeChain>)
    ensures chain.None? <==> |scopeList| < 2
    ensures chain.Some? ==>
      var n := |scopeList|;
      |chain.value.methodScopes| == n - 2 &&
      (forall i :: 0 <= i < n - 2 ==> chain.value.methodScopes[i] == NewMethodScope(scopeList[i], aliasForThis)) &&
      chain.value.libraryScope == LibraryScope(scopeList[n - 2].name, scopeList[n - 2].properties, libraryName) &&
      chain.value.libraryName == libraryName && chain.value.forCompletion == forCompletion &&
      chain.value.aliasForThis == aliasForThis
  {
    if |scopeList| < 2 then None
    else
      var n := |scopeList|;
      var methods := seq(n - 2, i requires 0 <= i < n - 2 => NewMethodScope(scopeList[i], aliasForThis));
      var library := scopeList[n - 2];
      Some(JsScopeChain(methods, LibraryScope(library.name, library.properties, libraryName), libraryName, forCompletion, aliasForThis))
  }

  /** The Dart-visible scope chain. */
  datatype DartScopeChain = DartScopeChain(methodScopes: seq<MethodScope>, thisScope: ThisScope, libraryScopes: seq<LibraryScope>)

  /** `_allScopes`: the method scopes, then the `this` scope, then the
      library scopes. */
  function AllScopes(chain: DartScopeChain): (scopes: seq<Scope>)
    ensures |scopes| == |chain.methodScopes| + 1 + |chain.libraryScopes|
    ensures forall i :: 0 <= i < |chain.methodScopes| ==> scopes[i] == Method(chain.methodScopes[i])
    ensures scopes[|chain.methodScopes|] == This(chain.thisScope)
    ensures forall i :: 0 <= i < |chain.libraryScopes| ==>
      scopes[|chain.methodScopes| + 1 + i] == Library(chain.libraryScopes[i])
  {
    seq(|chain.methodScopes|, i requires 0 <= i < |chain.methodScopes| => Method(chain.methodScopes[i]))
    + [This(chain.thisScope)]
    + seq(|chain.libraryScopes|, i requires 0 <= i < |chain.libraryScopes| => Library(chain.libraryScopes[i]))
  }

  /** `_DartScopeChain.toDevtoolsForm`: exactly one environment, the `this`
      one, carries the prefix `this`, and it follows the method scopes. */
  function ChainToDevtoolsForm(chain: DartScopeChain): (envs: seq<Environment>)
    ensures |envs| == |AllScopes(chain)|
    ensures forall i :: 0 <= i < |envs| ==> envs[i] == ToDevtoolsForm(AllScopes(chain)[i])
    ensures envs[|chain.methodScopes|].prefix == Some("this")
    ensures forall i :: 0 <= i < |chain.methodScopes| ==> envs[i].prefix.None?
  {
    var scopes := AllScopes(chain);
    seq(|scopes|, i requires 0 <= i < |scopes| => ToDevtoolsForm(scopes[i]))
  }
}
