/** The string handling of a Dart evaluation: rewriting `this` in the
    expression, naming a library after its URL, assembling the query of a
    compilation request, collecting the visible variable names, and the
    heuristic that finds the current library from frame names. The remote
    round trips that produce their inputs are not modelled. */
module DartEval {
  import opened Wrappers
  import opened Strings
  import DartScopes

  // ---------------------------------------------------------------------
  // Rewriting `this`

  /** A character that `\b` treats as part of a word. */
  predicate IsWordChar(c: char) {
    ('a' <= c <= 'z') || ('A' <= c <= 'Z') || ('0' <= c <= '9') || c == '_'
  }

  /** `/\bthis\b/` matches at i: `this` not preceded or followed by a word character. */
  predicate WholeWordThisAt(s: string, i: int) {
    0 <= i && i + 4 <= |s| && s[i..i + 4] == "this" &&
    (i == 0 || !IsWordChar(s[i - 1])) && (i + 4 == |s| || !IsWordChar(s[i + 4]))
  }

  /** The start of the whole-word `this` that covers position i, or -1. */
  function CoverStart(s: string, i: int): (j: int)
    ensures j == -1 || (i - 3 <= j <= i && WholeWordThisAt(s, j))
    ensures j == -1 ==> forall k :: i - 3 <= k <= i ==> !WholeWordThisAt(s, k)
  {
    if WholeWordThisAt(s, i) then i
    else if WholeWordThisAt(s, i - 1) then i - 1
    else if WholeWordThisAt(s, i - 2) then i - 2
    else if WholeWordThisAt(s, i - 3) then i - 3
    else -1
  }

  /** The reference rewriting: every character of a whole-word `this` is
      replaced by the matching character of `THIS`; all else is kept. */
  function ThisRewritten(s: string): (r: string)
    ensures |r| == |s|
  {
    seq(|s|, i requires 0 <= i < |s| => if CoverStart(s, i) >= 0 then "THIS"[i - CoverStart(s, i)] else s[i])
  }

  /** Two whole-word occurrences of `this` never overlap. */
  lemma WholeWordThisDisjoint(s: string, i: int, j: int)
    requires WholeWordThisAt(s, i) && i < j < i + 4
    ensures !WholeWordThisAt(s, j)
  {
  }

  /** The expression rewriting of the `_Evaluation` constructor: a missing
      expression reads as empty, and `replace(/\bthis\b/g, 'THIS')` scans
      left to right. */
  method RewriteThis(dartExpression: Option<string>) returns (r: string)
    ensures r == ThisRewritten(dartExpression.GetOr(""))
  {
    var s := dartExpression.GetOr("");
    r := "";
    var i := 0;
    while i < |s|
      invariant 0 <= i <= |s| && |r| == i
      invariant forall k :: 0 <= k < i ==> r[k] == ThisRewritten(s)[k]
      invariant forall j :: j < i < j + 4 ==> !WholeWordThisAt(s, j)
      decreases |s| - i
    {
      if i + 4 <= |s| && s[i..i + 4] == "this" && (i == 0 || !IsWordChar(s[i - 1])) && (i + 4 == |s| || !IsWordChar(s[i + 4])) {
        assert WholeWordThisAt(s, i);
        forall k | i <= k < i + 4 ensures CoverStart(s, k) == i {
          forall j | i < j <= k ensures !WholeWordThisAt(s, j) {
            WholeWordThisDisjoint(s, i, j);
          }
        }
        r := r + "THIS";
        forall j | j < i + 4 < j + 4 ensures !WholeWordThisAt(s, j) {
          if i < j { WholeWordThisDisjoint(s, i, j); }
        }
        i := i + 4;
      } else {
        assert CoverStart(s, i) == -1;
        r := r + [s[i]];
        i := i + 1;
      }
    }
    assert r == ThisRewritten(s);
  }

  /** Rewriting keeps whether a character is a word character. */
  lemma RewrittenWordChar(s: string, x: int)
    requires 0 <= x < |s|
    ensures IsWordChar(ThisRewritten(s)[x]) == IsWordChar(s[x])
  {
    var c := CoverStart(s, x);
    if c >= 0 {
      assert s[c..c + 4][x - c] == s[x];
    }
  }

  /** A lower-case letter of the rewritten text was not rewritten. */
  lemma RewrittenLowercase(s: string, x: int)
    requires 0 <= x < |s| && 'a' <= ThisRewritten(s)[x] <= 'z'
    ensures ThisRewritten(s)[x] == s[x]
  {
  }

  /** After rewriting no whole-word `this` is left, and everything that is
      not part of one is unchanged. */
  lemma ThisRewrittenComplete(s: string)
    ensures forall j :: !WholeWordThisAt(ThisRewritten(s), j)
    ensures forall i :: 0 <= i < |s| && CoverStart(s, i) == -1 ==> ThisRewritten(s)[i] == s[i]
  {
    forall j ensures !WholeWordThisAt(ThisRewritten(s), j) {
      NoWholeWordThisAt(s, j);
    }
  }

  lemma NoWholeWordThisAt(s: string, j: int)
    ensures !WholeWordThisAt(ThisRewritten(s), j)
  {
    var u := ThisRewritten(s);
    if WholeWordThisAt(u, j) {
      assert u[j] == u[j..j + 4][0] == 't';
      RewrittenWholeWordWasWholeWord(s, j);
      RewrittenAtStart(s, j);
    }
  }

  /** A whole-word `this` in the rewritten text is one in the original. */
  lemma RewrittenWholeWordWasWholeWord(s: string, j: int)
    requires WholeWordThisAt(ThisRewritten(s), j)
    ensures WholeWordThisAt(s, j)
  {
    RewrittenWindowUnchanged(s, j);
    if j > 0 { RewrittenWordChar(s, j - 1); }
    if j + 4 < |s| { RewrittenWordChar(s, j + 4); }
  }

  /** The letters of a whole-word `this` in the rewritten text were not rewritten. */
  lemma RewrittenWindowUnchanged(s: string, j: int)
    requires WholeWordThisAt(ThisRewritten(s), j)
    ensures s[j..j + 4] == "this"
  {
    var u := ThisRewritten(s);
    forall k | j <= k < j + 4 ensures s[k] == u[k] {
      assert u[j..j + 4][k - j] == u[k];
      RewrittenLowercase(s, k);
    }
    assert s[j..j + 4] == u[j..j + 4];
  }

  /** The first character of a whole-word `this` becomes `T`. */
  lemma RewrittenAtStart(s: string, j: int)
    requires WholeWordThisAt(s, j)
    ensures ThisRewritten(s)[j] == 'T'
  {
  }

  /** `aliasForThis`. */
  function AliasForThis(forCompletion: bool): (alias: string)
    ensures alias == "this" <==> forCompletion
    ensures alias == "THIS" <==> !forCompletion
  {
    if forCompletion then "this" else "THIS"
  }

  // ---------------------------------------------------------------------
  // Library names

  /** `_urlToLibrary`: a missing or empty URL names nothing; a package URL
      names the part of its last path segment (the text after the last `/`,
      or the whole URL when it has none) before the first `.`; any
      other URL loses its last five characters (the `.dart`) and has each
      `/` replaced by `__`. */
  function UrlToLibrary(url: Option<string>): (name: Option<string>)
    ensures url.None? || url.value == "" ==> name.None?
    ensures url.Some? && url.value != "" ==> name.Some?
    ensures url.Some? && StartsWith(url.value, "package:") ==>
      exists file :: IsLastPiece(url.value, file, '/') && IsFirstPiece(file, name.value, '.')
    ensures url.Some? && StartsWith(url.value, "package:") ==> '/' !in name.value && '.' !in name.value
    ensures url.Some? && url.value != "" && !StartsWith(url.value, "package:") ==>
      name.value == ReplaceChar(url.value[..if |url.value| >= 5 then |url.value| - 5 else 0], '/', "__")
  {
    if url.None? || url.value == "" then None
    else if StartsWith(url.value, "package:") then
      var segments := Split(url.value, '/');
      var last := segments[|segments| - 1];
      var file := Split(last, '.')[0];
      SplitLastPiece(url.value, '/');
      SplitFirstPiece(last, '.');
      assert IsLastPiece(url.value, last, '/') && IsFirstPiece(last, file, '.');
      Some(file)
    else
      var path := url.value[..if |url.value| >= 5 then |url.value| - 5 else 0];
      Some(ReplaceChar(path, '/', "__"))
  }

  /** A package URL `package:p/d/name.ext` names `name`. */
  lemma PackageUrlNamesFile(packagePath: string, name: string, extension: string)
    requires '.' !in name && '/' !in name && '/' !in extension
    ensures UrlToLibrary(Some("package:" + packagePath + "/" + name + "." + extension)) == Some(name)
  {
    var url := "package:" + packagePath + "/" + name + "." + extension;
    assert url[..|"package:"|] == "package:";
    var last := name + "." + extension;
    assert last == name + ("." + extension);
    assert '/' !in last;
    assert url == ("package:" + packagePath) + ['/'] + last;
    SplitAfterLastSeparator("package:" + packagePath, last, '/');
    var segments := Split(url, '/');
    assert segments[|segments| - 1] == last;
    SplitAfterPiece(name, "." + extension, '.');
    assert ("." + extension)[0] == '.' && ("." + extension)[1..] == extension;
    assert Split("." + extension, '.')[0] == "";
    assert name + "" == name;
    assert Split(last, '.')[0] == name;
    assert StartsWith(url, "package:");
  }

  /** The converse of the package case of `UrlToLibrary`: the text after the
      last `/`, cut at its first `.`, is the name. */
  lemma PackageUrlNames(url: string, file: string, name: string)
    requires StartsWith(url, "package:") && IsLastPiece(url, file, '/') && IsFirstPiece(file, name, '.')
    ensures UrlToLibrary(Some(url)) == Some(name)
  {
    var named := UrlToLibrary(Some(url)).value;
    var segment :| IsLastPiece(url, segment, '/') && IsFirstPiece(segment, named, '.');
    LastPieceUnique(url, segment, file, '/');
    FirstPieceUnique(file, named, name, '.');
  }

  /** A package URL whose last segment has no extension names that segment. */
  lemma PackageUrlWithoutExtension()
    ensures UrlToLibrary(Some("package:a/b")) == Some("b")
  {
    var url := "package:a/b";
    assert url[..8] == "package:";
    assert url[|url| - 1..] == "b" && url[|url| - 2] == '/';
    assert "b"[..1] == "b";
    PackageUrlNames(url, "b", "b");
  }

  /** A package URL without a `/` is its own last segment, so the name keeps
      the scheme. */
  lemma PackageUrlWithoutSlash()
    ensures UrlToLibrary(Some("package:foo.dart")) == Some("package:foo")
  {
    var url := "package:foo.dart";
    assert url[..8] == "package:";
    assert url[|url| - |url|..] == url;
    assert forall k :: 0 <= k < |url| ==> url[k] != '/';
    assert url[..11] == "package:foo" && url[11] == '.';
    assert forall k :: 0 <= k < 11 ==> url[k] != '.';
    PackageUrlNames(url, url, "package:foo");
  }

  /** Splitting `a + [sep] + b` with no separator in b ends in the piece b. */
  lemma {:induction false} SplitAfterLastSeparator(a: string, b: string, sep: char)
    requires sep !in b
    ensures var parts := Split(a + [sep] + b, sep); |parts| >= 2 && parts[|parts| - 1] == b
  {
    if a == [] {
      assert a + [sep] + b == [sep] + b;
      assert ([sep] + b)[1..] == b;
      SplitAfterPiece(b, "", sep);
      assert b + "" == b;
    } else {
      assert (a + [sep] + b)[1..] == a[1..] + [sep] + b;
      SplitAfterLastSeparator(a[1..], b, sep);
    }
  }

  /** A path URL `a/b.dart` is named by its path with `/` turned into `__`. */
  lemma PathUrlNamesPath(path: string)
    requires path != "" && !StartsWith(path + ".dart", "package:")
    ensures UrlToLibrary(Some(path + ".dart")) == Some(ReplaceChar(path, '/', "__"))
    ensures UrlToLibrary(Some(path + ".dart")) == Some(Join(Split(path, '/'), "__"))
  {
    assert (path + ".dart")[..|path|] == path;
    ReplaceCharIsSplitJoin(path, '/', "__");
  }

  /** The library named in the doc comment of `_urlToLibrary`. */
  lemma UrlToLibraryExample()
    ensures UrlToLibrary(Some("package:whatever/my_file.dart")) == Some("my_file")
  {
    PackageUrlNamesFile("whatever", "my_file", "dart");
    assert "package:" + "whatever" + "/" + "my_file" + "." + "dart" == "package:whatever/my_file.dart";
  }

  // ---------------------------------------------------------------------
  // The query of a compilation request

  /** The names of the single parameters, by position. */
  const ParameterNames := ["enclosingLibraryName", "module", "targetName", "currentFile"]

  /** `piece` is `_encode` of the single parameter at position j, which is present. */
  predicate IsPieceFor(singles: seq<Option<string>>, encode: string -> string, j: nat, piece: string)
    requires |singles| <= |ParameterNames|
  {
    j < |singles| && singles[j].Some? && singles[j].value != "" &&
    piece == ParameterNames[j] + "=" + encode(singles[j].value)
  }

  /** `_encode` for the single parameters from position i on, with the
      falsy values filtered out. */
  function SinglePieces(singles: seq<Option<string>>, encode: string -> string, i: nat): (pieces: seq<string>)
    requires |singles| <= |ParameterNames| && i <= |singles|
    ensures |pieces| <= |singles| - i
    decreases |singles| - i
  {
    if i == |singles| then []
    else
      var rest := SinglePieces(singles, encode, i + 1);
      if singles[i].Some? && singles[i].value != "" then
        [ParameterNames[i] + "=" + encode(singles[i].value)] + rest
      else rest
  }

  /** Every single piece is a present parameter under its own name. */
  lemma {:induction false} SinglePieceIsParameter(singles: seq<Option<string>>, encode: string -> string, i: nat, k: nat)
    requires |singles| <= |ParameterNames| && i <= |singles|
    requires k < |SinglePieces(singles, encode, i)|
    ensures exists j :: i <= j < |singles| && IsPieceFor(singles, encode, j, SinglePieces(singles, encode, i)[k])
    decreases |singles| - i
  {
    var rest := SinglePieces(singles, encode, i + 1);
    if singles[i].Some? && singles[i].value != "" {
      if k == 0 {
        assert IsPieceFor(singles, encode, i, SinglePieces(singles, encode, i)[k]);
      } else {
        SinglePieceIsParameter(singles, encode, i + 1, k - 1);
        assert SinglePieces(singles, encode, i)[k] == rest[k - 1];
      }
    } else {
      SinglePieceIsParameter(singles, encode, i + 1, k);
    }
  }

  /** `_encode('property', v)` for each scope variable; an empty name
      encodes to an empty piece, which is kept. */
  function VariablePieces(variables: seq<string>, encode: string -> string): (pieces: seq<string>)
    ensures |pieces| == |variables|
    ensures forall k :: 0 <= k < |variables| ==>
      pieces[k] == if variables[k] == "" then "" else "property=" + encode(variables[k])
  {
    seq(|variables|, k requires 0 <= k < |variables| => if variables[k] == "" then "" else "property=" + encode(variables[k]))
  }

  /** `_queryParameters`: `?`, then the present single parameters and then
      the variables, joined with `&`. */
  function QueryParameters(variables: seq<string>, singles: seq<Option<string>>, encode: string -> string): (query: string)
    requires |singles| <= |ParameterNames|
    ensures |query| >= 1 && query[0] == '?'
    ensures query[1..] == Join(SinglePieces(singles, encode, 0) + VariablePieces(variables, encode), "&")
  {
    "?" + Join(SinglePieces(singles, encode, 0) + VariablePieces(variables, encode), "&")
  }

  /** When the encoder never produces `&` (as `encodeURIComponent` does
      not), splitting the query at `&` recovers each parameter. */
  lemma QueryParametersRoundTrip(variables: seq<string>, singles: seq<Option<string>>, encode: string -> string)
    requires |singles| <= |ParameterNames|
    requires forall v :: '&' !in encode(v)
    requires |SinglePieces(singles, encode, 0) + VariablePieces(variables, encode)| >= 1
    ensures Split(QueryParameters(variables, singles, encode)[1..], '&')
         == SinglePieces(singles, encode, 0) + VariablePieces(variables, encode)
  {
    var pieces := SinglePieces(singles, encode, 0) + VariablePieces(variables, encode);
    forall k | 0 <= k < |pieces| ensures '&' !in pieces[k] {
      if k < |SinglePieces(singles, encode, 0)| {
        SinglePieceIsParameter(singles, encode, 0, k);
        var j :| 0 <= j < |singles| && IsPieceFor(singles, encode, j, pieces[k]);
        assert '&' !in ParameterNames[j];
      }
    }
    SplitJoin(pieces, '&');
  }

  /** A present single parameter always appears, under its own name. */
  lemma {:induction false} SinglePresentAppears(singles: seq<Option<string>>, encode: string -> string, i: nat, j: nat)
    requires |singles| <= |ParameterNames| && i <= j < |singles|
    requires singles[j].Some? && singles[j].value != ""
    ensures ParameterNames[j] + "=" + encode(singles[j].value) in SinglePieces(singles, encode, i)
    decreases j - i
  {
    if i < j {
      SinglePresentAppears(singles, encode, i + 1, j);
    }
  }

  // ---------------------------------------------------------------------
  // Variable names

  /** A name of an environment, qualified by its prefix when it has one. */
  function Qualify(prefix: Option<string>, item: string): string {
    if prefix.Some? && prefix.value != "" then prefix.value + "." + item else item
  }

  /** The names visible from the environments, as `variableNames` collects
      them before sorting. */
  ghost predicate Visible(envs: seq<DartScopes.Environment>, name: string) {
    exists e, k :: 0 <= e < |envs| && 0 <= k < |envs[e].properties| &&
      name == Qualify(envs[e].prefix, envs[e].properties[k].name)
  }

  /** The names of the first `e` environments. */
  ghost predicate VisibleAmong(envs: seq<DartScopes.Environment>, e: nat, name: string)
    requires e <= |envs|
  {
    exists e', k :: 0 <= e' < e && 0 <= k < |envs[e'].properties| &&
      name == Qualify(envs[e'].prefix, envs[e'].properties[k].name)
  }

  /** The names of the first `k` properties of one environment. */
  ghost predicate NamedAmong(env: DartScopes.Environment, k: nat, name: string)
    requires k <= |env.properties|
  {
    exists k' :: 0 <= k' < k && name == Qualify(env.prefix, env.properties[k'].name)
  }

  lemma NamedAmongStep(env: DartScopes.Environment, k: nat, name: string)
    requires k < |env.properties|
    ensures NamedAmong(env, k + 1, name) <==>
      NamedAmong(env, k, name) || name == Qualify(env.prefix, env.properties[k].name)
  {
    if NamedAmong(env, k + 1, name) && !NamedAmong(env, k, name) {
      var k' :| 0 <= k' < k + 1 && name == Qualify(env.prefix, env.properties[k'].name);
      assert k' == k;
    }
  }

  lemma VisibleAmongStep(envs: seq<DartScopes.Environment>, e: nat, name: string)
    requires e < |envs|
    ensures VisibleAmong(envs, e + 1, name) <==>
      VisibleAmong(envs, e, name) || NamedAmong(envs[e], |envs[e].properties|, name)
  {
    if VisibleAmong(envs, e + 1, name) && !VisibleAmong(envs, e, name) {
      var e', k :| 0 <= e' < e + 1 && 0 <= k < |envs[e'].properties| &&
        name == Qualify(envs[e'].prefix, envs[e'].properties[k].name);
      assert e' == e;
    }
    if NamedAmong(envs[e], |envs[e].properties|, name) {
      var k :| 0 <= k < |envs[e].properties| && name == Qualify(envs[e].prefix, envs[e].properties[k].name);
      assert 0 <= e < e + 1;
    }
  }

  /** `variableNames` over the environments of the scope chain: the
      qualified names, without duplicates, in ascending order. */
  method VariableNames(envs: seq<DartScopes.Environment>) returns (names: seq<string>)
    ensures StrictlySorted(names)
    ensures forall y :: y in names <==> Visible(envs, y)
  {
    var allNames: set<string> := {};
    var e := 0;
    while e < |envs|
      invariant 0 <= e <= |envs|
      invariant forall y :: y in allNames <==> VisibleAmong(envs, e, y)
    {
      var scope := envs[e];
      var k := 0;
      while k < |scope.properties|
        invariant 0 <= k <= |scope.properties|
        invariant forall y :: y in allNames <==> VisibleAmong(envs, e, y) || NamedAmong(scope, k, y)
      {
        var name := Qualify(scope.prefix, scope.properties[k].name);
        forall y ensures NamedAmong(scope, k + 1, y) <==> NamedAmong(scope, k, y) || y == name {
          NamedAmongStep(scope, k, y);
        }
        allNames := allNames + {name};
        k := k + 1;
      }
      forall y ensures VisibleAmong(envs, e + 1, y) <==> VisibleAmong(envs, e, y) || NamedAmong(scope, k, y) {
        VisibleAmongStep(envs, e, y);
      }
      e := e + 1;
    }
    names := SortSet(allNames);
  }

  // ---------------------------------------------------------------------
  // The current library

  /** How `currentLibrary` ends: with a name (None is null or undefined),
      or by falling through to a lookup in the running program. */
  datatype LibraryLookup = Resolved(name: Option<string>) | NeedsModuleLookup

  /** The frame-name convention of the legacy module system. */
  const LibraryMarker := "dart_library.library"

  /** `split('.')[2]` of a marked name; None when there is no third piece. */
  function ThirdSegment(name: string): (segment: Option<string>)
    ensures segment.Some? ==> '.' !in segment.value
  {
    var pieces := Split(name, '.');
    if |pieces| > 2 then Some(pieces[2]) else None
  }

  predicate Truthy(s: Option<string>) {
    s.Some? && s.value != ""
  }

  /** The first truthy function name that carries the library marker. */
  function FirstMarked(functionNames: seq<Option<string>>): (k: Option<nat>)
    ensures k.Some? ==> k.value < |functionNames| && Truthy(functionNames[k.value]) &&
                        StartsWith(functionNames[k.value].value, LibraryMarker)
    ensures k.Some? ==> forall i :: 0 <= i < k.value ==>
                          !(Truthy(functionNames[i]) && StartsWith(functionNames[i].value, LibraryMarker))
    ensures k.None? ==> forall i :: 0 <= i < |functionNames| ==>
                          !(Truthy(functionNames[i]) && StartsWith(functionNames[i].value, LibraryMarker))
  {
    if functionNames == [] then None
    else if Truthy(functionNames[0]) && StartsWith(functionNames[0].value, LibraryMarker) then Some(0)
    else
      match FirstMarked(functionNames[1..])
      case None => None
      case Some(j) => Some(j + 1)
  }

  /** The state of one evaluation context. */
  class Evaluation {
    const dartExpression: string
    const forCompletion: bool
    const aliasForThis: string
    var enclosingLibraryName: Option<string>

    /** The `_Evaluation` constructor. */
    constructor(dartExpression: Option<string>, forCompletion: bool)
      ensures this.dartExpression == ThisRewritten(dartExpression.GetOr(""))
      ensures this.forCompletion == forCompletion
      ensures aliasForThis == AliasForThis(forCompletion)
      ensures enclosingLibraryName.None?
    {
      var rewritten := RewriteThis(dartExpression);
      this.dartExpression := rewritten;
      this.forCompletion := forCompletion;
      aliasForThis := AliasForThis(forCompletion);
      enclosingLibraryName := None;
    }

    /** The synchronous part of `currentLibrary`, given the names of the
        frame's scopes and the class name of its `this`. A remembered name
        is returned; otherwise the first marked scope name gives the third
        dot segment, except that `dart` (the SDK) gives null and is not
        remembered; otherwise a marked class name gives its third segment. */
    method CurrentLibrary(functionNames: seq<Option<string>>, className: Option<string>) returns (r: LibraryLookup)
      modifies this
      ensures Truthy(old(enclosingLibraryName)) ==>
        r == Resolved(old(enclosingLibraryName)) && enclosingLibraryName == old(enclosingLibraryName)
      ensures !Truthy(old(enclosingLibraryName)) && FirstMarked(functionNames).Some? ==>
        var name := ThirdSegment(functionNames[FirstMarked(functionNames).value].value);
        if name == Some("dart") then r == Resolved(None) && enclosingLibraryName == old(enclosingLibraryName)
        else r == Resolved(name) && enclosingLibraryName == name
      ensures !Truthy(old(enclosingLibraryName)) && FirstMarked(functionNames).None? ==>
        if Truthy(className) && StartsWith(className.value, LibraryMarker) then
          r == Resolved(ThirdSegment(className.value)) && enclosingLibraryName == ThirdSegment(className.value)
        else r == NeedsModuleLookup && enclosingLibraryName == old(enclosingLibraryName)
      ensures r.Resolved? && Truthy(r.name) ==> enclosingLibraryName == r.name
    {
      if Truthy(enclosingLibraryName) {
        return Resolved(enclosingLibraryName);
      }
      var i := 0;
      while i < |functionNames|
        invariant 0 <= i <= |functionNames|
        invariant forall j :: 0 <= j < i ==> !(Truthy(functionNames[j]) && StartsWith(functionNames[j].value, LibraryMarker))
        invariant enclosingLibraryName == old(enclosingLibraryName)
      {
        var functionName := functionNames[i];
        if Truthy(functionName) && StartsWith(functionName.value, LibraryMarker) {
          var name := ThirdSegment(functionName.value);
          if name == Some("dart") {
            return Resolved(None);
          }
          enclosingLibraryName := name;
          return Resolved(name);
        }
        i := i + 1;
      }
      if Truthy(className) && StartsWith(className.value, LibraryMarker) {
        enclosingLibraryName := ThirdSegment(className.value);
        return Resolved(enclosingLibraryName);
      }
      return NeedsModuleLookup;
    }
  }
}
