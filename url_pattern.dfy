/** The heuristic that turns a URL into the regular-expression source of a
    blackbox rule (`_urlToRegExpString`). Parsing the URL and escaping text
    for a regular expression are done by library code outside this model:
    the parsed URL is a given record, and the escaping a given function. */
module UrlPattern {
  import opened Strings

  /** The fields of a parsed URL that the heuristic reads; a field the URL
      does not have is the empty string. */
  datatype ParsedUrl = ParsedUrl(
    isAboutBlank: bool,
    isDataURL: bool,
    isValid: bool,
    scheme: string,
    host: string,
    lastPathComponent: string,
    folderPathComponents: string)

  /** URLs that can never get a pattern of their own. */
  predicate NeverBlackboxable(p: ParsedUrl) {
    p.isAboutBlank || p.isDataURL
  }

  /** URLs that do not parse are matched literally. */
  predicate MatchedLiterally(p: ParsedUrl) {
    !NeverBlackboxable(p) && !p.isValid
  }

  /** The resource name a pattern is anchored on: `/` and the last path
      component, else the folder path and `/`, else the host. */
  function Name(p: ParsedUrl): string {
    if p.lastPathComponent != "" then "/" + p.lastPathComponent
    else if p.folderPathComponents != "" then p.folderPathComponents + "/"
    else p.host
  }

  /** The part of a pattern that pins the scheme (and, for extensions, the
      extension id); http and https URLs are matched on any origin. */
  function SchemePrefix(p: ParsedUrl): (prefix: string)
    ensures prefix == "" <==> p.scheme in {"", "http", "https"}
    ensures prefix != "" ==> StartsWith(prefix, "^" + p.scheme + "://") && EndsWith(prefix, ".*")
    ensures p.scheme == "chrome-extension" ==> prefix == "^chrome-extension://" + p.host + "\\b.*"
  {
    if p.scheme != "" && p.scheme != "http" && p.scheme != "https" then
      var prefix := "^" + p.scheme + "://" + (if p.scheme == "chrome-extension" then p.host + "\\b" else "");
      assert (prefix + ".*")[..|"^" + p.scheme + "://"|] == "^" + p.scheme + "://";
      prefix + ".*"
    else ""
  }

  /** The end of a pattern: `$` when the name is the URL's last segment,
      otherwise a word boundary so that a query string or fragment still matches. */
  function Terminator(url: string, name: string): string {
    if EndsWith(url, name) then "$" else "\\b"
  }

  /** The pattern for url, or "" when url cannot be blackboxed on its own. */
  function UrlToRegExpString(url: string, p: ParsedUrl, escape: string -> string): (r: string)
    ensures NeverBlackboxable(p) ==> r == ""
    ensures MatchedLiterally(p) ==> r == "^" + escape(url) + "$"
    ensures !NeverBlackboxable(p) && p.isValid ==>
      (r == "" <==> Name(p) == "")
    ensures !NeverBlackboxable(p) && p.isValid && Name(p) != "" ==>
      r == SchemePrefix(p) + escape(Name(p)) + Terminator(url, Name(p))
    ensures !NeverBlackboxable(p) && p.isValid && Name(p) != "" ==>
      (r[|r| - 1] == '$' <==> EndsWith(url, Name(p)))
  {
    if p.isAboutBlank || p.isDataURL then ""
    else if !p.isValid then "^" + escape(url) + "$"
    else
      var name := Name(p);
      if name == "" then ""
      else SchemePrefix(p) + escape(name) + Terminator(url, name)
  }

  /** `canBlackboxUISourceCode`: a URL can be blackboxed exactly when it is
      neither about:blank nor a data URL, and either does not parse or has a
      non-empty path component or host. */
  lemma CanBlackboxExactly(url: string, p: ParsedUrl, escape: string -> string)
    ensures UrlToRegExpString(url, p, escape) != "" <==>
      !NeverBlackboxable(p) && (!p.isValid || p.lastPathComponent != "" || p.folderPathComponents != "" || p.host != "")
  {
  }
}
