/** The URL builder for posts (`getContentTypeUrl`): a content-type name
    is lowercased, every `_` becomes `-`, the plural form is preferred
    when the fixed table knows it, and a known key gives
    `<base path>/<slug>`. Anything else gives the non-link `"#"`. */
module ContentTypeUrl {

  import opened Js
  import opened Strings

  /** The fixed table from content-type key to base path. */
  const BasePaths: map<string, string> := map[
    "articles" := "/articles",
    "case-studies" := "/case-studies",
    "case_study" := "/case-studies",
    "research-reports" := "/research-reports",
    "research_report" := "/research-reports",
    "webinars" := "/webinars",
    "webinar" := "/webinars",
    "news" := "/news",
    "events" := "/events",
    "white-papers" := "/white-papers",
    "white_paper" := "/white-papers"
  ]

  /** `contentType.toLowerCase().replace(/_/g, '-')`. */
  function Normalize(ct: string): (n: string)
    ensures |n| == |ct|
    ensures forall i :: 0 <= i < |ct| ==> n[i] == (if ct[i] == '_' then '-' else LowerChar(ct[i]))
    ensures forall i :: 0 <= i < |n| ==> n[i] != '_' && !IsUpper(n[i])
  {
    ReplaceAll(ToLower(ct), '_', '-')
  }

  /** The key looked up: the plural form when the table has it. */
  function FinalKey(n: string): string {
    if n + "s" in BasePaths then n + "s" else n
  }

  /** The content type names some entry of the table, in either form. */
  predicate Recognised(ct: string) {
    Normalize(ct) + "s" in BasePaths || Normalize(ct) in BasePaths
  }

  /** `getContentTypeUrl(contentType, slug)`. */
  function GetContentTypeUrl(contentType: Option<string>, slug: Option<string>): (url: string)
    ensures !Filled(contentType) || !Filled(slug) ==> url == "#"
    ensures Filled(contentType) && Filled(slug) ==> (url == "#" <==> !Recognised(contentType.value))
    ensures Filled(contentType) && Filled(slug) && Normalize(contentType.value) + "s" in BasePaths ==>
              url == BasePaths[Normalize(contentType.value) + "s"] + "/" + slug.value
    ensures Filled(contentType) && Filled(slug) && Normalize(contentType.value) + "s" !in BasePaths
            && Normalize(contentType.value) in BasePaths ==>
              url == BasePaths[Normalize(contentType.value)] + "/" + slug.value
    ensures url == "#" || IsPrefix("/", url)
  {
    if !Filled(contentType) || !Filled(slug) then "#"
    else
      var key := FinalKey(Normalize(contentType.value));
      if key in BasePaths then
        var base := BasePaths[key];
        assert base in BasePaths.Values;
        assert base[0] == '/';
        base + "/" + slug.value
      else "#"
  }

  /** `_` and `-` separate the words of a content-type name. */
  predicate IsSeparator(c: char) {
    c == '_' || c == '-'
  }

  /** Two content-type names that differ at most in the letter case of a
      character or in the choice of `_` or `-` at a position. */
  predicate SameUpToCaseAndSeparator(a: string, b: string) {
    |a| == |b|
    && forall i :: 0 <= i < |a| ==>
         LowerChar(a[i]) == LowerChar(b[i]) || (IsSeparator(a[i]) && IsSeparator(b[i]))
  }

  /** Letter case and the choice of `_` or `-` never change the URL. */
  lemma CaseAndSeparatorInsensitive(a: string, b: string, slug: Option<string>)
    requires SameUpToCaseAndSeparator(a, b)
    ensures GetContentTypeUrl(Some(a), slug) == GetContentTypeUrl(Some(b), slug)
  {
    var na, nb := Normalize(a), Normalize(b);
    forall i | 0 <= i < |a|
      ensures na[i] == nb[i]
    {
    }
    assert na == nb;
  }

  /** Normalising twice is normalising once. */
  lemma NormalizeIdempotent(ct: string)
    ensures Normalize(Normalize(ct)) == Normalize(ct)
  {
    var n := Normalize(ct);
    forall i | 0 <= i < |n|
      ensures Normalize(n)[i] == n[i]
    {
      assert ToLower(n)[i] == n[i];
    }
  }

  /** The three underscore keys of the table are dead entries: no content
      type ever looks them up, because normalisation removes every `_`. */
  lemma {:induction false} UnderscoreKeysUnreachable(ct: string)
    ensures FinalKey(Normalize(ct)) != "case_study"
    ensures FinalKey(Normalize(ct)) != "research_report"
    ensures FinalKey(Normalize(ct)) != "white_paper"
  {
    var n := Normalize(ct);
    assert "case_study"[4] == '_' && "research_report"[8] == '_' && "white_paper"[5] == '_';
    if n + "s" in BasePaths {
      assert (n + "s")[|n|] == 's';
      assert forall i :: 0 <= i < |n| ==> (n + "s")[i] == n[i];
    }
  }

  /** So the singular `case_study` (and its hyphenated form) gives no link,
      although the table lists `case_study`. */
  lemma {:induction false} CaseStudySingularUnlinked(slug: string)
    requires |slug| > 0
    ensures GetContentTypeUrl(Some("case_study"), Some(slug)) == "#"
    ensures GetContentTypeUrl(Some("case-study"), Some(slug)) == "#"
  {
    assert Normalize("case_study") == "case-study";
    assert Normalize("case-study") == "case-study";
    var plural := "case-study" + "s";
    assert |plural| == 11 && plural[0] == 'c';
    assert plural !in BasePaths;
    assert "case-study" !in BasePaths;
  }

  /** The singular `research_report` reaches the research-report pages
      through its plural key. */
  lemma {:induction false} PluralPreferred(slug: string)
    requires |slug| > 0
    ensures GetContentTypeUrl(Some("research_report"), Some(slug)) == "/research-reports/" + slug
  {
    assert Normalize("research_report") == "research-report";
    assert "research-report" + "s" == "research-reports";
  }

  /** The already-plural `Research-Reports` reaches the same pages. */
  lemma {:induction false} PluralKeptWhenNoDoublePlural(slug: string)
    requires |slug| > 0
    ensures GetContentTypeUrl(Some("Research-Reports"), Some(slug)) == "/research-reports/" + slug
  {
    assert Normalize("Research-Reports") == "research-reports";
    var doubled := "research-reports" + "s";
    assert |doubled| == 17;
    assert doubled !in BasePaths;
  }

  // ---------------------------------------------------------------------
  // The lookup as written: `basePathMap[key]` on an object literal also
  // finds the properties every object inherits from `Object.prototype`.

  /** The inherited properties of an object literal, with the text their
      values print as inside a template literal. */
  function Inherited(key: string): Option<string> {
    if key == "constructor" then Some("function Object() { [native code] }")
    else if key == "hasOwnProperty" then Some("function hasOwnProperty() { [native code] }")
    else if key == "isPrototypeOf" then Some("function isPrototypeOf() { [native code] }")
    else if key == "propertyIsEnumerable" then Some("function propertyIsEnumerable() { [native code] }")
    else if key == "toLocaleString" then Some("function toLocaleString() { [native code] }")
    else if key == "toString" then Some("function toString() { [native code] }")
    else if key == "valueOf" then Some("function valueOf() { [native code] }")
    else if key == "__defineGetter__" then Some("function __defineGetter__() { [native code] }")
    else if key == "__defineSetter__" then Some("function __defineSetter__() { [native code] }")
    else if key == "__lookupGetter__" then Some("function __lookupGetter__() { [native code] }")
    else if key == "__lookupSetter__" then Some("function __lookupSetter__() { [native code] }")
    else if key == "__proto__" then Some("[object Object]")
    else None
  }

  /** `basePathMap[key]`: own entries first, then the inherited ones. */
  function LookupAsWritten(key: string): Option<string> {
    if key in BasePaths then Some(BasePaths[key]) else Inherited(key)
  }

  /** `getContentTypeUrl` exactly as written, inherited properties included. */
  function GetContentTypeUrlAsWritten(contentType: Option<string>, slug: Option<string>): (url: string)
    ensures !Filled(contentType) || !Filled(slug) ==> url == "#"
  {
    if !Filled(contentType) || !Filled(slug) then "#"
    else
      var n := Normalize(contentType.value);
      var key := if LookupAsWritten(n + "s").Some? then n + "s" else n;
      match LookupAsWritten(key)
      case None => "#"
      case Some(base) => base + "/" + slug.value
  }

  /** The content type `constructor` (in any letter case) is "recognised"
      by the as-written lookup and yields a URL that is neither `"#"` nor a
      site path. */
  lemma ConstructorLeaksIntoUrl(slug: string)
    requires |slug| > 0
    ensures GetContentTypeUrlAsWritten(Some("Constructor"), Some(slug))
            == "function Object() { [native code] }/" + slug
    ensures GetContentTypeUrl(Some("Constructor"), Some(slug)) == "#"
  {
    ConstructorKeys();
  }

  /** How the two lookups see the content type `Constructor`. */
  lemma ConstructorKeys()
    ensures Normalize("Constructor") == "constructor"
    ensures "constructor" + "s" !in BasePaths && Inherited("constructor" + "s") == None
    ensures "constructor" !in BasePaths
  {
    NormalizeConstructor();
    var plural := "constructor" + "s";
    assert |plural| == 12 && plural[1] == 'o' && plural[0] == 'c';
    assert |"constructor"| == 11 && "constructor"[0] == 'c';
  }

  lemma NormalizeConstructor()
    ensures Normalize("Constructor") == "constructor"
  {
    assert Normalize("Constructor") == "constructor";
  }

  /** `constructor` is the only inherited name a content type can reach:
      every other one has an upper-case letter or an `_`, which
      normalisation removes, and none ends in `s`. */
  lemma {:induction false} OnlyConstructorIsReachable(ct: string)
    ensures Inherited(Normalize(ct) + "s") == None
    ensures Inherited(Normalize(ct)).Some? ==> Normalize(ct) == "constructor"
  {
    var n := Normalize(ct);
    var p := n + "s";
    assert p[|p| - 1] == 's';
    assert forall i :: 0 <= i < |n| ==> p[i] == n[i];
    NoUpperNoUnderscore(n);
    NoUpperNoUnderscore(p);
  }

  /** No upper-case letter and no `_`: what normalisation leaves. */
  predicate Clean(k: string) {
    forall i :: 0 <= i < |k| ==> k[i] != '_' && !IsUpper(k[i])
  }

  /** Every inherited name except `constructor` has an upper-case letter or
      an `_`. */
  lemma InheritedNamesUnclean()
    ensures !Clean("hasOwnProperty") && !Clean("isPrototypeOf")
    ensures !Clean("propertyIsEnumerable") && !Clean("toLocaleString")
    ensures !Clean("toString") && !Clean("valueOf")
    ensures !Clean("__defineGetter__") && !Clean("__defineSetter__")
    ensures !Clean("__lookupGetter__") && !Clean("__lookupSetter__")
    ensures !Clean("__proto__")
  {
    assert IsUpper("hasOwnProperty"[3]);
    assert IsUpper("isPrototypeOf"[2]);
    assert IsUpper("propertyIsEnumerable"[8]);
    assert IsUpper("toLocaleString"[2]);
    assert IsUpper("toString"[2]);
    assert IsUpper("valueOf"[5]);
    assert "__defineGetter__"[0] == '_' && "__defineSetter__"[0] == '_';
    assert "__lookupGetter__"[0] == '_' && "__lookupSetter__"[0] == '_';
    assert "__proto__"[0] == '_';
  }

  /** A clean name is not an inherited name other than `constructor`. */
  lemma NoUpperNoUnderscore(k: string)
    requires Clean(k)
    ensures Inherited(k).Some? ==> k == "constructor"
  {
    InheritedNamesUnclean();
  }

  /** Off the inherited names the corrected builder and the as-written one
      agree, so the correction changes the result for `constructor` only. */
  lemma AgreesOffConstructor(ct: string, slug: Option<string>)
    requires Normalize(ct) != "constructor"
    ensures GetContentTypeUrlAsWritten(Some(ct), slug) == GetContentTypeUrl(Some(ct), slug)
  {
    OnlyConstructorIsReachable(ct);
  }
}
