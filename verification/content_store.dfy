/** The flat-file content resolver (`src/lib/strapi.ts`): documents of the
    shape `{ data: { <key>: [ <record>, … ] } }` are looked up by
    directory and file name, and one record is picked out of the array —
    by slug, by slug with a fallback to the first record, or simply the
    first record. A listing projects every document of a directory to a
    summary, skipping the malformed ones. */
module ContentStore {

  import opened Js
  import opened Strings
  import opened Selection

  /** A file of the store: a directory under the data root and a file name. */
  datatype FilePath = FilePath(dir: string, name: string)

  /** The read-only store. A file that exists maps to the result of parsing
      it: `None` when it is not valid JSON. A missing file has no entry. */
  type Store = map<FilePath, Option<Json>>

  /** `readJsonFile`: the parsed document, or `None` for a missing or
      unparseable file. */
  function ReadJsonFile(store: Store, path: FilePath): Option<Json> {
    if path in store then store[path] else None
  }

  /** The document has the expected shape: `data.<key>` is a non-empty array. */
  predicate HasEntries(doc: Json, key: string) {
    && doc.JObj? && "data" in doc.fields
    && doc.fields["data"].JObj? && key in doc.fields["data"].fields
    && doc.fields["data"].fields[key].JArr?
    && |doc.fields["data"].fields[key].items| > 0
  }

  /** The validity test every getter applies before picking a record:
      `!jsonData || !jsonData.data || !Array.isArray(jsonData.data[key])
      || jsonData.data[key].length === 0` rejects. The listing's
      optional-chaining form of the test accepts exactly the same documents. */
  function Entries(doc: Option<Json>, key: string): (r: Option<seq<Json>>)
    ensures r.Some? <==> doc.Some? && HasEntries(doc.value, key)
    ensures r.Some? ==> r.value == doc.value.fields["data"].fields[key].items && |r.value| > 0
  {
    if doc.None? || !Truthy(doc.value) then None
    else
      match Prop(doc.value, "data")
      case None => None
      case Some(data) =>
        if !Truthy(data) then None
        else
          match Prop(data, key)
          case Some(JArr(items)) => if |items| == 0 then None else Some(items)
          case _ => None
  }

  /** `record.slug === slug`. */
  predicate SlugMatches(record: Json, slug: string) {
    Prop(record, "slug") == Some(JStr(slug))
  }

  /** `records.findIndex(r => r.slug === slug)`, with `None` for -1. */
  function FirstMatch(records: seq<Json>, slug: string): (r: Option<nat>)
    ensures r.None? <==> forall i :: 0 <= i < |records| ==> !SlugMatches(records[i], slug)
    ensures r.Some? ==> r.value < |records| && SlugMatches(records[r.value], slug)
    ensures r.Some? ==> forall j :: 0 <= j < r.value ==> !SlugMatches(records[j], slug)
    decreases |records|
  {
    if |records| == 0 then None
    else if SlugMatches(records[0], slug) then Some(0)
    else
      match FirstMatch(records[1..], slug)
      case None =>
        assert forall i :: 1 <= i < |records| ==> records[i] == records[1..][i - 1];
        None
      case Some(i) =>
        assert forall j :: 1 <= j <= i ==> records[j] == records[1..][j - 1];
        Some(i + 1)
  }

  /** How `records.find(r => r.slug === slug)` ends when run as written:
      reading `slug` off a `null` record throws a `TypeError`. */
  datatype FindOutcome = Found(index: nat) | Missing | Threw

  function FindAsWritten(records: seq<Json>, slug: string): (o: FindOutcome)
    ensures o.Found? ==> o.index < |records| && SlugMatches(records[o.index], slug)
    decreases |records|
  {
    if |records| == 0 then Missing
    else if records[0] == JNull then Threw
    else if SlugMatches(records[0], slug) then Found(0)
    else
      match FindAsWritten(records[1..], slug)
      case Found(i) => Found(i + 1)
      case other => other
  }

  /** A `null` record is the only difference: the scan as written throws
      exactly when a `null` record comes before every match, and otherwise
      finds what `FirstMatch` finds. */
  lemma {:induction false} FirstMatchUnlessNullFirst(records: seq<Json>, slug: string)
    ensures FindAsWritten(records, slug).Threw? <==>
              exists j :: 0 <= j < |records| && records[j] == JNull
                          && forall i :: 0 <= i < j ==> !SlugMatches(records[i], slug)
    ensures !FindAsWritten(records, slug).Threw? ==>
              (FindAsWritten(records, slug).Found? <==> FirstMatch(records, slug).Some?)
    ensures FindAsWritten(records, slug).Found? ==>
              FirstMatch(records, slug) == Some(FindAsWritten(records, slug).index)
    decreases |records|
  {
    if |records| > 0 && records[0] != JNull && !SlugMatches(records[0], slug) {
      var rest := records[1..];
      FirstMatchUnlessNullFirst(rest, slug);
      NullBeforeMatchShifts(records, slug);
    }
  }

  /** A `null` before every match, seen past a first record that is neither
      `null` nor a match. */
  lemma NullBeforeMatchShifts(records: seq<Json>, slug: string)
    requires |records| > 0 && records[0] != JNull && !SlugMatches(records[0], slug)
    ensures (exists j :: 0 <= j < |records| && records[j] == JNull
                         && forall i :: 0 <= i < j ==> !SlugMatches(records[i], slug))
            <==> (exists j :: 0 <= j < |records[1..]| && records[1..][j] == JNull
                              && forall i :: 0 <= i < j ==> !SlugMatches(records[1..][i], slug))
  {
    var rest := records[1..];
    if exists j :: 0 <= j < |records| && records[j] == JNull && forall i :: 0 <= i < j ==> !SlugMatches(records[i], slug) {
      var j :| 0 <= j < |records| && records[j] == JNull && forall i :: 0 <= i < j ==> !SlugMatches(records[i], slug);
      assert rest[j - 1] == JNull;
      assert forall i :: 0 <= i < j - 1 ==> rest[i] == records[i + 1];
    }
    if exists j :: 0 <= j < |rest| && rest[j] == JNull && forall i :: 0 <= i < j ==> !SlugMatches(rest[i], slug) {
      var j :| 0 <= j < |rest| && rest[j] == JNull && forall i :: 0 <= i < j ==> !SlugMatches(rest[i], slug);
      assert records[j + 1] == JNull;
      assert forall i :: 1 <= i < j + 1 ==> records[i] == rest[i - 1];
    }
  }

  // ---------------------------------------------------------------------
  // Picking a record out of one document.

  /** `getPageData` after reading: the first record whose slug matches;
      no match means not found. */
  function PageFromDocument(doc: Option<Json>, slug: string): (r: Option<Json>)
    ensures r.Some? ==> SlugMatches(r.value, slug)
    ensures r.Some? <==> Entries(doc, "pages").Some?
                         && exists i :: 0 <= i < |Entries(doc, "pages").value|
                                        && SlugMatches(Entries(doc, "pages").value[i], slug)
    ensures r.Some? ==> exists i :: 0 <= i < |Entries(doc, "pages").value|
                                    && r.value == Entries(doc, "pages").value[i]
                                    && forall j :: 0 <= j < i ==> !SlugMatches(Entries(doc, "pages").value[j], slug)
  {
    match Entries(doc, "pages")
    case None => None
    case Some(pages) =>
      match FirstMatch(pages, slug)
      case None => None
      case Some(i) => Some(pages[i])
  }

  /** `getIndustryPageData` after reading: the first matching record, or the
      first record when none matches. */
  function IndustryPageFromDocument(doc: Option<Json>, slug: string): (r: Option<Json>)
    ensures r.None? <==> Entries(doc, "pages").None?
    ensures r.Some? && !SlugMatches(r.value, slug) ==> r.value == Entries(doc, "pages").value[0]
  {
    match Entries(doc, "pages")
    case None => None
    case Some(pages) =>
      match FirstMatch(pages, slug)
      case Some(i) => Some(pages[i])
      case None =>
        // The `pages.length > 0` test repeats the validity check above,
        // so its `else` (return null) never runs.
        if |pages| > 0 then Some(pages[0]) else None
  }

  /** The industry getter agrees with the page getter whenever some record
      matches, and otherwise falls back to the first record instead of
      reporting not found. */
  lemma IndustryFallsBackToFirst(doc: Option<Json>, slug: string)
    ensures PageFromDocument(doc, slug).Some? ==>
              IndustryPageFromDocument(doc, slug) == PageFromDocument(doc, slug)
    ensures PageFromDocument(doc, slug).None? && Entries(doc, "pages").Some? ==>
              IndustryPageFromDocument(doc, slug) == Some(Entries(doc, "pages").value[0])
  {
  }

  /** The article, case-study, report and webinar getters after reading:
      record 0, whatever its slug. */
  function FirstRecordFromDocument(doc: Option<Json>, key: string): (r: Option<Json>)
    ensures r.None? <==> doc.None? || !HasEntries(doc.value, key)
    ensures r.Some? ==> r.value == doc.value.fields["data"].fields[key].items[0]
  {
    match Entries(doc, key)
    case None => None
    case Some(records) => Some(records[0])
  }

  // ---------------------------------------------------------------------
  // The getters: each reads `<directory>/<slug>.json`.

  /** The six content categories, with their directory and array key. */
  datatype Category = Page | IndustryPage | Article | CaseStudy | ResearchReport | Webinar

  function Directory(c: Category): string {
    match c
    case Page => "Pages"
    case IndustryPage => "Pages/industry"
    case Article => "Articles"
    case CaseStudy => "Case Study"
    case ResearchReport => "Research Reports"
    case Webinar => "Webinars"
  }

  function ArrayKey(c: Category): string {
    match c
    case Page => "pages"
    case IndustryPage => "pages"
    case Article => "articles"
    case CaseStudy => "caseStudies"
    case ResearchReport => "researchReports"
    case Webinar => "webinars"
  }

  /** The file a category and slug resolve to. */
  function FileFor(c: Category, slug: string): FilePath {
    FilePath(Directory(c), slug + ".json")
  }

  function GetPageData(store: Store, pageSlug: string): Option<Json> {
    PageFromDocument(ReadJsonFile(store, FileFor(Page, pageSlug)), pageSlug)
  }

  function GetIndustryPageData(store: Store, industrySlug: string): Option<Json> {
    IndustryPageFromDocument(ReadJsonFile(store, FileFor(IndustryPage, industrySlug)), industrySlug)
  }

  function GetArticleData(store: Store, articleSlug: string): Option<Json> {
    FirstRecordFromDocument(ReadJsonFile(store, FileFor(Article, articleSlug)), "articles")
  }

  function GetCaseStudyData(store: Store, caseStudySlug: string): Option<Json> {
    FirstRecordFromDocument(ReadJsonFile(store, FileFor(CaseStudy, caseStudySlug)), "caseStudies")
  }

  function GetResearchReportData(store: Store, reportSlug: string): Option<Json> {
    FirstRecordFromDocument(ReadJsonFile(store, FileFor(ResearchReport, reportSlug)), "researchReports")
  }

  function GetWebinarData(store: Store, webinarSlug: string): Option<Json> {
    FirstRecordFromDocument(ReadJsonFile(store, FileFor(Webinar, webinarSlug)), "webinars")
  }

  /** Resolution of `(category, slug)`: `None` is the not-found outcome.
      Only the slug's own file is consulted; a generic page always carries
      the requested slug; an industry page is found whenever its file is
      well formed; the per-slug categories return record 0 unchecked. */
  function Resolve(store: Store, c: Category, slug: string): (r: Option<Json>)
    ensures r.Some? ==> ReadJsonFile(store, FileFor(c, slug)).Some?
                        && HasEntries(ReadJsonFile(store, FileFor(c, slug)).value, ArrayKey(c))
    ensures c == Page && r.Some? ==> SlugMatches(r.value, slug)
    ensures c != Page ==> (r.None? <==> Entries(ReadJsonFile(store, FileFor(c, slug)), ArrayKey(c)).None?)
    ensures c !in {Page, IndustryPage} && r.Some? ==>
              r.value == Entries(ReadJsonFile(store, FileFor(c, slug)), ArrayKey(c)).value[0]
  {
    match c
    case Page => GetPageData(store, slug)
    case IndustryPage => GetIndustryPageData(store, slug)
    case Article => GetArticleData(store, slug)
    case CaseStudy => GetCaseStudyData(store, slug)
    case ResearchReport => GetResearchReportData(store, slug)
    case Webinar => GetWebinarData(store, slug)
  }

  /** The fallback and the unchecked slug on two small stores: an industry
      file holding pages `a` and `b` answers a request for `nonexistent`
      with page `a`, and an article file whose record says `other` answers
      a request for `x` with that record. */
  lemma ResolutionExamples()
    ensures var a := JObj(map["slug" := JStr("a")]);
            var b := JObj(map["slug" := JStr("b")]);
            var doc := JObj(map["data" := JObj(map["pages" := JArr([a, b])])]);
            var store: Store := map[FileFor(IndustryPage, "nonexistent") := Some(doc)];
            Resolve(store, IndustryPage, "nonexistent") == Some(a)
    ensures var other := JObj(map["slug" := JStr("other")]);
            var doc := JObj(map["data" := JObj(map["articles" := JArr([other])])]);
            var store: Store := map[FileFor(Article, "x") := Some(doc)];
            Resolve(store, Article, "x") == Some(other) && !SlugMatches(other, "x")
  {
    var a := JObj(map["slug" := JStr("a")]);
    var b := JObj(map["slug" := JStr("b")]);
    assert !SlugMatches(a, "nonexistent") && !SlugMatches(b, "nonexistent");
    assert !SlugMatches(JObj(map["slug" := JStr("other")]), "x");
  }

  // ---------------------------------------------------------------------
  // The listing: `getAllContentData(contentTypeDir, dataKey)`.

  /** `path.extname(name) === '.json'`: the name ends in `.json` after at
      least one character (`.json` alone is a dot-file without extension). */
  predicate IsJsonFile(name: string) {
    |name| > 5 && IsSuffix(".json", name)
  }

  /** `path.basename(name, '.json')`. */
  function BaseName(name: string): (b: string)
    requires IsJsonFile(name)
    ensures |b| > 0 && b + ".json" == name
  {
    name[..|name| - 5]
  }

  /** The summary record a listing emits per document. */
  datatype Summary = Summary(slug: Json, title: Json, excerpts: Json, featuredImage: Json, postType: Json)

  /** The post type a directory stands for: lowercased, with only its
      FIRST space turned into `-`. */
  function DefaultPostType(dir: string): string {
    ReplaceFirst(ToLower(dir), ' ', '-')
  }

  /** `item?.key` is present and truthy, so `item?.key || fallback` keeps it. */
  predicate TruthyProp(item: Json, key: string) {
    Prop(item, key).Some? && Truthy(Prop(item, key).value)
  }

  /** The projection of a document's first record, with its defaults. */
  function Summarize(item: Json, file: string, dir: string): (s: Summary)
    requires IsJsonFile(file)
    ensures Truthy(s.slug) && Truthy(s.title)
    ensures TruthyProp(item, "slug") ==> s.slug == Prop(item, "slug").value
    ensures !TruthyProp(item, "slug") ==> s.slug == JStr(BaseName(file))
    ensures TruthyProp(item, "title") ==> s.title == Prop(item, "title").value
    ensures !TruthyProp(item, "title") ==> s.title == JStr("Untitled")
    ensures TruthyProp(item, "excerpts") ==> s.excerpts == Prop(item, "excerpts").value
    ensures !TruthyProp(item, "excerpts") && TruthyProp(item, "excrept") ==> s.excerpts == Prop(item, "excrept").value
    ensures !TruthyProp(item, "excerpts") && !TruthyProp(item, "excrept") ==> s.excerpts == JNull
    ensures TruthyProp(item, "featuredImage") ==> s.featuredImage == Prop(item, "featuredImage").value
    ensures !TruthyProp(item, "featuredImage") ==> s.featuredImage == JNull
    ensures TruthyProp(item, "postType") ==> s.postType == Prop(item, "postType").value
    ensures !TruthyProp(item, "postType") ==> s.postType == JStr(DefaultPostType(dir))
  {
    Summary(
      JsOr(Prop(item, "slug"), JStr(BaseName(file))),
      JsOr(Prop(item, "title"), JStr("Untitled")),
      JsOr(Prop(item, "excerpts"), JsOr(Prop(item, "excrept"), JNull)),
      JsOr(Prop(item, "featuredImage"), JNull),
      JsOr(Prop(item, "postType"), JStr(DefaultPostType(dir))))
  }

  /** What one directory entry contributes: nothing for a non-JSON name or
      a malformed document, else the summary of its first record. */
  function SummaryOf(store: Store, dir: string, dataKey: string, file: string): (s: Option<Summary>)
    ensures s.Some? <==> IsJsonFile(file) && Entries(ReadJsonFile(store, FilePath(dir, file)), dataKey).Some?
    ensures s.Some? ==> s.value == Summarize(Entries(ReadJsonFile(store, FilePath(dir, file)), dataKey).value[0], file, dir)
  {
    if !IsJsonFile(file) then None
    else
      match Entries(ReadJsonFile(store, FilePath(dir, file)), dataKey)
      case None => None
      case Some(records) => Some(Summarize(records[0], file, dir))
  }

  function Candidates(store: Store, dir: string, dataKey: string, files: seq<string>): seq<Option<Summary>> {
    seq(|files|, i requires 0 <= i < |files| => SummaryOf(store, dir, dataKey, files[i]))
  }

  /** The candidates that survive are the well-formed JSON files, in
      directory order. */
  lemma CandidatesKept(store: Store, dir: string, dataKey: string, files: seq<string>)
    ensures var cands, idx := Candidates(store, dir, dataKey, files), KeptIndices(Candidates(store, dir, dataKey, files));
            |Choose(cands)| == |idx|
            && (forall k :: 0 <= k < |idx| ==> SummaryOf(store, dir, dataKey, files[idx[k]]) == Some(Choose(cands)[k]))
            && (forall i :: 0 <= i < |files| ==> (SummaryOf(store, dir, dataKey, files[i]).Some? <==> i in idx))
  {
    var cands := Candidates(store, dir, dataKey, files);
    ChooseFollowsKeptIndices(cands);
    KeptIndicesExact(cands);
  }

  /** `getAllContentData`: `listing` is the directory's file names in
      directory order, `None` when the directory does not exist. One summary
      per well-formed JSON file, in directory order; the others are skipped
      and the walk goes on. */
  method GetAllContentData(store: Store, listing: Option<seq<string>>, dir: string, dataKey: string)
    returns (all: seq<Summary>)
    ensures listing.None? ==> all == []
    ensures listing.Some? ==> |all| <= |listing.value|
    ensures listing.Some? ==>
              var idx := KeptIndices(Candidates(store, dir, dataKey, listing.value));
              |all| == |idx|
              && forall k :: 0 <= k < |all| ==>
                   SummaryOf(store, dir, dataKey, listing.value[idx[k]]) == Some(all[k])
    ensures listing.Some? ==> forall i :: 0 <= i < |listing.value| ==>
              (SummaryOf(store, dir, dataKey, listing.value[i]).Some? <==>
               i in KeptIndices(Candidates(store, dir, dataKey, listing.value)))
  {
    if listing.None? {
      return [];
    }
    var files := listing.value;
    ghost var cands := Candidates(store, dir, dataKey, files);
    all := [];
    var i := 0;
    while i < |files|
      invariant 0 <= i <= |files|
      invariant all == Choose(cands[..i])
    {
      var s := SummaryOf(store, dir, dataKey, files[i]);
      assert s == cands[i];
      if s.Some? {
        all := all + [s.value];
      }
      assert cands[..i + 1][..i] == cands[..i];
      i := i + 1;
    }
    assert cands[..|files|] == cands;
    CandidatesKept(store, dir, dataKey, files);
  }
}
