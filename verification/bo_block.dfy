/** The business-objectives block (`BoBlock`): one tab per business
    function; the selected tab shows its questions and its solutions, each
    grouped into Short, Medium and Long Term (and Other) by a substring test
    on the item's section name. */
module BoBlock {

  import opened Js
  import opened Strings
  import opened Selection

  /** A question or a solution: its section name and its text (the
      `question` or the `solution` field, whichever is being grouped). */
  datatype Item = Item(sections: string, value: Option<string>)

  datatype Bucket = ShortTerm | MediumTerm | LongTerm | Other

  /** The tests, in the order the source runs them; the first that matches
      wins. */
  function Classify(sectionKey: string): (b: Bucket)
    ensures b == ShortTerm ==> Contains(sectionKey, "Short_Term") || Contains(sectionKey, "Short")
    ensures b == MediumTerm ==> Contains(sectionKey, "Medium_Term") || Contains(sectionKey, "Mid")
    ensures b == LongTerm ==> Contains(sectionKey, "Long_Term") || Contains(sectionKey, "Long")
    ensures b == Other ==> !Contains(sectionKey, "Short") && !Contains(sectionKey, "Mid")
                           && !Contains(sectionKey, "Medium_Term") && !Contains(sectionKey, "Long")
  {
    if Contains(sectionKey, "Short_Term") || Contains(sectionKey, "Short") then ShortTerm
    else if Contains(sectionKey, "Medium_Term") || Contains(sectionKey, "Mid") then MediumTerm
    else if Contains(sectionKey, "Long_Term") || Contains(sectionKey, "Long") then LongTerm
    else Other
  }

  /** The `_Term` tests for Short and Long are redundant (each is covered by
      its stem), whereas `Medium_Term` is not covered by `Mid`: the
      classification depends on four stems only. */
  lemma ClassifyByStems(s: string)
    ensures Classify(s) == (if Contains(s, "Short") then ShortTerm
                            else if Contains(s, "Medium_Term") || Contains(s, "Mid") then MediumTerm
                            else if Contains(s, "Long") then LongTerm
                            else Other)
  {
    assert "Short_Term"[..5] == "Short";
    assert "Long_Term"[..4] == "Long";
    if Contains(s, "Short_Term") {
      ContainsPrefixOf(s, "Short_Term", "Short");
    }
    if Contains(s, "Long_Term") {
      ContainsPrefixOf(s, "Long_Term", "Long");
    }
  }

  /** A section mentioning two terms goes to the first in test order, and a
      bare `Medium` is not recognised at all. */
  lemma ClassifyExamples()
    ensures Classify("Short_Mid") == ShortTerm
    ensures Classify("Medium") == Other
  {
    assert "Short_Mid"[0..5] == "Short";
    ContainsAt("Short_Mid", "Short", 0);
    var m := "Medium";
    ContainsIff(m, "Short");
    ContainsIff(m, "Mid");
    ContainsIff(m, "Long");
    ContainsIff(m, "Short_Term");
    ContainsIff(m, "Medium_Term");
    ContainsIff(m, "Long_Term");
    forall i: nat
      ensures !OccursAt(m, "Short", i) && !OccursAt(m, "Long", i) && !OccursAt(m, "Mid", i)
    {
      if i + 4 <= |m| {
        assert m[i..i + 4][0] == m[i] != 'L';
      }
      if i + 5 <= |m| {
        assert m[i..i + 5][0] == m[i] != 'S';
      }
      if i + 3 <= |m| {
        if i == 0 {
          assert m[i..i + 3][1] == 'e';
        } else {
          assert m[i..i + 3][0] == m[i] != 'M';
        }
      }
    }
  }

  // ---------------------------------------------------------------------
  // Grouping.

  /** The four groups, each in the order its items were pushed. */
  datatype Groups = Groups(short: seq<Option<string>>, medium: seq<Option<string>>,
                           long: seq<Option<string>>, other: seq<Option<string>>)
  {
    function Get(b: Bucket): seq<Option<string>> {
      match b
      case ShortTerm => short
      case MediumTerm => medium
      case LongTerm => long
      case Other => other
    }
  }

  const NoGroups := Groups([], [], [], [])

  /** One `forEach` step: push the item's value onto its group. */
  function Push(g: Groups, item: Item): (h: Groups)
    ensures forall b :: h.Get(b) == g.Get(b) + (if Classify(item.sections) == b then [item.value] else [])
  {
    match Classify(item.sections)
    case ShortTerm => g.(short := g.short + [item.value])
    case MediumTerm => g.(medium := g.medium + [item.value])
    case LongTerm => g.(long := g.long + [item.value])
    case Other => g.(other := g.other + [item.value])
  }

  /** `groupItemsBySection`: a left fold of `Push`; a missing list gives
      four empty groups. */
  function GroupAll(items: seq<Item>): Groups
    decreases |items|
  {
    if |items| == 0 then NoGroups else Push(GroupAll(items[..|items| - 1]), items[|items| - 1])
  }

  function GroupItems(items: Option<seq<Item>>): Groups {
    if items.Some? then GroupAll(items.value) else NoGroups
  }

  /** Each item's bucket, in item order. */
  function Tags(items: seq<Item>): (ts: seq<Bucket>)
    ensures |ts| == |items|
    ensures forall i :: 0 <= i < |items| ==> ts[i] == Classify(items[i].sections)
  {
    seq(|items|, i requires 0 <= i < |items| => Classify(items[i].sections))
  }

  function Values(items: seq<Item>): (vs: seq<Option<string>>)
    ensures |vs| == |items|
    ensures forall i :: 0 <= i < |items| ==> vs[i] == items[i].value
  {
    seq(|items|, i requires 0 <= i < |items| => items[i].value)
  }

  /** The entries of `vs`, in order, whose tag is `b`. */
  function Select<V>(tags: seq<Bucket>, vs: seq<V>, b: Bucket): seq<V>
    requires |tags| == |vs|
    decreases |vs|
  {
    if |vs| == 0 then []
    else
      var n := |vs| - 1;
      Select(tags[..n], vs[..n], b) + (if tags[n] == b then [vs[n]] else [])
  }

  /** Reference definition: the values, in item order, of the items whose
      section falls into the bucket. */
  function Filter(items: seq<Item>, b: Bucket): seq<Option<string>> {
    Select(Tags(items), Values(items), b)
  }

  /** The fold builds exactly the reference groups. */
  lemma {:induction false} GroupAllIsFilter(items: seq<Item>, b: Bucket)
    ensures GroupAll(items).Get(b) == Filter(items, b)
    decreases |items|
  {
    if |items| > 0 {
      var n := |items| - 1;
      GroupAllIsFilter(items[..n], b);
      assert Tags(items)[..n] == Tags(items[..n]);
      assert Values(items)[..n] == Values(items[..n]);
    }
  }

  /** The selection for `b` as a multiset. */
  function Bag<V>(tags: seq<Bucket>, vs: seq<V>, b: Bucket): multiset<V>
    requires |tags| == |vs|
  {
    multiset(Select(tags, vs, b))
  }

  lemma BagStep<V>(tags: seq<Bucket>, vs: seq<V>, b: Bucket)
    requires |tags| == |vs| > 0
    ensures Bag(tags, vs, b) == Bag(tags[..|vs| - 1], vs[..|vs| - 1], b)
                                + (if tags[|vs| - 1] == b then multiset{vs[|vs| - 1]} else multiset{})
  {
  }

  lemma MultisetSnoc<V>(vs: seq<V>)
    requires |vs| > 0
    ensures multiset(vs) == multiset(vs[..|vs| - 1]) + multiset{vs[|vs| - 1]}
  {
    assert vs == vs[..|vs| - 1] + [vs[|vs| - 1]];
  }

  /** Adding one entry to the bag of its own bucket adds it to the total. */
  lemma AddToOneBag<V>(s: multiset<V>, m: multiset<V>, l: multiset<V>, o: multiset<V>, x: multiset<V>,
                       v: multiset<V>, b: Bucket, s': multiset<V>, m': multiset<V>, l': multiset<V>, o': multiset<V>)
    requires s + m + l + o == x
    requires s' == s + (if b == ShortTerm then v else multiset{})
    requires m' == m + (if b == MediumTerm then v else multiset{})
    requires l' == l + (if b == LongTerm then v else multiset{})
    requires o' == o + (if b == Other then v else multiset{})
    ensures s' + m' + l' + o' == x + v
  {
  }

  /** The four selections together. */
  function AllBags<V>(tags: seq<Bucket>, vs: seq<V>): multiset<V>
    requires |tags| == |vs|
  {
    Bag(tags, vs, ShortTerm) + Bag(tags, vs, MediumTerm) + Bag(tags, vs, LongTerm) + Bag(tags, vs, Other)
  }

  /** One more entry adds exactly that entry to the four selections. */
  lemma AllBagsStep<V>(tags: seq<Bucket>, vs: seq<V>)
    requires |tags| == |vs| > 0
    requires AllBags(tags[..|vs| - 1], vs[..|vs| - 1]) == multiset(vs[..|vs| - 1])
    ensures AllBags(tags, vs) == multiset(vs)
  {
    var n := |vs| - 1;
    var t, u := tags[..n], vs[..n];
    MultisetSnoc(vs);
    BagStep(tags, vs, ShortTerm);
    BagStep(tags, vs, MediumTerm);
    BagStep(tags, vs, LongTerm);
    BagStep(tags, vs, Other);
    AddToOneBag(Bag(t, u, ShortTerm), Bag(t, u, MediumTerm), Bag(t, u, LongTerm), Bag(t, u, Other),
                multiset(u), multiset{vs[n]}, tags[n],
                Bag(tags, vs, ShortTerm), Bag(tags, vs, MediumTerm), Bag(tags, vs, LongTerm), Bag(tags, vs, Other));
  }

  /** Every entry lands in exactly one selection: together the four
      selections hold the entries, none lost and none duplicated. */
  lemma {:induction false} SelectPartition<V>(tags: seq<Bucket>, vs: seq<V>)
    requires |tags| == |vs|
    ensures AllBags(tags, vs) == multiset(vs)
    decreases |vs|
  {
    if |vs| > 0 {
      SelectPartition(tags[..|vs| - 1], vs[..|vs| - 1]);
      AllBagsStep(tags, vs);
    }
  }

  lemma GroupsPartitionItems(items: seq<Item>)
    ensures var g := GroupAll(items);
            |g.short| + |g.medium| + |g.long| + |g.other| == |items|
            && multiset(g.short) + multiset(g.medium) + multiset(g.long) + multiset(g.other)
               == multiset(Values(items))
  {
    GroupAllIsFilter(items, ShortTerm);
    GroupAllIsFilter(items, MediumTerm);
    GroupAllIsFilter(items, LongTerm);
    GroupAllIsFilter(items, Other);
    SelectPartition(Tags(items), Values(items));
    var g := GroupAll(items);
    assert |multiset(Values(items))| == |items|;
  }

  // ---------------------------------------------------------------------
  // Displayed sections.

  datatype Section = Section(bucket: Bucket, term: string, items: seq<Option<string>>)

  function Term(b: Bucket): string {
    match b
    case ShortTerm => "Short Term"
    case MediumTerm => "Medium Term"
    case LongTerm => "Long Term"
    case Other => "Other"
  }

  /** The position of a group in the object's key order. */
  function Rank(b: Bucket): nat {
    match b
    case ShortTerm => 0
    case MediumTerm => 1
    case LongTerm => 2
    case Other => 3
  }

  function SectionCandidates(g: Groups): (c: seq<Option<Section>>)
    ensures |c| == 4
    ensures forall k :: 0 <= k < 4 && c[k].Some? ==> Rank(c[k].value.bucket) == k
  {
    seq(4, k requires 0 <= k < 4 =>
      var b := [ShortTerm, MediumTerm, LongTerm, Other][k];
      if |g.Get(b)| > 0 then Some(Section(b, Term(b), g.Get(b))) else None)
  }

  /** `Object.entries(groups)` with the empty groups skipped: the
      non-empty groups, in key order. */
  function Sections(g: Groups): (ss: seq<Section>)
    ensures |ss| <= 4
    ensures forall i, j :: 0 <= i < j < |ss| ==> Rank(ss[i].bucket) < Rank(ss[j].bucket)
    ensures forall i :: 0 <= i < |ss| ==>
              |ss[i].items| > 0 && ss[i].items == g.Get(ss[i].bucket) && ss[i].term == Term(ss[i].bucket)
  {
    var c := SectionCandidates(g);
    ChooseFollowsKeptIndices(c);
    KeptIndicesExact(c);
    Choose(c)
  }

  /** A group is shown exactly when it is non-empty. */
  lemma ShownIffNonEmpty(g: Groups, b: Bucket)
    ensures Section(b, Term(b), g.Get(b)) in Sections(g) <==> |g.Get(b)| > 0
  {
    var c := SectionCandidates(g);
    ChooseMembership(c, Section(b, Term(b), g.Get(b)));
    if |g.Get(b)| > 0 {
      assert c[Rank(b)] == Some(Section(b, Term(b), g.Get(b)));
    }
  }

  // ---------------------------------------------------------------------
  // The block and its tab state.

  datatype FunctionDetail = FunctionDetail(title: Option<string>, questions: Option<seq<Item>>, solutions: Option<seq<Item>>)

  datatype BusinessFunction = BusinessFunction(
    title: Option<string>, caption: Option<string>, businessFunctions: Option<seq<FunctionDetail>>)

  datatype BoData = BoData(heading: Option<string>, subHeading: Option<string>, businessFunction: Option<BusinessFunction>)

  datatype TabButton = TabButton(title: Option<string>, active: bool)

  datatype TabContent = TabContent(questions: seq<Section>, solutions: seq<Section>)

  datatype BoView = BoView(heading: Option<string>, subHeading: Option<string>, tabs: seq<TabButton>, content: Option<TabContent>)

  /** The block renders only with at least one business function. */
  predicate HasTabs(d: BoData) {
    d.businessFunction.Some? && d.businessFunction.value.businessFunctions.Some?
    && |d.businessFunction.value.businessFunctions.value| > 0
  }

  /** `BoBlock({ data })` with `selectedTabIndex == selected`. */
  function RenderBo(d: BoData, selected: nat): (v: Option<BoView>)
    ensures v.Some? <==> HasTabs(d)
    ensures v.Some? ==> |v.value.tabs| == |d.businessFunction.value.businessFunctions.value|
    ensures v.Some? ==> forall i :: 0 <= i < |v.value.tabs| ==>
              (v.value.tabs[i].active <==> i == selected)
    ensures v.Some? ==> forall i :: 0 <= i < |v.value.tabs| ==>
              v.value.tabs[i].title == d.businessFunction.value.businessFunctions.value[i].title
    ensures v.Some? ==> (v.value.content.Some? <==> selected < |v.value.tabs|)
    ensures v.Some? && v.value.content.Some? ==>
              var tab := d.businessFunction.value.businessFunctions.value[selected];
              v.value.content.value == TabContent(Sections(GroupItems(tab.questions)), Sections(GroupItems(tab.solutions)))
    ensures v.Some? ==> v.value.heading == Shown(d.heading) && v.value.subHeading == Shown(d.subHeading)
  {
    if !HasTabs(d) then None
    else
      var tabs := d.businessFunction.value.businessFunctions.value;
      Some(BoView(
        Shown(d.heading),
        Shown(d.subHeading),
        seq(|tabs|, i requires 0 <= i < |tabs| => TabButton(tabs[i].title, i == selected)),
        if selected < |tabs| then
          Some(TabContent(Sections(GroupItems(tabs[selected].questions)), Sections(GroupItems(tabs[selected].solutions))))
        else None))
  }

  /** The selected index after a sequence of tab clicks; each click names
      the index of the button clicked. */
  function SelectedAfter(clicks: seq<nat>): (selected: nat)
    ensures |clicks| == 0 ==> selected == 0
    ensures |clicks| > 0 ==> selected == clicks[|clicks| - 1]
  {
    if |clicks| == 0 then 0 else clicks[|clicks| - 1]
  }

  /** Clicking only buttons that exist keeps the selection in range: the
      rendered block always has exactly one active tab and a content
      panel. */
  lemma SelectionStaysInRange(d: BoData, clicks: seq<nat>)
    requires HasTabs(d)
    requires forall k :: 0 <= k < |clicks| ==> clicks[k] < |d.businessFunction.value.businessFunctions.value|
    ensures var v := RenderBo(d, SelectedAfter(clicks)).value;
            v.content.Some?
            && exists i :: 0 <= i < |v.tabs| && v.tabs[i].active
                           && forall j :: 0 <= j < |v.tabs| && v.tabs[j].active ==> j == i
  {
    var selected := SelectedAfter(clicks);
    var v := RenderBo(d, selected).value;
    assert v.tabs[selected].active;
  }
}
