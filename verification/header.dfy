/** The site header (`Header`): fixed navigation links and two hover
    dropdowns, Industries and Perspectives. Entering a dropdown first
    closes every dropdown and then opens that one; leaving closes it; any
    link click closes both. */
module Header {

  import opened Js
  import opened Strings
  import ContentTypeUrl

  /** `isIndustriesOpen` and `isPerspectivesOpen`. */
  datatype HeaderState = HeaderState(industriesOpen: bool, perspectivesOpen: bool)

  const Initial := HeaderState(false, false)

  predicate AtMostOneOpen(s: HeaderState) {
    !(s.industriesOpen && s.perspectivesOpen)
  }

  /** The handlers that change the state. `ClickLink` is any link of the
      header: the site title, About, Solutions, or a dropdown entry. */
  datatype Event = EnterIndustries | LeaveIndustries | EnterPerspectives | LeavePerspectives | ClickLink

  /** One handler; the two updates inside a handler are batched, so the
      later one wins. */
  function Step(s: HeaderState, e: Event): (t: HeaderState)
    ensures AtMostOneOpen(t)
    ensures e.EnterIndustries? ==> t == HeaderState(true, false)
    ensures e.EnterPerspectives? ==> t == HeaderState(false, true)
    ensures e.ClickLink? ==> t == Initial
    ensures e.LeaveIndustries? ==> !t.industriesOpen && t.perspectivesOpen == s.perspectivesOpen
    ensures e.LeavePerspectives? ==> !t.perspectivesOpen && t.industriesOpen == s.industriesOpen
  {
    match e
    case EnterIndustries => Initial.(industriesOpen := true)
    case LeaveIndustries => s.(industriesOpen := false)
    case EnterPerspectives => Initial.(perspectivesOpen := true)
    case LeavePerspectives => s.(perspectivesOpen := false)
    case ClickLink => Initial
  }

  /** The state after a sequence of events. */
  function Run(s: HeaderState, events: seq<Event>): HeaderState
    decreases |events|
  {
    if |events| == 0 then s else Step(Run(s, events[..|events| - 1]), events[|events| - 1])
  }

  datatype Dropdown = Industries | Perspectives

  predicate IsOpen(s: HeaderState, d: Dropdown) {
    match d
    case Industries => s.industriesOpen
    case Perspectives => s.perspectivesOpen
  }

  /** Hovering the dropdown's own trigger. */
  predicate Opens(e: Event, d: Dropdown) {
    match d
    case Industries => e.EnterIndustries?
    case Perspectives => e.EnterPerspectives?
  }

  /** Leaving the dropdown, clicking any link, or hovering the other
      dropdown's trigger. */
  predicate Closes(e: Event, d: Dropdown) {
    match d
    case Industries => e.LeaveIndustries? || e.ClickLink? || e.EnterPerspectives?
    case Perspectives => e.LeavePerspectives? || e.ClickLink? || e.EnterIndustries?
  }

  /** Reference definition: a dropdown is open exactly when it was entered
      and nothing closed it since. */
  ghost predicate OpenAfter(events: seq<Event>, d: Dropdown) {
    exists i :: 0 <= i < |events| && Opens(events[i], d)
                && forall j :: i < j < |events| ==> !Closes(events[j], d)
  }

  /** The handlers implement the reference definition, for both dropdowns. */
  lemma {:induction false} OpenExactly(events: seq<Event>, d: Dropdown)
    ensures IsOpen(Run(Initial, events), d) <==> OpenAfter(events, d)
    decreases |events|
  {
    if |events| > 0 {
      var n := |events| - 1;
      var front := events[..n];
      OpenExactly(front, d);
      var e := events[n];
      if Opens(e, d) {
        assert Opens(events[n], d);
      } else if Closes(e, d) {
        forall i | 0 <= i < |events| && Opens(events[i], d)
          ensures i < n && Closes(events[n], d)
        {
        }
      } else {
        if OpenAfter(events, d) {
          var i :| 0 <= i < |events| && Opens(events[i], d)
                   && forall j :: i < j < |events| ==> !Closes(events[j], d);
          assert i < n;
          assert Opens(front[i], d);
          assert forall j :: i < j < |front| ==> front[j] == events[j];
        }
        if OpenAfter(front, d) {
          var i :| 0 <= i < |front| && Opens(front[i], d)
                   && forall j :: i < j < |front| ==> !Closes(front[j], d);
          assert Opens(events[i], d);
          assert forall j :: i < j < n ==> events[j] == front[j];
        }
      }
    }
  }

  // ---------------------------------------------------------------------
  // The menus.

  datatype NavLink = NavLink(name: string, href: string)

  /** The industries: display name and slug. */
  const IndustryLinks: seq<(string, string)> := [
    ("Chemicals & Natural Resources", "chemicals-and-natural-resources"),
    ("Mobility", "mobility"),
    ("Energy", "energy"),
    ("Life Sciences", "life-sciences"),
    ("Industrial Equipment", "industrial-equipment"),
    ("Food & Nutrition", "food-and-nutrition"),
    ("Home & Personal Care", "home-and-personal-care")
  ]

  /** The example perspective pages: display name, section path and the
      rest of the path. */
  const PerspectiveEntries: seq<(string, string, string)> := [
    ("Article: Autonomous Haulage", "/articles",
     "autonomous-haulage-systems-the-future-of-mining-operations"),
    ("Article: Strategic Sustainability", "/articles",
     "strategic-sustainability-leveraging-materiality-assessment-for-unified-esg-impact"),
    ("Case Study: Circular Economy", "/case-studies",
     "analyzing-circular-economy-innovations-across-packaging-devices-and-process-landscapes"),
    ("Case Study: Anti-aging", "/case-studies",
     "start-ups-landscape-anti-aging-and-personalization"),
    ("Report: Li-Battery Value Chain", "/research-reports",
     "closing-the-400-gwh-gap-how-the-us-europe-are-reshaping-the-li-battery-value-chain"),
    ("Webinar: CO2 Emissions", "/webinars",
     "eyes-on-emissions-monitoring-co-2-across-the-ccus-value-chain")
  ]

  /** The perspective links, in table order. */
  function PerspectiveMenu(): (links: seq<NavLink>)
    ensures |links| == |PerspectiveEntries|
    ensures forall i :: 0 <= i < |links| ==>
              links[i] == NavLink(PerspectiveEntries[i].0, PerspectiveEntries[i].1 + "/" + PerspectiveEntries[i].2)
  {
    seq(|PerspectiveEntries|, i requires 0 <= i < |PerspectiveEntries| =>
      NavLink(PerspectiveEntries[i].0, PerspectiveEntries[i].1 + "/" + PerspectiveEntries[i].2))
  }

  /** `href={`/${industry.slug}`}`: each industry links to the one-segment
      industry route. */
  function IndustryMenu(): (links: seq<NavLink>)
    ensures |links| == |IndustryLinks|
    ensures forall i :: 0 <= i < |links| ==>
              links[i].name == IndustryLinks[i].0 && links[i].href == "/" + IndustryLinks[i].1
  {
    seq(|IndustryLinks|, i requires 0 <= i < |IndustryLinks| => NavLink(IndustryLinks[i].0, "/" + IndustryLinks[i].1))
  }

  /** What the header shows: each dropdown's entries while it is open. */
  datatype HeaderView = HeaderView(industries: Option<seq<NavLink>>, perspectives: Option<seq<NavLink>>)

  function RenderHeader(s: HeaderState): (v: HeaderView)
    ensures v.industries.Some? <==> s.industriesOpen
    ensures v.perspectives.Some? <==> s.perspectivesOpen
    ensures v.industries.Some? ==> v.industries.value == IndustryMenu()
    ensures v.perspectives.Some? ==> v.perspectives.value == PerspectiveMenu()
  {
    HeaderView(if s.industriesOpen then Some(IndustryMenu()) else None,
               if s.perspectivesOpen then Some(PerspectiveMenu()) else None)
  }

  lemma PrefixOfConcat(p: string, q: string)
    ensures IsPrefix(p, p + q)
  {
    assert (p + q)[..|p|] == p;
  }

  /** Every perspective entry points into a section the URL table knows:
      its path starts with one of the table's base paths and a `/`. */
  lemma PerspectivesUseKnownSections()
    ensures forall l :: l in PerspectiveMenu() ==>
              exists base :: base in ContentTypeUrl.BasePaths.Values && IsPrefix(base + "/", l.href)
  {
    var bases := ContentTypeUrl.BasePaths;
    assert bases["articles"] == PerspectiveEntries[0].1 == PerspectiveEntries[1].1;
    assert bases["case-studies"] == PerspectiveEntries[2].1 == PerspectiveEntries[3].1;
    assert bases["research-reports"] == PerspectiveEntries[4].1;
    assert bases["webinars"] == PerspectiveEntries[5].1;
    forall k | 0 <= k < |PerspectiveMenu()|
      ensures PerspectiveEntries[k].1 in bases.Values
      ensures IsPrefix(PerspectiveEntries[k].1 + "/", PerspectiveMenu()[k].href)
    {
      PrefixOfConcat(PerspectiveEntries[k].1 + "/", PerspectiveEntries[k].2);
    }
  }
}
