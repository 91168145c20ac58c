/** The block dispatcher (`BlockRenderer`) and the page bodies that feed it:
    a page's `blocks` array is rendered in order, one dispatch per block,
    and each block is routed by its `__typename` to exactly one component,
    to a visible "Missing Component" placeholder, or to nothing. */
module BlockRenderer {

  import opened Js
  import opened ContentStore

  /** The components the dispatcher knows, one per recognised typename. */
  datatype Kind =
    | Heading | Description | BannerContent | Button | ImageAndText
    | IndustryParticipants | ClientLogos | SolutionsContentSlider | StickySubMenu
    | OurSolutions | DecisiveInsights | Bo | PromotionalBannerCta
    | PostContent2ColumnLayout | PostContent4ColumnLayout | ImageAndTextClickable
    | Sgf | ClientStories | ImagePopup | OverviewHeadingAndContent | QuotesAndContents

  /** The typename that selects each component. Two differ from the
      component's name: `ImageAndText` is selected by the non-clickable
      typename and `ClientStories` by `ComponentBlocksClientsStories`. */
  function TypenameOf(k: Kind): string {
    match k
    case Heading => "ComponentBlocksHeading"
    case Description => "ComponentBlocksDescription"
    case BannerContent => "ComponentBlocksBannerContent"
    case Button => "ComponentBlocksButton"
    case ImageAndText => "ComponentBlocksImageAndTextNonClickable"
    case IndustryParticipants => "ComponentBlocksIndustryParticipants"
    case ClientLogos => "ComponentBlocksClientLogos"
    case SolutionsContentSlider => "ComponentBlocksSolutionsContentSlider"
    case StickySubMenu => "ComponentBlocksStickySubMenu"
    case OurSolutions => "ComponentBlocksOurSolutions"
    case DecisiveInsights => "ComponentBlocksDecisiveInsights"
    case Bo => "ComponentBlocksBo"
    case PromotionalBannerCta => "ComponentBlocksPromotionalBannerCta"
    case PostContent2ColumnLayout => "ComponentBlocksPostContent2ColumnLayout"
    case PostContent4ColumnLayout => "ComponentBlocksPostContent4ColumnLayout"
    case ImageAndTextClickable => "ComponentBlocksImageAndTextClickable"
    case Sgf => "ComponentBlocksSgf"
    case ClientStories => "ComponentBlocksClientsStories"
    case ImagePopup => "ComponentBlocksImagePopup"
    case OverviewHeadingAndContent => "ComponentBlocksOverviewHeadingAndContent"
    case QuotesAndContents => "ComponentBlocksQuotesAndContents"
  }

  /** The `switch` on the typename: the case whose label equals it. */
  function KindOf(t: string): (k: Option<Kind>)
    ensures k.Some? ==> TypenameOf(k.value) == t
  {
    match t
    case "ComponentBlocksHeading" => Some(Heading)
    case "ComponentBlocksDescription" => Some(Description)
    case "ComponentBlocksBannerContent" => Some(BannerContent)
    case "ComponentBlocksButton" => Some(Button)
    case "ComponentBlocksImageAndTextNonClickable" => Some(ImageAndText)
    case "ComponentBlocksIndustryParticipants" => Some(IndustryParticipants)
    case "ComponentBlocksClientLogos" => Some(ClientLogos)
    case "ComponentBlocksSolutionsContentSlider" => Some(SolutionsContentSlider)
    case "ComponentBlocksStickySubMenu" => Some(StickySubMenu)
    case "ComponentBlocksOurSolutions" => Some(OurSolutions)
    case "ComponentBlocksDecisiveInsights" => Some(DecisiveInsights)
    case "ComponentBlocksBo" => Some(Bo)
    case "ComponentBlocksPromotionalBannerCta" => Some(PromotionalBannerCta)
    case "ComponentBlocksPostContent2ColumnLayout" => Some(PostContent2ColumnLayout)
    case "ComponentBlocksPostContent4ColumnLayout" => Some(PostContent4ColumnLayout)
    case "ComponentBlocksImageAndTextClickable" => Some(ImageAndTextClickable)
    case "ComponentBlocksSgf" => Some(Sgf)
    case "ComponentBlocksClientsStories" => Some(ClientStories)
    case "ComponentBlocksImagePopup" => Some(ImagePopup)
    case "ComponentBlocksOverviewHeadingAndContent" => Some(OverviewHeadingAndContent)
    case "ComponentBlocksQuotesAndContents" => Some(QuotesAndContents)
    case _ => None
  }

  /** Every component is reachable: its own typename selects it, so no two
      components share a typename and no case shadows another. */
  lemma KindOfTypename(k: Kind)
    ensures KindOf(TypenameOf(k)) == Some(k)
  {
    if k.Heading? || k.Description? || k.BannerContent? {
      Cases01To03Reachable(k);
    } else if k.Button? || k.ImageAndText? || k.IndustryParticipants? {
      Cases04To06Reachable(k);
    } else if k.ClientLogos? || k.SolutionsContentSlider? || k.StickySubMenu? {
      Cases07To09Reachable(k);
    } else if k.OurSolutions? || k.DecisiveInsights? || k.Bo? {
      Cases10To12Reachable(k);
    } else if k.PromotionalBannerCta? || k.PostContent2ColumnLayout? || k.PostContent4ColumnLayout? {
      Cases13To15Reachable(k);
    } else if k.ImageAndTextClickable? || k.Sgf? || k.ClientStories? {
      Cases16To18Reachable(k);
    } else {
      Cases19To21Reachable(k);
    }
  }

  // The switch cases three at a time, in switch order.

  lemma Cases01To03Reachable(k: Kind)
    requires k.Heading? || k.Description? || k.BannerContent?
    ensures KindOf(TypenameOf(k)) == Some(k)
  {
    if k.Heading? {
      assert KindOf("ComponentBlocksHeading") == Some(Heading);
    } else if k.Description? {
      assert KindOf("ComponentBlocksDescription") == Some(Description);
    } else {
      assert KindOf("ComponentBlocksBannerContent") == Some(BannerContent);
    }
  }

  lemma Cases04To06Reachable(k: Kind)
    requires k.Button? || k.ImageAndText? || k.IndustryParticipants?
    ensures KindOf(TypenameOf(k)) == Some(k)
  {
    if k.Button? {
      assert KindOf("ComponentBlocksButton") == Some(Button);
    } else if k.ImageAndText? {
      assert KindOf("ComponentBlocksImageAndTextNonClickable") == Some(ImageAndText);
    } else {
      assert KindOf("ComponentBlocksIndustryParticipants") == Some(IndustryParticipants);
    }
  }

  lemma Cases07To09Reachable(k: Kind)
    requires k.ClientLogos? || k.SolutionsContentSlider? || k.StickySubMenu?
    ensures KindOf(TypenameOf(k)) == Some(k)
  {
    if k.ClientLogos? {
      assert KindOf("ComponentBlocksClientLogos") == Some(ClientLogos);
    } else if k.SolutionsContentSlider? {
      assert KindOf("ComponentBlocksSolutionsContentSlider") == Some(SolutionsContentSlider);
    } else {
      assert KindOf("ComponentBlocksStickySubMenu") == Some(StickySubMenu);
    }
  }

  lemma Cases10To12Reachable(k: Kind)
    requires k.OurSolutions? || k.DecisiveInsights? || k.Bo?
    ensures KindOf(TypenameOf(k)) == Some(k)
  {
    if k.OurSolutions? {
      assert KindOf("ComponentBlocksOurSolutions") == Some(OurSolutions);
    } else if k.DecisiveInsights? {
      assert KindOf("ComponentBlocksDecisiveInsights") == Some(DecisiveInsights);
    } else {
      assert KindOf("ComponentBlocksBo") == Some(Bo);
    }
  }

  lemma Cases13To15Reachable(k: Kind)
    requires k.PromotionalBannerCta? || k.PostContent2ColumnLayout? || k.PostContent4ColumnLayout?
    ensures KindOf(TypenameOf(k)) == Some(k)
  {
    if k.PromotionalBannerCta? {
      assert KindOf("ComponentBlocksPromotionalBannerCta") == Some(PromotionalBannerCta);
    } else if k.PostContent2ColumnLayout? {
      assert KindOf("ComponentBlocksPostContent2ColumnLayout") == Some(PostContent2ColumnLayout);
    } else {
      assert KindOf("ComponentBlocksPostContent4ColumnLayout") == Some(PostContent4ColumnLayout);
    }
  }

  lemma Cases16To18Reachable(k: Kind)
    requires k.ImageAndTextClickable? || k.Sgf? || k.ClientStories?
    ensures KindOf(TypenameOf(k)) == Some(k)
  {
    if k.ImageAndTextClickable? {
      assert KindOf("ComponentBlocksImageAndTextClickable") == Some(ImageAndTextClickable);
    } else if k.Sgf? {
      assert KindOf("ComponentBlocksSgf") == Some(Sgf);
    } else {
      assert KindOf("ComponentBlocksClientsStories") == Some(ClientStories);
    }
  }

  lemma Cases19To21Reachable(k: Kind)
    requires k.ImagePopup? || k.OverviewHeadingAndContent? || k.QuotesAndContents?
    ensures KindOf(TypenameOf(k)) == Some(k)
  {
    if k.ImagePopup? {
      assert KindOf("ComponentBlocksImagePopup") == Some(ImagePopup);
    } else if k.OverviewHeadingAndContent? {
      assert KindOf("ComponentBlocksOverviewHeadingAndContent") == Some(OverviewHeadingAndContent);
    } else {
      assert KindOf("ComponentBlocksQuotesAndContents") == Some(QuotesAndContents);
    }
  }

  /** What the dispatcher does with one block. */
  datatype Dispatch =
      /** Renders nothing: a falsy block or a falsy typename. */
    | NoOutput
      /** Renders the component for `kind`, handing it the whole block. */
    | Component(kind: Kind, block: Json)
      /** Renders the visible placeholder naming the typename and showing
          the block's JSON. */
    | MissingComponent(typename: Json, payload: Json)

  /** The block's `__typename` when the block passes the null guard. */
  predicate Typed(block: Json) {
    Truthy(block) && Prop(block, "__typename").Some? && Truthy(Prop(block, "__typename").value)
  }

  /** `BlockRenderer({ block })`. */
  function Render(block: Json): (d: Dispatch)
    ensures d.NoOutput? <==> !Typed(block)
    ensures d.Component? ==> d.block == block && Prop(block, "__typename") == Some(JStr(TypenameOf(d.kind)))
    ensures d.MissingComponent? ==> d.payload == block && Some(d.typename) == Prop(block, "__typename")
    ensures d.MissingComponent? ==> forall k: Kind :: d.typename != JStr(TypenameOf(k))
  {
    if !Typed(block) then NoOutput
    else
      var tn := Prop(block, "__typename").value;
      if tn.JStr? && KindOf(tn.s).Some? then Component(KindOf(tn.s).value, block)
      else
        forall k: Kind ensures tn != JStr(TypenameOf(k)) {
          KindOfTypename(k);
        }
        MissingComponent(tn, block)
  }

  /** A typed block whose typename names a component always reaches it; no
      typed block is dropped silently. */
  lemma RenderSelectsNamedComponent(block: Json, k: Kind)
    requires Truthy(block) && Prop(block, "__typename") == Some(JStr(TypenameOf(k)))
    ensures Render(block) == Component(k, block)
  {
    KindOfTypename(k);
    var tn := Prop(block, "__typename").value;
    assert tn == JStr(TypenameOf(k)) && Truthy(tn);
    assert Typed(block);
    assert KindOf(tn.s) == Some(k);
  }

  // ---------------------------------------------------------------------
  // Page bodies.

  /** The body of a page: the rendered blocks, the "No content blocks"
      message, or a render error thrown while building the list. */
  datatype Body = Blocks(rendered: seq<Dispatch>) | NoContentBlocks | Fails

  /** `pageData.blocks && pageData.blocks.length > 0 ? blocks.map(…) : message`.
      A non-empty string passes the length test and then has no `map`; a
      `null` block fails while its list key `${block.__typename}` is built,
      before the dispatcher's own null guard is reached. */
  function RenderBody(page: Json): (b: Body)
    ensures b.Blocks? <==> exists items :: Prop(page, "blocks") == Some(JArr(items)) && |items| > 0 && JNull !in items
    ensures b.Blocks? ==> |b.rendered| == |Prop(page, "blocks").value.items|
    ensures b.Blocks? ==> forall i :: 0 <= i < |b.rendered| ==> b.rendered[i] == Render(Prop(page, "blocks").value.items[i])
    ensures b.NoContentBlocks? <==> match Prop(page, "blocks")
                                    case None => true
                                    case Some(v) => v == JArr([]) || !(v.JArr? || (v.JStr? && |v.s| > 0))
  {
    match Prop(page, "blocks")
    case Some(JArr(items)) =>
      if |items| == 0 then NoContentBlocks
      else if JNull in items then Fails
      else Blocks(seq(|items|, i requires 0 <= i < |items| => Render(items[i])))
    case Some(JStr(s)) => if |s| > 0 then Fails else NoContentBlocks
    case _ => NoContentBlocks
  }

  /** The outcome of a page route. */
  datatype Route = NotFound | Shown(body: Body)

  /** `app/about/page.tsx`: the generic page `about`; no record gives the
      not-found message. */
  function AboutRoute(store: Store): (r: Route)
    ensures r.NotFound? <==> GetPageData(store, "about").None?
    ensures r.Shown? ==> SlugMatches(GetPageData(store, "about").value, "about")
    ensures r.Shown? ==> r.body == RenderBody(GetPageData(store, "about").value)
  {
    match GetPageData(store, "about")
    case None => NotFound
    case Some(page) => Shown(RenderBody(page))
  }

  /** `pageData.blocks?.map(b => b.__typename) || []`, the debugging log of
      the industry route, which runs before the body: it throws for a
      present non-array `blocks` and for a `null` block. */
  predicate LogThrows(page: Json) {
    match Prop(page, "blocks")
    case None => false
    case Some(JNull) => false
    case Some(JArr(items)) => JNull in items
    case Some(_) => true
  }

  /** `app/[industrySlug]/page.tsx`: `notFound()` when the getter gives no
      record (a missing or malformed file) or a falsy one (a `null` first
      entry, say). */
  function IndustryRoute(store: Store, industrySlug: string): (r: Route)
    ensures r.NotFound? <==> Entries(ReadJsonFile(store, FileFor(IndustryPage, industrySlug)), "pages").None?
                             || !Truthy(GetIndustryPageData(store, industrySlug).value)
    ensures r.Shown? && r.body.Blocks? ==> RenderBody(GetIndustryPageData(store, industrySlug).value).Blocks?
    ensures r.Shown? && r.body != Fails ==> r.body == RenderBody(GetIndustryPageData(store, industrySlug).value)
    ensures r.Shown? && !LogThrows(GetIndustryPageData(store, industrySlug).value) ==>
              r.body == RenderBody(GetIndustryPageData(store, industrySlug).value)
    ensures r.Shown? ==>
              (r.body == Fails <==>
                 LogThrows(GetIndustryPageData(store, industrySlug).value)
                 || RenderBody(GetIndustryPageData(store, industrySlug).value) == Fails)
  {
    match GetIndustryPageData(store, industrySlug)
    case None => NotFound
    case Some(page) =>
      if !Truthy(page) then NotFound
      else if LogThrows(page) then Shown(Fails)
      else Shown(RenderBody(page))
  }
}
