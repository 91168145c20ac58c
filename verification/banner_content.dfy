/** The hero banner (`BannerContent`): a height tier, a horizontal
    alignment, an optional background photo and an optional CTA. The size
    and position lookups have no fallback: only an ABSENT value takes the
    default, while `null` or an unknown word leaves the class out. */
module BannerContentBlock {

  import opened Js
  import opened Links
  import opened Media

  /** `bannerHeightClasses[bannerSize]` in pixels, with the default
      `'medium'` for an absent size; `None` is the `undefined` class. */
  function MinHeightOf(bannerSize: Field<string>): (h: Option<int>)
    ensures h.Some? ==> h.value in {200, 400, 640}
    ensures h == Some(200) <==> bannerSize == Defined("small")
    ensures h == Some(640) <==> bannerSize == Defined("large")
    ensures h == Some(400) <==> bannerSize.Undefined? || bannerSize == Defined("medium")
  {
    match bannerSize
    case Undefined => Some(400)
    case Null => None
    case Defined(s) =>
      if s == "small" then Some(200)
      else if s == "medium" then Some(400)
      else if s == "large" then Some(640)
      else None
  }

  /** The flex justification of the content. */
  datatype Justify = Start | Center | End

  /** `textAlignmentClasses[textPosition]`, with the default `'center'` for
      an absent position; `None` is the `undefined` class. */
  function JustifyOf(textPosition: Field<string>): (j: Option<Justify>)
    ensures j == Some(Start) <==> textPosition == Defined("left")
    ensures j == Some(End) <==> textPosition == Defined("right")
    ensures j == Some(Center) <==> textPosition.Undefined? || textPosition == Defined("center")
  {
    match textPosition
    case Undefined => Some(Center)
    case Null => None
    case Defined(s) =>
      if s == "left" then Some(Start)
      else if s == "center" then Some(Center)
      else if s == "right" then Some(End)
      else None
  }

  datatype BannerData = BannerData(
    heading: Option<string>,
    subHeading: Option<string>,
    textPosition: Field<string>,
    bannerSize: Field<string>,
    background: Option<Image>,
    bannerButtonName: Option<string>,
    bannerButtonLink: Option<string>,
    isbannerButtonLinkExternal: Option<bool>,
    bannerButtonTarget: Option<string>)

  datatype BannerView = BannerView(
    minHeight: Option<int>,
    justify: Option<Justify>,
    background: Option<Picture>,
    heading: Option<string>,
    subHeading: Option<string>,
    cta: Option<Cta>)

  const BackgroundAlt := "Banner background"

  /** `BannerContent({ data })`: it never returns `null`. */
  function RenderBanner(d: BannerData): (v: BannerView)
    ensures v.minHeight == MinHeightOf(d.bannerSize) && v.justify == JustifyOf(d.textPosition)
    ensures v.background.Some? <==> HasUrl(d.background)
    ensures v.background.Some? ==> v.background.value.src == d.background.value.url.value
    ensures v.background.Some? && Filled(d.background.value.alternativeText) ==>
              v.background.value.alt == d.background.value.alternativeText.value
    ensures v.background.Some? && !Filled(d.background.value.alternativeText) ==> v.background.value.alt == BackgroundAlt
    ensures v.heading.Some? <==> Filled(d.heading)
    ensures v.heading.Some? ==> v.heading == d.heading
    ensures v.subHeading.Some? <==> Filled(d.subHeading)
    ensures v.subHeading.Some? ==> v.subHeading == d.subHeading
    ensures v.cta.Some? <==> Filled(d.bannerButtonName) && Filled(d.bannerButtonLink)
    ensures v.cta.Some? ==> v.cta.value.caption == d.bannerButtonName.value && v.cta.value.link.href == d.bannerButtonLink.value
    ensures v.cta.Some? ==> (v.cta.value.link.style == Anchor <==> Flag(d.isbannerButtonLinkExternal))
    ensures v.cta.Some? ==> (v.cta.value.link.targetBlank <==> Blank(d.bannerButtonTarget))
    ensures v.cta.Some? ==> (v.cta.value.link.relNoopener <==> Blank(d.bannerButtonTarget) && Flag(d.isbannerButtonLinkExternal))
  {
    BannerView(
      MinHeightOf(d.bannerSize),
      JustifyOf(d.textPosition),
      PictureOf(d.background, None, BackgroundAlt),
      Shown(d.heading),
      Shown(d.subHeading),
      CtaOf(RelOnExternal, d.bannerButtonName, d.bannerButtonLink, d.isbannerButtonLinkExternal, d.bannerButtonTarget))
  }

  /** The defaults apply to an absent field only: an absent size or
      position is the same as the default word, an explicit `null` is not,
      and the tiers grow with the size. */
  lemma DefaultsOnlyForAbsent()
    ensures MinHeightOf(Undefined) == MinHeightOf(Defined("medium"))
    ensures JustifyOf(Undefined) == JustifyOf(Defined("center"))
    ensures MinHeightOf(Null) == None && JustifyOf(Null) == None
    ensures MinHeightOf(Defined("small")).value < MinHeightOf(Defined("medium")).value
              < MinHeightOf(Defined("large")).value
  {
  }

  /** Words are matched exactly: a capitalised size gets no height class. */
  lemma SizeWordsAreCaseSensitive()
    ensures MinHeightOf(Defined("Large")) == None
  {
    assert "Large"[0] != "large"[0];
  }
}
