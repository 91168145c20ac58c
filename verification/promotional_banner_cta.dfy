/** The promotional banner (`PromotionalBannerCta`): a full-width section
    that always renders, with a photo or a gradient behind an optional
    heading, subheading and call-to-action. */
module PromotionalBannerCtaBlock {

  import opened Js
  import opened Links
  import opened Media
  import ButtonBlock

  /** The three padding tiers. */
  datatype Size = Thin | Medium | Large

  /** `sizeClasses[PromotionBannerSize] || sizeClasses.Medium`, with the
      default `'Medium'`. */
  function SizeOf(size: Option<string>): (s: Size)
    ensures s == Thin <==> size == Some("Thin")
    ensures s == Large <==> size == Some("Large")
  {
    if size == Some("Thin") then Thin
    else if size == Some("Large") then Large
    else Medium
  }

  /** What sits behind the text: the photo, or the fallback gradient. */
  datatype Background = Photo(picture: Picture) | Gradient

  datatype PromoData = PromoData(
    heading: Option<string>,
    subHeading: Option<string>,
    buttonName: Option<string>,
    buttonLink: Option<string>,
    isExternal: Option<bool>,
    buttonTarget: Option<string>,
    buttonVariant: Option<string>,
    PromotionBannerSize: Option<string>,
    backgroundImage: Option<Image>)

  datatype PromoView = PromoView(
    size: Size,
    background: Background,
    heading: Option<string>,
    subHeading: Option<string>,
    cta: Option<Cta>,
    variant: ButtonBlock.Variant)

  const BackgroundAlt := "Promotional banner background"

  /** `PromotionalBannerCta({ data })`: it never returns `null`. */
  function RenderPromo(d: PromoData): (v: PromoView)
    ensures v.background.Photo? <==> HasUrl(d.backgroundImage)
    ensures v.background.Photo? ==> v.background.picture.src == d.backgroundImage.value.url.value
    ensures v.background.Photo? && Filled(d.backgroundImage.value.alternativeText) ==>
              v.background.picture.alt == d.backgroundImage.value.alternativeText.value
    ensures v.background.Photo? && !Filled(d.backgroundImage.value.alternativeText) ==>
              v.background.picture.alt == BackgroundAlt
    ensures v.heading.Some? <==> Filled(d.heading)
    ensures v.heading.Some? ==> v.heading == d.heading
    ensures v.subHeading.Some? <==> Filled(d.subHeading)
    ensures v.subHeading.Some? ==> v.subHeading == d.subHeading
    ensures v.cta.Some? <==> Filled(d.buttonName) && Filled(d.buttonLink)
    ensures v.cta.Some? ==> v.cta.value.caption == d.buttonName.value && v.cta.value.link.href == d.buttonLink.value
    ensures v.cta.Some? ==> (v.cta.value.link.style == Anchor <==> Flag(d.isExternal))
    ensures v.cta.Some? ==> (v.cta.value.link.targetBlank <==> Blank(d.buttonTarget))
    ensures v.cta.Some? ==> (v.cta.value.link.relNoopener <==> Blank(d.buttonTarget) && Flag(d.isExternal))
    ensures v.size == SizeOf(d.PromotionBannerSize) && v.variant == ButtonBlock.VariantOf(d.buttonVariant)
  {
    PromoView(
      SizeOf(d.PromotionBannerSize),
      match PictureOf(d.backgroundImage, None, BackgroundAlt)
      case Some(p) => Photo(p)
      case None => Gradient,
      Shown(d.heading),
      Shown(d.subHeading),
      CtaOf(RelOnExternal, d.buttonName, d.buttonLink, d.isExternal, d.buttonTarget),
      ButtonBlock.VariantOf(d.buttonVariant))
  }

  /** An empty record still renders a medium banner with the gradient and
      nothing on it. */
  lemma EmptyPromoIsBareGradient()
    ensures RenderPromo(PromoData(None, None, None, None, None, None, None, None, None))
            == PromoView(Medium, Gradient, None, None, None, ButtonBlock.Primary)
  {
  }

  /** The CTA's presence depends on its label and link only; the photo, the
      texts and the styling never hide it. */
  lemma CtaIndependentOfDecoration(d: PromoData, e: PromoData)
    requires d.buttonName == e.buttonName && d.buttonLink == e.buttonLink
    requires d.isExternal == e.isExternal && d.buttonTarget == e.buttonTarget
    ensures RenderPromo(d).cta == RenderPromo(e).cta
  {
  }
}
