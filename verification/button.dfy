/** The stand-alone button block (`Button`): a labelled link in one of two
    styles, rendered only with both a label and a destination. It is the
    one block that puts `rel="noopener noreferrer"` on internal links that
    open a new tab. */
module ButtonBlock {

  import opened Js
  import opened Links

  /** The two styles the variant table knows. */
  datatype Variant = Primary | Secondary

  /** `variantClasses[variant] || variantClasses.Primary`, with the
      default `'Primary'` for a missing variant. */
  function VariantOf(variant: Option<string>): (v: Variant)
    ensures v == Secondary <==> variant == Some("Secondary")
  {
    if variant == Some("Secondary") then Secondary else Primary
  }

  datatype ButtonData = ButtonData(
    buttonName: Option<string>,
    buttonLink: Option<string>,
    isExternal: Option<bool>,
    target: Option<string>,
    variant: Option<string>)

  datatype ButtonView = ButtonView(cta: Cta, variant: Variant)

  /** `Button({ data })`: `None` is the `return null` for a missing label or
      link. */
  function RenderButton(d: ButtonData): (v: Option<ButtonView>)
    ensures v.Some? <==> Filled(d.buttonName) && Filled(d.buttonLink)
    ensures v.Some? ==> v.value.cta.caption == d.buttonName.value && v.value.cta.link.href == d.buttonLink.value
    ensures v.Some? ==> (v.value.cta.link.style == Anchor <==> Flag(d.isExternal))
    ensures v.Some? ==> (v.value.cta.link.targetBlank <==> Blank(d.target))
    ensures v.Some? ==> (v.value.cta.link.relNoopener <==> Blank(d.target))
    ensures v.Some? ==> v.value.variant == VariantOf(d.variant)
  {
    match CtaOf(RelOnBoth, d.buttonName, d.buttonLink, d.isExternal, d.target)
    case None => None
    case Some(cta) => Some(ButtonView(cta, VariantOf(d.variant)))
  }

  /** The button never opens a new tab without `noopener`, internal or
      external, whereas the other blocks' CTAs leave internal new-tab links
      unprotected. */
  lemma ButtonNewTabAlwaysProtected(d: ButtonData)
    requires RenderButton(d).Some? && RenderButton(d).value.cta.link.targetBlank
    ensures RenderButton(d).value.cta.link.relNoopener
    ensures !Flag(d.isExternal) ==>
              !CtaOf(RelOnExternal, d.buttonName, d.buttonLink, d.isExternal, d.target).value.link.relNoopener
  {
  }

  /** Any unknown variant, including a missing one, styles the button as
      `Primary`. */
  lemma UnknownVariantIsPrimary(other: string)
    requires other != "Secondary"
    ensures VariantOf(Some(other)) == Primary && VariantOf(None) == Primary
  {
  }
}
