/** The clickable image-and-text card (`ImageAndTextClickable`): the same
    two-column content as the non-clickable block, wrapped in one link and
    rendered only when that link has a destination. */
module ImageAndTextClickableBlock {

  import opened Js
  import opened Links
  import opened Media
  import opened ImageAndTextBlock

  datatype ClickableData = ClickableData(
    heading: Option<string>,
    description: Option<string>,
    buttonLabel: Option<string>,
    buttonURL: Option<string>,
    buttontarget: Option<string>,
    isButtonUrlExternal: Option<bool>,
    buttonTheme: Option<string>,
    backgroundImage: Option<Image>)

  datatype ClickableView = ClickableView(link: Link, ariaLabel: Option<string>, content: ImageAndTextView)

  /** `ImageAndTextClickable({ data })`: `None` is the `return null` for a
      missing URL. */
  function RenderClickable(d: ClickableData): (v: Option<ClickableView>)
    ensures v.None? <==> !Filled(d.buttonURL)
    ensures v.Some? ==> v.value.link.href == d.buttonURL.value
    ensures v.Some? ==> (v.value.link.style == Anchor <==> Flag(d.isButtonUrlExternal))
    ensures v.Some? ==> (v.value.link.targetBlank <==> Blank(d.buttontarget))
    ensures v.Some? ==> (v.value.link.relNoopener <==> Blank(d.buttontarget) && Flag(d.isButtonUrlExternal))
    ensures v.Some? && Filled(d.buttonLabel) ==> v.value.ariaLabel == d.buttonLabel
    ensures v.Some? && !Filled(d.buttonLabel) ==> v.value.ariaLabel == Shown(d.heading)
    ensures v.Some? ==> v.value.content.orientation == OrientationOf(d.buttonTheme)
    ensures v.Some? ==> (v.value.content.heading.Some? <==> Filled(d.heading))
    ensures v.Some? && v.value.content.heading.Some? ==> v.value.content.heading == d.heading
    ensures v.Some? ==> (v.value.content.description.Some? <==> Filled(d.description))
    ensures v.Some? && v.value.content.description.Some? ==> v.value.content.description == d.description
    ensures v.Some? ==> (v.value.content.picture.Some? <==> HasUrl(d.backgroundImage))
    ensures v.Some? && v.value.content.picture.Some? ==>
              v.value.content.picture.value.src == d.backgroundImage.value.url.value
    ensures v.Some? && v.value.content.picture.Some? && Filled(d.backgroundImage.value.alternativeText) ==>
              v.value.content.picture.value.alt == d.backgroundImage.value.alternativeText.value
    ensures v.Some? && v.value.content.picture.Some? && !Filled(d.backgroundImage.value.alternativeText) ==>
              (Filled(d.heading) ==> v.value.content.picture.value.alt == d.heading.value)
              && (!Filled(d.heading) ==> v.value.content.picture.value.alt == ImageAlt)
  {
    if !Filled(d.buttonURL) then None
    else
      Some(ClickableView(
        MakeLink(RelOnExternal, d.buttonURL.value, Flag(d.isButtonUrlExternal), d.buttontarget),
        Shown(Or(d.buttonLabel, d.heading)),
        RenderImageAndText(ImageAndTextData(d.backgroundImage, d.heading, d.description, d.buttonTheme))))
  }

  /** The wrapper and the content are independent: the link depends only
      on the URL, target and external flag, and the content only on the
      image, heading, description and theme, so changing either group
      leaves the other part of the card as it was. */
  lemma LinkAndContentIndependent(d: ClickableData, e: ClickableData)
    requires Filled(d.buttonURL) && Filled(e.buttonURL)
    ensures d.buttonURL == e.buttonURL && d.buttontarget == e.buttontarget && Flag(d.isButtonUrlExternal) == Flag(e.isButtonUrlExternal)
            ==> RenderClickable(d).value.link == RenderClickable(e).value.link
    ensures d.backgroundImage == e.backgroundImage && d.heading == e.heading
            && d.description == e.description && d.buttonTheme == e.buttonTheme
            ==> RenderClickable(d).value.content == RenderClickable(e).value.content
  {
  }

  /** The card has an accessible name exactly when it has a label or a
      heading, and that name is never the empty string. */
  lemma AriaLabelNeverEmpty(d: ClickableData)
    requires RenderClickable(d).Some?
    ensures RenderClickable(d).value.ariaLabel.None? <==> !Filled(d.buttonLabel) && !Filled(d.heading)
    ensures RenderClickable(d).value.ariaLabel.Some? ==> |RenderClickable(d).value.ariaLabel.value| > 0
  {
  }
}
