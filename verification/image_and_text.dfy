/** The two-column image-and-text block (`ImageAndText`, selected by the
    non-clickable typename): text in one column, an optional image in the
    other. On narrow screens the image always comes first; on wide screens
    the variant decides which side it takes. */
module ImageAndTextBlock {

  import opened Js
  import opened Media

  /** Which column the image takes on wide screens. */
  datatype Orientation = TextLeft | ImageLeft

  /** `variant === 'Image_left_Text_right'`; every other value, and the
      default, keeps the text on the left. */
  function OrientationOf(variant: Option<string>): (o: Orientation)
    ensures o == ImageLeft <==> variant == Some("Image_left_Text_right")
  {
    if variant == Some("Image_left_Text_right") then ImageLeft else TextLeft
  }

  /** The flex order of the two columns. */
  datatype Order = Order(text: nat, image: nat)

  /** `order-2 md:order-…` on the text and `order-1 md:order-…` on the
      image, on a narrow or a wide screen. */
  function OrdersOf(o: Orientation, wide: bool): (r: Order)
    ensures {r.text, r.image} == {1, 2}
    ensures r.image < r.text <==> !wide || o == ImageLeft
  {
    if !wide || o == ImageLeft then Order(2, 1) else Order(1, 2)
  }

  const ImageAlt := "Content image"

  datatype ImageAndTextData = ImageAndTextData(
    image: Option<Image>,
    heading: Option<string>,
    description: Option<string>,
    contentVariant: Option<string>)

  datatype ImageAndTextView = ImageAndTextView(
    orientation: Orientation,
    heading: Option<string>,
    description: Option<string>,
    picture: Option<Picture>)

  /** `ImageAndText({ data })`: it never returns `null`; the grid renders
      even when every field is empty. */
  function RenderImageAndText(d: ImageAndTextData): (v: ImageAndTextView)
    ensures v.orientation == OrientationOf(d.contentVariant)
    ensures v.heading.Some? <==> Filled(d.heading)
    ensures v.heading.Some? ==> v.heading == d.heading
    ensures v.description.Some? <==> Filled(d.description)
    ensures v.description.Some? ==> v.description == d.description
    ensures v.picture.Some? <==> HasUrl(d.image)
    ensures v.picture.Some? ==> v.picture.value.src == d.image.value.url.value
    ensures v.picture.Some? && Filled(d.image.value.alternativeText) ==>
              v.picture.value.alt == d.image.value.alternativeText.value
    ensures v.picture.Some? && !Filled(d.image.value.alternativeText) && Filled(d.heading) ==>
              v.picture.value.alt == d.heading.value
    ensures v.picture.Some? && !Filled(d.image.value.alternativeText) && !Filled(d.heading) ==>
              v.picture.value.alt == ImageAlt
  {
    ImageAndTextView(
      OrientationOf(d.contentVariant),
      Shown(d.heading),
      Shown(d.description),
      PictureOf(d.image, d.heading, ImageAlt))
  }

  /** The variant only moves the image on wide screens: narrow screens put
      it first in every orientation, and the two orientations are mirror
      images of each other. */
  lemma OrientationOnlyOnWideScreens(o: Orientation, p: Orientation)
    ensures OrdersOf(o, false) == OrdersOf(p, false)
    ensures o != p ==> OrdersOf(o, true).text == OrdersOf(p, true).image
                       && OrdersOf(o, true).image == OrdersOf(p, true).text
  {
  }
}
