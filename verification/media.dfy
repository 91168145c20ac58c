/** Image references as the content store delivers them, and the rule all
    blocks share: an image without a url is not rendered, and a rendered
    image takes its alt text from a chain of fallbacks ending in a
    literal. */
module Media {

  import opened Js

  datatype Image = Image(url: Option<string>, alternativeText: Option<string>, width: int, height: int)

  /** `img?.url`: the image exists and has a non-empty url. */
  predicate HasUrl(img: Option<Image>) {
    img.Some? && Filled(img.value.url)
  }

  /** A rendered `<Image>`: its source and its alt text. */
  datatype Picture = Picture(src: string, alt: string)

  /** `img?.url && <Image alt={img.alternativeText || second || last} />`. */
  function PictureOf(img: Option<Image>, second: Option<string>, last: string): (p: Option<Picture>)
    requires |last| > 0
    ensures p.Some? <==> HasUrl(img)
    ensures p.Some? ==> p.value.src == img.value.url.value && |p.value.alt| > 0
    ensures p.Some? && Filled(img.value.alternativeText) ==> p.value.alt == img.value.alternativeText.value
    ensures p.Some? && !Filled(img.value.alternativeText) && Filled(second) ==> p.value.alt == second.value
    ensures p.Some? && !Filled(img.value.alternativeText) && !Filled(second) ==> p.value.alt == last
  {
    if HasUrl(img) then
      Some(Picture(img.value.url.value, OrDefault(Or(img.value.alternativeText, second), last)))
    else
      None
  }
}
