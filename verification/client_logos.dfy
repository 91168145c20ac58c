/** The logo row (`ClientLogos`): the first image of each slider item,
    skipping items whose first image has no url. A logo without alt text is
    named after its item's ORIGINAL position, so skipped items leave gaps
    in the numbering. */
module ClientLogosBlock {

  import opened Js
  import opened Strings
  import opened Selection
  import opened Media

  /** One slider item: an array of images, of which only the first is used. */
  datatype SliderItem = SliderItem(image: Option<seq<Image>>)

  /** `item.image?.[0]`. */
  function FirstImage(item: SliderItem): (img: Option<Image>)
    ensures img.Some? <==> item.image.Some? && |item.image.value| > 0
    ensures img.Some? ==> img.value == item.image.value[0]
  {
    if item.image.Some? && |item.image.value| > 0 then Some(item.image.value[0]) else None
  }

  /** `Client logo ${index + 1}`. */
  function LogoAlt(index: nat): string {
    "Client logo " + NatToDecimal(index + 1)
  }

  /** What item `i` contributes: its first image, if that has a url. */
  function LogoCandidates(items: seq<SliderItem>): (c: seq<Option<Picture>>)
    ensures |c| == |items|
  {
    seq(|items|, i requires 0 <= i < |items| => PictureOf(FirstImage(items[i]), None, LogoAlt(i)))
  }

  datatype LogosData = LogosData(heading: Option<string>, subHeading: Option<string>, imageSlider: Option<seq<SliderItem>>)

  datatype LogosView = LogosView(heading: Option<string>, subHeading: Option<string>, logos: seq<Picture>)

  /** `ClientLogos({ data })`: `None` for a missing or empty slider. A
      slider whose items all lack a url still renders its headings. */
  function RenderLogos(d: LogosData): (v: Option<LogosView>)
    ensures v.None? <==> d.imageSlider.None? || |d.imageSlider.value| == 0
    ensures v.Some? ==> (v.value.heading.Some? <==> Filled(d.heading))
    ensures v.Some? && v.value.heading.Some? ==> v.value.heading == d.heading
    ensures v.Some? ==> (v.value.subHeading.Some? <==> Filled(d.subHeading))
    ensures v.Some? && v.value.subHeading.Some? ==> v.value.subHeading == d.subHeading
    ensures v.Some? ==> |v.value.logos| <= |d.imageSlider.value|
  {
    match d.imageSlider
    case None => None
    case Some(items) =>
      if |items| == 0 then None
      else Some(LogosView(Shown(d.heading), Shown(d.subHeading), Choose(LogoCandidates(items))))
  }

  /** The logos are exactly the items whose first image has a url, in item
      order; logo `k` shows item `idx[k]`'s image, and its fallback alt text
      carries `idx[k] + 1`, the item's position in the slider. */
  lemma LogosFollowItems(d: LogosData)
    requires RenderLogos(d).Some?
    ensures var items, logos := d.imageSlider.value, RenderLogos(d).value.logos;
            var idx := KeptIndices(LogoCandidates(items));
            |logos| == |idx|
            && (forall i :: 0 <= i < |items| ==> (HasUrl(FirstImage(items[i])) <==> i in idx))
            && forall k :: 0 <= k < |logos| ==>
                 idx[k] < |items| && HasUrl(FirstImage(items[idx[k]]))
                 && logos[k].src == FirstImage(items[idx[k]]).value.url.value
                 && (Filled(FirstImage(items[idx[k]]).value.alternativeText) ==>
                       logos[k].alt == FirstImage(items[idx[k]]).value.alternativeText.value)
                 && (!Filled(FirstImage(items[idx[k]]).value.alternativeText) ==> logos[k].alt == LogoAlt(idx[k]))
  {
    var c := LogoCandidates(d.imageSlider.value);
    assert RenderLogos(d).value.logos == Choose(c);
    ChooseFollowsKeptIndices(c);
    KeptIndicesExact(c);
  }

  /** A skipped first item shifts the numbering: the only logo of a
      two-item slider whose first item has no url is named `Client logo 2`. */
  lemma SkippedItemLeavesGap(u: string)
    requires |u| > 0
    ensures var items := [SliderItem(None), SliderItem(Some([Image(Some(u), None, 0, 0)]))];
            Choose(LogoCandidates(items)) == [Picture(u, "Client logo 2")]
  {
    var items := [SliderItem(None), SliderItem(Some([Image(Some(u), None, 0, 0)]))];
    var c := LogoCandidates(items);
    assert c == [None, Some(Picture(u, LogoAlt(1)))];
    assert c[..1] == [None];
    assert Choose(c[..1]) == Choose(c[..1][..0]) == [];
    assert Choose(c) == Choose(c[..1]) + [Picture(u, LogoAlt(1))];
    assert NatToDecimal(2) == "2";
    assert LogoAlt(1) == "Client logo 2";
  }
}
