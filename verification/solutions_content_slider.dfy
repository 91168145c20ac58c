/** The text-and-carousel block (`SolutionsContentSlider`): a heading and
    rich text beside a carousel of the items' first images. Unlike the logo
    row, an item's first image is kept whenever it exists, url or not, and
    a slide without alt text is numbered by its position in the carousel. */
module SolutionsContentSliderBlock {

  import opened Js
  import opened Strings
  import opened Selection
  import opened Media
  import opened ClientLogosBlock

  /** `clientLogos?.map(item => item.image?.[0])`: one candidate per item. */
  function SlideCandidates(items: seq<SliderItem>): (c: seq<Option<Image>>)
    ensures |c| == |items|
    ensures forall i :: 0 <= i < |items| ==> c[i] == FirstImage(items[i])
  {
    seq(|items|, i requires 0 <= i < |items| => FirstImage(items[i]))
  }

  /** `clientLogos?.map(item => item.image?.[0]).filter(Boolean) || []`:
      the first image of every item that has one, in item order, and
      nothing for a missing list. */
  function ValidSlides(clientLogos: Option<seq<SliderItem>>): (slides: seq<Image>)
    ensures clientLogos.None? ==> slides == []
    ensures clientLogos.Some? ==> |slides| <= |clientLogos.value|
    ensures clientLogos.Some? ==>
              var items, idx := clientLogos.value, KeptIndices(SlideCandidates(clientLogos.value));
              |slides| == |idx| && StrictlyIncreasing(idx)
              && (forall i :: 0 <= i < |items| ==> (FirstImage(items[i]).Some? <==> i in idx))
              && forall k :: 0 <= k < |slides| ==> idx[k] < |items| && FirstImage(items[idx[k]]) == Some(slides[k])
  {
    match clientLogos
    case None => []
    case Some(items) =>
      var c := SlideCandidates(items);
      ChooseFollowsKeptIndices(c);
      KeptIndicesExact(c);
      Choose(c)
  }

  /** `Slider image ${index + 1}`. */
  function SlideAlt(index: nat): string {
    "Slider image " + NatToDecimal(index + 1)
  }

  /** One carousel slide; its source is whatever url the image carries. */
  datatype Slide = Slide(src: Option<string>, alt: string)

  datatype SliderData = SliderData(heading: Option<string>, clientLogos: Option<seq<SliderItem>>, content: Option<string>)

  /** With no slides, the carousel's place shows the "No images available"
      panel. */
  datatype SliderView = SliderView(heading: Option<string>, content: Option<string>, slides: seq<Slide>)

  /** `SolutionsContentSlider({ data })`: `None` when there are no slides,
      no heading and no content. */
  function RenderSlider(d: SliderData): (v: Option<SliderView>)
    ensures v.None? <==> |ValidSlides(d.clientLogos)| == 0 && !Filled(d.heading) && !Filled(d.content)
    ensures v.Some? && |v.value.slides| == 0 ==> Filled(d.heading) || Filled(d.content)
    ensures v.Some? ==> (v.value.heading.Some? <==> Filled(d.heading)) && (v.value.content.Some? <==> Filled(d.content))
    ensures v.Some? && v.value.heading.Some? ==> v.value.heading == d.heading
    ensures v.Some? && v.value.content.Some? ==> v.value.content == d.content
    ensures v.Some? ==> |v.value.slides| == |ValidSlides(d.clientLogos)|
    ensures v.Some? ==> forall k :: 0 <= k < |v.value.slides| ==>
              v.value.slides[k].src == ValidSlides(d.clientLogos)[k].url
              && |v.value.slides[k].alt| > 0
              && (Filled(ValidSlides(d.clientLogos)[k].alternativeText) ==>
                    v.value.slides[k].alt == ValidSlides(d.clientLogos)[k].alternativeText.value)
              && (!Filled(ValidSlides(d.clientLogos)[k].alternativeText) ==> v.value.slides[k].alt == SlideAlt(k))
  {
    var slides := ValidSlides(d.clientLogos);
    if |slides| == 0 && !Filled(d.heading) && !Filled(d.content) then None
    else
      Some(SliderView(Shown(d.heading), Shown(d.content),
        seq(|slides|, k requires 0 <= k < |slides| =>
          Slide(slides[k].url, OrDefault(slides[k].alternativeText, SlideAlt(k))))))
  }

  /** The carousel follows the items: the k-th slide shows the first image
      of the k-th item that has one, whatever its url, and is described by
      that image's alt text or else numbered k + 1. */
  lemma SlidesFollowItems(d: SliderData)
    requires RenderSlider(d).Some? && d.clientLogos.Some?
    ensures var items, slides := d.clientLogos.value, RenderSlider(d).value.slides;
            var idx := KeptIndices(SlideCandidates(items));
            |slides| == |idx|
            && (forall i :: 0 <= i < |items| ==> (FirstImage(items[i]).Some? <==> i in idx))
            && forall k :: 0 <= k < |slides| ==>
                 idx[k] < |items| && FirstImage(items[idx[k]]).Some?
                 && slides[k].src == FirstImage(items[idx[k]]).value.url
                 && (Filled(FirstImage(items[idx[k]]).value.alternativeText) ==>
                       slides[k].alt == FirstImage(items[idx[k]]).value.alternativeText.value)
                 && (!Filled(FirstImage(items[idx[k]]).value.alternativeText) ==> slides[k].alt == SlideAlt(k))
  {
    var items := d.clientLogos.value;
    var s := ValidSlides(d.clientLogos);
    var idx := KeptIndices(SlideCandidates(items));
    forall k | 0 <= k < |s|
      ensures FirstImage(items[idx[k]]) == Some(s[k])
    {
    }
  }

  /** The slide list of the two-item example below. */
  lemma OneSlideFromSecondItem(items: seq<SliderItem>)
    requires items == [SliderItem(None), SliderItem(Some([Image(None, None, 0, 0)]))]
    ensures ValidSlides(Some(items)) == [Image(None, None, 0, 0)]
  {
    var firsts := SlideCandidates(items);
    assert firsts == [None, Some(Image(None, None, 0, 0))];
    assert firsts[..1] == [None];
    assert Choose(firsts[..1]) == Choose(firsts[..1][..0]) == [];
    assert Choose(firsts) == Choose(firsts[..1]) + [Image(None, None, 0, 0)];
  }

  /** A first image without a url still becomes a slide (with no source),
      where the logo row would skip it; and slides are numbered without
      gaps where logos keep their item's position. */
  lemma SlidesDifferFromLogos()
    ensures var items := [SliderItem(None), SliderItem(Some([Image(None, None, 0, 0)]))];
            var v := RenderSlider(SliderData(None, Some(items), None));
            v.Some? && v.value.slides == [Slide(None, "Slider image 1")]
            && Choose(LogoCandidates(items)) == []
  {
    var items := [SliderItem(None), SliderItem(Some([Image(None, None, 0, 0)]))];
    OneSlideFromSecondItem(items);
    assert NatToDecimal(1) == "1";
    assert SlideAlt(0) == "Slider image 1";
    var c := LogoCandidates(items);
    assert c == [None, None];
    assert c[..1] == [None];
    assert Choose(c[..1]) == Choose(c[..1][..0]) == [];
    assert Choose(c) == Choose(c[..1]);
  }
}
