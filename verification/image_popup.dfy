/** The image figure (`ImagePopup`): one image with an optional caption,
    laid out at the image's own aspect ratio when both dimensions are
    known, at 16:9 otherwise. An explicit `enable: false` hides it. */
module ImagePopupBlock {

  import opened Js
  import opened Strings
  import opened Media

  /** `enable === false`: only an explicit `false` disables the figure. */
  predicate Disabled(enable: Option<bool>) {
    enable == Some(false)
  }

  /** The width and height the aspect ratio is built from: the image's own
      when both are non-zero (a missing dimension is 0 here), else 16:9. */
  function RatioOf(img: Image): (r: (int, int))
    ensures r.0 != 0 && r.1 != 0
    ensures img.width != 0 && img.height != 0 ==> r == (img.width, img.height)
    ensures img.width == 0 || img.height == 0 ==> r == (16, 9)
  {
    if img.width != 0 && img.height != 0 then (img.width, img.height) else (16, 9)
  }

  /** `${width} / ${height}`: the CSS `aspect-ratio` text. */
  function AspectText(r: (int, int)): (t: string)
    ensures |t| > 3
  {
    IntToDecimal(r.0) + " / " + IntToDecimal(r.1)
  }

  datatype PopupData = PopupData(imagePopupTitle: Option<string>, imagePopup: Option<Image>, enable: Option<bool>)

  datatype PopupView = PopupView(picture: Picture, aspect: string, caption: Option<string>)

  const PopupAlt := "Popup image"

  /** `ImagePopup({ data })`: `None` when disabled or when there is no image
      url. */
  function RenderPopup(d: PopupData): (v: Option<PopupView>)
    ensures v.Some? <==> !Disabled(d.enable) && HasUrl(d.imagePopup)
    ensures v.Some? ==> v.value.picture.src == d.imagePopup.value.url.value
    ensures v.Some? && Filled(d.imagePopup.value.alternativeText) ==>
              v.value.picture.alt == d.imagePopup.value.alternativeText.value
    ensures v.Some? && !Filled(d.imagePopup.value.alternativeText) && Filled(d.imagePopupTitle) ==>
              v.value.picture.alt == d.imagePopupTitle.value
    ensures v.Some? && !Filled(d.imagePopup.value.alternativeText) && !Filled(d.imagePopupTitle) ==>
              v.value.picture.alt == PopupAlt
    ensures v.Some? ==> (v.value.caption.Some? <==> Filled(d.imagePopupTitle))
    ensures v.Some? && v.value.caption.Some? ==> v.value.caption == d.imagePopupTitle
    ensures v.Some? ==> v.value.aspect == AspectText(RatioOf(d.imagePopup.value))
  {
    if Disabled(d.enable) then None
    else
      match PictureOf(d.imagePopup, d.imagePopupTitle, PopupAlt)
      case None => None
      case Some(p) => Some(PopupView(p, AspectText(RatioOf(d.imagePopup.value)), Shown(d.imagePopupTitle)))
  }

  /** A missing or null `enable` does not hide the figure. */
  lemma EnabledUnlessExplicitlyFalse(d: PopupData)
    requires HasUrl(d.imagePopup) && d.enable != Some(false)
    ensures RenderPopup(d).Some?
  {
  }

  /** The aspect text can be read back: up to the first space it is the
      width, after the ` / ` separator it is the height, and each part's
      digits denote that dimension. */
  lemma {:induction false} AspectTextReadsBack(w: nat, h: nat)
    requires w > 0 && h > 0
    ensures var t := AspectText((w, h));
            IndexOf(t, ' ') == Some(|NatToDecimal(w)|)
            && t[..|NatToDecimal(w)|] == NatToDecimal(w)
            && DecimalValue(t[..|NatToDecimal(w)|]) == w
    ensures var t := AspectText((w, h));
            |t| > |NatToDecimal(w)| + 3
            && t[|NatToDecimal(w)|..|NatToDecimal(w)| + 3] == " / "
            && t[|NatToDecimal(w)| + 3..] == NatToDecimal(h)
            && DecimalValue(t[|NatToDecimal(w)| + 3..]) == h
  {
    var a := NatToDecimal(w);
    var t := AspectText((w, h));
    assert t == a + " / " + NatToDecimal(h);
    assert t[..|a|] == a;
    assert t[|a|] == ' ';
    assert ' ' !in a by {
      forall i | 0 <= i < |a| ensures a[i] != ' ' {
        assert IsDigit(a[i]);
      }
    }
    DecimalRoundTrip(w);
    assert t[|a|..|a| + 3] == " / ";
    assert t[|a| + 3..] == NatToDecimal(h);
    DecimalRoundTrip(h);
  }
}
