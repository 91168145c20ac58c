/** The industry grid (`IndustryParticipants`): a main card built from the
    block's own `industryParticipants*` fields, followed by one card per
    entry of `industryItems`. A card without a label or a destination is
    left out of the grid. */
module IndustryParticipantsBlock {

  import opened Js
  import opened Selection
  import opened Links
  import opened Media

  /** The fields one card is built from, whichever keys they came from. */
  datatype CardFields = CardFields(
    name: Option<string>,
    link: Option<string>,
    external: Option<bool>,
    target: Option<string>,
    image: Option<Image>)

  /** The block's own fields that make up the main card. */
  datatype MainData = MainData(
    industryParticipantsButtonName: Option<string>,
    industryParticipantsButtonLink: Option<string>,
    industryParticipantsButtonLinkExternal: Option<bool>,
    industryParticipantsButtonTarget: Option<string>,
    backgroundImage: Option<Image>)

  /** One entry of `industryItems`. */
  datatype ItemData = ItemData(
    buttonName: Option<string>,
    buttonLink: Option<string>,
    isExternal: Option<bool>,
    target: Option<string>,
    backgroundImage: Option<Image>)

  /** The key mapping of `IndustryItemCard` with `isMain` set. */
  function MainFields(m: MainData): CardFields {
    CardFields(m.industryParticipantsButtonName, m.industryParticipantsButtonLink,
               m.industryParticipantsButtonLinkExternal, m.industryParticipantsButtonTarget,
               m.backgroundImage)
  }

  /** The key mapping of `IndustryItemCard` for an array entry. */
  function ItemFields(it: ItemData): CardFields {
    CardFields(it.buttonName, it.buttonLink, it.isExternal, it.target, it.backgroundImage)
  }

  datatype Card = Card(title: string, link: Link, picture: Option<Picture>)

  const CardAlt := "Industry background"

  /** `IndustryItemCard`: `None` is the `return null` for a card without a
      label or a link. */
  function CardOf(f: CardFields): (c: Option<Card>)
    ensures c.Some? <==> Filled(f.name) && Filled(f.link)
    ensures c.Some? ==> c.value.title == f.name.value && c.value.link.href == f.link.value
    ensures c.Some? ==> (c.value.link.style == Anchor <==> Flag(f.external))
    ensures c.Some? ==> (c.value.link.targetBlank <==> Blank(f.target))
    ensures c.Some? ==> (c.value.link.relNoopener <==> Blank(f.target) && Flag(f.external))
    ensures c.Some? ==> (c.value.picture.Some? <==> HasUrl(f.image))
    ensures c.Some? && c.value.picture.Some? ==> c.value.picture.value.src == f.image.value.url.value
    ensures c.Some? && c.value.picture.Some? && Filled(f.image.value.alternativeText) ==>
              c.value.picture.value.alt == f.image.value.alternativeText.value
    ensures c.Some? && c.value.picture.Some? && !Filled(f.image.value.alternativeText) ==>
              c.value.picture.value.alt == f.name.value
  {
    if !Filled(f.name) || !Filled(f.link) then None
    else Some(Card(f.name.value, MakeLink(RelOnExternal, f.link.value, Flag(f.external), f.target),
                   PictureOf(f.image, f.name, CardAlt)))
  }

  /** The fixed fallback text never stands in for a missing description:
      a card only renders with a non-empty title, so the alt text is never
      empty and is `Industry background` only when the image's own alt or
      the card's name says exactly that. */
  lemma CardAltNeverLiteral(f: CardFields)
    requires CardOf(f).Some? && CardOf(f).value.picture.Some?
    ensures |CardOf(f).value.picture.value.alt| > 0
    ensures CardOf(f).value.picture.value.alt == CardAlt ==>
              f.name == Some(CardAlt) || f.image.value.alternativeText == Some(CardAlt)
  {
  }

  datatype IndustryData = IndustryData(
    heading: Option<string>,
    subHeading: Option<string>,
    main: MainData,
    industryItems: seq<ItemData>)

  datatype IndustryView = IndustryView(heading: Option<string>, subHeading: Option<string>, cards: seq<Card>)

  /** The grid's card slots: the main card, then one per item. */
  function Slots(d: IndustryData): (s: seq<Option<Card>>)
    ensures |s| == 1 + |d.industryItems|
    ensures s[0] == CardOf(MainFields(d.main))
    ensures forall i :: 0 <= i < |d.industryItems| ==> s[i + 1] == CardOf(ItemFields(d.industryItems[i]))
  {
    [CardOf(MainFields(d.main))]
      + seq(|d.industryItems|, i requires 0 <= i < |d.industryItems| => CardOf(ItemFields(d.industryItems[i])))
  }

  /** `IndustryParticipants({ data })`: it never returns `null`. */
  function RenderIndustry(d: IndustryData): (v: IndustryView)
    ensures v.heading.Some? <==> Filled(d.heading)
    ensures v.heading.Some? ==> v.heading == d.heading
    ensures v.subHeading.Some? <==> Filled(d.subHeading)
    ensures v.subHeading.Some? ==> v.subHeading == d.subHeading
    ensures |v.cards| <= 1 + |d.industryItems|
    ensures CardOf(MainFields(d.main)).Some? ==> |v.cards| > 0 && v.cards[0] == CardOf(MainFields(d.main)).value
    ensures var s, idx := Slots(d), KeptIndices(Slots(d));
            |v.cards| == |idx| && StrictlyIncreasing(idx)
            && (forall i :: 0 <= i < |s| ==> (s[i].Some? <==> i in idx))
            && forall k :: 0 <= k < |v.cards| ==> idx[k] < |s| && s[idx[k]] == Some(v.cards[k])
  {
    var s := Slots(d);
    ChooseKept(s);
    ChooseFirst(s);
    IndustryView(Shown(d.heading), Shown(d.subHeading), Choose(s))
  }

  /** With complete data every slot renders: one card for the main entry
      and one per item, in item order. */
  lemma CompleteDataRendersEveryCard(d: IndustryData)
    requires Filled(d.main.industryParticipantsButtonName) && Filled(d.main.industryParticipantsButtonLink)
    requires forall i :: 0 <= i < |d.industryItems| ==>
               Filled(d.industryItems[i].buttonName) && Filled(d.industryItems[i].buttonLink)
    ensures |RenderIndustry(d).cards| == 1 + |d.industryItems|
    ensures forall i :: 0 <= i < |d.industryItems| ==>
              RenderIndustry(d).cards[i + 1].title == d.industryItems[i].buttonName.value
  {
    var s := Slots(d);
    assert forall i :: 0 <= i < |s| ==> s[i].Some? by {
      forall i | 0 <= i < |s| ensures s[i].Some? {
        if i > 0 {
          assert s[i] == CardOf(ItemFields(d.industryItems[i - 1]));
        }
      }
    }
    ChooseAllPresent(s);
  }
}
