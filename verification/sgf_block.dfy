/** The SGF section (`SgfBlock`): one card per column entry, optionally
    followed by a highlighted right-hand column, on a grid whose column
    count is computed from the number of cells. */
module SgfBlock {

  import opened Js
  import opened Links
  import opened Media

  /** One entry of `sgfColumn`; `list` holds the `sgfListName`s. */
  datatype Column = Column(
    image: Option<Image>,
    list: Option<seq<string>>,
    sgfName: Option<string>,
    sgfURL: Option<string>,
    sgfTarget: Option<string>,
    isExternal: Option<bool>)

  /** A rendered column card. `link` is `None` when the card is not
      clickable; `learnMore` is the "Learn More" hint. */
  datatype ColumnCard = ColumnCard(
    picture: Option<Picture>,
    name: Option<string>,
    list: seq<string>,
    learnMore: bool,
    link: Option<Link>)

  const ImageAlt := "SGF Image"

  /** `list && list.length > 0 && <ul>…</ul>`. */
  function ListShown(list: Option<seq<string>>): (items: seq<string>)
    ensures list.Some? && |list.value| > 0 ==> items == list.value
    ensures list.None? || |list.value| == 0 ==> items == []
  {
    if list.Some? && |list.value| > 0 then list.value else []
  }

  /** `SgfColumnCard({ item })`: every entry renders, linked only when it
      has a URL. */
  function ColumnCardOf(c: Column): (card: ColumnCard)
    ensures card.link.Some? <==> Filled(c.sgfURL)
    ensures card.learnMore <==> card.link.Some?
    ensures card.link.Some? ==> card.link.value.href == c.sgfURL.value
    ensures card.link.Some? ==> (card.link.value.style == Anchor <==> Flag(c.isExternal))
    ensures card.link.Some? ==> (card.link.value.targetBlank <==> Blank(c.sgfTarget))
    ensures card.link.Some? ==> (card.link.value.relNoopener <==> Blank(c.sgfTarget) && Flag(c.isExternal))
    ensures card.picture.Some? <==> HasUrl(c.image)
    ensures card.picture.Some? ==> card.picture.value.src == c.image.value.url.value
    ensures card.picture.Some? && Filled(c.image.value.alternativeText) ==>
              card.picture.value.alt == c.image.value.alternativeText.value
    ensures card.picture.Some? && !Filled(c.image.value.alternativeText) && Filled(c.sgfName) ==>
              card.picture.value.alt == c.sgfName.value
    ensures card.picture.Some? && !Filled(c.image.value.alternativeText) && !Filled(c.sgfName) ==>
              card.picture.value.alt == ImageAlt
    ensures card.name.Some? <==> Filled(c.sgfName)
    ensures card.name.Some? ==> card.name == c.sgfName
    ensures c.list.Some? && |c.list.value| > 0 ==> card.list == c.list.value
    ensures c.list.None? || |c.list.value| == 0 ==> card.list == []
  {
    ColumnCard(
      PictureOf(c.image, c.sgfName, ImageAlt),
      Shown(c.sgfName),
      ListShown(c.list),
      Filled(c.sgfURL),
      if Filled(c.sgfURL) then Some(MakeLink(RelOnExternal, c.sgfURL.value, Flag(c.isExternal), c.sgfTarget))
      else None)
  }

  /** The grid's column counts at the `lg` and `xl` breakpoints. */
  datatype GridCols = GridCols(lg: nat, xl: nat)

  /** `lg:grid-cols-${Math.min(total, 5)} xl:grid-cols-${total}`. */
  function GridColsOf(total: nat): (g: GridCols)
    ensures g.xl == total
    ensures g.lg <= 5 && g.lg <= g.xl
    ensures g.lg == g.xl <==> total <= 5
    ensures total > 5 ==> g.lg == 5
  {
    GridCols(if total < 5 then total else 5, total)
  }

  datatype RightColumn = RightColumn(title: string, items: seq<string>)

  datatype SgfData = SgfData(
    heading: Option<string>,
    suheading: Option<string>,
    sgfColumn: Option<seq<Column>>,
    rightSideRedcolumnList: Option<seq<string>>,
    rightSideTitle: Option<string>)

  datatype SgfView = SgfView(
    heading: Option<string>,
    subheading: Option<string>,
    grid: GridCols,
    cards: seq<ColumnCard>,
    right: Option<RightColumn>)

  /** `hasRightColumn`: a non-empty list and a title. */
  predicate HasRightColumn(d: SgfData) {
    d.rightSideRedcolumnList.Some? && |d.rightSideRedcolumnList.value| > 0 && Filled(d.rightSideTitle)
  }

  /** `SgfBlock({ data })`: the section always renders. */
  function RenderSgf(d: SgfData): (v: SgfView)
    ensures d.sgfColumn.None? ==> v.cards == []
    ensures d.sgfColumn.Some? ==> |v.cards| == |d.sgfColumn.value|
                                  && forall i :: 0 <= i < |v.cards| ==> v.cards[i] == ColumnCardOf(d.sgfColumn.value[i])
    ensures v.right.Some? <==> HasRightColumn(d)
    ensures v.right.Some? ==> v.right.value == RightColumn(d.rightSideTitle.value, d.rightSideRedcolumnList.value)
    ensures v.heading.Some? <==> Filled(d.heading)
    ensures v.heading.Some? ==> v.heading == d.heading
    ensures v.subheading.Some? <==> Filled(d.suheading)
    ensures v.subheading.Some? ==> v.subheading == d.suheading
  {
    var columns := if d.sgfColumn.Some? then d.sgfColumn.value else [];
    var right := if HasRightColumn(d) then Some(RightColumn(d.rightSideTitle.value, d.rightSideRedcolumnList.value))
                 else None;
    SgfView(
      Shown(d.heading),
      Shown(d.suheading),
      GridColsOf(|columns| + if right.Some? then 1 else 0),
      seq(|columns|, i requires 0 <= i < |columns| => ColumnCardOf(columns[i])),
      right)
  }

  /** The widest grid has exactly one column per rendered cell (the cards
      and the right column); the `lg` grid wraps after five. */
  lemma GridMatchesCells(d: SgfData)
    ensures var v := RenderSgf(d);
            v.grid.xl == |v.cards| + (if v.right.Some? then 1 else 0)
            && v.grid.lg == (if v.grid.xl < 5 then v.grid.xl else 5)
  {
  }

  /** A title without list entries, or entries without a title, gives no
      right column, and then no extra grid column. */
  lemma RightColumnNeedsBoth(d: SgfData)
    requires !Filled(d.rightSideTitle) || d.rightSideRedcolumnList.None? || |d.rightSideRedcolumnList.value| == 0
    ensures RenderSgf(d).right.None?
    ensures RenderSgf(d).grid.xl == |RenderSgf(d).cards|
  {
  }
}
