/** The two fixed post grids (`PostContent2ColumnLayout` and
    `PostContent4ColumnLayout`): a card per complete post slot, with empty
    slots collapsing so the remaining cards move up. */
module PostContentLayouts {

  import opened Js
  import opened Selection
  import opened PostCard

  datatype TwoColumnData = TwoColumnData(postComponentVariant: Option<string>, post_1: Option<PostData>, post_2: Option<PostData>)

  datatype FourColumnData = FourColumnData(
    post_1: Option<PostData>, post_2: Option<PostData>, post_3: Option<PostData>, post_4: Option<PostData>)

  /** One card slot per post slot: the card, or `None` for `return null`. */
  function SlotCards(slots: seq<Option<PostData>>): (c: seq<Option<CardView>>)
    ensures |c| == |slots|
    ensures forall i :: 0 <= i < |slots| ==> c[i] == RenderPostCard(slots[i])
  {
    seq(|slots|, i requires 0 <= i < |slots| => RenderPostCard(slots[i]))
  }

  /** The cards of a grid's slots, in slot order. */
  function GridCards(slots: seq<Option<PostData>>): (cards: seq<CardView>)
    ensures |cards| <= |slots|
    ensures (forall i :: 0 <= i < |slots| ==> Complete(slots[i])) ==> |cards| == |slots|
    ensures (forall i :: 0 <= i < |slots| ==> !Complete(slots[i])) ==> cards == []
  {
    Choose(SlotCards(slots))
  }

  /** The k-th card is the card of the k-th complete slot: an incomplete
      slot drops out and leaves the other cards as they are. */
  lemma GridCardsFollowSlots(slots: seq<Option<PostData>>)
    ensures var cards, idx := GridCards(slots), KeptIndices(SlotCards(slots));
            |cards| == |idx| && StrictlyIncreasing(idx)
            && (forall i :: 0 <= i < |slots| ==> (Complete(slots[i]) <==> i in idx))
            && forall k :: 0 <= k < |cards| ==> idx[k] < |slots| && RenderPostCard(slots[idx[k]]) == Some(cards[k])
  {
    var c := SlotCards(slots);
    ChooseFollowsKeptIndices(c);
    KeptIndicesExact(c);
  }

  /** The card of a slot as a zero- or one-element list. */
  function CardIfComplete(post: Option<PostData>): (cs: seq<CardView>)
    ensures |cs| <= 1
    ensures |cs| == 1 <==> Complete(post)
    ensures |cs| == 1 ==> Some(cs[0]) == RenderPostCard(post)
  {
    match RenderPostCard(post)
    case None => []
    case Some(card) => [card]
  }

  /** A further slot adds its card, if complete, after the others. */
  lemma GridCardsSnoc(slots: seq<Option<PostData>>, post: Option<PostData>)
    ensures GridCards(slots + [post]) == GridCards(slots) + CardIfComplete(post)
  {
    assert SlotCards(slots + [post]) == SlotCards(slots) + [RenderPostCard(post)];
    ChooseSnoc(SlotCards(slots), RenderPostCard(post));
  }

  lemma {:induction false} OneSlot(p1: Option<PostData>)
    ensures GridCards([p1]) == CardIfComplete(p1)
  {
    var none: seq<Option<PostData>> := [];
    assert GridCards(none) == [] by {
      assert SlotCards(none) == [];
    }
    assert [p1] == none + [p1];
    GridCardsSnoc(none, p1);
  }

  lemma {:induction false} TwoSlots(p1: Option<PostData>, p2: Option<PostData>)
    ensures GridCards([p1, p2]) == CardIfComplete(p1) + CardIfComplete(p2)
  {
    OneSlot(p1);
    assert [p1, p2] == [p1] + [p2];
    GridCardsSnoc([p1], p2);
  }

  lemma {:induction false} ThreeSlots(p1: Option<PostData>, p2: Option<PostData>, p3: Option<PostData>)
    ensures GridCards([p1, p2, p3]) == CardIfComplete(p1) + CardIfComplete(p2) + CardIfComplete(p3)
  {
    TwoSlots(p1, p2);
    assert [p1, p2, p3] == [p1, p2] + [p3];
    GridCardsSnoc([p1, p2], p3);
  }

  lemma {:induction false} FourSlots(p1: Option<PostData>, p2: Option<PostData>, p3: Option<PostData>, p4: Option<PostData>)
    ensures GridCards([p1, p2, p3, p4])
            == CardIfComplete(p1) + CardIfComplete(p2) + CardIfComplete(p3) + CardIfComplete(p4)
  {
    ThreeSlots(p1, p2, p3);
    assert [p1, p2, p3, p4] == [p1, p2, p3] + [p4];
    GridCardsSnoc([p1, p2, p3], p4);
  }

  /** `PostContent2ColumnLayout({ data })`: the section always renders,
      with the first post's card (when complete) before the second's. */
  function RenderTwoColumn(d: TwoColumnData): (cards: seq<CardView>)
    ensures |cards| <= 2
    ensures Complete(d.post_1) && Complete(d.post_2) ==> |cards| == 2
    ensures !Complete(d.post_1) && !Complete(d.post_2) ==> cards == []
    ensures cards == CardIfComplete(d.post_1) + CardIfComplete(d.post_2)
  {
    TwoSlots(d.post_1, d.post_2);
    GridCards([d.post_1, d.post_2])
  }

  /** `PostContent4ColumnLayout({ data })`: the section always renders,
      with the complete posts' cards in slot order. */
  function RenderFourColumn(d: FourColumnData): (cards: seq<CardView>)
    ensures |cards| <= 4
    ensures Complete(d.post_1) && Complete(d.post_2) && Complete(d.post_3) && Complete(d.post_4) ==> |cards| == 4
    ensures cards == CardIfComplete(d.post_1) + CardIfComplete(d.post_2) + CardIfComplete(d.post_3) + CardIfComplete(d.post_4)
  {
    FourSlots(d.post_1, d.post_2, d.post_3, d.post_4);
    GridCards([d.post_1, d.post_2, d.post_3, d.post_4])
  }

  /** The two-column variant field is read but never changes the output. */
  lemma TwoColumnIgnoresVariant(d: TwoColumnData, variant: Option<string>)
    ensures RenderTwoColumn(d.(postComponentVariant := variant)) == RenderTwoColumn(d)
  {
  }

  /** An empty first slot moves the second post into the first cell. */
  lemma EmptySlotCollapses(d: TwoColumnData)
    requires !Complete(d.post_1) && Complete(d.post_2)
    ensures RenderTwoColumn(d) == [RenderPostCard(d.post_2).value]
  {
    var c := seq(2, i requires 0 <= i < 2 => RenderPostCard([d.post_1, d.post_2][i]));
    assert c == [None, RenderPostCard(d.post_2)];
    assert c[..1] == [None];
    assert Choose(c[..1]) == Choose(c[..1][..0]) == [];
  }
}
