/** The client-stories section (`ClientStories`): headings, one post card
    per story whose post is complete, and an optional "view more" link. */
module ClientStoriesBlock {

  import opened Js
  import opened Selection
  import opened Links
  import opened PostCard

  /** One story: a wrapper around an optional post. */
  datatype StoryItem = StoryItem(post: Option<PostData>)

  datatype StoriesData = StoriesData(
    heading: Option<string>,
    subHeading: Option<string>,
    posts: Option<seq<StoryItem>>,
    clientsStoriesButtonName: Option<string>,
    clientsStoriesButtonLink: Option<string>,
    isExternal: Option<bool>,
    clientsStoriesButtonTarget: Option<string>)

  datatype StoriesView = StoriesView(
    heading: Option<string>,
    subHeading: Option<string>,
    cards: seq<CardView>,
    viewMore: Option<Cta>)

  function StoryCards(posts: seq<StoryItem>): seq<Option<CardView>> {
    seq(|posts|, i requires 0 <= i < |posts| => RenderPostCard(posts[i].post))
  }

  /** `ClientStories({ data })`: `None` for a missing or empty story list.
      Incomplete posts leave no card; the section still renders. */
  function RenderStories(d: StoriesData): (v: Option<StoriesView>)
    ensures v.None? <==> d.posts.None? || |d.posts.value| == 0
    ensures v.Some? ==> |v.value.cards| <= |d.posts.value|
    ensures v.Some? ==> (v.value.heading.Some? <==> Filled(d.heading))
    ensures v.Some? && v.value.heading.Some? ==> v.value.heading == d.heading
    ensures v.Some? ==> (v.value.subHeading.Some? <==> Filled(d.subHeading))
    ensures v.Some? && v.value.subHeading.Some? ==> v.value.subHeading == d.subHeading
    ensures v.Some? ==> (v.value.viewMore.Some? <==> Filled(d.clientsStoriesButtonName) && Filled(d.clientsStoriesButtonLink))
    ensures v.Some? && v.value.viewMore.Some? ==>
              v.value.viewMore.value.caption == d.clientsStoriesButtonName.value && v.value.viewMore.value.link.href == d.clientsStoriesButtonLink.value
    ensures v.Some? && v.value.viewMore.Some? ==>
              (v.value.viewMore.value.link.style == Anchor <==> Flag(d.isExternal))
    ensures v.Some? && v.value.viewMore.Some? ==>
              (v.value.viewMore.value.link.targetBlank <==> Blank(d.clientsStoriesButtonTarget))
    ensures v.Some? && v.value.viewMore.Some? ==>
              (v.value.viewMore.value.link.relNoopener <==> Blank(d.clientsStoriesButtonTarget) && Flag(d.isExternal))
  {
    match d.posts
    case None => None
    case Some(posts) =>
      if |posts| == 0 then None
      else
        Some(StoriesView(Shown(d.heading), Shown(d.subHeading), Choose(StoryCards(posts)),
                         CtaOf(RelOnExternal, d.clientsStoriesButtonName, d.clientsStoriesButtonLink, d.isExternal, d.clientsStoriesButtonTarget)))
  }

  /** The rendered cards are exactly the complete stories' cards, in story
      order: card `k` is the card of story `idx[k]`, and a story has a card
      iff its post is complete. */
  lemma CardsFollowStories(d: StoriesData)
    requires RenderStories(d).Some?
    ensures var posts, cards := d.posts.value, RenderStories(d).value.cards;
            var idx := KeptIndices(StoryCards(posts));
            |cards| == |idx|
            && (forall i :: 0 <= i < |posts| ==> (Complete(posts[i].post) <==> i in idx))
            && forall k :: 0 <= k < |cards| ==>
                 idx[k] < |posts| && RenderPostCard(posts[idx[k]].post) == Some(cards[k])
  {
    var c := StoryCards(d.posts.value);
    assert RenderStories(d).value.cards == Choose(c);
    ChooseFollowsKeptIndices(c);
    KeptIndicesExact(c);
  }
}
