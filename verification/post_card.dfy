/** The post teaser card that the client-stories block and both post
    layouts define identically (`PostCard`): a link to the post's page,
    its title, and, when the post has a featured image, the image with a
    content-type badge. */
module PostCard {

  import opened Js
  import opened Strings
  import opened Media
  import opened ContentTypeUrl

  /** A post reference as the content store embeds it in a block. */
  datatype PostData = PostData(
    postTitle: Option<string>,
    postSlug: Option<string>,
    postFeaturedImage: Option<Image>,
    contentType: Option<string>)

  datatype CardView = CardView(href: string, title: string, picture: Option<Picture>, badge: Option<string>)

  /** The card renders only for a post with a slug, a title and a content
      type. */
  predicate Complete(post: Option<PostData>) {
    post.Some? && Filled(post.value.postSlug) && Filled(post.value.postTitle) && Filled(post.value.contentType)
  }

  /** `contentType.replace('-', ' ')`: only the first hyphen becomes a space. */
  function BadgeText(contentType: string): (b: string)
    ensures |b| == |contentType|
    ensures '-' !in contentType ==> b == contentType
  {
    ReplaceFirst(contentType, '-', ' ')
  }

  /** `PostCard({ post })`: `None` is the `return null` for an incomplete
      post. */
  function RenderPostCard(post: Option<PostData>): (c: Option<CardView>)
    ensures c.Some? <==> Complete(post)
    ensures c.Some? ==> c.value.title == post.value.postTitle.value
    ensures c.Some? ==> (c.value.href == "#" <==> !Recognised(post.value.contentType.value))
    ensures c.Some? && Normalize(post.value.contentType.value) + "s" in BasePaths ==>
              c.value.href == BasePaths[Normalize(post.value.contentType.value) + "s"] + "/" + post.value.postSlug.value
    ensures c.Some? && Normalize(post.value.contentType.value) + "s" !in BasePaths
            && Normalize(post.value.contentType.value) in BasePaths ==>
              c.value.href == BasePaths[Normalize(post.value.contentType.value)] + "/" + post.value.postSlug.value
    ensures c.Some? ==> (c.value.picture.Some? <==> HasUrl(post.value.postFeaturedImage))
    ensures c.Some? && c.value.picture.Some? ==> c.value.picture.value.src == post.value.postFeaturedImage.value.url.value
    ensures c.Some? ==> (c.value.badge.Some? <==> c.value.picture.Some?)
    ensures c.Some? && c.value.badge.Some? ==> c.value.badge.value == BadgeText(post.value.contentType.value)
    ensures c.Some? && c.value.picture.Some? ==>
              c.value.picture.value.alt == OrDefault(post.value.postFeaturedImage.value.alternativeText,
                                                     post.value.postTitle.value)
  {
    if !Complete(post) then None
    else
      var p := post.value;
      var picture := PictureOf(p.postFeaturedImage, p.postTitle, "Post image");
      Some(CardView(
        GetContentTypeUrl(p.contentType, p.postSlug),
        p.postTitle.value,
        picture,
        if picture.Some? then Some(BadgeText(p.contentType.value)) else None))
  }

  /** The card links where the program's card links for every content
      type that does not normalise to `constructor`. */
  lemma CardLinksAsProgramOffConstructor(post: Option<PostData>)
    requires Complete(post) && Normalize(post.value.contentType.value) != "constructor"
    ensures RenderPostCard(post).value.href == GetContentTypeUrlAsWritten(post.value.contentType, post.value.postSlug)
  {
    AgreesOffConstructor(post.value.contentType.value, post.value.postSlug);
  }

  /** For a content type that normalises to `constructor` the program's
      lookup finds the inherited `Object` constructor and prints it into
      the href, while the card here falls back to `"#"`. */
  lemma ConstructorCardDiffers(post: Option<PostData>)
    requires Complete(post) && Normalize(post.value.contentType.value) == "constructor"
    ensures RenderPostCard(post).value.href == "#"
    ensures GetContentTypeUrlAsWritten(post.value.contentType, post.value.postSlug)
            == "function Object() { [native code] }/" + post.value.postSlug.value
  {
    ConstructorKeys();
    var n := Normalize(post.value.contentType.value);
    assert !Recognised(post.value.contentType.value);
    assert LookupAsWritten(n + "s").None?;
    assert LookupAsWritten(n) == Some("function Object() { [native code] }");
  }

  /** The badge shows the raw content type, unlike the URL, which is
      normalised: only the first hyphen turns into a space, so
      `white-paper-series` is badged `white paper-series`. */
  lemma BadgeReplacesFirstHyphenOnly(a: string, b: string)
    requires '-' !in a
    ensures BadgeText(a + "-" + b) == a + " " + b
  {
    var s := a + "-" + b;
    assert s[..|a|] == a;
    assert s[|a|] == '-';
    assert s[|a| + 1..] == b;
  }
}
