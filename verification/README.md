# A verified model of the FutureBridge marketing site's content core

The site is a Next.js front end that serves marketing pages from JSON
documents exported by a headless CMS. Each page is an ordered list of typed
*blocks*. This project models, in Dafny, the part of the site that decides
what a page shows:

- **The content resolver** (`src/lib/strapi.ts`):
  - reads a document from the read-only file store;
  - picks the record for a slug (generic pages, industry pages, articles,
    case studies, research reports, webinars);
  - builds a post's URL from its content type;
  - lists a directory as preview summaries.
- **The block dispatcher** (`BlockRenderer`): selects one of 21 block
  components by `__typename`. An unknown type becomes the visible
  "Missing Component" placeholder. Also the two page routes that feed it
  (`/about` and `/[industrySlug]`).
- **The render decision of each block**:
  - whether it renders at all;
  - which fields it shows;
  - which defaults apply;
  - what alt text an image gets;
  - which link attributes (`target`, `rel`, link kind) a call to action
    carries.
- **The business-objectives block** (`BoBlock`): groups questions and
  solutions into Short, Medium and Long Term and Other, and keeps its tab
  state.
- **The header's two hover dropdowns** and **the sticky in-page menu's
  scroll state**.

JavaScript values are modelled by a `Json` datatype and `Option` fields.
Truthiness is stated explicitly: an absent value or an empty string is
falsy. Where it matters, the model also keeps `undefined`, which triggers
a destructuring default, apart from `null`, which does not. A rendered block is a
view record holding the decisions the markup depends on. CSS classes and
the markup itself are not modelled.

Modules:

- `Js`, `Strings`, `Selection`, `Links` and `Media` hold concepts shared
  across files: JavaScript values, string operations, order-preserving
  filtering, link attribute policies, and image alt fallbacks.
- `ContentStore` and `ContentTypeUrl` model `strapi.ts`.
- `BlockRenderer` models the dispatcher and the two routes.
- One module per block component, plus `PostCard` for the teaser card that
  three blocks define identically.
- `Header` models the site header.

Two behaviours of the code are easy to misread, and the model follows the
code in both:

- **New-tab links.** Only `Button` adds `rel="noopener noreferrer"` to an
  internal link that opens in a new tab. Every other block gives an
  internal `_blank` link a `target` and no `rel`. The sticky menu gives
  internal items neither.
- **Null blocks.** The dispatcher guards against a `null` block, but the
  page's list key `${block.__typename}` is computed first and throws on
  it. A `null` block therefore makes the page fail to render (`Fails`)
  instead of being skipped.

## Model

| member | source | states |
|---|---|---|
| ContentStore.Entries | src/lib/strapi.ts:47-57 | a document yields records exactly when it was read and parsed and `data.<key>` is a non-empty array; the records are that array |
| ContentStore.FirstMatch | src/lib/strapi.ts:58-60 | no index exactly when no record's slug equals the requested slug; otherwise the index of a matching record with no match before it |
| ContentStore.FindAsWritten | src/lib/strapi.ts:58-60 | the scan as written: a found index always carries the slug; reading `slug` off a `null` record throws |
| ContentStore.FirstMatchUnlessNullFirst | src/lib/strapi.ts:58-60 | the scan throws exactly when a `null` record comes before every matching record; when it does not throw it finds a record exactly when `FirstMatch` does, and the same one |
| ContentStore.PageFromDocument | src/lib/strapi.ts:40-69 | a page is returned exactly when the document has records and one of them carries the slug; the result carries the slug and is the first such record |
| ContentStore.IndustryPageFromDocument | src/lib/strapi.ts:74-113 | no page only when the document has no records; a result that does not carry the slug is the first record (the fallback) |
| ContentStore.IndustryFallsBackToFirst | src/lib/strapi.ts:97-110 | the industry lookup agrees with the generic page lookup whenever some record matches, and otherwise returns the first record instead of nothing |
| ContentStore.FirstRecordFromDocument | src/lib/strapi.ts:118-140 | nothing exactly when the file is missing, unparseable or lacks a non-empty array under the key; otherwise element 0 of that array |
| ContentStore.Resolve | src/lib/strapi.ts:40-221 | a result comes only from the category's own file, which must be well formed; a generic page always carries the requested slug; for the other categories the outcome depends only on whether the file has records, and articles, case studies, reports and webinars return record 0 whatever its slug |
| ContentStore.ResolutionExamples | src/lib/strapi.ts:97-139 | an industry file holding pages with slugs `a` and `b` answers a request for `nonexistent` with page `a`; an article file whose only record has slug `other` answers a request for `x` with that record, although the slugs differ |
| ContentStore.BaseName | src/lib/strapi.ts:297 | the base name, with `.json` appended again, gives back the file name, and it is never empty |
| ContentStore.Summarize | src/lib/strapi.ts:295-304 | a summary always has a truthy slug and title; each of slug, title, featured image and post type is the record's own value when that is truthy; otherwise slug falls back to the file's base name, title to `Untitled`, featured image to `null`, post type to the lower-cased directory with its first space made a hyphen; excerpts are `excerpts` when truthy, else `excrept` when truthy, else `null` |
| ContentStore.SummaryOf | src/lib/strapi.ts:287-304 | a directory entry contributes a summary exactly when its name ends in `.json` and its document has records under the data key, and that summary is the projection of the first record |
| ContentStore.GetAllContentData | src/lib/strapi.ts:271-317 | a missing directory gives an empty list; otherwise the summaries of exactly the contributing entries, in listing order: the i-th summary comes from the i-th contributing file |
| ContentTypeUrl.Normalize | src/lib/strapi.ts:248 | each character is lower-cased and each `_` becomes `-`, position by position; so no upper-case letter and no underscore is left |
| ContentTypeUrl.GetContentTypeUrl | src/lib/strapi.ts:226-262 | `#` when the content type or slug is missing, and `#` exactly when neither the normalised type plus `s` nor the normalised type is a key of the table; otherwise the plural key's base path when the table has it, else the singular key's, followed by `/` and the slug |
| ContentTypeUrl.CaseAndSeparatorInsensitive | src/lib/strapi.ts:248-252 | two content types of the same length whose characters agree at each position up to ASCII letter case, or are both `_` or `-` there, produce the same URL |
| ContentTypeUrl.NormalizeIdempotent | src/lib/strapi.ts:248 | normalising an already normalised name changes nothing |
| ContentTypeUrl.UnderscoreKeysUnreachable | src/lib/strapi.ts:234-251 | the key looked up is never `case_study`, `research_report` or `white_paper`: those table entries are dead |
| ContentTypeUrl.CaseStudySingularUnlinked | src/lib/strapi.ts:236-258 | the singular `case_study` and `case-study` produce no link (`#`), unlike `research_report` |
| ContentTypeUrl.PluralPreferred | src/lib/strapi.ts:238-252 | the singular `research_report` reaches `/research-reports/<slug>` through its plural form |
| ContentTypeUrl.PluralKeptWhenNoDoublePlural | src/lib/strapi.ts:238-252 | the already plural `Research-Reports` reaches the same URL |
| ContentTypeUrl.GetContentTypeUrlAsWritten | src/lib/strapi.ts:226-262 | the builder as written, with the object literal's inherited properties visible to the lookup; `#` for a missing type or slug |
| ContentTypeUrl.ConstructorLeaksIntoUrl | src/lib/strapi.ts:234-261 | for content type `Constructor` the as-written builder returns the text of the `Object` constructor, `/` and the slug, while the corrected builder returns `#` |
| ContentTypeUrl.OnlyConstructorIsReachable | src/lib/strapi.ts:248-252 | no plural key and no inherited name other than `constructor` can be reached by a normalised content type |
| ContentTypeUrl.InheritedNamesUnclean | src/lib/strapi.ts:248 | every other inherited property name has an upper-case letter or an underscore, so normalisation never produces it |
| ContentTypeUrl.NoUpperNoUnderscore | src/lib/strapi.ts:248-252 | a name without upper case and underscores is an inherited name only if it is `constructor` |
| ContentTypeUrl.AgreesOffConstructor | src/lib/strapi.ts:249-261 | away from `constructor` the as-written and the corrected builders give the same URL |
| Strings.ToLower | src/lib/strapi.ts:248 | same length, each character lower-cased, no upper-case letter left |
| Strings.ReplaceAll | src/lib/strapi.ts:248 | same length; every occurrence of the pattern becomes the replacement and every other character is kept |
| Strings.ReplaceFirst | src/lib/strapi.ts:303 | same length; unchanged without the pattern; otherwise exactly the first occurrence replaced |
| Strings.ContainsPrefixOf | src/components/blocks/BoBlock.tsx:70-81 | a string that contains a pattern contains every prefix of it |
| Strings.NatToDecimal | src/components/blocks/ClientLogos.tsx:66 | non-empty, only digits, no leading zero |
| Strings.DecimalRoundTrip | src/components/blocks/ClientLogos.tsx:66 | the printed digits read back as the number |
| Strings.IntToDecimal | src/components/blocks/ImagePopup.tsx:32 | non-empty, starting with `-` exactly for negative numbers |
| Strings.IntDecimalRoundTrip | src/components/blocks/ImagePopup.tsx:32 | the digits after the optional sign read back as the magnitude |
| Selection.Choose | src/components/blocks/SolutionsContentSlider.tsx:43-46 | no longer than the input; all present gives all, none present gives none |
| Selection.ChooseKept | src/components/blocks/SolutionsContentSlider.tsx:43-46 | the chosen values are exactly the present values, at strictly increasing kept positions, and every present position is kept |
| Selection.ChooseFirst | src/components/blocks/IndustryParticipants.tsx:112-135 | a present first position is chosen first |
| Selection.ChooseSnoc | src/components/blocks/PostContent4ColumnLayout.tsx:95-98 | one more position adds its value, if present, after the values chosen so far |
| Links.MakeLink | src/components/blocks/BannerContent.tsx:98-122 | the href is kept; an external link is a plain anchor with `target` and `rel` exactly for `_blank`; an internal one gets `target` for `_blank` except in the sticky menu, and `rel` only under Button's policy |
| Links.RelOnlyWithNewTab | src/components/blocks/StickySubMenu.tsx:87-109 | under every policy `rel` appears only with `target="_blank"`, and that only for target `_blank` |
| Links.InternalNewTabWithoutRel | src/components/blocks/BannerContent.tsx:113-121 | an internal `_blank` link gets a new tab without `rel` under the common policy, and with `rel` under Button's |
| Links.CtaOf | src/components/blocks/PromotionalBannerCta.tsx:104-124 | a call to action exists exactly when name and link are both non-empty; it shows the name and links to the link with the policy's attributes |
| Media.PictureOf | src/components/blocks/ImageAndText.tsx:55-66 | an image appears exactly when it has a URL; its alt text is the image's own, else the block's fallback field, else the fixed text, and never empty |
| BlockRenderer.KindOf | src/components/blocks/BlockRenderer.tsx:40-82 | a recognised typename names the component whose typename it is |
| BlockRenderer.KindOfTypename | src/components/blocks/BlockRenderer.tsx:40-82 | every component's typename selects that component: no two share a typename and no case shadows another |
| BlockRenderer.Render | src/components/blocks/BlockRenderer.tsx:33-104 | nothing for a falsy block or typename; a component receives the whole block and matches its typename; the placeholder carries the block's JSON and a typename no component has |
| BlockRenderer.RenderSelectsNamedComponent | src/components/blocks/BlockRenderer.tsx:40-82 | a block carrying a component's typename is dispatched to that component |
| BlockRenderer.RenderBody | src/app/about/page.tsx:26-33 | blocks are rendered exactly when `blocks` is a non-empty array without `null`, one output per block in order; the no-content message appears for a missing, empty or non-list value; a non-empty string or a `null` block makes the page fail |
| BlockRenderer.AboutRoute | src/app/about/page.tsx:7-13 | the not-found message exactly when no `about` record is found; otherwise the body of the record, which carries slug `about` |
| BlockRenderer.IndustryRoute | src/lib/strapi.ts:74-115 | the industry route (lines 32-61 of `src/app/[industrySlug]/page.tsx`) over the record this function picks: not found exactly when the industry file has no records or its chosen record is falsy; otherwise the page fails exactly when the debugging log throws or the body fails, and when the log does not throw the body is that record's body |
| ButtonBlock.VariantOf | src/components/blocks/Button.tsx:28-37 | the secondary style exactly for variant `Secondary`; every other or missing variant is primary |
| ButtonBlock.RenderButton | src/components/blocks/Button.tsx:16-70 | the button exists exactly when name and link are non-empty; it links to the link, is a plain anchor exactly when external, and has `target` and `rel` exactly for target `_blank`, internal or not |
| ButtonBlock.ButtonNewTabAlwaysProtected | src/components/blocks/Button.tsx:59-66 | a Button opening a new tab always carries `rel`; the same data under the other blocks' policy would leave an internal link without it |
| ButtonBlock.UnknownVariantIsPrimary | src/components/blocks/Button.tsx:34-37 | a missing or unknown variant falls back to the primary style |
| PromotionalBannerCtaBlock.SizeOf | src/components/blocks/PromotionalBannerCta.tsx:44-67 | thin exactly for `Thin`, large exactly for `Large`, medium otherwise |
| PromotionalBannerCtaBlock.RenderPromo | src/components/blocks/PromotionalBannerCta.tsx:28-130 | the banner always renders: a photo background exactly when the image has a URL (else the gradient), its alt text the image's own, else `Promotional banner background`; each heading exactly when non-empty, with its text; the call to action exactly when name and link are non-empty, showing the name, linking to the link, a plain anchor exactly when external, `rel` only on external new-tab links |
| PromotionalBannerCtaBlock.EmptyPromoIsBareGradient | src/components/blocks/PromotionalBannerCta.tsx:62-130 | empty data still renders a medium gradient banner with nothing on it |
| PromotionalBannerCtaBlock.CtaIndependentOfDecoration | src/components/blocks/PromotionalBannerCta.tsx:104-124 | the call to action depends only on its own four fields |
| BannerContentBlock.MinHeightOf | src/components/blocks/BannerContent.tsx:35-48 | 200, 400 or 640 pixels for `small`, `medium` (or absent) and `large`; no height class for `null` or any other word |
| BannerContentBlock.JustifyOf | src/components/blocks/BannerContent.tsx:34-55 | start, centre or end for `left`, `center` (or absent) and `right`; no class otherwise |
| BannerContentBlock.RenderBanner | src/components/blocks/BannerContent.tsx:30-126 | the banner always renders, with the size and position classes; a background exactly when the image has a URL, with its URL and alt text the image's own, else `Banner background`; each heading exactly when non-empty, with its text; the call to action exactly when name and link are non-empty, showing the name, linking to the link, a plain anchor exactly when external, `rel` only on external new-tab links |
| BannerContentBlock.DefaultsOnlyForAbsent | src/components/blocks/BannerContent.tsx:34-55 | an absent size or position behaves like the default word, an explicit `null` does not, and the tiers grow with the size |
| BannerContentBlock.SizeWordsAreCaseSensitive | src/components/blocks/BannerContent.tsx:44-48 | `Large` is not `large`: it gives no height class |
| ImageAndTextBlock.OrientationOf | src/components/blocks/ImageAndText.tsx:32 | the image is on the left exactly for `Image_left_Text_right` |
| ImageAndTextBlock.OrdersOf | src/components/blocks/ImageAndText.tsx:49-58 | the text and image take positions 1 and 2; the image comes first exactly on a narrow screen or when it is on the left |
| ImageAndTextBlock.RenderImageAndText | src/components/blocks/ImageAndText.tsx:23-75 | the block always renders; heading and description exactly when non-empty, with their text; the image exactly when it has a URL, showing that URL, with alt text from the image, else the heading, else `Content image` |
| ImageAndTextBlock.OrientationOnlyOnWideScreens | src/components/blocks/ImageAndText.tsx:49-58 | on a narrow screen both orientations lay out the same; on a wide screen they are mirror images |
| ImageAndTextClickableBlock.RenderClickable | src/components/blocks/ImageAndTextClickable.tsx:39-131 | nothing exactly when the URL is empty; otherwise one link to the URL around the content, a plain anchor exactly when external, `rel` only on external new-tab links, its accessible label the button label, else the heading; inside, the layout follows the theme, heading and description appear exactly when non-empty, with their own texts, and the image exactly when it has a URL, with alt text from the image, else the heading, else `Content image` |
| ImageAndTextClickableBlock.LinkAndContentIndependent | src/components/blocks/ImageAndTextClickable.tsx:45-110 | the link depends only on URL, target and external flag, and the content only on image, heading, description and theme: changing one group leaves the other part unchanged |
| ImageAndTextClickableBlock.AriaLabelNeverEmpty | src/components/blocks/ImageAndTextClickable.tsx:110 | the card has no accessible label exactly when both button label and heading are empty; a label that is present is never empty |
| QuotesAndContentsBlock.GridOf | src/components/blocks/QuotesAndContents.tsx:28-39 | the quote always spans one column; side by side the grid has three columns, shared by the quote and the wider content; otherwise one column |
| QuotesAndContentsBlock.RenderQuotes | src/components/blocks/QuotesAndContents.tsx:24-71 | nothing exactly when both quote and content are empty; each part shown exactly when non-empty, the content with its own text and the quote with its text between two `"` marks; the grid follows the variant |
| QuotesAndContentsBlock.VariantArrangesOnly | src/components/blocks/QuotesAndContents.tsx:24-71 | the variant never changes which texts are shown or whether the block renders; with the same variant the whole block is the same |
| ImagePopupBlock.RatioOf | src/components/blocks/ImagePopup.tsx:30-33 | the image's own width and height when both are non-zero, and 16 by 9 otherwise |
| ImagePopupBlock.RenderPopup | src/components/blocks/ImagePopup.tsx:21-58 | the popup renders exactly when not disabled by an explicit `false` and the image has a URL; it shows that URL, with alt text the image's own, else the title, else `Popup image`; the caption appears exactly for a non-empty title, with its text; the aspect text is built from the ratio |
| ImagePopupBlock.EnabledUnlessExplicitlyFalse | src/components/blocks/ImagePopup.tsx:25 | a missing or `null` flag does not disable the popup |
| ImagePopupBlock.AspectTextReadsBack | src/components/blocks/ImagePopup.tsx:32 | the ratio text is `<width> / <height>`: the width's digits run up to the first space and denote the width, and after ` / ` the remaining digits denote the height |
| ClientLogosBlock.FirstImage | src/components/blocks/ClientLogos.tsx:51 | the first image of the item's list, and nothing for a missing or empty list |
| ClientLogosBlock.LogoCandidates | src/components/blocks/ClientLogos.tsx:49-74 | one candidate per slider item |
| ClientLogosBlock.RenderLogos | src/components/blocks/ClientLogos.tsx:25-78 | nothing exactly when the slider is missing or empty; each heading exactly when non-empty, with its text; at most one logo per item |
| ClientLogosBlock.LogosFollowItems | src/components/blocks/ClientLogos.tsx:49-66 | in a rendered logo row, an item has a logo exactly when its first image has a URL, and the k-th logo comes from the k-th item whose first image has a URL, and its alt text numbers that item's own position |
| ClientLogosBlock.SkippedItemLeavesGap | src/components/blocks/ClientLogos.tsx:53-66 | after an item without an image, the next logo's default alt text still says `Client logo 2` |
| SolutionsContentSliderBlock.ValidSlides | src/components/blocks/SolutionsContentSlider.tsx:43-46 | nothing for a missing list; otherwise the k-th slide is the first image of the k-th item that has one, every item with a first image contributes it, in item order |
| SolutionsContentSliderBlock.RenderSlider | src/components/blocks/SolutionsContentSlider.tsx:37-115 | nothing exactly when there are no slides, no heading and no content; heading and content exactly when non-empty, with their own texts; one slide per valid image in order, with that image's URL, and alt text the image's own, else numbered by slide position |
| SolutionsContentSliderBlock.SlidesFollowItems | src/components/blocks/SolutionsContentSlider.tsx:43-92 | the k-th slide shows the first image of the k-th item that has one, whatever its URL, described by its own alt text or else numbered k + 1 |
| SolutionsContentSliderBlock.SlidesDifferFromLogos | src/components/blocks/SolutionsContentSlider.tsx:43-46 | the slider keeps an image without a URL that the logo block drops, and numbers slides by slide position instead of item position |
| IndustryParticipantsBlock.CardOf | src/components/blocks/IndustryParticipants.tsx:45-107 | a card exactly when name and link are non-empty; it links to the link, plain anchor exactly when external, `rel` only on external new-tab links, image exactly when it has a URL, showing that URL, with alt text the image's own, else the name |
| IndustryParticipantsBlock.CardAltNeverLiteral | src/components/blocks/IndustryParticipants.tsx:67 | the alt text is never empty, and is `Industry background` only when the image's own alt or the name says so, because a card needs a name |
| IndustryParticipantsBlock.Slots | src/components/blocks/IndustryParticipants.tsx:112-135 | the block's own fields fill the first slot, then one slot per item in order |
| IndustryParticipantsBlock.RenderIndustry | src/components/blocks/IndustryParticipants.tsx:109-138 | the cards are the complete slots' cards in slot order: the k-th card is the card of the k-th complete slot and every complete slot contributes one, so an incomplete card leaves its siblings as they are; a complete main card comes first; headings exactly when non-empty |
| IndustryParticipantsBlock.CompleteDataRendersEveryCard | src/components/blocks/IndustryParticipants.tsx:112-135 | when every slot is complete, every slot renders its card in order |
| PostCard.BadgeText | src/components/blocks/ClientStories.tsx:56 | same length; unchanged when there is no hyphen |
| PostCard.RenderPostCard | src/components/blocks/ClientStories.tsx:24-71 | a card exactly for a post with slug, title and content type; it links to `#` exactly for a content type the table does not know, else to the plural key's base path when the table has it, else the singular key's, plus `/` and the slug; it shows the image and the badge together, the image only when it has a URL, showing that URL, and alt text from the image, else the title |
| PostCard.CardLinksAsProgramOffConstructor | src/components/blocks/ClientStories.tsx:31 | for every content type that does not normalise to `constructor` the card links where the as-written URL builder sends it |
| PostCard.ConstructorCardDiffers | src/components/blocks/ClientStories.tsx:31 | for a content type that normalises to `constructor` the as-written builder links to the `Object` constructor's text plus the slug, while the card here links to `#` |
| PostCard.BadgeReplacesFirstHyphenOnly | src/components/blocks/ClientStories.tsx:56 | only the first hyphen of the content type becomes a space |
| ClientStoriesBlock.RenderStories | src/components/blocks/ClientStories.tsx:94-169 | nothing exactly when the story list is missing or empty; each heading exactly when non-empty, with its text; at most one card per story; the view-more link exactly when its name and link are non-empty, showing the name, linking to the link, a plain anchor exactly when external, opening a new tab exactly for target `_blank`, `rel` only on external new-tab links |
| ClientStoriesBlock.CardsFollowStories | src/components/blocks/ClientStories.tsx:120-123 | in a rendered section, a story has a card exactly when its post is complete, and the k-th card is the card of the k-th complete story |
| PostContentLayouts.GridCards | src/components/blocks/PostContent4ColumnLayout.tsx:95-98 | at most one card per slot; all complete fills every cell, none complete leaves the grid empty |
| PostContentLayouts.GridCardsFollowSlots | src/components/blocks/PostContent4ColumnLayout.tsx:95-98 | the k-th card is the card of the k-th complete slot, and every complete slot contributes one, in slot order |
| PostContentLayouts.GridCardsSnoc | src/components/blocks/PostContent4ColumnLayout.tsx:95-98 | a further slot adds its card, when complete, after the others |
| PostContentLayouts.RenderTwoColumn | src/components/blocks/PostContent2ColumnLayout.tsx:86-101 | the first post's card when complete, then the second's when complete: at most two cards, two when both are complete, none when neither is |
| PostContentLayouts.RenderFourColumn | src/components/blocks/PostContent4ColumnLayout.tsx:86-102 | the cards of the complete posts among the four, in slot order: at most four, four when all are complete |
| PostContentLayouts.TwoColumnIgnoresVariant | src/components/blocks/PostContent2ColumnLayout.tsx:89 | the variant field never changes the output |
| PostContentLayouts.EmptySlotCollapses | src/components/blocks/PostContent2ColumnLayout.tsx:92-100 | an incomplete first post moves the second card into the first cell |
| SgfBlock.ListShown | src/components/blocks/SgfBlock.tsx:63-69 | the list appears exactly when present and non-empty |
| SgfBlock.ColumnCardOf | src/components/blocks/SgfBlock.tsx:42-105 | every column renders; it is a link to its URL with a "Learn More" hint exactly when the URL is non-empty, plain anchor exactly when external, `rel` only on external new-tab links; the image exactly when it has a URL, with alt text the image's own, else the name, else `SGF Image`; the name exactly when non-empty; the bullet list is the column's list when non-empty, else empty |
| SgfBlock.GridColsOf | src/components/blocks/SgfBlock.tsx:124-127 | the wide grid has one column per cell; the large grid equals it up to five cells and has exactly five above that |
| SgfBlock.RenderSgf | src/components/blocks/SgfBlock.tsx:107-170 | each heading exactly when non-empty, with its text; one card per column in order; the right column exactly when its list is non-empty and its title is non-empty |
| SgfBlock.GridMatchesCells | src/components/blocks/SgfBlock.tsx:117-127 | the wide grid's column count equals the number of cards plus the right column |
| SgfBlock.RightColumnNeedsBoth | src/components/blocks/SgfBlock.tsx:118-122 | a title without entries, or entries without a title, gives no right column and no extra grid column |
| StickySubMenuBlock.EntryOf | src/components/blocks/StickySubMenu.tsx:87-109 | each item shows its label and link; it opens a new tab, with `rel`, exactly when it is external with target `_blank` |
| StickySubMenuBlock.AllMenuItems | src/components/blocks/StickySubMenu.tsx:36-39 | the block's own item first, then the sticky menus in order; a missing list adds nothing |
| StickySubMenuBlock.RenderEntries | src/components/blocks/StickySubMenu.tsx:85-111 | one entry per item, in order, none filtered out |
| StickySubMenuBlock.InternalEntriesStayInTab | src/components/blocks/StickySubMenu.tsx:100-109 | an internal item never opens a new tab, even with target `_blank` |
| StickySubMenuBlock.Mount | src/components/blocks/StickySubMenu.tsx:31-47 | the menu starts unpinned, remembering its page offset: its viewport top plus the scroll position |
| StickySubMenuBlock.OnScroll | src/components/blocks/StickySubMenu.tsx:49-53 | the offset is kept; the menu is pinned exactly when scrolled strictly past it |
| StickySubMenuBlock.RunDependsOnLastScroll | src/components/blocks/StickySubMenu.tsx:49-53 | after any scrolls the offset is unchanged and pinning depends only on the last scroll position |
| StickySubMenuBlock.StickyMonotone | src/components/blocks/StickySubMenu.tsx:52 | scrolling further down never unpins the menu |
| StickySubMenuBlock.Placeholder | src/components/blocks/StickySubMenu.tsx:69-74 | a placeholder exactly while pinned, as tall as the menu |
| StickySubMenuBlock.FlowHeightConstant | src/components/blocks/StickySubMenu.tsx:68-82 | the placeholder's height is exactly the height the menu gives up in the page flow when it is pinned (a fixed menu counted as taking none) |
| BoBlock.Classify | src/components/blocks/BoBlock.tsx:68-84 | each bucket is chosen only when one of its patterns occurs; `Other` only when none of `Short`, `Medium_Term`, `Mid`, `Long` occurs |
| BoBlock.ClassifyByStems | src/components/blocks/BoBlock.tsx:70-81 | the `Short_Term` and `Long_Term` tests are redundant: four stems decide the bucket, tested in order |
| BoBlock.ClassifyExamples | src/components/blocks/BoBlock.tsx:70-84 | `Short_Mid` goes to Short Term (the first test wins) and a bare `Medium` goes to Other |
| BoBlock.Push | src/components/blocks/BoBlock.tsx:67-85 | one step appends the item's value to exactly its own group and leaves the other groups unchanged |
| BoBlock.GroupAllIsFilter | src/components/blocks/BoBlock.tsx:56-87 | each group built by the loop is exactly the values, in item order, of the items classified into it |
| BoBlock.SelectPartition | src/components/blocks/BoBlock.tsx:67-85 | every entry lands in exactly one of the four bucket selections: together they hold the same multiset of entries, none lost and none duplicated |
| BoBlock.GroupsPartitionItems | src/components/blocks/BoBlock.tsx:56-87 | no item is dropped or duplicated: the groups' sizes add up to the item count and their union is the items' values |
| BoBlock.Sections | src/components/blocks/BoBlock.tsx:135-149 | only non-empty groups are shown, each under its own term with its own items, in the fixed order Short, Medium, Long, Other |
| BoBlock.ShownIffNonEmpty | src/components/blocks/BoBlock.tsx:135-149 | a group is shown exactly when it has items |
| BoBlock.RenderBo | src/components/blocks/BoBlock.tsx:40-178 | nothing exactly without business functions; one tab button per function, carrying that function's title, active exactly at the selected index; the content panel exactly when the index is in range, holding the grouped questions and solutions of the selected tab |
| BoBlock.SelectedAfter | src/components/blocks/BoBlock.tsx:42 | the first tab before any click, and afterwards the last clicked tab |
| BoBlock.SelectionStaysInRange | src/components/blocks/BoBlock.tsx:112-128 | clicking only existing tabs keeps the selection in range: exactly one active tab and a content panel |
| Header.Step | src/components/layout/Header.tsx:64-178 | after any handler at most one dropdown is open; entering one opens it alone; leaving closes it and leaves the other unchanged; a click closes both |
| Header.OpenExactly | src/components/layout/Header.tsx:64-178 | from the initial state, a dropdown is open exactly when it was entered and has not been left, clicked away or displaced by the other dropdown since |
| Header.IndustryMenu | src/components/layout/Header.tsx:153-155 | one link per industry in order, each to `/` plus the industry's slug |
| Header.PerspectiveMenu | src/components/layout/Header.tsx:206-208 | one link per example page in order, to its section path followed by the rest of its path |
| Header.RenderHeader | src/components/layout/Header.tsx:145-208 | each dropdown's entries appear exactly while it is open |
| Header.PerspectivesUseKnownSections | src/components/layout/Header.tsx:35-61 | every perspective link lies under a base path of the content-type URL table |

## Left out

- Reading files, listing directories and logging are side effects. The
  store is a map from path to parsed document (`None` for unparseable
  content). The listing is a parameter (`None` for a missing directory).
  The warnings the code logs are not modelled.
- JSON-to-record decoding for each block is not modelled. The dispatcher
  hands the block's JSON to a component, and each component model takes a
  typed record of its fields. A field of the wrong JSON type is outside the
  model.
- Crashes inside a block's render are not modelled. These include:
  - a `null` element inside `stickyMenus`, `posts`, `clientLogos`,
    `imageSlider`, `sgfColumn` or `businessFunctions`;
  - a `null` `sections` string in a BoBlock item;
  - `industryItems: null`, which a destructuring default does not replace.
- The markup is not modelled: tags, CSS classes, heading levels and the
  HTML that `dangerouslySetInnerHTML` injects. The pure-markup blocks
  `Heading`, `Description`, `OurSolutions`, `DecisiveInsights` and
  `OverviewHeadingAndContent` are dispatched but not modelled further.
- The Swiper carousel's own behaviour (autoplay, navigation) is left out.
  Only the slides it receives are modelled.
- DOM measurement is a parameter: the menu's viewport top, scroll
  position and height. StickySubMenuBlock.Mount: the effect's re-run when
  the stored offset changes is not modelled. It re-measures, which can
  shift the offset once while the menu is pinned.
- StickySubMenuBlock.Placeholder: the height is taken as a natural number.
  The `|| 0` for a missing menu element is not modelled.
- BoBlock.SelectionStaysInRange: assumes the list of business functions
  does not shrink between renders. A shrinking list leaves the stored index
  out of range. The content panel then disappears, which `RenderBo` does
  model.
- Header: the site title, About, Solutions and dropdown links are merged
  into one click event. Navigation itself is not modelled.
- `toLowerCase` is modelled for ASCII only. Unicode case mapping is left
  out.
- Image width and height are integers, not floating point.
- ButtonBlock.VariantOf: an inherited property name such as `constructor`
  or `toString` finds a function on the variant table, so the program uses
  that function's text as the class instead of falling back to Primary.
  The model falls back to Primary for every unknown word.
- ButtonBlock.UnknownVariantIsPrimary: holds for the model only. For an
  inherited property name the program does not fall back to Primary (see
  the line above).
- PromotionalBannerCtaBlock.SizeOf: an inherited property name finds a
  function on the size table, so the program does not fall back to Medium.
  The model falls back to Medium for every unknown word. The button
  variant lookup of the same block behaves like Button's.
- BannerContentBlock.MinHeightOf: an inherited property name gives a
  function's text as the height class, where the model gives no class.
- BannerContentBlock.JustifyOf: an inherited property name gives a
  function's text as the alignment class, where the model gives no class.
- BlockRenderer.RenderBody: an object-valued `blocks` with its own
  positive `length` property would reach `.map` and fail. The model treats
  every object as "no content".
- The other page routes (articles, case studies, reports, webinars,
  solutions) are not part of this model. Their getters are.
- ContentStore.FirstMatch: skips a `null` record, where the program's
  `find` throws a `TypeError` on it. The page and industry getters use this
  skipping search, so a document with a `null` record before every match
  gives a result in the model and an error in the program. FindAsWritten
  models the throwing scan, and FirstMatchUnlessNullFirst proves the two
  agree on every other document.
- PostCard.RenderPostCard: builds the link with the corrected URL builder,
  while the three blocks that define the card call the builder as written.
  The two differ only for a content type that normalises to `constructor`.
  There the program links to the text of the `Object` constructor and the
  model links to `#` (ConstructorCardDiffers). CardLinksAsProgramOffConstructor
  proves they agree everywhere else.

## Findings

| source | as written | input that shows it | evidently intended | confidence | as-written member | corrected member |
|---|---|---|---|---|---|---|
| src/lib/strapi.ts:249-261 | `basePathMap[key]` on an object literal also finds properties inherited from `Object.prototype` | content type `Constructor` (or `constructor`) with slug `x` | only the table's own keys are content types, so the result is `#` | medium, not executed | ContentTypeUrl.GetContentTypeUrlAsWritten | ContentTypeUrl.GetContentTypeUrl |
