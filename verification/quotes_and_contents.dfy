/** The quote-and-content block (`QuotesAndContents`): a highlighted quote
    and a rich-text column, side by side on a three-column grid for one
    variant and stacked on a one-column grid otherwise. */
module QuotesAndContentsBlock {

  import opened Js

  /** `quoteVariant === 'Quote_and_content_right_align'`: the quote takes
      the left column. */
  predicate QuoteLeft(quoteVariant: Option<string>) {
    quoteVariant == Some("Quote_and_content_right_align")
  }

  /** The wide-screen grid: its column count and each section's span. */
  datatype Grid = Grid(columns: nat, quoteSpan: nat, contentSpan: nat)

  function GridOf(quoteVariant: Option<string>): (g: Grid)
    ensures g.quoteSpan == 1
    ensures QuoteLeft(quoteVariant) ==> g.columns == 3
    ensures QuoteLeft(quoteVariant) ==> g.quoteSpan + g.contentSpan == g.columns && g.contentSpan > g.quoteSpan
    ensures !QuoteLeft(quoteVariant) ==> g.quoteSpan == g.columns && g.contentSpan == g.columns
  {
    if QuoteLeft(quoteVariant) then Grid(3, 1, 2) else Grid(1, 1, 1)
  }

  datatype QuotesData = QuotesData(quote: Option<string>, content: Option<string>, quoteVariant: Option<string>)

  /** `quote` is the blockquote's text, the quote between two `"` marks;
      `content` is the HTML handed to the content column. */
  datatype QuotesView = QuotesView(grid: Grid, quote: Option<string>, content: Option<string>)

  /** `"{quote}"`: the quote between literal double quotes. */
  function Quoted(q: string): (t: string)
    ensures |t| == |q| + 2 && t[0] == '"' && t[|t| - 1] == '"'
    ensures t[1..|t| - 1] == q
  {
    "\"" + q + "\""
  }

  /** `QuotesAndContents({ data })`: `None` when both texts are empty. */
  function RenderQuotes(d: QuotesData): (v: Option<QuotesView>)
    ensures v.None? <==> !Filled(d.quote) && !Filled(d.content)
    ensures v.Some? ==> v.value.quote.Some? || v.value.content.Some?
    ensures v.Some? ==> (v.value.quote.Some? <==> Filled(d.quote)) && (v.value.content.Some? <==> Filled(d.content))
    ensures v.Some? && v.value.quote.Some? ==>
              var q := v.value.quote.value;
              |q| == |d.quote.value| + 2 && q[0] == '"' && q[|q| - 1] == '"' && q[1..|q| - 1] == d.quote.value
    ensures v.Some? && v.value.content.Some? ==> v.value.content == d.content
    ensures v.Some? ==> v.value.grid == GridOf(d.quoteVariant)
  {
    if !Filled(d.quote) && !Filled(d.content) then None
    else
      var quote := if Filled(d.quote) then Some(Quoted(d.quote.value)) else None;
      Some(QuotesView(GridOf(d.quoteVariant), quote, Shown(d.content)))
  }

  /** The variant only arranges the block: two blocks with the same quote
      and content render the same texts, or both nothing, whatever their
      variants; and the variant alone decides the grid. */
  lemma VariantArrangesOnly(d: QuotesData, e: QuotesData)
    requires d.quote == e.quote && d.content == e.content
    ensures RenderQuotes(d).Some? <==> RenderQuotes(e).Some?
    ensures RenderQuotes(d).Some? ==>
              RenderQuotes(d).value.quote == RenderQuotes(e).value.quote
              && RenderQuotes(d).value.content == RenderQuotes(e).value.content
    ensures RenderQuotes(d).Some? && d.quoteVariant == e.quoteVariant ==> RenderQuotes(d) == RenderQuotes(e)
  {
  }
}
