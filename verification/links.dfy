/** The link-attribute rule every clickable block applies: whether the
    link is a plain anchor or a Next `Link`, and when it carries
    `target="_blank"` and `rel="noopener noreferrer"`. Three variants of
    the rule appear across the blocks. */
module Links {

  import opened Js

  /** A plain `<a>` for external links versus a client-side Next `Link`. */
  datatype Style = Anchor | NextLink

  /** How a block turns a `_blank` target into attributes. */
  datatype Policy =
      /** Button: `_blank` gives target and rel on both kinds of link. */
    | RelOnBoth
      /** Most blocks: internal links get the target but never rel. */
    | RelOnExternal
      /** StickySubMenu: internal items are plain anchors with neither. */
    | AttributesOnExternal

  datatype Link = Link(href: string, style: Style, targetBlank: bool, relNoopener: bool)

  /** `target === '_blank'`. */
  predicate Blank(target: Option<string>) {
    target == Some("_blank")
  }

  /** The attributes a block puts on a link to `href`. */
  function MakeLink(policy: Policy, href: string, external: bool, target: Option<string>): (l: Link)
    ensures l.href == href
    ensures l.style == Anchor <==> external || policy.AttributesOnExternal?
    ensures external ==> (l.targetBlank <==> Blank(target)) && (l.relNoopener <==> Blank(target))
    ensures !external ==> (l.targetBlank <==> Blank(target) && !policy.AttributesOnExternal?)
    ensures !external ==> (l.relNoopener <==> Blank(target) && policy.RelOnBoth?)
  {
    if external then
      Link(href, Anchor, Blank(target), Blank(target))
    else
      match policy
      case RelOnBoth => Link(href, NextLink, Blank(target), Blank(target))
      case RelOnExternal => Link(href, NextLink, Blank(target), false)
      case AttributesOnExternal => Link(href, Anchor, false, false)
  }

  /** Under every policy, `rel="noopener"` only ever accompanies a new tab,
      and a new tab is only ever opened for the `_blank` target. */
  lemma RelOnlyWithNewTab(policy: Policy, href: string, external: bool, target: Option<string>)
    ensures MakeLink(policy, href, external, target).relNoopener ==> MakeLink(policy, href, external, target).targetBlank
    ensures MakeLink(policy, href, external, target).targetBlank ==> Blank(target)
  {
  }

  /** Only the Button policy protects an internal link that opens a new tab:
      under the common policy such a link has `target="_blank"` and no rel. */
  lemma InternalNewTabWithoutRel(href: string)
    ensures var l := MakeLink(RelOnExternal, href, false, Some("_blank"));
            l.targetBlank && !l.relNoopener
    ensures var l := MakeLink(RelOnBoth, href, false, Some("_blank"));
            l.targetBlank && l.relNoopener
  {
  }

  /** A call-to-action: its caption and its link. */
  datatype Cta = Cta(caption: string, link: Link)

  /** `name && href && (external ? <a …> : <Link …>)`: a CTA is rendered
      only when both its label and its destination are non-empty. */
  function CtaOf(policy: Policy, name: Option<string>, href: Option<string>,
                 external: Option<bool>, target: Option<string>): (c: Option<Cta>)
    ensures c.Some? <==> Filled(name) && Filled(href)
    ensures c.Some? ==> c.value.caption == name.value && c.value.link.href == href.value
    ensures c.Some? ==> c.value.link == MakeLink(policy, href.value, Flag(external), target)
  {
    if Filled(name) && Filled(href) then
      Some(Cta(name.value, MakeLink(policy, href.value, Flag(external), target)))
    else
      None
  }
}
