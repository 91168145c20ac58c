/** The in-page menu (`StickySubMenu`): the block's own item followed by
    `stickyMenus`, every item rendered as a plain anchor. Once the page
    scrolls past the menu's starting position the menu pins to the top of
    the viewport, and a placeholder of its height takes its place. */
module StickySubMenuBlock {

  import opened Js
  import opened Links

  datatype MenuItem = MenuItem(
    menuLabel: Option<string>,
    menuLink: Option<string>,
    menuTarget: Option<string>,
    isMenuLinkExternal: Option<bool>)

  /** One rendered entry: always an `<a>`, never filtered out, whatever
      its label and link. */
  datatype MenuEntry = MenuEntry(caption: Option<string>, href: Option<string>, newTab: bool, noopener: bool)

  /** The attributes of one entry: new-tab attributes only on an external
      item whose target is `_blank`. */
  function EntryOf(item: MenuItem): (e: MenuEntry)
    ensures e.caption == item.menuLabel && e.href == item.menuLink
    ensures e.newTab <==> Flag(item.isMenuLinkExternal) && Blank(item.menuTarget)
    ensures e.noopener <==> e.newTab
  {
    var l := MakeLink(AttributesOnExternal, OrDefault(item.menuLink, ""), Flag(item.isMenuLinkExternal), item.menuTarget);
    MenuEntry(item.menuLabel, item.menuLink, l.targetBlank, l.relNoopener)
  }

  datatype MenuData = MenuData(main: MenuItem, stickyMenus: Option<seq<MenuItem>>)

  /** `[{ menuLabel, menuLink, … }, ...(stickyMenus || [])]`. */
  function AllMenuItems(d: MenuData): (items: seq<MenuItem>)
    ensures |items| >= 1 && items[0] == d.main
    ensures d.stickyMenus.None? ==> items == [d.main]
    ensures d.stickyMenus.Some? ==> items[1..] == d.stickyMenus.value
  {
    [d.main] + if d.stickyMenus.Some? then d.stickyMenus.value else []
  }

  /** The entries, one per item and in item order. */
  function RenderEntries(d: MenuData): (es: seq<MenuEntry>)
    ensures |es| == |AllMenuItems(d)|
    ensures forall i :: 0 <= i < |es| ==> es[i] == EntryOf(AllMenuItems(d)[i])
  {
    var items := AllMenuItems(d);
    seq(|items|, i requires 0 <= i < |items| => EntryOf(items[i]))
  }

  /** An internal entry never opens a new tab, even with target `_blank`. */
  lemma InternalEntriesStayInTab(item: MenuItem)
    requires !Flag(item.isMenuLinkExternal)
    ensures !EntryOf(item).newTab && !EntryOf(item).noopener
  {
  }

  // ---------------------------------------------------------------------
  // Scroll state.

  /** `isSticky`, and the page offset measured when the menu mounted. */
  datatype MenuState = MenuState(sticky: bool, initialOffset: int)

  /** Mounting: not sticky; the offset is the menu's top edge relative to
      the viewport plus the scroll position at that moment. */
  function Mount(rectTop: int, scrollY: int): (s: MenuState)
    ensures !s.sticky && s.initialOffset == rectTop + scrollY
  {
    MenuState(false, rectTop + scrollY)
  }

  /** `handleScroll`: sticky exactly while scrolled strictly past the offset. */
  function OnScroll(s: MenuState, scrollY: int): (t: MenuState)
    ensures t.initialOffset == s.initialOffset
    ensures t.sticky <==> scrollY > s.initialOffset
  {
    s.(sticky := scrollY > s.initialOffset)
  }

  /** A sequence of scroll events. */
  function Run(s: MenuState, scrolls: seq<int>): MenuState
    decreases |scrolls|
  {
    if |scrolls| == 0 then s else Run(OnScroll(s, scrolls[0]), scrolls[1..])
  }

  /** After any scrolls the offset is unchanged, and the menu is sticky
      exactly when the LAST scroll position is past it: the state has no
      memory of earlier positions. */
  lemma {:induction false} RunDependsOnLastScroll(s: MenuState, scrolls: seq<int>)
    ensures Run(s, scrolls).initialOffset == s.initialOffset
    ensures |scrolls| == 0 ==> Run(s, scrolls) == s
    ensures |scrolls| > 0 ==> (Run(s, scrolls).sticky <==> scrolls[|scrolls| - 1] > s.initialOffset)
    decreases |scrolls|
  {
    if |scrolls| > 0 {
      var rest := scrolls[1..];
      RunDependsOnLastScroll(OnScroll(s, scrolls[0]), rest);
      if |rest| > 0 {
        assert rest[|rest| - 1] == scrolls[|scrolls| - 1];
      }
    }
  }

  /** Scrolling further down never unpins the menu. */
  lemma StickyMonotone(s: MenuState, y1: int, y2: int)
    requires y1 <= y2 && OnScroll(s, y1).sticky
    ensures OnScroll(s, y2).sticky
  {
  }

  /** The placeholder: present only while sticky, as tall as the menu. */
  function Placeholder(s: MenuState, menuHeight: nat): (h: Option<nat>)
    ensures h.Some? <==> s.sticky
    ensures h.Some? ==> h.value == menuHeight
  {
    if s.sticky then Some(menuHeight) else None
  }

  /** Whether pinned or not, the menu and its placeholder together take the
      menu's height in the page flow, so the content below never jumps. */
  lemma FlowHeightConstant(s: MenuState, menuHeight: nat)
    ensures (if s.sticky then 0 else menuHeight)
            + (if Placeholder(s, menuHeight).Some? then Placeholder(s, menuHeight).value else 0)
            == menuHeight
  {
  }
}
