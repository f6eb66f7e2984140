/**
 * The renderer of the IconTabBar's select list (the overflow list and the
 * list of a tab's sub-filters): it writes the items into nested
 * `<ul role="menu">` lists, giving each item its ARIA position in set, its
 * ARIA set size and its left padding.
 *
 * The framework's object-graph queries are fields of the input: an item's
 * real tab, whether its root tab's select list is the list being rendered,
 * its icon colour and the real tab's own items.
 */
module IconTabBarSelectListRenderer {
  import opened Wrappers
  import opened RenderOutput

  /** Identity of a real tab, the value `getVisibleTabFilters().indexOf` compares. */
  type TabId = int

  /** Only the distinction from `IconColor.Default` matters here. */
  datatype IconColor = Default | Named(name: string)

  /** One item of the list, with the answers of the framework queries about it. */
  datatype Item = Item(
    id: ItemId,
    /** `oItem._getRealTab()` */
    realTab: TabId,
    /** `oItem._getRootTab()._getSelectList() === oSelectList` */
    inThisList: bool,
    /** `oItem.getIconColor()` */
    iconColor: IconColor,
    /** `oItem._getRealTab().getItems()` */
    subFilters: seq<Item>)

  /** The semantic-colour flag of `render`: some item has a non-default icon colour. */
  function HasSemanticColor(items: seq<Item>): (b: bool)
    ensures b <==> exists i :: 0 <= i < |items| && items[i].iconColor != Default
  {
    |items| > 0 && (items[0].iconColor != Default || HasSemanticColor(items[1..]))
  }

  /** `Array.prototype.indexOf`: the first position of `tab`, or -1. */
  function IndexOf(filters: seq<TabId>, tab: TabId): (r: int)
    ensures -1 <= r < |filters|
    ensures r == -1 <==> tab !in filters
    ensures 0 <= r ==> filters[r] == tab && forall j :: 0 <= j < r ==> filters[j] != tab
  {
    if |filters| == 0 then -1
    else if filters[0] == tab then 0
    else
      var k := IndexOf(filters[1..], tab);
      if k == -1 then -1 else k + 1
  }

  /** `fPadding * iLevel`: the left padding of an item at nesting level `level`. */
  function PaddingLeft(padding: real, level: int): real
  {
    padding * level as real
  }

  // ---------------------------------------------------------------------------
  // Specification of renderList

  /** The loop variables `iIndexInSet` (None while undefined) and `iSetSize`. */
  datatype Position = Position(indexInSet: Option<int>, setSize: int)

  /**
   * The loop variables after the loop has handled `items[..n]`. `header` holds
   * the header's visible tab filters, or None where the header is null
   * (nested lists).
   */
  function PositionAfter(items: seq<Item>, n: nat, header: Option<seq<TabId>>, setSize: int): Position
    requires n <= |items|
  {
    if n == 0 then Position(None, setSize)
    else
      var before := PositionAfter(items, n - 1, header, setSize);
      var item := items[n - 1];
      var looked := if header.Some? then Some(IndexOf(header.value, item.realTab)) else before.indexInSet;
      if item.inThisList then Position(Some(n - 1), |items|) else Position(looked, before.setSize)
  }

  /** What `renderList` writes for `items` (nothing at all for an empty list). */
  function ListEvents(items: seq<Item>, header: Option<seq<TabId>>, textOnly: bool,
                      level: int, padding: real, setSize: int): seq<Event>
    decreases items, 3
  {
    if |items| == 0 then []
    else [OpenUl(textOnly)] + LoopEvents(items, |items|, header, textOnly, level, padding, setSize) + [CloseUl]
  }

  /**
   * What the loop of `renderList` writes for `items[..n]`: per item, its own
   * entry, then the nested list of its sub-filters.
   */
  function LoopEvents(items: seq<Item>, n: nat, header: Option<seq<TabId>>, textOnly: bool,
                      level: int, padding: real, setSize: int): seq<Event>
    requires n <= |items|
    decreases items, 2, n
  {
    if n == 0 then []
    else
      var pos := PositionAfter(items, n, header, setSize);
      LoopEvents(items, n - 1, header, textOnly, level, padding, setSize)
      + [ListItem(items[n - 1].id, pos.indexInSet, pos.setSize, PaddingLeft(padding, level))]
      + NestedListEvents(items, n - 1, textOnly, level + 1, padding)
  }

  /** One more iteration of the loop appends the entry of `items[i]` and its nested list. */
  lemma LoopEventsStep(prefix: seq<Event>, items: seq<Item>, i: nat, header: Option<seq<TabId>>,
                       textOnly: bool, level: int, padding: real, setSize: int)
    requires i < |items|
    ensures var pos := PositionAfter(items, i + 1, header, setSize);
            prefix + LoopEvents(items, i, header, textOnly, level, padding, setSize)
               + [ListItem(items[i].id, pos.indexInSet, pos.setSize, PaddingLeft(padding, level))]
               + NestedListEvents(items, i, textOnly, level + 1, padding)
            == prefix + LoopEvents(items, i + 1, header, textOnly, level, padding, setSize)
  {
  }

  /**
   * The `li`-wrapped list of the sub-filters of `items[i]`, at `nestedLevel`,
   * or nothing if it has none.
   */
  function NestedListEvents(items: seq<Item>, i: nat, textOnly: bool, nestedLevel: int, padding: real): seq<Event>
    requires i < |items|
    decreases items, 0
  {
    var subFilters := items[i].subFilters;
    assert items[i] in items;
    if |subFilters| == 0 then []
    else [OpenLi] + ListEvents(subFilters, None, textOnly, nestedLevel, padding, |subFilters|) + [CloseLi]
  }

  /**
   * What `render` writes: the top-level list, with the starting level and
   * padding raised when some item has a semantic icon colour.
   */
  function RenderEvents(items: seq<Item>, visibleFilters: seq<TabId>, textOnly: bool,
                        basePadding: real, additionalPadding: real): seq<Event>
  {
    var semantic := HasSemanticColor(items);
    ListEvents(items, Some(visibleFilters), textOnly,
               if semantic && additionalPadding != 0.0 then 1 else 0,
               if semantic then basePadding + additionalPadding else basePadding,
               |visibleFilters|)
  }

  // ---------------------------------------------------------------------------
  // The renderer

  /**
   * `render`: `items` are the select list's visible items, `visibleFilters`
   * the header's visible tab filters, `textOnly` the header's `_checkTextOnly()`,
   * `basePadding` and `additionalPadding` the two theme parameters.
   */
  method Render(rm: RenderManager, items: seq<Item>, visibleFilters: seq<TabId>, textOnly: bool,
                basePadding: real, additionalPadding: real)
    modifies rm
    ensures rm.events == old(rm.events) + RenderEvents(items, visibleFilters, textOnly, basePadding, additionalPadding)
  {
    var totalItemsCount := |visibleFilters|;
    var nestedItemPaddingLeft := basePadding;
    var level := 0;
    var hasSemanticColor := HasSemanticColor(items);
    if hasSemanticColor {
      nestedItemPaddingLeft := nestedItemPaddingLeft + additionalPadding;
      if additionalPadding != 0.0 {
        level := level + 1;
      }
    }
    RenderList(rm, items, Some(visibleFilters), textOnly, level, nestedItemPaddingLeft, totalItemsCount);
  }

  /** `renderList`; `header` is None where the source passes a null header. */
  method RenderList(rm: RenderManager, items: seq<Item>, header: Option<seq<TabId>>, textOnly: bool,
                    level: int, padding: real, setSize: int)
    modifies rm
    decreases items, 1
    ensures rm.events == old(rm.events) + ListEvents(items, header, textOnly, level, padding, setSize)
  {
    if |items| == 0 {
      return;
    }
    rm.Write(OpenUl(textOnly));
    var currentLevel := level;
    var currentSetSize := setSize;
    var indexInSet: Option<int> := None;
    var i := 0;
    while i < |items|
      invariant 0 <= i <= |items|
      invariant currentLevel == level
      invariant Position(indexInSet, currentSetSize) == PositionAfter(items, i, header, setSize)
      invariant rm.events == old(rm.events) + [OpenUl(textOnly)] + LoopEvents(items, i, header, textOnly, level, padding, setSize)
    {
      ghost var before := rm.events;
      var item := items[i];
      if header.Some? {
        indexInSet := Some(IndexOf(header.value, item.realTab));
      }
      if item.inThisList {
        indexInSet := Some(i);
        currentSetSize := |items|;
      }
      ghost var pos := PositionAfter(items, i + 1, header, setSize);
      assert Position(indexInSet, currentSetSize) == pos;
      var paddingLeft := PaddingLeft(padding, currentLevel);
      rm.Write(ListItem(item.id, indexInSet, currentSetSize, paddingLeft));
      ghost var entry := before + [ListItem(items[i].id, pos.indexInSet, pos.setSize, PaddingLeft(padding, level))];
      assert rm.events == entry;
      if |item.subFilters| > 0 {
        currentLevel := currentLevel + 1;
        RenderSubFilters(rm, items, i, textOnly, currentLevel, padding);
        currentLevel := currentLevel - 1;
      }
      assert rm.events == entry + NestedListEvents(items, i, textOnly, level + 1, padding);
      LoopEventsStep(old(rm.events) + [OpenUl(textOnly)], items, i, header, textOnly, level, padding, setSize);
      i := i + 1;
    }
    rm.Write(CloseUl);
    AppendWrapped(old(rm.events), OpenUl(textOnly), LoopEvents(items, |items|, header, textOnly, level, padding, setSize), CloseUl);
  }

  /**
   * The `if (aSubFilters.length)` block of `renderList`'s loop: an `li`
   * wrapping the list of `items[i]`'s sub-filters, rendered at the raised
   * level with a null header and their own count as set size.
   */
  method RenderSubFilters(rm: RenderManager, items: seq<Item>, i: nat, textOnly: bool, nestedLevel: int, padding: real)
    requires i < |items| && |items[i].subFilters| > 0
    modifies rm
    decreases items, 0
    ensures rm.events == old(rm.events) + NestedListEvents(items, i, textOnly, nestedLevel, padding)
  {
    var subFilters := items[i].subFilters;
    rm.Write(OpenLi);
    assert items[i] in items;
    RenderList(rm, subFilters, None, textOnly, nestedLevel, padding, |subFilters|);
    rm.Write(CloseLi);
    AppendWrapped(old(rm.events), OpenLi, ListEvents(subFilters, None, textOnly, nestedLevel, padding, |subFilters|), CloseLi);
  }
}
