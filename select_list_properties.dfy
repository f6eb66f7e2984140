/**
 * Properties of what the select-list renderer writes: nesting, pre-order
 * coverage with depth-linear padding, the text-only class, the `li` wrappers,
 * the ARIA position rules and the top-level semantic-colour indentation.
 */
module IconTabBarSelectListProperties {
  import opened Wrappers
  import opened RenderOutput
  import opened IconTabBarSelectListRenderer

  // ---------------------------------------------------------------------------
  // Reference definitions, independent of the renderer

  /** The items of a forest in pre-order, each with its nesting level (`level` for the roots). */
  function Outline(items: seq<Item>, level: int): seq<(Item, int)>
    decreases items
  {
    if |items| == 0 then []
    else
      assert items[0] in items;
      [(items[0], level)] + Outline(items[0].subFilters, level + 1) + Outline(items[1..], level)
  }

  /** The number of items in a forest, nested ones included. */
  function NodeCount(items: seq<Item>): nat
    decreases items
  {
    if |items| == 0 then 0
    else
      assert items[0] in items;
      1 + NodeCount(items[0].subFilters) + NodeCount(items[1..])
  }

  /** The placements an outline calls for: padding `padding * level` for each item. */
  function Scaled(outline: seq<(Item, int)>, padding: real): (r: seq<(ItemId, real)>)
    ensures |r| == |outline|
    ensures forall k :: 0 <= k < |r| ==> r[k] == (outline[k].0.id, PaddingLeft(padding, outline[k].1))
  {
    if |outline| == 0 then []
    else [(outline[0].0.id, PaddingLeft(padding, outline[0].1))] + Scaled(outline[1..], padding)
  }

  /** The number of outline entries whose item has sub-filters. */
  function Branches(outline: seq<(Item, int)>): nat
  {
    if |outline| == 0 then 0
    else (if |outline[0].0.subFilters| > 0 then 1 else 0) + Branches(outline[1..])
  }

  lemma {:induction false} ScaledAppend(a: seq<(Item, int)>, b: seq<(Item, int)>, padding: real)
    ensures Scaled(a + b, padding) == Scaled(a, padding) + Scaled(b, padding)
  {
    if a == [] {
      assert a + b == b;
    } else {
      assert (a + b)[0] == a[0];
      assert (a + b)[1..] == a[1..] + b;
      ScaledAppend(a[1..], b, padding);
    }
  }

  lemma {:induction false} BranchesAppend(a: seq<(Item, int)>, b: seq<(Item, int)>)
    ensures Branches(a + b) == Branches(a) + Branches(b)
  {
    if a == [] {
      assert a + b == b;
    } else {
      assert (a + b)[0] == a[0];
      assert (a + b)[1..] == a[1..] + b;
      BranchesAppend(a[1..], b);
    }
  }

  /** Appending a root to a forest appends it and its subtree to the outline. */
  lemma {:induction false} OutlineSnoc(items: seq<Item>, last: Item, level: int)
    ensures Outline(items + [last], level)
            == Outline(items, level) + [(last, level)] + Outline(last.subFilters, level + 1)
    decreases items
  {
    if |items| == 0 {
      assert items + [last] == [last];
      assert [last][1..] == [];
    } else {
      var rest := items[1..];
      assert (items + [last])[0] == items[0];
      assert (items + [last])[1..] == rest + [last];
      OutlineSnoc(rest, last, level);
    }
  }

  /** The outline lists every item of the forest exactly once. */
  lemma {:induction false} OutlineSize(items: seq<Item>, level: int)
    ensures |Outline(items, level)| == NodeCount(items)
    decreases items
  {
    if |items| > 0 {
      assert items[0] in items;
      OutlineSize(items[0].subFilters, level + 1);
      OutlineSize(items[1..], level);
    }
  }

  // ---------------------------------------------------------------------------
  // The renderer's specification functions

  /**
   * The left padding `fPadding * iLevel` is linear in the level: nothing at
   * level 0, one more `padding` per level deeper, and never negative for a
   * non-negative padding and level.
   */
  lemma PaddingLeftLinear(padding: real, level: int)
    ensures PaddingLeft(padding, 0) == 0.0
    ensures PaddingLeft(padding, level + 1) == PaddingLeft(padding, level) + padding
    ensures 0.0 <= padding && 0 <= level ==> 0.0 <= PaddingLeft(padding, level)
  {
  }

  /**
   * The loop variables of `renderList` stay in range: the set size is the
   * one the list was called with or the list's own length; a defined
   * position is at least -1; with a header the position is defined from the
   * first item on; without one it is the index of an item already handled.
   */
  lemma {:induction false} PositionBounds(items: seq<Item>, n: nat, header: Option<seq<TabId>>, setSize: int)
    requires n <= |items|
    ensures var pos := PositionAfter(items, n, header, setSize);
            (pos.setSize == setSize || pos.setSize == |items|)
            && (pos.indexInSet.Some? ==> -1 <= pos.indexInSet.value)
            && (header.Some? && 0 < n ==> pos.indexInSet.Some?)
            && (header.None? && pos.indexInSet.Some? ==> pos.indexInSet.value < n)
  {
    if n > 0 {
      PositionBounds(items, n - 1, header, setSize);
    }
  }

  /** Every item the loop handles writes at least its own entry. */
  lemma {:induction false} LoopLength(items: seq<Item>, n: nat, header: Option<seq<TabId>>, textOnly: bool,
                                      level: int, padding: real, setSize: int)
    requires n <= |items|
    ensures n <= |LoopEvents(items, n, header, textOnly, level, padding, setSize)|
  {
    if n > 0 {
      LoopLength(items, n - 1, header, textOnly, level, padding, setSize);
    }
  }

  /**
   * An empty list writes nothing; a non-empty one starts with its `ul`
   * opening, marked text-only as asked, ends with its closing, and writes at
   * least one entry per item in between.
   */
  lemma ListShape(items: seq<Item>, header: Option<seq<TabId>>, textOnly: bool,
                  level: int, padding: real, setSize: int)
    ensures var r := ListEvents(items, header, textOnly, level, padding, setSize);
            (|items| == 0 <==> r == [])
            && (|items| > 0 ==> |items| + 2 <= |r| && r[0] == OpenUl(textOnly) && r[|r| - 1] == CloseUl)
  {
    if |items| > 0 {
      LoopLength(items, |items|, header, textOnly, level, padding, setSize);
    }
  }

  /**
   * After its entry, a leaf writes nothing; an item with sub-items writes an
   * `li` around the text-only-marked list of them.
   */
  lemma NestedShape(items: seq<Item>, i: nat, textOnly: bool, nestedLevel: int, padding: real)
    requires i < |items|
    ensures var r := NestedListEvents(items, i, textOnly, nestedLevel, padding);
            var subFilters := items[i].subFilters;
            (|subFilters| == 0 <==> r == [])
            && (|subFilters| > 0 ==>
                  |subFilters| + 4 <= |r| && r[0] == OpenLi && r[1] == OpenUl(textOnly) && r[|r| - 1] == CloseLi)
  {
    var subFilters := items[i].subFilters;
    if |subFilters| > 0 {
      ListShape(subFilters, None, textOnly, nestedLevel, padding, |subFilters|);
    }
  }

  // ---------------------------------------------------------------------------
  // Nesting

  /**
   * A list's writes, made where a `ul` may open, are balanced: they leave
   * the same elements open as before, each write is in place, and the list's
   * one `ul` stays open from the first write to the last, so a non-empty list
   * is a single `ul` element.
   */
  lemma {:induction false} ListWellNested(items: seq<Item>, header: Option<seq<TabId>>, textOnly: bool,
                                          level: int, padding: real, setSize: int, open: seq<Tag>)
    requires open == [] || open[|open| - 1] == LiTag
    ensures var r := ListEvents(items, header, textOnly, level, padding, setSize);
            Parse(open, r) == Some(open) && Wrapped(open, UlTag, r)
    decreases items, 3
  {
    if |items| > 0 {
      var inner := LoopEvents(items, |items|, header, textOnly, level, padding, setSize);
      LoopWellNested(items, |items|, header, textOnly, level, padding, setSize, open);
      UlEnclosed(open, textOnly, inner);
    }
  }

  /** A `ul` opened at the outside or inside an `li`, around balanced writes. */
  lemma UlEnclosed(open: seq<Tag>, textOnly: bool, inner: seq<Event>)
    requires open == [] || open[|open| - 1] == LiTag
    requires Parse(open + [UlTag], inner) == Some(open + [UlTag]) && Within(open + [UlTag], inner)
    ensures var w := [OpenUl(textOnly)] + inner + [CloseUl];
            Parse(open, w) == Some(open) && Wrapped(open, UlTag, w)
  {
    var ul := open + [UlTag];
    assert ul[..|ul| - 1] == open;
    Enclosed(open, UlTag, OpenUl(textOnly), inner, CloseUl);
  }

  /** An `li` opened inside a `ul`, around balanced writes. */
  lemma LiEnclosed(ul: seq<Tag>, inner: seq<Event>)
    requires ul != [] && ul[|ul| - 1] == UlTag
    requires Parse(ul + [LiTag], inner) == Some(ul + [LiTag]) && Within(ul + [LiTag], inner)
    ensures var w := [OpenLi] + inner + [CloseLi];
            Parse(ul, w) == Some(ul) && Wrapped(ul, LiTag, w) && Within(ul, w)
  {
    var li := ul + [LiTag];
    assert li[..|li| - 1] == ul;
    Enclosed(ul, LiTag, OpenLi, inner, CloseLi);
    WrappedWithin(ul, LiTag, [OpenLi] + inner + [CloseLi]);
  }

  /**
   * The loop's writes for `items[..n]` stay directly inside the list's `ul`:
   * balanced, and no prefix of them closes it.
   */
  lemma {:induction false} LoopWellNested(items: seq<Item>, n: nat, header: Option<seq<TabId>>, textOnly: bool,
                                          level: int, padding: real, setSize: int, open: seq<Tag>)
    requires n <= |items|
    ensures var r := LoopEvents(items, n, header, textOnly, level, padding, setSize);
            Parse(open + [UlTag], r) == Some(open + [UlTag]) && Within(open + [UlTag], r)
    decreases items, 2, n
  {
    var ul := open + [UlTag];
    if n == 0 {
      EmptyWithin(ul, LoopEvents(items, n, header, textOnly, level, padding, setSize));
    } else {
      var before := LoopEvents(items, n - 1, header, textOnly, level, padding, setSize);
      var pos := PositionAfter(items, n, header, setSize);
      var entry := ListItem(items[n - 1].id, pos.indexInSet, pos.setSize, PaddingLeft(padding, level));
      var nested := NestedListEvents(items, n - 1, textOnly, level + 1, padding);
      LoopWellNested(items, n - 1, header, textOnly, level, padding, setSize, open);
      NestedWellNested(items, n - 1, textOnly, level + 1, padding, open);
      StepWithin(ul, entry);
      ParseAppend(ul, before, [entry]);
      WithinAppend(ul, before, [entry]);
      ParseAppend(ul, before + [entry], nested);
      WithinAppend(ul, before + [entry], nested);
    }
  }

  /** An item's sub-filter block stays directly inside the enclosing `ul`. */
  lemma {:induction false} NestedWellNested(items: seq<Item>, i: nat, textOnly: bool, nestedLevel: int,
                                            padding: real, open: seq<Tag>)
    requires i < |items|
    ensures var r := NestedListEvents(items, i, textOnly, nestedLevel, padding);
            Parse(open + [UlTag], r) == Some(open + [UlTag]) && Within(open + [UlTag], r)
    decreases items, 0
  {
    var subFilters := items[i].subFilters;
    var ul := open + [UlTag];
    if |subFilters| > 0 {
      var inner := ListEvents(subFilters, None, textOnly, nestedLevel, padding, |subFilters|);
      assert items[i] in items;
      ListWellNested(subFilters, None, textOnly, nestedLevel, padding, |subFilters|, ul + [LiTag]);
      WrappedWithin(ul + [LiTag], UlTag, inner);
      LiEnclosed(ul, inner);
    } else {
      EmptyWithin(ul, NestedListEvents(items, i, textOnly, nestedLevel, padding));
    }
  }

  // ---------------------------------------------------------------------------
  // Coverage, order and padding

  /**
   * A list writes one entry per item of its forest, nested ones included, in
   * pre-order, and an item `d` levels below the list's items is padded by
   * `padding * (level + d)`.
   */
  lemma {:induction false} ListPlacements(items: seq<Item>, header: Option<seq<TabId>>, textOnly: bool,
                                          level: int, padding: real, setSize: int)
    ensures Placements(ListEvents(items, header, textOnly, level, padding, setSize)) == Scaled(Outline(items, level), padding)
    decreases items, 3
  {
    if |items| > 0 {
      var inner := LoopEvents(items, |items|, header, textOnly, level, padding, setSize);
      LoopPlacements(items, |items|, header, textOnly, level, padding, setSize);
      assert items[..|items|] == items;
      PlacementsAppend([OpenUl(textOnly)], inner);
      PlacementsAppend([OpenUl(textOnly)] + inner, [CloseUl]);
    }
  }

  lemma {:induction false} LoopPlacements(items: seq<Item>, n: nat, header: Option<seq<TabId>>, textOnly: bool,
                                          level: int, padding: real, setSize: int)
    requires n <= |items|
    ensures Placements(LoopEvents(items, n, header, textOnly, level, padding, setSize)) == Scaled(Outline(items[..n], level), padding)
    decreases items, 2, n
  {
    if n == 0 {
      assert items[..0] == [];
    } else {
      var before := LoopEvents(items, n - 1, header, textOnly, level, padding, setSize);
      var pos := PositionAfter(items, n, header, setSize);
      var last := items[n - 1];
      var entry := ListItem(last.id, pos.indexInSet, pos.setSize, PaddingLeft(padding, level));
      var nested := NestedListEvents(items, n - 1, textOnly, level + 1, padding);
      LoopPlacements(items, n - 1, header, textOnly, level, padding, setSize);
      NestedPlacements(items, n - 1, textOnly, level + 1, padding);
      PlacementsAppend(before, [entry]);
      PlacementsAppend(before + [entry], nested);
      assert items[..n] == items[..n - 1] + [last];
      OutlineSnoc(items[..n - 1], last, level);
      ScaledAppend(Outline(items[..n - 1], level), [(last, level)], padding);
      ScaledAppend(Outline(items[..n - 1], level) + [(last, level)], Outline(last.subFilters, level + 1), padding);
    }
  }

  lemma {:induction false} NestedPlacements(items: seq<Item>, i: nat, textOnly: bool, nestedLevel: int, padding: real)
    requires i < |items|
    ensures Placements(NestedListEvents(items, i, textOnly, nestedLevel, padding))
            == Scaled(Outline(items[i].subFilters, nestedLevel), padding)
    decreases items, 0
  {
    var subFilters := items[i].subFilters;
    if |subFilters| > 0 {
      var inner := ListEvents(subFilters, None, textOnly, nestedLevel, padding, |subFilters|);
      assert items[i] in items;
      ListPlacements(subFilters, None, textOnly, nestedLevel, padding, |subFilters|);
      PlacementsAppend([OpenLi], inner);
      PlacementsAppend([OpenLi] + inner, [CloseLi]);
    }
  }

  /** The number of entries written equals the number of items in the forest. */
  lemma ItemCount(items: seq<Item>, header: Option<seq<TabId>>, textOnly: bool,
                  level: int, padding: real, setSize: int)
    ensures |Placements(ListEvents(items, header, textOnly, level, padding, setSize))| == NodeCount(items)
  {
    ListPlacements(items, header, textOnly, level, padding, setSize);
    OutlineSize(items, level);
  }

  // ---------------------------------------------------------------------------
  // The li wrappers and the text-only class

  /** An `li` wrapper is written for exactly the items that have sub-filters. */
  lemma {:induction false} ListWrappers(items: seq<Item>, header: Option<seq<TabId>>, textOnly: bool,
                                        level: int, padding: real, setSize: int)
    ensures CountOpenLi(ListEvents(items, header, textOnly, level, padding, setSize)) == Branches(Outline(items, level))
    decreases items, 3
  {
    if |items| > 0 {
      var inner := LoopEvents(items, |items|, header, textOnly, level, padding, setSize);
      LoopWrappers(items, |items|, header, textOnly, level, padding, setSize);
      assert items[..|items|] == items;
      CountOpenLiAppend([OpenUl(textOnly)], inner);
      CountOpenLiAppend([OpenUl(textOnly)] + inner, [CloseUl]);
    }
  }

  lemma {:induction false} LoopWrappers(items: seq<Item>, n: nat, header: Option<seq<TabId>>, textOnly: bool,
                                        level: int, padding: real, setSize: int)
    requires n <= |items|
    ensures CountOpenLi(LoopEvents(items, n, header, textOnly, level, padding, setSize)) == Branches(Outline(items[..n], level))
    decreases items, 2, n
  {
    if n == 0 {
      assert items[..0] == [];
    } else {
      var before := LoopEvents(items, n - 1, header, textOnly, level, padding, setSize);
      var pos := PositionAfter(items, n, header, setSize);
      var last := items[n - 1];
      var entry := ListItem(last.id, pos.indexInSet, pos.setSize, PaddingLeft(padding, level));
      var nested := NestedListEvents(items, n - 1, textOnly, level + 1, padding);
      LoopWrappers(items, n - 1, header, textOnly, level, padding, setSize);
      NestedWrappers(items, n - 1, textOnly, level + 1, padding);
      CountOpenLiAppend(before, [entry]);
      CountOpenLiAppend(before + [entry], nested);
      assert items[..n] == items[..n - 1] + [last];
      OutlineSnoc(items[..n - 1], last, level);
      BranchesAppend(Outline(items[..n - 1], level), [(last, level)]);
      BranchesAppend(Outline(items[..n - 1], level) + [(last, level)], Outline(last.subFilters, level + 1));
    }
  }

  lemma {:induction false} NestedWrappers(items: seq<Item>, i: nat, textOnly: bool, nestedLevel: int, padding: real)
    requires i < |items|
    ensures CountOpenLi(NestedListEvents(items, i, textOnly, nestedLevel, padding))
            == (if |items[i].subFilters| > 0 then 1 else 0) + Branches(Outline(items[i].subFilters, nestedLevel))
    decreases items, 0
  {
    var subFilters := items[i].subFilters;
    if |subFilters| > 0 {
      var inner := ListEvents(subFilters, None, textOnly, nestedLevel, padding, |subFilters|);
      assert items[i] in items;
      ListWrappers(subFilters, None, textOnly, nestedLevel, padding, |subFilters|);
      CountOpenLiAppend([OpenLi], inner);
      CountOpenLiAppend([OpenLi] + inner, [CloseLi]);
    }
  }

  /** Every `ul`, at every depth, carries the text-only class iff `textOnly` is set. */
  lemma {:induction false} ListUlsMarked(items: seq<Item>, header: Option<seq<TabId>>, textOnly: bool,
                                         level: int, padding: real, setSize: int)
    ensures UlsMarked(ListEvents(items, header, textOnly, level, padding, setSize), textOnly)
    decreases items, 3
  {
    if |items| > 0 {
      var inner := LoopEvents(items, |items|, header, textOnly, level, padding, setSize);
      LoopUlsMarked(items, |items|, header, textOnly, level, padding, setSize);
      UlsMarkedAppend([OpenUl(textOnly)], inner, textOnly);
      UlsMarkedAppend([OpenUl(textOnly)] + inner, [CloseUl], textOnly);
    }
  }

  lemma {:induction false} LoopUlsMarked(items: seq<Item>, n: nat, header: Option<seq<TabId>>, textOnly: bool,
                                         level: int, padding: real, setSize: int)
    requires n <= |items|
    ensures UlsMarked(LoopEvents(items, n, header, textOnly, level, padding, setSize), textOnly)
    decreases items, 2, n
  {
    if n > 0 {
      var before := LoopEvents(items, n - 1, header, textOnly, level, padding, setSize);
      var pos := PositionAfter(items, n, header, setSize);
      var entry := ListItem(items[n - 1].id, pos.indexInSet, pos.setSize, PaddingLeft(padding, level));
      var nested := NestedListEvents(items, n - 1, textOnly, level + 1, padding);
      LoopUlsMarked(items, n - 1, header, textOnly, level, padding, setSize);
      NestedUlsMarked(items, n - 1, textOnly, level + 1, padding);
      UlsMarkedAppend(before, [entry], textOnly);
      UlsMarkedAppend(before + [entry], nested, textOnly);
    }
  }

  lemma {:induction false} NestedUlsMarked(items: seq<Item>, i: nat, textOnly: bool, nestedLevel: int, padding: real)
    requires i < |items|
    ensures UlsMarked(NestedListEvents(items, i, textOnly, nestedLevel, padding), textOnly)
    decreases items, 0
  {
    var subFilters := items[i].subFilters;
    if |subFilters| > 0 {
      var inner := ListEvents(subFilters, None, textOnly, nestedLevel, padding, |subFilters|);
      assert items[i] in items;
      ListUlsMarked(subFilters, None, textOnly, nestedLevel, padding, |subFilters|);
      UlsMarkedAppend([OpenLi], inner, textOnly);
      UlsMarkedAppend([OpenLi] + inner, [CloseLi], textOnly);
    }
  }

  // ---------------------------------------------------------------------------
  // ARIA position in set and set size

  /**
   * Once an item whose root tab's select list is this list has been seen,
   * the set size stays the list's own length for every later sibling;
   * before that it is the size the list was called with.
   */
  lemma {:induction false} SetSizePersists(items: seq<Item>, n: nat, header: Option<seq<TabId>>, setSize: int)
    requires n <= |items|
    ensures PositionAfter(items, n, header, setSize).setSize
            == if exists j :: 0 <= j < n && items[j].inThisList then |items| else setSize
  {
    if n > 0 {
      SetSizePersists(items, n - 1, header, setSize);
      if items[n - 1].inThisList {
        assert exists j :: 0 <= j < n && items[j].inThisList;
      } else if exists j :: 0 <= j < n && items[j].inThisList {
        var j :| 0 <= j < n && items[j].inThisList;
        assert j < n - 1;
      }
    }
  }

  /** In a list the header looks up, an item's position is either its loop index or its real tab's place among the visible filters. */
  lemma TopLevelIndexInSet(items: seq<Item>, n: nat, visibleFilters: seq<TabId>, setSize: int)
    requires 0 < n <= |items|
    ensures var pos := PositionAfter(items, n, Some(visibleFilters), setSize);
            var item := items[n - 1];
            pos.indexInSet == Some(if item.inThisList then n - 1 else IndexOf(visibleFilters, item.realTab))
            && (!item.inThisList ==> (pos.indexInSet == Some(-1) <==> item.realTab !in visibleFilters))
  {
  }

  /**
   * Without a header (nested lists) nothing is looked up: the position is
   * undefined until an item whose root tab's select list is this list has
   * been seen, and from then on it is the index of the latest such item.
   */
  lemma {:induction false} NestedIndexInSet(items: seq<Item>, n: nat, setSize: int)
    requires n <= |items|
    ensures var pos := PositionAfter(items, n, None, setSize);
            (pos.indexInSet == None <==> forall j :: 0 <= j < n ==> !items[j].inThisList)
            && (pos.indexInSet.Some? ==>
                  var k := pos.indexInSet.value;
                  0 <= k < n && items[k].inThisList && forall j :: k < j < n ==> !items[j].inThisList)
  {
    if n > 0 {
      NestedIndexInSet(items, n - 1, setSize);
    }
  }

  /** A first-level item `i`, in any list, is told it is `i` of `|items|`. */
  lemma FirstLevelPositions(items: seq<Item>, i: nat, header: Option<seq<TabId>>, setSize: int)
    requires i < |items| && items[i].inThisList
    ensures var pos := PositionAfter(items, i + 1, header, setSize);
            pos.indexInSet == Some(i) && 0 <= i < pos.setSize == |items|
  {
  }

  /**
   * The set size a first-level item leaves behind and the header lookup
   * disagree for a later sibling that is not first-level: it keeps the
   * list's own length as set size but is placed among all visible filters.
   */
  lemma CarriedSetSizeMismatch(items: seq<Item>, n: nat, visibleFilters: seq<TabId>, setSize: int)
    requires 0 < n <= |items| && !items[n - 1].inThisList
    requires exists j :: 0 <= j < n - 1 && items[j].inThisList
    ensures var pos := PositionAfter(items, n, Some(visibleFilters), setSize);
            pos.setSize == |items| && pos.indexInSet == Some(IndexOf(visibleFilters, items[n - 1].realTab))
  {
    SetSizePersists(items, n, Some(visibleFilters), setSize);
  }

  /**
   * An instance: after a first-level item, an item whose real tab is fifth
   * among five visible filters is told it is position 4 of a set of 2.
   */
  lemma CarriedSetSizeExample()
    ensures var first := Item(0, 1, true, Default, []);
            var second := Item(1, 5, false, Default, []);
            var pos := PositionAfter([first, second], 2, Some([1, 2, 3, 4, 5]), 5);
            pos == Position(Some(4), 2) && pos.indexInSet.value >= pos.setSize
  {
  }

  /** The loop's writes for a shorter prefix of the items begin its writes for a longer one. */
  lemma {:induction false} LoopEventsPrefix(items: seq<Item>, m: nat, n: nat, header: Option<seq<TabId>>, textOnly: bool,
                                            level: int, padding: real, setSize: int)
    requires m <= n <= |items|
    ensures var short := LoopEvents(items, m, header, textOnly, level, padding, setSize);
            var long := LoopEvents(items, n, header, textOnly, level, padding, setSize);
            |short| <= |long| && long[..|short|] == short
    decreases n
  {
    if m < n {
      LoopEventsPrefix(items, m, n - 1, header, textOnly, level, padding, setSize);
      var short := LoopEvents(items, m, header, textOnly, level, padding, setSize);
      var mid := LoopEvents(items, n - 1, header, textOnly, level, padding, setSize);
      var pos := PositionAfter(items, n, header, setSize);
      var rest := [ListItem(items[n - 1].id, pos.indexInSet, pos.setSize, PaddingLeft(padding, level))]
                  + NestedListEvents(items, n - 1, textOnly, level + 1, padding);
      assert LoopEvents(items, n, header, textOnly, level, padding, setSize) == mid + rest;
      assert (mid + rest)[..|short|] == mid[..|short|];
    }
  }

  /** In the loop's writes, item `i`'s entry follows the writes for the items before it. */
  lemma LoopEntry(items: seq<Item>, i: nat, n: nat, header: Option<seq<TabId>>, textOnly: bool,
                  level: int, padding: real, setSize: int)
    requires i < n <= |items|
    ensures var written := LoopEvents(items, n, header, textOnly, level, padding, setSize);
            var k := |LoopEvents(items, i, header, textOnly, level, padding, setSize)|;
            var pos := PositionAfter(items, i + 1, header, setSize);
            k < |written| && written[k] == ListItem(items[i].id, pos.indexInSet, pos.setSize, PaddingLeft(padding, level))
  {
    var before := LoopEvents(items, i, header, textOnly, level, padding, setSize);
    var upTo := LoopEvents(items, i + 1, header, textOnly, level, padding, setSize);
    var pos := PositionAfter(items, i + 1, header, setSize);
    var entry := ListItem(items[i].id, pos.indexInSet, pos.setSize, PaddingLeft(padding, level));
    LoopEventsStep([], items, i, header, textOnly, level, padding, setSize);
    assert [] + before == before;
    assert upTo[|before|] == entry;
    LoopEventsPrefix(items, i + 1, n, header, textOnly, level, padding, setSize);
  }

  /**
   * Item `i` of a list is written, right after the `ul` opens and the writes
   * for the items before it, as one entry carrying its ARIA position, its
   * ARIA set size and the list's padding.
   */
  lemma ItemEntry(items: seq<Item>, i: nat, header: Option<seq<TabId>>, textOnly: bool,
                  level: int, padding: real, setSize: int)
    requires i < |items|
    ensures var r := ListEvents(items, header, textOnly, level, padding, setSize);
            var k := 1 + |LoopEvents(items, i, header, textOnly, level, padding, setSize)|;
            var pos := PositionAfter(items, i + 1, header, setSize);
            k < |r| && r[k] == ListItem(items[i].id, pos.indexInSet, pos.setSize, PaddingLeft(padding, level))
  {
    LoopEntry(items, i, |items|, header, textOnly, level, padding, setSize);
  }

  // ---------------------------------------------------------------------------
  // The top-level render

  /** `render` writes well-nested markup, and nothing at all for an empty list. */
  lemma RenderWellNested(items: seq<Item>, visibleFilters: seq<TabId>, textOnly: bool,
                         basePadding: real, additionalPadding: real)
    ensures var r := RenderEvents(items, visibleFilters, textOnly, basePadding, additionalPadding);
            WellNested(r) && Wrapped([], UlTag, r) && UlsMarked(r, textOnly) && (|items| == 0 <==> r == [])
  {
    var semantic := HasSemanticColor(items);
    var level := if semantic && additionalPadding != 0.0 then 1 else 0;
    var padding := if semantic then basePadding + additionalPadding else basePadding;
    ListWellNested(items, Some(visibleFilters), textOnly, level, padding, |visibleFilters|, []);
    ListShape(items, Some(visibleFilters), textOnly, level, padding, |visibleFilters|);
    ListUlsMarked(items, Some(visibleFilters), textOnly, level, padding, |visibleFilters|);
  }

  /**
   * The first entry `render` writes, right after the top-level `ul` opens:
   * the first visible item, told it is position 0 of the list's length when
   * it is first-level and otherwise its place among the visible filters and
   * their count; padded 0 unless a semantic colour and a non-zero additional
   * padding start the list at level 1, where the padding is base plus
   * additional.
   */
  lemma RenderFirstEntry(items: seq<Item>, visibleFilters: seq<TabId>, textOnly: bool,
                         basePadding: real, additionalPadding: real)
    requires |items| > 0
    ensures var r := RenderEvents(items, visibleFilters, textOnly, basePadding, additionalPadding);
            var first := items[0];
            1 < |r| && r[1] == ListItem(first.id,
                                        Some(if first.inThisList then 0 else IndexOf(visibleFilters, first.realTab)),
                                        if first.inThisList then |items| else |visibleFilters|,
                                        if HasSemanticColor(items) && additionalPadding != 0.0
                                        then basePadding + additionalPadding else 0.0)
  {
    var semantic := HasSemanticColor(items);
    var level := if semantic && additionalPadding != 0.0 then 1 else 0;
    var padding := if semantic then basePadding + additionalPadding else basePadding;
    ItemEntry(items, 0, Some(visibleFilters), textOnly, level, padding, |visibleFilters|);
  }

  /**
   * The starting level and padding of `render`: without a non-default icon
   * colour among the items, level 0 and the base padding; with one, the
   * padding grows by the additional amount, and the level starts at 1 only
   * when that amount is non-zero.
   */
  lemma RenderIndentation(items: seq<Item>, visibleFilters: seq<TabId>, textOnly: bool,
                          basePadding: real, additionalPadding: real)
    ensures var placements := Placements(RenderEvents(items, visibleFilters, textOnly, basePadding, additionalPadding));
            ((forall i :: 0 <= i < |items| ==> items[i].iconColor == Default) ==>
               placements == Scaled(Outline(items, 0), basePadding))
            && ((exists i :: 0 <= i < |items| && items[i].iconColor != Default) && additionalPadding != 0.0 ==>
                  placements == Scaled(Outline(items, 1), basePadding + additionalPadding))
            && ((exists i :: 0 <= i < |items| && items[i].iconColor != Default) && additionalPadding == 0.0 ==>
                  placements == Scaled(Outline(items, 0), basePadding))
  {
    var semantic := HasSemanticColor(items);
    var level := if semantic && additionalPadding != 0.0 then 1 else 0;
    var padding := if semantic then basePadding + additionalPadding else basePadding;
    ListPlacements(items, Some(visibleFilters), textOnly, level, padding, |visibleFilters|);
  }
}
