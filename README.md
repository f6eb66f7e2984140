# IconTabBarSelectListRenderer in Dafny

This project models the OpenUI5 renderer of `sap.m.IconTabBarSelectList`. That is the overflow list of an IconTabHeader, and the list of a tab's own sub-filters. It proves properties of what the renderer writes.

`render` sets up the first call:

- it takes the visible items of the select list;
- it asks the header whether the tabs are text-only;
- if some item has a non-default icon colour, it raises the base padding and (when the additional padding is non-zero) the starting level;
- it calls `renderList`.

`renderList` does the work:

- for an empty list it writes nothing;
- otherwise it opens a `<ul role="menu">`, marked text-only iff the header is text-only;
- for each item it works out the ARIA position in set, the ARIA set size and the left padding (`padding * level`), and writes the item;
- when the item's real tab has sub-items, it opens an `<li>`, raises the level, calls itself on the sub-items with a null header and their count as set size, lowers the level again and closes the `<li>`;
- after the last item it closes the `ul`.

The model has four files:

- `wrappers.dfy`: `Option`. `None` stands for JavaScript's `undefined`.
- `render_output.dfy`: the render buffer.
  - The `Event` datatype: `OpenUl(textOnly)`, `ListItem(item, indexInSet, setSize, paddingLeft)`, `OpenLi`, `CloseLi`, `CloseUl`.
  - The `RenderManager` class, whose `events` field is appended to by `Write`.
  - The well-nestedness parser `Parse`/`WellNested` over a stack of open tags.
  - The projections `Placements` (the item and padding of every entry), `CountOpenLi` and `UlsMarked`.
- `select_list_renderer.dfy`: the renderer itself.
  - The imperative methods `Render`, `RenderList` and `RenderSubFilters`. `RenderList` has a `while` loop over the items and the loop variables `currentLevel`, `currentSetSize` and `indexInSet`.
  - The specification functions they are proved against: `PaddingLeft` (line 99), `PositionAfter` (the loop variables `iIndexInSet` and `iSetSize`), `ListEvents`, `LoopEvents` and `NestedListEvents` (`renderList` as functions) and `RenderEvents` (`render`). Their properties are lemmas in the properties module, named in the table below.
- `select_list_properties.dfy`: the properties.
  - A reference pre-order traversal `Outline` that pairs every node of the tree with its depth.
  - Lemmas relating the written events to `Outline`, to the parser and to the position rules.

In the model, the framework's object-graph queries are fields of each `Item`:

- `realTab` is `_getRealTab()`;
- `inThisList` is `_getRootTab()._getSelectList() === oSelectList`;
- `iconColor` is `getIconColor()`;
- `subFilters` is `_getRealTab().getItems()`.

`getVisibleItems()`, `_checkTextOnly()`, `getVisibleTabFilters()` and the two theme paddings are parameters of `Render`.

The model follows the code in three places where a plain description of the renderer would read differently:

- Only the top-level call has a header. Nested calls pass `null` for it, so no `indexOf` lookup happens below the top level. An item that is not a first-level item then keeps the `iIndexInSet` of the previous iteration, because the JavaScript `var` is function-scoped. It is `undefined` (`None`) until the first first-level item.
- The first-level rule assigns the `iSetSize` parameter. It therefore stays in force for every later sibling of the same call, not only for the item that triggered it. At the top level, a later sibling that is not first-level then keeps the list's own length as its set size, but its position is looked up among all visible tab filters. So its position can lie outside the set: after a first-level item, an item whose real tab is fifth of five visible filters is told it is position 4 of a set of 2 (`CarriedSetSizeMismatch`, `CarriedSetSizeExample`).
- Nested levels render `getItems()` of the real tab. There is no visibility filter and no cycle detection.

## Model

| member | source | states |
|---|---|---|
| IconTabBarSelectListRenderer.Render | node_modules/@openui5/sap.m/src/sap/m/IconTabBarSelectListRenderer.js:33-57 | `render` appends exactly `RenderEvents` to the buffer: the list of the visible items, at the starting level and padding chosen from the semantic-colour flag and the additional padding, with the count of visible tab filters as set size |
| IconTabBarSelectListRenderer.RenderList | node_modules/@openui5/sap.m/src/sap/m/IconTabBarSelectListRenderer.js:70-122 | `renderList` appends exactly `ListEvents`. The loop invariant ties its level (restored after every nested call), its set size and its carried `iIndexInSet` to `PositionAfter`, and ties the buffer to `LoopEvents` of the items handled so far |
| IconTabBarSelectListRenderer.RenderSubFilters | node_modules/@openui5/sap.m/src/sap/m/IconTabBarSelectListRenderer.js:110-117 | lines 110-111, 114 and 117: appends an `li` wrapping the nested list of the sub-filters, with a null header, the level it is given and their own count as set size. The caller, `RenderList`, checks the guard of lines 108-109 and raises and lowers the level around the call (lines 113 and 115) |
| IconTabBarSelectListRenderer.HasSemanticColor | node_modules/@openui5/sap.m/src/sap/m/IconTabBarSelectListRenderer.js:43 | true iff some item's icon colour is not `Default` |
| IconTabBarSelectListRenderer.IndexOf | node_modules/@openui5/sap.m/src/sap/m/IconTabBarSelectListRenderer.js:90 | result in -1 up to the length exclusive; -1 iff the tab is absent; otherwise the first position holding the tab |
| IconTabBarSelectListProperties.Scaled | node_modules/@openui5/sap.m/src/sap/m/IconTabBarSelectListRenderer.js:99 | the reference that applies line 99 (`PaddingLeft`) across a pre-order outline: entry by entry, the item with padding `padding` times its level, with the same length |
| IconTabBarSelectListProperties.PaddingLeftLinear | node_modules/@openui5/sap.m/src/sap/m/IconTabBarSelectListRenderer.js:99 | about `PaddingLeft`, the model of `fPadding * iLevel`: zero at level 0, exactly one `padding` more per level deeper, and never negative for a non-negative padding and level |
| IconTabBarSelectListProperties.PositionBounds | node_modules/@openui5/sap.m/src/sap/m/IconTabBarSelectListRenderer.js:85-97 | about `PositionAfter`, the model of the loop variables `iIndexInSet` and `iSetSize`: the set size is always the one passed in or the list's own length; a defined position is at least -1; with a header it is defined from the first item on; without one it is the index of an item already handled |
| IconTabBarSelectListProperties.LoopLength | node_modules/@openui5/sap.m/src/sap/m/IconTabBarSelectListRenderer.js:85-106 | about `LoopEvents`, the model of the loop: the loop writes at least one event per item handled (which event each item's entry is, is `LoopEntry`) |
| IconTabBarSelectListProperties.NestedShape | node_modules/@openui5/sap.m/src/sap/m/IconTabBarSelectListRenderer.js:108-118 | about `NestedListEvents`, the model of the sub-filter block: a leaf writes nothing after its entry; an item with sub-items writes an `li` opening followed by a `ul` opening carrying the text-only flag, at least as many further writes as it has sub-items, and ends with the `li` closing |
| IconTabBarSelectListProperties.OutlineSize | node_modules/@openui5/sap.m/src/sap/m/IconTabBarSelectListRenderer.js:85-119 | the pre-order outline has one entry per node of the item tree |
| IconTabBarSelectListProperties.ListShape | node_modules/@openui5/sap.m/src/sap/m/IconTabBarSelectListRenderer.js:71-121 | about `ListEvents`, the model of `renderList`: an empty list writes nothing; a non-empty one starts with the `ul` opening carrying the text-only flag, ends with the `ul` closing, and has at least as many writes in between as it has items |
| IconTabBarSelectListProperties.UlEnclosed | node_modules/@openui5/sap.m/src/sap/m/IconTabBarSelectListRenderer.js:75-83 | a `ul` opened at the top or inside an `li`, around balanced content that never closes it, closes back to the same open tags and stays open in between |
| IconTabBarSelectListProperties.LiEnclosed | node_modules/@openui5/sap.m/src/sap/m/IconTabBarSelectListRenderer.js:110-117 | an `li` opened inside a `ul`, around balanced content that never closes it, closes back to the same open tags and stays open in between |
| IconTabBarSelectListProperties.ListWellNested | node_modules/@openui5/sap.m/src/sap/m/IconTabBarSelectListRenderer.js:75-121 | a list written at the top or inside an `li`, at any depth, is balanced: every tag it opens it closes, and every entry sits directly inside a `ul`. Its one `ul` stays open from the first write to the last: every proper, non-empty prefix leaves it open |
| IconTabBarSelectListProperties.LoopWellNested | node_modules/@openui5/sap.m/src/sap/m/IconTabBarSelectListRenderer.js:85-119 | the loop's writes for the first n items are balanced inside the list's `ul`, and no prefix of them closes it |
| IconTabBarSelectListProperties.NestedWellNested | node_modules/@openui5/sap.m/src/sap/m/IconTabBarSelectListRenderer.js:108-118 | an item's sub-filter block is balanced inside the enclosing `ul`, and no prefix of it closes that `ul` |
| IconTabBarSelectListProperties.ListPlacements | node_modules/@openui5/sap.m/src/sap/m/IconTabBarSelectListRenderer.js:85-119 | the entries of a list are written once per node of the item tree, in pre-order and input order; a node at depth d below a list started at level L gets padding `padding * (L + d)` |
| IconTabBarSelectListProperties.LoopPlacements | node_modules/@openui5/sap.m/src/sap/m/IconTabBarSelectListRenderer.js:99-115 | the loop's entries for the first n items are the pre-order outline of those items, with padding linear in depth; siblings share the level because it is lowered after each nested call |
| IconTabBarSelectListProperties.NestedPlacements | node_modules/@openui5/sap.m/src/sap/m/IconTabBarSelectListRenderer.js:113-115 | the entries of an item's sub-filter block are the outline of its sub-filters one level deeper |
| IconTabBarSelectListProperties.ItemCount | node_modules/@openui5/sap.m/src/sap/m/IconTabBarSelectListRenderer.js:100-106 | the number of item entries equals the number of nodes of the tree |
| IconTabBarSelectListProperties.ListWrappers | node_modules/@openui5/sap.m/src/sap/m/IconTabBarSelectListRenderer.js:108-118 | one `li` is opened per node that has sub-items, and none for a leaf |
| IconTabBarSelectListProperties.LoopWrappers | node_modules/@openui5/sap.m/src/sap/m/IconTabBarSelectListRenderer.js:108-118 | within the loop's writes for the first n items, one `li` per node with sub-items |
| IconTabBarSelectListProperties.NestedWrappers | node_modules/@openui5/sap.m/src/sap/m/IconTabBarSelectListRenderer.js:109-117 | an item's block opens one `li` for the item itself when it has sub-items, plus those of its descendants; none for a leaf |
| IconTabBarSelectListProperties.ListUlsMarked | node_modules/@openui5/sap.m/src/sap/m/IconTabBarSelectListRenderer.js:79-81 | every `ul` written at any depth carries the same text-only flag as the call |
| IconTabBarSelectListProperties.LoopUlsMarked | node_modules/@openui5/sap.m/src/sap/m/IconTabBarSelectListRenderer.js:85-119 | every `ul` in the loop's writes carries the call's text-only flag |
| IconTabBarSelectListProperties.NestedUlsMarked | node_modules/@openui5/sap.m/src/sap/m/IconTabBarSelectListRenderer.js:114 | the nested call passes the text-only flag on unchanged |
| IconTabBarSelectListProperties.SetSizePersists | node_modules/@openui5/sap.m/src/sap/m/IconTabBarSelectListRenderer.js:94-97 | after n items the set size is the list's length iff some earlier item is a first-level item, and the set size the list was called with otherwise |
| IconTabBarSelectListProperties.TopLevelIndexInSet | node_modules/@openui5/sap.m/src/sap/m/IconTabBarSelectListRenderer.js:89-97 | with a header, an item's position is its loop index if it is first-level, and otherwise the `indexOf` of its real tab among the visible filters, -1 iff absent |
| IconTabBarSelectListProperties.NestedIndexInSet | node_modules/@openui5/sap.m/src/sap/m/IconTabBarSelectListRenderer.js:85-97 | without a header, the position is undefined iff no first-level item has been seen, and otherwise it is the index of the latest one |
| IconTabBarSelectListProperties.FirstLevelPositions | node_modules/@openui5/sap.m/src/sap/m/IconTabBarSelectListRenderer.js:94-97 | in any list, a first-level item i is told it is position i of a set of the list's length |
| IconTabBarSelectListProperties.CarriedSetSizeMismatch | node_modules/@openui5/sap.m/src/sap/m/IconTabBarSelectListRenderer.js:89-97 | at the top level, an item that is not first-level, after a first-level sibling, keeps the list's length as set size while its position is the `indexOf` of its real tab among the visible filters |
| IconTabBarSelectListProperties.CarriedSetSizeExample | node_modules/@openui5/sap.m/src/sap/m/IconTabBarSelectListRenderer.js:89-97 | an instance where that position lies outside the set: position 4 of a set of 2 |
| IconTabBarSelectListProperties.LoopEventsPrefix | node_modules/@openui5/sap.m/src/sap/m/IconTabBarSelectListRenderer.js:85-119 | the loop only appends: its writes after m items are a prefix of its writes after n >= m items |
| IconTabBarSelectListProperties.LoopEntry | node_modules/@openui5/sap.m/src/sap/m/IconTabBarSelectListRenderer.js:99-106 | in the loop's writes, item i's entry comes right after the writes for the items before it, and carries its position, set size and padding |
| IconTabBarSelectListProperties.ItemEntry | node_modules/@openui5/sap.m/src/sap/m/IconTabBarSelectListRenderer.js:99-106 | item i of a list is written right after the `ul` opening and the writes for items 0..i-1, with the position and set size of the rules and `padding * level` |
| IconTabBarSelectListProperties.RenderWellNested | node_modules/@openui5/sap.m/src/sap/m/IconTabBarSelectListRenderer.js:33-57 | about `RenderEvents`, the model of `render`: its whole output is well nested, the top-level `ul` stays open until the last write, every `ul` in it carries the header's text-only flag, and it is empty iff there are no visible items |
| IconTabBarSelectListProperties.RenderFirstEntry | node_modules/@openui5/sap.m/src/sap/m/IconTabBarSelectListRenderer.js:34-56 | the first entry `render` writes is the first visible item. A first-level item is told position 0 of a set of the list's length, and any other item its real tab's `indexOf` among the visible filters and their count. It is padded 0, unless a semantic colour and a non-zero additional padding start the list at level 1, where it is padded base plus additional |
| IconTabBarSelectListProperties.RenderIndentation | node_modules/@openui5/sap.m/src/sap/m/IconTabBarSelectListRenderer.js:39-56 | with no non-default icon colour: level 0 and the base padding. With one and a non-zero additional padding: level 1 and padding base + additional. With one and a zero additional padding: level 0 and padding base + additional, which equals the base padding. All three as the pre-order outline of the tree |
| RenderOutput.RenderManager.Write | node_modules/@openui5/sap.m/src/sap/m/IconTabBarSelectListRenderer.js:75-83 | writing appends the event to the buffer and changes nothing else |

## Left out

- The theme lookups `Parameters.get` and `Number.parseFloat` (lines 25 and 47). The two paddings are `real` parameters, so a `NaN` result is not modelled, and neither is floating-point rounding in `fPadding * iLevel` or in `+= fAdditionalPadding`: the model's arithmetic is exact. The truthiness test on the additional padding is `!= 0.0`.
- `oSelectList.checkIconOnly()` (line 45): its code is not part of this model, and its result is not used by the renderer.
- What `oItem.renderInSelectList` writes. Its code is not part of this model. Each call is one `ListItem` event carrying the item and the position, set size and padding passed to it.
- The framework queries `_getRealTab`, `_getRootTab`, `_getSelectList`, `getVisibleTabFilters`, `getVisibleItems`, `getIconColor` and `_checkTextOnly`. They are supplied as `Item` fields and as parameters of `Render`. `getVisibleTabFilters()` is taken to return the same list each time it is called during one render.
- The RenderManager API, the `sapMITBSelectList` class, the `role` attribute, the control reference passed to `openStart`, and HTML serialisation. Only the text-only class is recorded, as the flag of `OpenUl`.
- Cycle detection: the code has none, and a datatype tree cannot be cyclic.
- Visibility filtering of nested sub-filters: the code renders `getItems()` as it is, and so does the model.
- Item identity is an integer `id`. Whether two items are the same object is not modelled beyond the `inThisList` and `realTab` answers.
- Lines 110-111, 114 and 117 of the loop body are written as a method of their own, `RenderSubFilters`. The caller checks the guard and raises and lowers the level around the call, as lines 108-109, 113 and 115 do. Calling it is the same as running those lines in place.
- The app controller and the OPA5/QUnit test bootstrap of the repository contain no rendering logic.
