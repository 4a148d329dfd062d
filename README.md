# leaflet-bootstrap-contextmenu, modelled in Dafny

This project models the menu logic of FCOO's leaflet-bootstrap-contextmenu, a Leaflet and jQuery plug-in that gives maps and layers a right-click menu. The model covers two parts.

- `src/_leaflet-contextmenu-extend.js`: the item builder `L.ContextmenuItems`, the registry of standard items `L.addStandardContextmenuOptions`, the composition `addContextmenu`, the show-time pass `onContextmenuShow` with `updateContextmenuElement`, and the checkbox and radio click handlers.
- `src/leaflet-bootstrap-contextmenu.js`: the per-object `contextmenuOptions` and their setters, the `hasContextmenuEvent` registration flag kept by `addTo`, `removeFrom` and `addContextmenuItems`, and the map handler's `_show` and `_hide`.

Host objects are reduced to plain values:

- Leaflet layers and DOM elements become records.
- Callbacks and positions become opaque tokens.
- A method looked up by name becomes a `Handler` value, answered by a `Target` record of functions.

Where the source updates state in place, the model does too:

- `ContextmenuItems.items`, the standard list and the host fields are class fields.
- The menu's elements are an `array`.

Each method is proved against a specification function, and the properties are lemmas about those functions.

Files and modules:

- `common.dfy` (`Common`): `Option` and sequence concatenation.
- `menu_items.dfy` (`MenuItems`): item records, their normalisation, the `ContextmenuItems` class.
- `standard_menu.dfy` (`StandardMenu`): the standard-item registry and `addContextmenu`.
- `menu_display.dfy` (`MenuDisplay`): the show pass, status, and checkbox and radio clicks.
- `bootstrap_menu.dfy` (`BootstrapMenu`): options, setters, the registration flag (`Host`).
- `context_popup.dfy` (`ContextMenuPopup`): `_show` and `_hide` (`ContextMenu`).

JavaScript truthiness is written out:

- An absent or `null` id is `None`.
- An empty handler name counts as absent.
- A missing `index` or `width` is 0, which is what every read of them (`||`) makes of it.
- A status answer of `""` stands for every falsy answer.

## Model

| member | source | states |
|---|---|---|
| MenuItems.Normalise | src/_leaflet-contextmenu-extend.js:108-124 | the stored item has `data.id == id`; a truthy status moves into `data.status` and is cleared on the item; a normal item keeps its callback in `data.callback` and gets the default dispatcher; non-header, non-separator items get `context || defaultContext`; all other fields are unchanged |
| MenuItems.CheckboxItem | src/_leaflet-contextmenu-extend.js:132-140 | a checkbox item has icon `checkbox`, the checkbox callback, data typed checkbox holding its id, `onSelect` and `selected`, and these two cleared on the item |
| MenuItems.RadioItems | src/_leaflet-contextmenu-extend.js:147-166 | one radio item per entry, in order, each with the entry's id and text and the group's `groupId`, `onSelect` and `selected` in its data |
| MenuItems.Leaves | src/_leaflet-contextmenu-extend.js:100-107 | no ensures: flattens an argument into the `'-'` markers and option objects `add` reaches, in call order; its properties are MenuItems.AddArrayStep, MenuItems.AddArraySplit and MenuItems.AddDashIsOneSeparator |
| MenuItems.ItemsOf | src/_leaflet-contextmenu-extend.js:100-125 | no ensures: the items appended for those leaves, one each, in order; MenuItems.ContextmenuItems.Add is stated with it and MenuItems.ItemsOfAppend splits it over concatenation |
| MenuItems.AddArrayStep | src/_leaflet-contextmenu-extend.js:104-107 | adding an array adds its elements one after the other |
| MenuItems.AddArraySplit | src/_leaflet-contextmenu-extend.js:104-107 | adding `xs + ys` is adding `xs` then `ys` |
| MenuItems.AddDashIsOneSeparator | src/_leaflet-contextmenu-extend.js:100-102 | `add('-')` adds exactly one separator item |
| MenuItems.ContextmenuItems.constructor | src/_leaflet-contextmenu-extend.js:91-94 | a new builder has no items and keeps the default context |
| MenuItems.ContextmenuItems.AddObject | src/_leaflet-contextmenu-extend.js:108-125 | the existing items are kept and the normalised item is appended |
| MenuItems.ContextmenuItems.Add | src/_leaflet-contextmenu-extend.js:100-126 | the items become the old items followed by the normalised leaves of the argument, in order |
| MenuItems.ContextmenuItems.AddCheckbox | src/_leaflet-contextmenu-extend.js:132-140 | appends exactly the checkbox item |
| MenuItems.ContextmenuItems.AddRadioGroup | src/_leaflet-contextmenu-extend.js:147-166 | appends exactly the group's radio items |
| MenuItems.ContextmenuItems.AddHeader | src/_leaflet-contextmenu-extend.js:171 | appends one header item with id `''` |
| MenuItems.ContextmenuItems.AddSeparator | src/_leaflet-contextmenu-extend.js:176 | appends one separator item |
| StandardMenu.WithIndex | src/_leaflet-contextmenu-extend.js:304-308 | a non-zero index is kept; index 0 (also the one `'-'` gets) becomes the last index plus one, or 0 on an empty list |
| StandardMenu.Register | src/_leaflet-contextmenu-extend.js:299-311 | registering appends one entry per leaf and keeps the existing list as a prefix; the entries themselves are stated by StandardMenu.RegisterKeepsEntries and StandardMenu.RegisterAppend |
| StandardMenu.RegisterAppend | src/_leaflet-contextmenu-extend.js:299-311 | registering one more option appends it with its index set against the list so far |
| StandardMenu.RegisterKeepsEntries | src/_leaflet-contextmenu-extend.js:299-311 | registering keeps the existing list as a prefix and appends each option, changed in its index only, with a non-zero index kept |
| StandardMenu.UnindexedGetPositions | src/_leaflet-contextmenu-extend.js:306-308 | when every index is left unset, each registered option's index is its position |
| StandardMenu.RegisterSplit | src/_leaflet-contextmenu-extend.js:299-302 | registering an array is registering its parts in turn |
| StandardMenu.StandardOptions.constructor | src/_leaflet-contextmenu-extend.js:296 | the registry starts empty |
| StandardMenu.StandardOptions.Add | src/_leaflet-contextmenu-extend.js:299-311 | the registry becomes the registration of the argument's leaves onto the old list |
| StandardMenu.StandardItems | src/_leaflet-contextmenu-extend.js:217-239 | no ensures: the standard part of the menu, with the pending-separator flag of the loop; its properties are StandardMenu.StandardItemsSplit, StandardMenu.ExcludedItemHasNoEffect, StandardMenu.MarkerRunCollapses, StandardMenu.NothingServedNothingAdded, StandardMenu.TrailingMarkersAddNothing and StandardMenu.MarkerBeforeServedItem |
| StandardMenu.StandardItemsSplit | src/_leaflet-contextmenu-extend.js:217-239 | the standard part of two concatenated lists is the first's followed by the second's, with the pending-separator flag carried over |
| StandardMenu.ExcludedItemHasNoEffect | src/_leaflet-contextmenu-extend.js:222-225 | an option whose callback or `onSelect` the target lacks contributes nothing |
| StandardMenu.MarkerRunCollapses | src/_leaflet-contextmenu-extend.js:218-220 | two consecutive `'-'` markers act as one |
| StandardMenu.NothingServedNothingAdded | src/_leaflet-contextmenu-extend.js:217-239 | with no included option, nothing is added: no separator without an item after it |
| StandardMenu.TrailingMarkersAddNothing | src/_leaflet-contextmenu-extend.js:217-239 | markers and excluded options at the end add nothing |
| StandardMenu.MarkerBeforeServedItem | src/_leaflet-contextmenu-extend.js:226-229 | a marker directly before an included option yields one separator followed by that option's items |
| StandardMenu.Numbered | src/_leaflet-contextmenu-extend.js:252-255 | every item's index becomes its position and nothing else changes |
| StandardMenu.Composed | src/_leaflet-contextmenu-extend.js:241-250 | no ensures: the individual items, then off the map the standard part and the separator with the `#TheMap` header; StandardMenu.AddContextmenu states the composed menu through it |
| StandardMenu.AddContextmenu | src/_leaflet-contextmenu-extend.js:203-255 | the items are the individual items, the included standard items with their separators, and, off the map, a separator and the `#TheMap` header, all numbered by position; `individuelItems` counts everything before that trailing pair; `excludeGlobal` is stored off the map |
| StandardMenu.AppendStandardItems | src/_leaflet-contextmenu-extend.js:217-239 | the loop appends exactly the standard part |
| StandardMenu.AppendStandardItem | src/_leaflet-contextmenu-extend.js:219-237 | one loop step appends that option's contribution and returns the new pending-separator flag |
| StandardMenu.NumberItems | src/_leaflet-contextmenu-extend.js:253-255 | the loop numbers the items by position |
| MenuDisplay.EffectiveStatus | src/_leaflet-contextmenu-extend.js:422 | a falsy status answer means `enabled`, any other is kept |
| MenuDisplay.Mark | src/_leaflet-contextmenu-extend.js:409-418 | marking sets `selected` and makes the plain and checked icons agree with it; data, visibility, disabled state and kind are kept |
| MenuDisplay.UpdateElement | src/_leaflet-contextmenu-extend.js:398-426 | the element is visible iff its status is not `hidden` and disabled iff it is `disabled`; a checkbox is selected iff its `selected` method says so, a radio iff the group's selected id is its id, with icons agreeing; untyped elements keep their selection |
| MenuDisplay.TruthyIds | src/_leaflet-contextmenu-extend.js:455-459 | exactly the non-empty ids are collected |
| MenuDisplay.HideIds | src/_leaflet-contextmenu-extend.js:462 | `excludeGlobal === true` hides all global ids, otherwise the given list |
| MenuDisplay.CollectGlobalIds | src/_leaflet-contextmenu-extend.js:452-459 | the ids collected are exactly the non-empty ids among the map's first `individuelItems` elements |
| MenuDisplay.Collapse | src/_leaflet-contextmenu-extend.js:469-487 | no ensures: the `lastWasSeperator` walk; its properties (same length, well separated, each element kept or a redundant separator hidden) are MenuDisplay.CollapseFrom and MenuDisplay.CollapseWellSeparated |
| MenuDisplay.CollapseFrom | src/_leaflet-contextmenu-extend.js:469-487 | the separator walk keeps well separation from any well-separated prefix, and hides only separators that would follow a visible separator or header or start the menu |
| MenuDisplay.CollapseWellSeparated | src/_leaflet-contextmenu-extend.js:469-487 | after the walk no visible separator is first or follows a visible separator or header, and only such separators were hidden |
| MenuDisplay.ShowPass | src/_leaflet-contextmenu-extend.js:430-488 | the intended pass keeps every element's data and kind (separator and header), and off the map only makes every element visible, changing nothing else; its visibility on the map is MenuDisplay.ShowPassVisibility |
| MenuDisplay.ShowPassAsWritten | src/_leaflet-contextmenu-extend.js:430-488 | the pass as written keeps every element's data and kind (separator and header), and off the map only makes every element visible, changing nothing else; MenuDisplay.ExclusionIgnoredAsWritten shows that `excludeGlobal` has no effect on it |
| MenuDisplay.ShowPassVisibility | src/_leaflet-contextmenu-extend.js:452-487 | after the intended pass an element is visible only if it is not excluded and its status is not `hidden`, every other non-separator is visible, and the menu is well separated |
| MenuDisplay.ExclusionIgnoredAsWritten | src/_leaflet-contextmenu-extend.js:464-473 | as written, the pass gives the same menu whatever `excludeGlobal` is |
| MenuDisplay.ExcludedItemShownAsWritten | src/_leaflet-contextmenu-extend.js:464-473 | an enabled element with excluded id `addMarker` is shown as written and hidden by the intended pass |
| MenuDisplay.OnContextmenuShow | src/_leaflet-contextmenu-extend.js:430-488 | the element array becomes the intended show pass of its old contents; off the map every element is only made visible |
| MenuDisplay.ShowAllItems | src/_leaflet-contextmenu-extend.js:441 | every element is made visible |
| MenuDisplay.HideExcluded | src/_leaflet-contextmenu-extend.js:464-467 | each element is displayed iff its id is not excluded |
| MenuDisplay.RefreshElement | src/_leaflet-contextmenu-extend.js:471-486 | one step of the walk: the corrected refresh (an excluded element stays hidden), hiding a redundant separator, and the updated last-was-separator flag |
| MenuDisplay.RefreshAndCollapse | src/_leaflet-contextmenu-extend.js:469-487 | the loop leaves the separator walk over the elements after the corrected refresh (an excluded element stays hidden) |
| MenuDisplay.CheckboxToggle | src/_leaflet-contextmenu-extend.js:337-345 | a checkbox click flips `selected`, makes the icons agree, and keeps data, visibility, disabled state and kind |
| MenuDisplay.CheckboxToggleTwice | src/_leaflet-contextmenu-extend.js:337-345 | two clicks restore an element whose icons agreed |
| MenuDisplay.CheckboxClick | src/_leaflet-contextmenu-extend.js:337-348 | only the clicked element is toggled, and `onSelect(id, newSelected)` is the call made |
| MenuDisplay.RadioUpdate | src/_leaflet-contextmenu-extend.js:362-370 | in the clicked group an element is selected iff its id is the clicked id, with icons agreeing, and its data, visibility, disabled state and kind are kept; elements of other groups and separators are untouched |
| MenuDisplay.RadioClickSelectsOne | src/_leaflet-contextmenu-extend.js:356-370 | with distinct ids in a group, exactly the clicked element of the group ends selected |
| MenuDisplay.RadioClick | src/_leaflet-contextmenu-extend.js:356-373 | every element is updated by the group rule, and `onSelect(selectedId, groupId)` is the call made |
| BootstrapMenu.Merge | src/leaflet-bootstrap-contextmenu.js:31-34 | each given key overwrites, every key not given keeps its value |
| BootstrapMenu.MergeIdempotent | src/leaflet-bootstrap-contextmenu.js:31-34 | setting the same keys twice is setting them once; setting none changes nothing |
| BootstrapMenu.AsList | src/leaflet-bootstrap-contextmenu.js:48 | a single item is wrapped as a one-element list, a list is kept |
| BootstrapMenu.AddedItems | src/leaflet-bootstrap-contextmenu.js:49-52 | prepending gives new items then old, appending old then new |
| BootstrapMenu.Host.constructor | src/leaflet-bootstrap-contextmenu.js:71 | a new object has no options and the flag unset |
| BootstrapMenu.Host.SetContextmenuOptions | src/leaflet-bootstrap-contextmenu.js:31-34 | starts from the defaults only when there are no options yet, then merges the given keys |
| BootstrapMenu.Host.SetContextmenuHeader | src/leaflet-bootstrap-contextmenu.js:36-38 | only the header changes |
| BootstrapMenu.Host.SetContextmenuParent | src/leaflet-bootstrap-contextmenu.js:40-42 | only the parent changes |
| BootstrapMenu.Host.AddContextmenuItems | src/leaflet-bootstrap-contextmenu.js:44-59 | the items become new ++ old or old ++ new; the handler is registered iff the object is on a map and the flag was unset, and the flag then stays set with exactly one handler |
| BootstrapMenu.Host.AppendContextmenuItems | src/leaflet-bootstrap-contextmenu.js:61 | appends the items |
| BootstrapMenu.Host.PrependContextmenuItems | src/leaflet-bootstrap-contextmenu.js:62 | prepends the items |
| BootstrapMenu.Host.AddTo | src/leaflet-bootstrap-contextmenu.js:73-82 | the object is on the map; the handler is registered iff the flag was unset and the items are non-empty; at most one handler |
| BootstrapMenu.Host.RemoveFrom | src/leaflet-bootstrap-contextmenu.js:84-92 | any registered handler is removed, the flag is cleared, the object leaves the map |
| ContextMenuPopup.CopyItem | src/leaflet-bootstrap-contextmenu.js:178-195 | a copy without `onClick` has id null; with `onClick` it keeps a non-empty id or takes the generated id `n`, and its click calls the caller's function at the menu position then hides |
| ContextMenuPopup.NextId | src/leaflet-bootstrap-contextmenu.js:180 | the counter advances by at most one per item |
| ContextMenuPopup.CopyItems | src/leaflet-bootstrap-contextmenu.js:178-195 | one button per item |
| ContextMenuPopup.Group | src/leaflet-bootstrap-contextmenu.js:174-195 | no ensures: an object's header when wanted, then its copied items; its shape is ContextMenuPopup.GroupShape and its ids ContextMenuPopup.GroupIds |
| ContextMenuPopup.CopyItemsAt | src/leaflet-bootstrap-contextmenu.js:178-195 | item `k` is copied with the counter as it stands after the items before it |
| ContextMenuPopup.CopyItemsIds | src/leaflet-bootstrap-contextmenu.js:180 | generated ids of one object lie in [n, next) and rise strictly |
| ContextMenuPopup.GroupIds | src/leaflet-bootstrap-contextmenu.js:174-195 | the same holds for a group with its header |
| ContextMenuPopup.ContentIds | src/leaflet-bootstrap-contextmenu.js:164-205 | across the popup, generated ids rise strictly in reading order, so none repeats |
| ContextMenuPopup.GroupShape | src/leaflet-bootstrap-contextmenu.js:174-176 | a group starts with the header iff there are several objects, the object has items and a non-empty header; the rest is one button per item |
| ContextMenuPopup.Content | src/leaflet-bootstrap-contextmenu.js:168-205 | one group per object; ContextMenuPopup.ContentAt states that the groups follow the object list |
| ContextMenuPopup.ContentAt | src/leaflet-bootstrap-contextmenu.js:168-205 | group `i` of the content is object `i`'s group, copied with the id counter as the objects before it left it |
| ContextMenuPopup.MaxFrom | src/leaflet-bootstrap-contextmenu.js:166-172 | no ensures: the running `Math.max` over the objects' widths; its bounds are ContextMenuPopup.MaxFromBounds |
| ContextMenuPopup.MaxFromBounds | src/leaflet-bootstrap-contextmenu.js:166-172 | the width is at least 100 and every object's width, and equals one of them |
| ContextMenuPopup.ChainUnique | src/leaflet-bootstrap-contextmenu.js:153-158 | an object's parent chain is unique |
| ContextMenuPopup.BuildObjectList | src/leaflet-bootstrap-contextmenu.js:153-161 | the list is the source, its ancestors in order, then the map iff the event was not fired on the map |
| ContextMenuPopup.CopyGroup | src/leaflet-bootstrap-contextmenu.js:169-195 | the loop builds the object's group and returns the advanced counter |
| ContextMenuPopup.ComposeContent | src/leaflet-bootstrap-contextmenu.js:164-205 | the loop builds the whole content from counter 0 and the width from 100 |
| ContextMenuPopup.Anchor | src/leaflet-bootstrap-contextmenu.js:144-150 | off the map, a source with its own position anchors the menu there; otherwise the cursor position is used |
| ContextMenuPopup.ContextMenu.constructor | src/leaflet-bootstrap-contextmenu.js:113-114 | no marker and no popup yet |
| ContextMenuPopup.ContextMenu.Show | src/leaflet-bootstrap-contextmenu.js:141-226 | the marker is at the anchor with opacity 100 iff fired on the map; the popup is open at the anchor with the composed content and width, and its source is the object iff not fired on the map and it has a position |
| ContextMenuPopup.ContextMenu.Hide | src/leaflet-bootstrap-contextmenu.js:231-236 | an open popup is closed and the marker's opacity set to 0; nothing else changes |

## Left out

- The sort of the standard list at `src/_leaflet-contextmenu-extend.js:216`: its comparator returns a boolean, so the order it leaves is engine-dependent. The model takes the list in registration order.
- Event wiring is not modelled, with one exception: `addTo`, `removeFrom` and `addContextmenuItems` count their 'contextmenu' handler in `Host.listeners`. The unmodelled calls are `on`, `off` and `fire`, `addHooks` and `removeHooks`, `bindContextMenu`, `extendPopup`, `stopPropagation`, `closePopup`, `onContextmenu` and `onContextmenuHide`.
- Rendering with `bsButtonGroup`, `L.popup` and the plug-in's `_createItem` is not modelled. The popup content is the list of groups before rendering.
- `returnMethod` and `callMethod`, which dispatch by method name, are not modelled. Named handlers are answered by the functions of `MenuDisplay.Target`, and whether the target has a method is a set of names.
- `getContextmenuExtendPopupContent` and the `_updateContent` refresh after a click are not modelled, because they walk host `_layers` and the DOM.
- The browser detection of the mousedown event name is not modelled.
- `getCenter`, the initial position of the cross marker, is not modelled: `_show` moves the marker to the anchor straight away.
- Positions are opaque values, so no arithmetic on them is modelled.
- `src/_old/leaflet-bootstrap-contextmenu.js` is a superseded draft and is not part of this model.
- Aliasing is not modelled, because items and options are values. Three consequences follow.
  - The index `addContextmenu` writes into items shared with the caller's `contextmenuItems` does not show on the caller's side.
  - Adding the same option object twice gives two independent items.
  - The original items stay unchanged, as the copy in `_show` promises.
- MenuDisplay.RadioUpdate: an element has a single plain/checked icon pair, so radio icon classes are not told apart from checkbox icon classes. This matters only for a radio group added without `groupId`. Line 158 then stores an undefined `groupId`, and the loose `==` at line 363 matches every sibling anchor without one: normal items, headers and checkboxes. The source gives each such anchor the radio icon classes and leaves a checkbox's own icon classes alone. The model instead resets that checkbox's icon pair. The documented API always passes `groupId` (`src/_leaflet-contextmenu-extend.js:31`).
- `selected` is a boolean, so a non-boolean answer given to `toggleClass` is not modelled.
- `excludeGlobal` is either `true` or a list of ids. A string value is not modelled: `$.inArray` would search it character by character, so a one-character id could match.
- Generated ids are the symbolic `Generated(n)` and are not spelled out as the string `'itemId' + n`. A caller's own id that equals such a string is not modelled.
- ContextMenuPopup.ContextMenu.Show takes a finite, acyclic parent chain as a ghost argument. The source loops forever on a cyclic `parent` chain.
- ContextMenuPopup.ContextMenu.Show requires every object in the list to have options. The source throws a TypeError on one without them, for example on a right-click on a map that has none.
- ContextMenuPopup.ContextMenu.Show does not model the `if (!contentList.length) return false` guard. The content has one group per object, and the list always holds the source, so the guard never fires.
- The item options `context` and `dontCloseOnClick`, documented at `src/leaflet-bootstrap-contextmenu.js:20-21`, have no effect in `_show`. The copied click calls `onClick(latlng, _this)` as a plain function, so its `this` and the item's `context` are never used, and `_hide()` always follows at lines 185-189. `ContextMenuPopup.Click` models the code, which is a single `CallThenHide`.

## Findings

| source | as written | input that shows it | evidently intended | confidence | as-written member | corrected member |
|---|---|---|---|---|---|---|
| src/_leaflet-contextmenu-extend.js:464-473 | the exclusion loop sets each element's display from `excludeGlobal`, then `updateContextmenuElement` (line 423) overwrites the display of every element from its status alone | a menu whose element has id `addMarker`, status enabled, and `excludeGlobal: ['addMarker']`: the element is shown | an excluded element stays hidden, and the status can only hide more (MenuDisplay.ShowPassVisibility) | high, not executed | MenuDisplay.ExclusionIgnoredAsWritten | MenuDisplay.ShowPass |
