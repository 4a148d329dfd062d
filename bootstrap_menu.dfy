/** The per-object part of the bootstrap context menu: the options record
    every layer and the map carry (`contextmenuInclude`), and the
    `hasContextmenuEvent` flag that keeps a layer's 'contextmenu' handler
    registered at most once (`addTo`, `removeFrom`, `addContextmenuItems`).
    Registering and unregistering the handler is counted in `listeners`. */
module BootstrapMenu {
  import opened Common

  /** An opaque map position. */
  datatype LatLng = LatLng(token: int)

  /** A menu item as given by the caller. A missing or empty `id` is "";
      `onClick` is an opaque function token, absent for a header-like item. */
  datatype MenuItem = MenuItem(id: string, text: string, icon: string, onClick: Option<nat>)

  /** An object's `contextmenuOptions`. A missing `width` is 0, which is what
      its only reader, `width || 0`, makes of it. */
  datatype MenuOptions = MenuOptions(items: seq<MenuItem>, header: string, parent: Host?, width: int)

  /** The module-level defaults `{items: [], header: '', parent: null}`. */
  const Defaults := MenuOptions([], "", null, 0)

  /** The keys given to `setContextmenuOptions`; `None` is a key not given
      (jQuery's extend also skips keys whose value is undefined). */
  datatype Patch = Patch(items: Option<seq<MenuItem>>, header: Option<string>,
                         parent: Option<Host?>, width: Option<int>)

  const NoChange := Patch(None, None, None, None)

  /** `$.extend(options, patch)`: given keys overwrite, others are kept. */
  function Merge(o: MenuOptions, p: Patch): (r: MenuOptions)
    ensures r.items == (if p.items.Some? then p.items.value else o.items)
    ensures r.header == (if p.header.Some? then p.header.value else o.header)
    ensures r.parent == (if p.parent.Some? then p.parent.value else o.parent)
    ensures r.width == (if p.width.Some? then p.width.value else o.width)
  {
    MenuOptions(p.items.GetOr(o.items), p.header.GetOr(o.header), p.parent.GetOr(o.parent),
                p.width.GetOr(o.width))
  }

  /** Setting the same keys twice is setting them once, and setting no key changes nothing. */
  lemma MergeIdempotent(o: MenuOptions, p: Patch)
    ensures Merge(Merge(o, p), p) == Merge(o, p)
    ensures Merge(o, NoChange) == o
  {
  }

  /** The argument of `addContextmenuItems`: one item or an array of items. */
  datatype ItemsArg = Single(item: MenuItem) | List(items: seq<MenuItem>)

  /** `$.isArray(items) ? items : [items]`. */
  function AsList(arg: ItemsArg): (r: seq<MenuItem>)
    ensures arg.Single? ==> r == [arg.item]
    ensures arg.List? ==> r == arg.items
  {
    match arg
    case Single(item) => [item]
    case List(items) => items
  }

  /** The item list after adding `added`: in front when prepending, at the end otherwise. */
  function AddedItems(current: seq<MenuItem>, added: seq<MenuItem>, prepend: bool): (r: seq<MenuItem>)
    ensures |r| == |current| + |added|
    ensures prepend ==> r[..|added|] == added && r[|added|..] == current
    ensures !prepend ==> r[..|current|] == current && r[|current|..] == added
  {
    if prepend then added + current else current + added
  }

  /** A layer or the map, with the state the extension keeps on it. */
  class Host {
    var contextmenuOptions: Option<MenuOptions>
    var hasContextmenuEvent: bool
    /** `this._map` is set: the layer is on a map. */
    var onMap: bool
    /** How many 'contextmenu' handlers of this object are registered. */
    var listeners: nat
    /** `getLatLng()`, when the object has a single position. */
    const position: Option<LatLng>

    /** The flag says exactly whether the handler is registered, so it is
        never registered twice. */
    ghost predicate Valid()
      reads this
    {
      listeners == if hasContextmenuEvent then 1 else 0
    }

    constructor (position: Option<LatLng>)
      ensures Valid()
      ensures contextmenuOptions == None && !hasContextmenuEvent && !onMap && this.position == position
    {
      contextmenuOptions := None;
      hasContextmenuEvent := false;
      onMap := false;
      listeners := 0;
      this.position := position;
    }

    /** `setContextmenuOptions`: start from a copy of the defaults when the
        object has no options yet, then overwrite only the given keys. */
    method SetContextmenuOptions(p: Patch)
      modifies this`contextmenuOptions
      ensures contextmenuOptions == Some(Merge(old(contextmenuOptions).GetOr(Defaults), p))
    {
      var current := if contextmenuOptions.Some? then contextmenuOptions.value else Defaults;
      contextmenuOptions := Some(Merge(current, p));
    }

    /** `setContextmenuHeader`: only the header changes. */
    method SetContextmenuHeader(header: string)
      modifies this`contextmenuOptions
      ensures contextmenuOptions == Some(old(contextmenuOptions).GetOr(Defaults).(header := header))
    {
      SetContextmenuOptions(NoChange.(header := Some(header)));
    }

    /** `setContextmenuParent`: only the parent changes. */
    method SetContextmenuParent(parent: Host?)
      modifies this`contextmenuOptions
      ensures contextmenuOptions == Some(old(contextmenuOptions).GetOr(Defaults).(parent := parent))
    {
      SetContextmenuOptions(NoChange.(parent := Some(parent)));
    }

    /** `addContextmenuItems`: prepend or append the items (a new list is
        built, the defaults' list is never changed), then register the
        handler if the object is on a map and has not registered it yet. */
    method AddContextmenuItems(arg: ItemsArg, prepend: bool)
      requires Valid()
      modifies this`contextmenuOptions, this`hasContextmenuEvent, this`listeners
      ensures Valid()
      ensures var before := old(contextmenuOptions).GetOr(Defaults);
              contextmenuOptions == Some(before.(items := AddedItems(before.items, AsList(arg), prepend)))
      ensures hasContextmenuEvent == (old(hasContextmenuEvent) || onMap)
      ensures listeners == old(listeners) + (if onMap && !old(hasContextmenuEvent) then 1 else 0)
    {
      SetContextmenuOptions(NoChange);
      var items := AsList(arg);
      var current := contextmenuOptions.value;
      if prepend {
        contextmenuOptions := Some(current.(items := items + current.items));
      } else {
        contextmenuOptions := Some(current.(items := current.items + items));
      }
      if onMap && !hasContextmenuEvent {
        listeners := listeners + 1;
        hasContextmenuEvent := true;
      }
    }

    method AppendContextmenuItems(arg: ItemsArg)
      requires Valid()
      modifies this`contextmenuOptions, this`hasContextmenuEvent, this`listeners
      ensures Valid()
      ensures var before := old(contextmenuOptions).GetOr(Defaults);
              contextmenuOptions == Some(before.(items := before.items + AsList(arg)))
      ensures hasContextmenuEvent == (old(hasContextmenuEvent) || onMap)
    {
      AddContextmenuItems(arg, false);
    }

    method PrependContextmenuItems(arg: ItemsArg)
      requires Valid()
      modifies this`contextmenuOptions, this`hasContextmenuEvent, this`listeners
      ensures Valid()
      ensures var before := old(contextmenuOptions).GetOr(Defaults);
              contextmenuOptions == Some(before.(items := AsList(arg) + before.items))
      ensures hasContextmenuEvent == (old(hasContextmenuEvent) || onMap)
    {
      AddContextmenuItems(arg, true);
    }

    /** The wrapped `addTo`: put the layer on the map, then register the
        handler if it is not registered and the layer has items. */
    method AddTo()
      requires Valid()
      modifies this`onMap, this`hasContextmenuEvent, this`listeners
      ensures Valid() && onMap
      ensures var hasItems := contextmenuOptions.Some? && |contextmenuOptions.value.items| > 0;
              && hasContextmenuEvent == (old(hasContextmenuEvent) || hasItems)
              && listeners == old(listeners) + (if !old(hasContextmenuEvent) && hasItems then 1 else 0)
    {
      onMap := true;
      if !hasContextmenuEvent && contextmenuOptions.Some? && |contextmenuOptions.value.items| > 0 {
        listeners := listeners + 1;
        hasContextmenuEvent := true;
      }
    }

    /** The wrapped `removeFrom`: unregister the handler if registered, clear
        the flag, then take the layer off the map. */
    method RemoveFrom()
      requires Valid()
      modifies this`onMap, this`hasContextmenuEvent, this`listeners
      ensures Valid() && !onMap && !hasContextmenuEvent && listeners == 0
    {
      if hasContextmenuEvent {
        listeners := listeners - 1;
        hasContextmenuEvent := false;
      }
      onMap := false;
    }
  }
}
