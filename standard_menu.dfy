/** The standard menu-items shared by all objects (`L.addStandardContextmenuOptions`)
    and `addContextmenu`, which composes an object's menu from its own items,
    the standard items the object can serve, and a trailing part for the map. */
module StandardMenu {
  import opened Common
  import opened MenuItems

  /** The record a '-' argument becomes: `{text: '-', index: 0}`. */
  const MarkerOptions := Blank.(text := "-", index := 0)

  /** The record registered for one non-array argument, before its index is set. */
  function Entry(l: Leaf): Options {
    match l
    case DashLeaf => MarkerOptions
    case OptionsLeaf(o) => o
  }

  /** The index given to an entry without one: the last entry's plus one, or 0. */
  function NextIndex(list: seq<Options>): int {
    if |list| == 0 then 0 else list[|list| - 1].index + 1
  }

  /** `options.index || next`: a non-zero index is kept, 0 counts as absent. */
  function WithIndex(o: Options, list: seq<Options>): (r: Options)
    ensures o.index != 0 ==> r == o
    ensures o.index == 0 ==> r == o.(index := NextIndex(list))
  {
    o.(index := if o.index != 0 then o.index else NextIndex(list))
  }

  /** The registry after registering the non-array arguments `ls` in order. */
  function Register(list: seq<Options>, ls: seq<Leaf>): (r: seq<Options>)
    ensures |r| == |list| + |ls|
    ensures r[..|list|] == list
    decreases |ls|
  {
    if ls == [] then list else Register(list + [WithIndex(Entry(ls[0]), list)], ls[1..])
  }

  lemma {:induction false} RegisterAppend(list: seq<Options>, ls: seq<Leaf>, l: Leaf)
    ensures Register(list, ls + [l]) == var m := Register(list, ls); m + [WithIndex(Entry(l), m)]
    decreases |ls|
  {
    if ls == [] {
      assert ls + [l] == [l];
    } else {
      assert (ls + [l])[1..] == ls[1..] + [l];
      RegisterAppend(list + [WithIndex(Entry(ls[0]), list)], ls[1..], l);
    }
  }

  /** Registering appends exactly one entry per argument, in order, and each
      entry is its argument with only the index filled in; what was
      registered before is kept. */
  lemma {:induction false} RegisterKeepsEntries(list: seq<Options>, ls: seq<Leaf>)
    ensures var r := Register(list, ls);
            && |r| == |list| + |ls|
            && r[..|list|] == list
            && forall k :: 0 <= k < |ls| ==>
                 r[|list| + k].(index := Entry(ls[k]).index) == Entry(ls[k])
                 && (Entry(ls[k]).index != 0 ==> r[|list| + k].index == Entry(ls[k]).index)
    decreases |ls|
  {
    if ls != [] {
      var list' := list + [WithIndex(Entry(ls[0]), list)];
      RegisterKeepsEntries(list', ls[1..]);
      var r := Register(list, ls);
      assert r == Register(list', ls[1..]);
      forall k | 0 <= k < |ls|
        ensures r[|list| + k].(index := Entry(ls[k]).index) == Entry(ls[k])
        ensures Entry(ls[k]).index != 0 ==> r[|list| + k].index == Entry(ls[k]).index
      {
        if k > 0 {
          assert r[|list'| + (k - 1)] == r[|list| + k];
          assert ls[1..][k - 1] == ls[k];
        } else {
          assert r[..|list'|][|list|] == r[|list|];
        }
      }
      assert r[..|list|] == r[..|list'|][..|list|];
    }
  }

  /** Every entry's index is its position. */
  predicate PositionIndexed(list: seq<Options>) {
    forall k :: 0 <= k < |list| ==> list[k].index == k
  }

  /** When no argument carries its own index, every entry's index is its
      position; the index 0 given to '-' counts as absent too. */
  lemma {:induction false} UnindexedGetPositions(list: seq<Options>, ls: seq<Leaf>)
    requires PositionIndexed(list)
    requires forall k :: 0 <= k < |ls| ==> Entry(ls[k]).index == 0
    ensures PositionIndexed(Register(list, ls))
    decreases |ls|
  {
    if ls != [] {
      var list' := list + [WithIndex(Entry(ls[0]), list)];
      assert list'[|list|].index == |list|;
      assert PositionIndexed(list');
      assert forall k :: 0 <= k < |ls[1..]| ==> ls[1..][k] == ls[k + 1];
      UnindexedGetPositions(list', ls[1..]);
    }
  }

  /** The module-level list `standardContextmenuOptions`. */
  class StandardOptions {
    var list: seq<Options>

    constructor ()
      ensures list == []
    {
      list := [];
    }

    /** `L.addStandardContextmenuOptions`: an array registers each element in
        turn; '-' registers a `{text: '-'}` marker; every entry gets an index. */
    method Add(arg: Arg)
      modifies this
      ensures list == Register(old(list), Leaves(arg))
      decreases arg
    {
      match arg
      case Dash =>
        list := list + [WithIndex(MarkerOptions, list)];
      case One(o) =>
        list := list + [WithIndex(o, list)];
      case Many(xs) =>
        for k := 0 to |xs|
          invariant list == Register(old(list), Leaves(Many(xs[..k])))
        {
          AddArrayStep(xs, k);
          RegisterSplit(old(list), Leaves(Many(xs[..k])), Leaves(xs[k]));
          Add(xs[k]);
        }
        assert xs[..|xs|] == xs;
    }
  }

  lemma {:induction false} RegisterSplit(list: seq<Options>, ls: seq<Leaf>, ms: seq<Leaf>)
    ensures Register(list, ls + ms) == Register(Register(list, ls), ms)
    decreases |ls|
  {
    if ls != [] {
      assert (ls + ms)[0] == ls[0];
      assert (ls + ms)[1..] == ls[1..] + ms;
      RegisterSplit(list + [WithIndex(Entry(ls[0]), list)], ls[1..], ms);
    } else {
      assert ls + ms == ms;
    }
  }

  /** The target has a method named by handler `h` (`this[h]`). */
  predicate HasMethod(methods: set<string>, h: Handler) {
    h.Named? && h.name in methods
  }

  /** A standard item is offered only when the target has the method named by
      its `onSelect` (checkbox or radio) or by its `callback`. */
  predicate Included(o: Options, methods: set<string>) {
    ((o.isCheckbox || o.isRadio) && HasMethod(methods, o.onSelect)) || HasMethod(methods, o.callback)
  }

  /** A '-' marker in the standard list. */
  predicate IsMarker(o: Options) {
    o.text == "-"
  }

  /** What one included standard item adds. */
  function Contribution(o: Options, target: ObjRef): seq<Options> {
    if o.isCheckbox then [CheckboxItem(o, target)]
    else if o.isRadio then RadioItems(o, target)
    else [Normalise(o, target)]
  }

  /** The separator `addSeparator` appends. */
  function SeparatorItem(target: ObjRef): Options {
    Normalise(SeparatorOptions, target)
  }

  /** The standard part of a menu: `pending` says a '-' marker was met since
      the last included item; the separator it asks for is emitted only in
      front of the next included item. */
  function StandardItems(std: seq<Options>, methods: set<string>, target: ObjRef, pending: bool): seq<Options>
    decreases |std|
  {
    if std == [] then []
    else if IsMarker(std[0]) then StandardItems(std[1..], methods, target, true)
    else if Included(std[0], methods) then
      (if pending then [SeparatorItem(target)] else [])
      + Contribution(std[0], target)
      + StandardItems(std[1..], methods, target, false)
    else StandardItems(std[1..], methods, target, pending)
  }

  /** Whether a separator is pending after processing `std`. */
  function PendingAfter(std: seq<Options>, methods: set<string>, pending: bool): bool
    decreases |std|
  {
    if std == [] then pending
    else if IsMarker(std[0]) then PendingAfter(std[1..], methods, true)
    else if Included(std[0], methods) then PendingAfter(std[1..], methods, false)
    else PendingAfter(std[1..], methods, pending)
  }

  lemma {:induction false} StandardItemsSplit(xs: seq<Options>, ys: seq<Options>, methods: set<string>,
                                              target: ObjRef, pending: bool)
    ensures StandardItems(xs + ys, methods, target, pending)
         == StandardItems(xs, methods, target, pending)
            + StandardItems(ys, methods, target, PendingAfter(xs, methods, pending))
    decreases |xs|
  {
    if xs == [] {
      assert xs + ys == ys;
    } else {
      assert (xs + ys)[0] == xs[0];
      assert (xs + ys)[1..] == xs[1..] + ys;
      var p' := if IsMarker(xs[0]) then true else if Included(xs[0], methods) then false else pending;
      StandardItemsSplit(xs[1..], ys, methods, target, p');
    }
  }

  /** A standard item the target cannot serve has no effect on the menu. */
  lemma {:induction false} ExcludedItemHasNoEffect(std: seq<Options>, k: nat, methods: set<string>,
                                                   target: ObjRef, pending: bool)
    requires k < |std| && !IsMarker(std[k]) && !Included(std[k], methods)
    ensures StandardItems(std, methods, target, pending)
         == StandardItems(std[..k] + std[k + 1..], methods, target, pending)
  {
    assert std == std[..k] + ([std[k]] + std[k + 1..]);
    StandardItemsSplit(std[..k], [std[k]] + std[k + 1..], methods, target, pending);
    StandardItemsSplit(std[..k], std[k + 1..], methods, target, pending);
    var p := PendingAfter(std[..k], methods, pending);
    assert ([std[k]] + std[k + 1..])[1..] == std[k + 1..];
  }

  /** A run of '-' markers behaves as a single one. */
  lemma {:induction false} MarkerRunCollapses(xs: seq<Options>, d1: Options, d2: Options, ys: seq<Options>,
                                              methods: set<string>, target: ObjRef, pending: bool)
    requires IsMarker(d1) && IsMarker(d2)
    ensures StandardItems(xs + [d1, d2] + ys, methods, target, pending)
         == StandardItems(xs + [d1] + ys, methods, target, pending)
  {
    StandardItemsSplit(xs, [d1, d2] + ys, methods, target, pending);
    StandardItemsSplit(xs, [d1] + ys, methods, target, pending);
    assert xs + [d1, d2] + ys == xs + ([d1, d2] + ys);
    assert xs + [d1] + ys == xs + ([d1] + ys);
    assert ([d1, d2] + ys)[1..] == [d2] + ys;
    assert ([d2] + ys)[1..] == ys;
    assert ([d1] + ys)[1..] == ys;
  }

  /** Without any item the target can serve, markers add no separator at all. */
  lemma {:induction false} NothingServedNothingAdded(std: seq<Options>, methods: set<string>,
                                                     target: ObjRef, pending: bool)
    requires forall k :: 0 <= k < |std| ==> IsMarker(std[k]) || !Included(std[k], methods)
    ensures StandardItems(std, methods, target, pending) == []
    decreases |std|
  {
    if std != [] {
      assert forall k :: 0 <= k < |std[1..]| ==> std[1..][k] == std[k + 1];
      NothingServedNothingAdded(std[1..], methods, target, IsMarker(std[0]) || pending);
    }
  }

  /** Markers (and unservable items) after the last served item add nothing:
      a separator is only ever emitted in front of a served item. */
  lemma TrailingMarkersAddNothing(xs: seq<Options>, ys: seq<Options>, methods: set<string>,
                                  target: ObjRef, pending: bool)
    requires forall k :: 0 <= k < |ys| ==> IsMarker(ys[k]) || !Included(ys[k], methods)
    ensures StandardItems(xs + ys, methods, target, pending) == StandardItems(xs, methods, target, pending)
  {
    StandardItemsSplit(xs, ys, methods, target, pending);
    NothingServedNothingAdded(ys, methods, target, PendingAfter(xs, methods, pending));
  }

  /** A marker in front of a served item yields exactly one separator, directly before it. */
  lemma MarkerBeforeServedItem(d: Options, o: Options, rest: seq<Options>, methods: set<string>,
                               target: ObjRef, pending: bool)
    requires IsMarker(d) && !IsMarker(o) && Included(o, methods)
    ensures StandardItems([d, o] + rest, methods, target, pending)
         == [SeparatorItem(target)] + Contribution(o, target) + StandardItems(rest, methods, target, false)
  {
    assert ([d, o] + rest)[1..] == [o] + rest;
    assert ([o] + rest)[1..] == rest;
  }

  /** How `excludeGlobal` was given: `true`, or a list of ids (absent is the empty list). */
  datatype Exclude = ExcludeAll | ExcludeIds(ids: seq<string>)

  /** The `contextmenuOptions` record `addContextmenu` stores on the object. */
  datatype ComposedOptions = ComposedOptions(individuelItems: nat, excludeGlobal: Exclude)

  /** `items` with every index set to its position. */
  function Numbered(items: seq<Options>): (r: seq<Options>)
    ensures |r| == |items|
    ensures PositionIndexed(r)
    ensures forall k :: 0 <= k < |r| ==> r[k].(index := items[k].index) == items[k]
  {
    seq(|items|, k requires 0 <= k < |items| => items[k].(index := k))
  }

  /** The trailing part of a non-map menu: a separator and the '#TheMap' header. */
  function MapPart(target: ObjRef): seq<Options> {
    [SeparatorItem(target), Normalise(HeaderOptions("#TheMap", ""), target)]
  }

  /** The menu `addContextmenu` hands to the host, before numbering. */
  function Composed(individual: seq<Options>, std: seq<Options>, methods: set<string>,
                    target: ObjRef, isMap: bool): seq<Options>
  {
    if isMap then individual
    else individual + StandardItems(std, methods, target, false) + MapPart(target)
  }

  /** `addContextmenu`: the object's own items (copied), then for a non-map
      object the standard items it can serve with separators where markers
      were, then a separator and the '#TheMap' header; every item is then
      numbered by position. `individuelItems` counts the items before the
      trailing part. The standard list is taken as already sorted by index. */
  method AddContextmenu(individual: seq<Options>, std: seq<Options>, methods: set<string>,
                        target: ObjRef, isMap: bool, excludeGlobal: Exclude)
    returns (items: seq<Options>, options: ComposedOptions)
    ensures items == Numbered(Composed(individual, std, methods, target, isMap))
    ensures PositionIndexed(items)
    ensures |items| == options.individuelItems + (if isMap then 0 else 2)
    ensures options.individuelItems
         == |individual| + (if isMap then 0 else |StandardItems(std, methods, target, false)|)
    ensures forall k :: 0 <= k < |individual| ==> items[k] == individual[k].(index := k)
    ensures !isMap ==>
              && items[options.individuelItems].separator
              && items[options.individuelItems + 1].header
              && items[options.individuelItems + 1].text == "#TheMap"
    ensures options.excludeGlobal == if isMap then ExcludeIds([]) else excludeGlobal
  {
    var menu := new ContextmenuItems(target);
    menu.items := individual;
    if !isMap {
      AppendStandardItems(menu, std, methods);
    }
    options := ComposedOptions(|menu.items|, if isMap then ExcludeIds([]) else excludeGlobal);
    if !isMap {
      menu.AddSeparator();
      menu.AddHeader("#TheMap", "");
    }
    NumberItems(menu);
    items := menu.items;
  }

  /** What one entry of the standard list appends, given the pending flag. */
  function StepItems(o: Options, methods: set<string>, target: ObjRef, pending: bool): seq<Options> {
    if IsMarker(o) || !Included(o, methods) then []
    else (if pending then [SeparatorItem(target)] else []) + Contribution(o, target)
  }

  /** The pending flag after one entry of the standard list. */
  function StepPending(o: Options, methods: set<string>, pending: bool): bool {
    if IsMarker(o) then true else if Included(o, methods) then false else pending
  }

  lemma StandardItemsUnfold(std: seq<Options>, methods: set<string>, target: ObjRef, pending: bool)
    requires std != []
    ensures StandardItems(std, methods, target, pending)
         == StepItems(std[0], methods, target, pending)
            + StandardItems(std[1..], methods, target, StepPending(std[0], methods, pending))
  {
  }

  /** The loop of `addContextmenu` over the standard list, with its
      `addSeparator` flag. */
  method AppendStandardItems(menu: ContextmenuItems, std: seq<Options>, methods: set<string>)
    modifies menu
    ensures menu.items == old(menu.items) + StandardItems(std, methods, menu.defaultContext, false)
  {
    var addSeparator := false;
    for k := 0 to |std|
      invariant menu.items + StandardItems(std[k..], methods, menu.defaultContext, addSeparator)
             == old(menu.items) + StandardItems(std, methods, menu.defaultContext, false)
    {
      ghost var before := menu.items;
      ghost var flag := addSeparator;
      StandardItemsUnfold(std[k..], methods, menu.defaultContext, addSeparator);
      assert std[k..][0] == std[k];
      assert std[k..][1..] == std[k + 1..];
      addSeparator := AppendStandardItem(menu, std[k], methods, addSeparator);
      assert menu.items + StandardItems(std[k + 1..], methods, menu.defaultContext, addSeparator)
          == before + (StepItems(std[k], methods, menu.defaultContext, flag)
                       + StandardItems(std[k + 1..], methods, menu.defaultContext, addSeparator));
    }
    assert std[|std|..] == [];
  }

  /** One round of that loop. */
  method AppendStandardItem(menu: ContextmenuItems, o: Options, methods: set<string>, addSeparator: bool)
    returns (pending: bool)
    modifies menu
    ensures menu.items == old(menu.items) + StepItems(o, methods, menu.defaultContext, addSeparator)
    ensures pending == StepPending(o, methods, addSeparator)
  {
    pending := addSeparator;
    if IsMarker(o) {
      pending := true;
    } else if Included(o, methods) {
      if pending {
        menu.AddSeparator();
        pending := false;
      }
      if o.isCheckbox {
        menu.AddCheckbox(o);
      } else if o.isRadio {
        menu.AddRadioGroup(o);
      } else {
        menu.AddObject(o);
      }
    }
  }

  /** The loop of `addContextmenu` that writes `items[i].index = i`. */
  method NumberItems(menu: ContextmenuItems)
    modifies menu
    ensures menu.items == Numbered(old(menu.items))
  {
    for k := 0 to |menu.items|
      invariant |menu.items| == |old(menu.items)|
      invariant forall j :: 0 <= j < k ==> menu.items[j] == old(menu.items)[j].(index := j)
      invariant forall j :: k <= j < |menu.items| ==> menu.items[j] == old(menu.items)[j]
    {
      menu.items := menu.items[k := menu.items[k].(index := k)];
    }
  }
}
