/** The map's context-menu handler: `_show` gathers the items of the object
    that was right-clicked, of its chain of parents and (unless the click was
    on the map itself) of the map, copies them into one button group per
    object and opens a popup; `_hide` closes it and hides the cross marker. */
module ContextMenuPopup {
  import opened Common
  import opened BootstrapMenu

  /** The id a copied item gets: `null` without `onClick`, the item's own id
      when it has one, otherwise the generated `'itemId' + n`. */
  datatype ButtonId = NullId | KeptId(id: string) | Generated(counter: nat)

  /** The copied item's click handler: call the caller's function with the
      menu position, then hide the menu. */
  datatype Click = CallThenHide(fn: nat, at: LatLng)

  datatype Button = Button(id: ButtonId, text: string, icon: string, onClick: Option<Click>)

  /** One line of a button group: an object's header text, or a button. */
  datatype Entry = HeaderEntry(text: string) | ButtonEntry(button: Button)

  datatype Marker = Marker(at: LatLng, opacity: int)

  /** The popup: its width, one button group per object, its position, the
      object it belongs to (null when none) and whether it is open. */
  datatype Popup = Popup(width: int, content: seq<seq<Entry>>, at: LatLng, source: Host?, isOpen: bool)

  /** Copying this item consumes a generated id. */
  predicate Generates(item: MenuItem)
  {
    item.onClick.Some? && item.id == ""
  }

  /** The copy of one item, made while the id counter stands at `n`. */
  function CopyItem(item: MenuItem, n: nat, at: LatLng): (r: Button)
    ensures r.text == item.text && r.icon == item.icon
    ensures r.id == NullId <==> item.onClick.None?
    ensures r.onClick.None? <==> item.onClick.None?
    ensures r.id.Generated? <==> Generates(item)
    ensures Generates(item) ==> r.id == Generated(n)
    ensures item.onClick.Some? && item.id != "" ==> r.id == KeptId(item.id)
    ensures item.onClick.Some? ==> r.onClick == Some(CallThenHide(item.onClick.value, at))
  {
    if item.onClick.None? then
      Button(NullId, item.text, item.icon, None)
    else
      Button(if item.id != "" then KeptId(item.id) else Generated(n),
             item.text, item.icon, Some(CallThenHide(item.onClick.value, at)))
  }

  /** The id counter after copying `items` from counter `n`. */
  function NextId(items: seq<MenuItem>, n: nat): (r: nat)
    ensures n <= r <= n + |items|
  {
    if items == [] then n else NextId(items[1..], if Generates(items[0]) then n + 1 else n)
  }

  function CopyItems(items: seq<MenuItem>, n: nat, at: LatLng): (r: seq<Entry>)
    ensures |r| == |items|
    ensures forall k :: 0 <= k < |r| ==> r[k].ButtonEntry?
  {
    if items == [] then []
    else [ButtonEntry(CopyItem(items[0], n, at))]
         + CopyItems(items[1..], if Generates(items[0]) then n + 1 else n, at)
  }

  /** An object's header is shown when the menu has several objects and this
      one has items and a non-empty header. */
  predicate WantsHeader(o: MenuOptions, multi: bool)
  {
    multi && |o.items| > 0 && o.header != ""
  }

  /** The button group of one object. */
  function Group(o: MenuOptions, multi: bool, n: nat, at: LatLng): seq<Entry>
  {
    (if WantsHeader(o, multi) then [HeaderEntry(o.header)] else []) + CopyItems(o.items, n, at)
  }

  /** The id counter after copying the items of all of `opts`. */
  function NextIdAll(opts: seq<MenuOptions>, n: nat): (r: nat)
    ensures n <= r
  {
    if opts == [] then n else NextIdAll(opts[1..], NextId(opts[0].items, n))
  }

  /** The popup content: one group per object, the id counter running on
      from one object to the next. */
  function Content(opts: seq<MenuOptions>, multi: bool, n: nat, at: LatLng): (r: seq<seq<Entry>>)
    ensures |r| == |opts|
  {
    if opts == [] then []
    else [Group(opts[0], multi, n, at)] + Content(opts[1..], multi, NextId(opts[0].items, n), at)
  }

  /** The popup width: the largest of `w` and the objects' widths. */
  function MaxFrom(opts: seq<MenuOptions>, w: int): int
  {
    if opts == [] then w else MaxFrom(opts[1..], if opts[0].width > w then opts[0].width else w)
  }

  /** The options of every object of the list, in order. */
  function OptionsOf(objects: seq<Host>): (r: seq<MenuOptions>)
    reads objects
    requires forall i :: 0 <= i < |objects| ==> objects[i].contextmenuOptions.Some?
    ensures |r| == |objects|
    ensures forall i :: 0 <= i < |r| ==> r[i] == objects[i].contextmenuOptions.value
  {
    if objects == [] then [] else [objects[0].contextmenuOptions.value] + OptionsOf(objects[1..])
  }

  /** Group `i` of the content is object `i`'s group, copied with the id
      counter as it stands after the objects before it. */
  lemma {:induction false} ContentAt(opts: seq<MenuOptions>, multi: bool, n: nat, at: LatLng)
    ensures forall i :: 0 <= i < |opts| ==>
      Content(opts, multi, n, at)[i] == Group(opts[i], multi, NextIdAll(opts[..i], n), at)
    decreases |opts|
  {
    if opts != [] {
      ContentAt(opts[1..], multi, NextId(opts[0].items, n), at);
      forall i | 0 < i < |opts|
        ensures Content(opts, multi, n, at)[i] == Group(opts[i], multi, NextIdAll(opts[..i], n), at)
      {
        assert opts[..i][1..] == opts[1..][..i - 1];
      }
    }
  }

  /** Entry `k` of `es` is a button with generated id `c`. */
  predicate GenAt(es: seq<Entry>, k: int, c: nat)
  {
    0 <= k < |es| && es[k].ButtonEntry? && es[k].button.id == Generated(c)
  }

  /** Entry `k` of group `g` is a button with generated id `c`. */
  predicate GenIn(content: seq<seq<Entry>>, g: int, k: int, c: nat)
  {
    0 <= g < |content| && GenAt(content[g], k, c)
  }

  /** Item `k` is copied with the counter as it stands after the items before it. */
  lemma {:induction false} CopyItemsAt(items: seq<MenuItem>, n: nat, at: LatLng)
    ensures forall k :: 0 <= k < |items| ==>
      CopyItems(items, n, at)[k] == ButtonEntry(CopyItem(items[k], NextId(items[..k], n), at))
    decreases |items|
  {
    if items != [] {
      var n' := if Generates(items[0]) then n + 1 else n;
      CopyItemsAt(items[1..], n', at);
      forall k | 0 < k < |items|
        ensures CopyItems(items, n, at)[k] == ButtonEntry(CopyItem(items[k], NextId(items[..k], n), at))
      {
        assert items[..k][1..] == items[1..][..k - 1];
      }
    }
  }

  /** The generated ids of one object's items lie in [n, NextId) and rise
      strictly from item to item. */
  lemma {:induction false} CopyItemsIds(items: seq<MenuItem>, n: nat, at: LatLng)
    ensures forall k, c: nat :: GenAt(CopyItems(items, n, at), k, c) ==> n <= c < NextId(items, n)
    ensures forall k1, c1: nat, k2, c2: nat ::
      GenAt(CopyItems(items, n, at), k1, c1) && GenAt(CopyItems(items, n, at), k2, c2) && k1 < k2
      ==> c1 < c2
    decreases |items|
  {
    if items != [] {
      var r := CopyItems(items, n, at);
      var n' := if Generates(items[0]) then n + 1 else n;
      var r' := CopyItems(items[1..], n', at);
      CopyItemsIds(items[1..], n', at);
      assert r == [ButtonEntry(CopyItem(items[0], n, at))] + r';
      forall k, c: nat | GenAt(r, k, c) && k > 0
        ensures GenAt(r', k - 1, c)
      {
      }
      forall k, c: nat | GenAt(r, k, c) && k == 0
        ensures c == n && n < n'
      {
      }
    }
  }

  /** The same within one object's group, whose header (if any) has no id. */
  lemma GroupIds(o: MenuOptions, multi: bool, n: nat, at: LatLng)
    ensures forall k, c: nat :: GenAt(Group(o, multi, n, at), k, c) ==> n <= c < NextId(o.items, n)
    ensures forall k1, c1: nat, k2, c2: nat ::
      GenAt(Group(o, multi, n, at), k1, c1) && GenAt(Group(o, multi, n, at), k2, c2) && k1 < k2
      ==> c1 < c2
  {
    var g := Group(o, multi, n, at);
    var items := CopyItems(o.items, n, at);
    var h := if WantsHeader(o, multi) then 1 else 0;
    CopyItemsIds(o.items, n, at);
    forall k, c: nat | GenAt(g, k, c)
      ensures k >= h && GenAt(items, k - h, c)
    {
    }
  }

  /** Across the whole popup, generated ids rise strictly in reading order,
      so no two buttons share a generated id. */
  lemma {:induction false} ContentIds(opts: seq<MenuOptions>, multi: bool, n: nat, at: LatLng)
    ensures forall g, k, c: nat :: GenIn(Content(opts, multi, n, at), g, k, c) ==> n <= c < NextIdAll(opts, n)
    ensures forall g1, k1, c1: nat, g2, k2, c2: nat ::
      && GenIn(Content(opts, multi, n, at), g1, k1, c1)
      && GenIn(Content(opts, multi, n, at), g2, k2, c2)
      && (g1 < g2 || (g1 == g2 && k1 < k2))
      ==> c1 < c2
    decreases |opts|
  {
    if opts != [] {
      var r := Content(opts, multi, n, at);
      var n' := NextId(opts[0].items, n);
      var r' := Content(opts[1..], multi, n', at);
      ContentIds(opts[1..], multi, n', at);
      GroupIds(opts[0], multi, n, at);
      assert r == [Group(opts[0], multi, n, at)] + r';
      forall g, k, c: nat | GenIn(r, g, k, c) && g > 0
        ensures GenIn(r', g - 1, k, c)
      {
      }
    }
  }

  /** A group starts with a header exactly when `WantsHeader`; everything
      else in it is a button, one per item. */
  lemma GroupShape(o: MenuOptions, multi: bool, n: nat, at: LatLng)
    ensures var g := Group(o, multi, n, at);
      && |g| == |o.items| + (if WantsHeader(o, multi) then 1 else 0)
      && (WantsHeader(o, multi) <==> |g| > 0 && g[0] == HeaderEntry(o.header))
      && (forall k :: (if WantsHeader(o, multi) then 1 else 0) <= k < |g| ==> g[k].ButtonEntry?)
  {
  }

  /** The width is at least `w` and every object's width, and is one of them. */
  lemma {:induction false} MaxFromBounds(opts: seq<MenuOptions>, w: int)
    ensures MaxFrom(opts, w) >= w
    ensures forall k :: 0 <= k < |opts| ==> MaxFrom(opts, w) >= opts[k].width
    ensures MaxFrom(opts, w) == w || exists k :: 0 <= k < |opts| && MaxFrom(opts, w) == opts[k].width
    decreases |opts|
  {
    if opts != [] {
      var w' := if opts[0].width > w then opts[0].width else w;
      MaxFromBounds(opts[1..], w');
      var m := MaxFrom(opts, w);
      forall k | 0 < k < |opts|
        ensures m >= opts[k].width
      {
        assert opts[1..][k - 1] == opts[k];
      }
      if m != w' {
        var k :| 0 <= k < |opts[1..]| && m == opts[1..][k].width;
        assert m == opts[k + 1].width;
      }
    }
  }

  /** `chain` is `source` followed by its parents, parent by parent, up to
      the first object without one. */
  ghost predicate IsParentChain(chain: seq<Host>)
    reads chain
  {
    && |chain| > 0
    && (forall i :: 0 <= i < |chain| ==> chain[i].contextmenuOptions.Some?)
    && (forall i :: 0 <= i < |chain| - 1 ==> chain[i].contextmenuOptions.value.parent == chain[i + 1])
    && chain[|chain| - 1].contextmenuOptions.value.parent == null
  }

  /** An object has at most one parent chain. */
  lemma {:induction false} ChainUnique(c1: seq<Host>, c2: seq<Host>)
    requires IsParentChain(c1) && IsParentChain(c2) && c1[0] == c2[0]
    ensures c1 == c2
    decreases |c1|
  {
    assert |c2| > 1 ==> c2[0].contextmenuOptions.value.parent == c2[1];
    assert |c1| > 1 ==> c1[0].contextmenuOptions.value.parent == c1[1];
    assert |c1| == 1 <==> |c2| == 1;
    if |c1| > 1 {
      ChainUnique(c1[1..], c2[1..]);
      assert c1 == [c1[0]] + c1[1..];
      assert c2 == [c2[0]] + c2[1..];
    }
  }

  /** The objects whose items the menu shows: the source, its parents, and
      the map last unless the click was on the map itself. */
  method BuildObjectList(source: Host, theMap: Host, firedOnMap: bool, ghost chain: seq<Host>)
    returns (objects: seq<Host>)
    requires IsParentChain(chain) && chain[0] == source
    ensures objects == chain + (if firedOnMap then [] else [theMap])
  {
    objects := [source];
    var parent := source.contextmenuOptions.value.parent;
    var i := 1;
    while parent != null
      invariant 1 <= i <= |chain|
      invariant objects == chain[..i]
      invariant parent == (if i < |chain| then chain[i] else null)
      decreases |chain| - i
    {
      objects := objects + [parent];
      parent := parent.contextmenuOptions.value.parent;
      i := i + 1;
    }
    assert objects == chain;
    if !firedOnMap {
      objects := objects + [theMap];
    }
  }

  /** One object's button group, and the id counter after it. */
  method CopyGroup(o: MenuOptions, multi: bool, n: nat, at: LatLng)
    returns (list: seq<Entry>, next: nat)
    ensures list == Group(o, multi, n, at)
    ensures next == NextId(o.items, n)
  {
    list := if multi && |o.items| > 0 && o.header != "" then [HeaderEntry(o.header)] else [];
    next := n;
    var j := 0;
    while j < |o.items|
      invariant 0 <= j <= |o.items|
      invariant list + CopyItems(o.items[j..], next, at) == Group(o, multi, n, at)
      invariant NextId(o.items[j..], next) == NextId(o.items, n)
    {
      var item := o.items[j];
      assert o.items[j..][1..] == o.items[j + 1..];
      var id := if item.onClick.None? then NullId
                else if item.id != "" then KeptId(item.id)
                else Generated(next);
      if item.onClick.Some? && item.id == "" {
        next := next + 1;
      }
      var click := if item.onClick.Some? then Some(CallThenHide(item.onClick.value, at)) else None;
      list := list + [ButtonEntry(Button(id, item.text, item.icon, click))];
      j := j + 1;
    }
  }

  /** All groups and the popup width, starting the width at 100 and the id
      counter at 0. */
  method ComposeContent(objects: seq<Host>, at: LatLng)
    returns (content: seq<seq<Entry>>, width: int)
    requires forall i :: 0 <= i < |objects| ==> objects[i].contextmenuOptions.Some?
    ensures content == Content(OptionsOf(objects), |objects| > 1, 0, at)
    ensures width == MaxFrom(OptionsOf(objects), 100)
  {
    ghost var opts := OptionsOf(objects);
    var multi := |objects| > 1;
    content := [];
    width := 100;
    var next := 0;
    var i := 0;
    while i < |objects|
      invariant 0 <= i <= |objects|
      invariant content + Content(opts[i..], multi, next, at) == Content(opts, multi, 0, at)
      invariant MaxFrom(opts[i..], width) == MaxFrom(opts, 100)
    {
      var o := objects[i].contextmenuOptions.value;
      assert opts[i..][0] == o && opts[i..][1..] == opts[i + 1..];
      width := if o.width > width then o.width else width;
      var list;
      list, next := CopyGroup(o, multi, next, at);
      content := content + [list];
      i := i + 1;
    }
  }

  /** Where the menu opens: at the object's own single position when it was
      clicked on and has one, otherwise where the mouse was. */
  function Anchor(latlng: LatLng, source: Host, firedOnMap: bool): (r: LatLng)
    ensures !firedOnMap && source.position.Some? ==> r == source.position.value
    ensures firedOnMap || source.position.None? ==> r == latlng
  {
    if !firedOnMap && source.position.Some? then source.position.value else latlng
  }

  /** The map's context-menu handler, with its cross marker and its popup. */
  class ContextMenu {
    const theMap: Host
    var marker: Option<Marker>
    var popup: Option<Popup>

    constructor (theMap: Host)
      ensures this.theMap == theMap && marker == None && popup == None
    {
      this.theMap := theMap;
      marker := None;
      popup := None;
    }

    /** `_show`. `chain` is the source's parent chain, which the loop over
        parents walks (and which `ChainUnique` shows is determined by the
        source). The popup always opens, because every object contributes a
        group, possibly empty; the marker is visible only when the click
        was on the map itself. */
    method Show(latlng: LatLng, calledFrom: Host?, firedOnMap: bool, ghost chain: seq<Host>)
      requires IsParentChain(chain)
      requires chain[0] == (if calledFrom != null then calledFrom else theMap)
      requires !firedOnMap ==> theMap.contextmenuOptions.Some?
      modifies this`marker, this`popup
      ensures var source := chain[0];
              var at := Anchor(latlng, source, firedOnMap);
              var objects := chain + (if firedOnMap then [] else [theMap]);
              && marker == Some(Marker(at, if firedOnMap then 100 else 0))
              && popup == Some(Popup(MaxFrom(OptionsOf(objects), 100),
                                     Content(OptionsOf(objects), |objects| > 1, 0, at),
                                     at, if !firedOnMap && source.position.Some? then source else null,
                                     true))
    {
      var source := if calledFrom != null then calledFrom else theMap;
      var at := Anchor(latlng, source, firedOnMap);
      var objects := BuildObjectList(source, theMap, firedOnMap, chain);
      var content, width := ComposeContent(objects, at);
      marker := Some(Marker(at, if firedOnMap && |content| > 0 then 100 else 0));
      var popupSource := if firedOnMap then null else if source.position.Some? then source else null;
      popup := Some(Popup(width, content, at, popupSource, true));
    }

    /** `_hide`: close the popup if it is open and make the marker invisible. */
    method Hide()
      modifies this`marker, this`popup
      ensures popup == (if old(popup).Some? then Some(old(popup).value.(isOpen := false)) else None)
      ensures marker == (if old(marker).Some? then Some(old(marker).value.(opacity := 0)) else None)
    {
      if popup.Some? && popup.value.isOpen {
        popup := Some(popup.value.(isOpen := false));
      }
      if marker.Some? {
        marker := Some(marker.value.(opacity := 0));
      }
    }
  }
}
