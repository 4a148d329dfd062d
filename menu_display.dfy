/** What happens to the rendered menu: the show-time pass over its elements
    (`onContextmenuShow` with `updateContextmenuElement`), and the checkbox
    and radio click handlers. An element is the rendered item: its `data`
    record, its kind, and the state the source keeps in the DOM (display,
    disabled, the 'selected' class and the plain/checked icon classes). */
module MenuDisplay {
  import opened Common
  import opened MenuItems
  import opened StandardMenu

  datatype Element = Element(
    data: Data,
    isSeparator: bool,
    isHeader: bool,
    visible: bool,
    disabled: bool,
    selected: bool,
    plainIcon: bool,
    checkedIcon: bool)

  /** The answers of the target's `selected` and `status` functions, called
      with the handler stored in `data` and the argument the source passes.
      A status of "" stands for any falsy answer (no function, null, ''). */
  datatype Target = Target(
    checkboxSelected: (Handler, Option<string>) -> bool,
    radioSelected: (Handler, Option<string>) -> Option<string>,
    status: (Handler, Option<string>) -> string)

  /** `status || 'enabled'`. */
  function EffectiveStatus(answer: string): (r: string)
    ensures answer == "" ==> r == "enabled"
    ensures answer != "" ==> r == answer
  {
    if answer == "" then "enabled" else answer
  }

  /** The icon classes agree with the 'selected' class. */
  predicate IconsAgree(e: Element) {
    e.plainIcon == !e.selected && e.checkedIcon == e.selected
  }

  /** Sets 'selected' and the matching icon classes. */
  function Mark(e: Element, selected: bool): (r: Element)
    ensures r.selected == selected && IconsAgree(r)
    ensures r.data == e.data && r.visible == e.visible && r.disabled == e.disabled
    ensures r.isSeparator == e.isSeparator && r.isHeader == e.isHeader
  {
    e.(selected := selected, plainIcon := !selected, checkedIcon := selected)
  }

  /** `updateContextmenuElement`: refresh a checkbox or radio from the
      target's `selected`, then set display and disabled from the status. */
  function UpdateElement(e: Element, t: Target): (r: Element)
    ensures var st := EffectiveStatus(t.status(e.data.status, e.data.id));
            && (r.visible <==> st != "hidden")
            && (r.disabled <==> st == "disabled")
    ensures e.data.dataType == CheckboxType ==>
              IconsAgree(r) && r.selected == t.checkboxSelected(e.data.selected, e.data.id)
    ensures e.data.dataType == RadioType ==>
              IconsAgree(r) && (r.selected <==> t.radioSelected(e.data.selected, e.data.groupId) == e.data.id)
    ensures e.data.dataType == Untyped ==>
              r.selected == e.selected && r.plainIcon == e.plainIcon && r.checkedIcon == e.checkedIcon
    ensures r.data == e.data && r.isSeparator == e.isSeparator && r.isHeader == e.isHeader
  {
    var e1 :=
      (match e.data.dataType
       case CheckboxType => Mark(e, t.checkboxSelected(e.data.selected, e.data.id))
       case RadioType => Mark(e, t.radioSelected(e.data.selected, e.data.groupId) == e.data.id)
       case Untyped => e);
    var st := EffectiveStatus(t.status(e.data.status, e.data.id));
    e1.(visible := st != "hidden", disabled := st == "disabled")
  }

  /** The ids of the rendered elements. */
  function IdsOf(es: seq<Element>): seq<Option<string>> {
    seq(|es|, k requires 0 <= k < |es| => es[k].data.id)
  }

  /** The truthy ids among `ids`, in order (the `globalId` list). */
  function TruthyIds(ids: seq<Option<string>>): (r: seq<string>)
    ensures forall x :: x in r <==> x != "" && Some(x) in ids
  {
    if ids == [] then []
    else
      var rest := TruthyIds(ids[..|ids| - 1]);
      var last := ids[|ids| - 1];
      assert ids == ids[..|ids| - 1] + [last];
      if last.Some? && last.value != "" then rest + [last.value] else rest
  }

  /** `hideGlobalId`: every global id when `excludeGlobal` is `true`, otherwise the given list. */
  function HideIds(exclude: Exclude, globalIds: seq<string>): (r: seq<string>)
    ensures exclude.ExcludeAll? ==> r == globalIds
    ensures exclude.ExcludeIds? ==> r == exclude.ids
  {
    match exclude
    case ExcludeAll => globalIds
    case ExcludeIds(ids) => ids
  }

  /** `$.inArray(id, hideGlobalId) != -1`; an element without id is never excluded. */
  predicate IsExcluded(id: Option<string>, hidden: seq<string>) {
    id.Some? && id.value in hidden
  }

  /** The loop that collects the map's global ids from its first `count` elements. */
  method CollectGlobalIds(a: array<Element>, count: nat) returns (ids: seq<string>)
    requires count <= a.Length
    ensures ids == TruthyIds(IdsOf(a[..count]))
    ensures forall x :: x in ids <==> exists k :: 0 <= k < count && a[k].data.id == Some(x) && x != ""
  {
    ids := [];
    for k := 0 to count
      invariant ids == TruthyIds(IdsOf(a[..k]))
    {
      assert IdsOf(a[..k + 1])[..k] == IdsOf(a[..k]);
      if a[k].data.id.Some? && a[k].data.id.value != "" {
        ids := ids + [a[k].data.id.value];
      }
    }
    assert a[..count] == a[..count];
    forall x ensures x in ids <==> exists k :: 0 <= k < count && a[k].data.id == Some(x) && x != "" {
      if x in ids {
        var k :| 0 <= k < count && IdsOf(a[..count])[k] == Some(x);
        assert a[k].data.id == Some(x);
      }
      if exists k :: 0 <= k < count && a[k].data.id == Some(x) && x != "" {
        var k :| 0 <= k < count && a[k].data.id == Some(x) && x != "";
        assert IdsOf(a[..count])[k] == Some(x);
      }
    }
  }

  // ---- the separator pass ----

  /** The last visible element of `s`. */
  function LastVisible(s: seq<Element>): Option<Element> {
    if s == [] then None
    else if s[|s| - 1].visible then Some(s[|s| - 1])
    else LastVisible(s[..|s| - 1])
  }

  /** A visible separator may follow `prev` only if `prev` is a visible item
      that is neither a separator nor a header. */
  predicate SeparatorAllowedAfter(prev: Option<Element>) {
    prev.Some? && !prev.value.isSeparator && !prev.value.isHeader
  }

  /** No visible separator comes first, or right after a visible separator or header. */
  predicate WellSeparated(s: seq<Element>) {
    forall j :: 0 <= j < |s| && s[j].visible && s[j].isSeparator ==> SeparatorAllowedAfter(LastVisible(s[..j]))
  }

  /** The `lastWasSeperator` walk: hide a visible separator when the last
      visible element was a separator or a header (or there was none). */
  function Collapse(s: seq<Element>, lastWasSeparator: bool): seq<Element>
    decreases |s|
  {
    if s == [] then []
    else
      var e := s[0];
      if !e.visible then [e] + Collapse(s[1..], lastWasSeparator)
      else if e.isSeparator then
        [if lastWasSeparator then e.(visible := false) else e] + Collapse(s[1..], true)
      else [e] + Collapse(s[1..], e.isHeader)
  }

  lemma LastVisibleAppend(p: seq<Element>, x: Element)
    ensures LastVisible(p + [x]) == if x.visible then Some(x) else LastVisible(p)
  {
    assert (p + [x])[..|p|] == p;
  }

  /** Appending an element keeps a prefix well separated unless it is a
      visible separator that may not follow the prefix. */
  lemma WellSeparatedAppend(p: seq<Element>, x: Element)
    requires WellSeparated(p)
    requires x.visible && x.isSeparator ==> SeparatorAllowedAfter(LastVisible(p))
    ensures WellSeparated(p + [x])
  {
    var p' := p + [x];
    forall j | 0 <= j < |p'| && p'[j].visible && p'[j].isSeparator
      ensures SeparatorAllowedAfter(LastVisible(p'[..j]))
    {
      if j < |p| {
        assert p'[..j] == p[..j];
      } else {
        assert p'[..j] == p;
      }
    }
  }

  /** `y` is `e` as the walk leaves it after the prefix `q`: unchanged, or a
      visible separator hidden because it may not follow `q`. */
  predicate KeptOrRedundant(q: seq<Element>, e: Element, y: Element) {
    || y == e
    || (&& e.visible && e.isSeparator && y == e.(visible := false)
        && !SeparatorAllowedAfter(LastVisible(q)))
  }

  /** One step of the walk after a well-separated prefix keeps it well
      separated, keeps the flag describing it, and hides only a redundant
      separator. */
  lemma StepFacts(p: seq<Element>, e: Element, last: bool)
    requires WellSeparated(p)
    requires last <==> !SeparatorAllowedAfter(LastVisible(p))
    ensures WellSeparated(p + [StepElement(e, last)])
    ensures StepFlag(e, last) <==> !SeparatorAllowedAfter(LastVisible(p + [StepElement(e, last)]))
    ensures KeptOrRedundant(p, e, StepElement(e, last))
  {
    LastVisibleAppend(p, StepElement(e, last));
    WellSeparatedAppend(p, StepElement(e, last));
  }

  /** The per-element fact for the head and for the rest combine. */
  lemma KeptShift(p: seq<Element>, x: Element, s: seq<Element>, rest: seq<Element>)
    requires |s| == |rest| + 1
    requires KeptOrRedundant(p, s[0], x)
    requires forall k :: 0 <= k < |rest| ==> KeptOrRedundant(p + [x] + rest[..k], s[1..][k], rest[k])
    ensures forall k :: 0 <= k < |s| ==> KeptOrRedundant(p + ([x] + rest)[..k], s[k], ([x] + rest)[k])
  {
    var r := [x] + rest;
    forall k | 0 <= k < |s|
      ensures KeptOrRedundant(p + r[..k], s[k], r[k])
    {
      if k == 0 {
        assert p + r[..0] == p;
      } else {
        assert p + r[..k] == p + [x] + rest[..k - 1];
        assert s[k] == s[1..][k - 1] && r[k] == rest[k - 1];
      }
    }
  }

  /** The walk, started after a well-separated prefix `p` with the flag that
      describes `p`, only hides separators, each of them redundant where it
      stands, and leaves the whole well separated. */
  lemma {:induction false} CollapseFrom(p: seq<Element>, s: seq<Element>, last: bool)
    requires WellSeparated(p)
    requires last <==> !SeparatorAllowedAfter(LastVisible(p))
    ensures |Collapse(s, last)| == |s|
    ensures WellSeparated(p + Collapse(s, last))
    ensures forall k :: 0 <= k < |s| ==>
              KeptOrRedundant(p + Collapse(s, last)[..k], s[k], Collapse(s, last)[k])
    decreases |s|
  {
    if s == [] {
      assert p + Collapse(s, last) == p;
    } else {
      var x := StepElement(s[0], last);
      var last' := StepFlag(s[0], last);
      var rest := Collapse(s[1..], last');
      CollapseUnfold(s, last);
      StepFacts(p, s[0], last);
      CollapseFrom(p + [x], s[1..], last');
      assert p + ([x] + rest) == p + [x] + rest;
      KeptShift(p, x, s, rest);
    }
  }

  /** The walk from the start of the menu leaves no visible separator first or
      right after a visible separator or header, and it hides nothing but
      such separators. */
  lemma CollapseWellSeparated(s: seq<Element>)
    ensures |Collapse(s, true)| == |s|
    ensures WellSeparated(Collapse(s, true))
    ensures forall k :: 0 <= k < |s| ==> KeptOrRedundant(Collapse(s, true)[..k], s[k], Collapse(s, true)[k])
  {
    CollapseFrom([], s, true);
    assert [] + Collapse(s, true) == Collapse(s, true);
    forall k | 0 <= k < |s| ensures [] + Collapse(s, true)[..k] == Collapse(s, true)[..k] { }
  }

  // ---- the show pass ----

  /** `showAllItems`. */
  function ShowAll(es: seq<Element>): seq<Element> {
    seq(|es|, k requires 0 <= k < |es| => es[k].(visible := true))
  }

  /** The exclusion loop: display off iff the id is excluded. */
  function ApplyExclusion(e: Element, hidden: seq<string>): Element {
    e.(visible := !IsExcluded(e.data.id, hidden))
  }

  /** The refresh of one element as intended: the status may hide it, and an
      element the exclusion loop hid stays hidden. */
  function Refresh(e: Element, t: Target): Element {
    var u := UpdateElement(e, t);
    u.(visible := u.visible && e.visible)
  }

  /** The ids to hide for this show, from the map's first `globalCount` elements. */
  function HideFor(es: seq<Element>, exclude: Exclude, globalCount: nat): seq<string>
    requires globalCount <= |es|
  {
    HideIds(exclude, TruthyIds(IdsOf(es[..globalCount])))
  }

  /** The exclusion loop over all elements. */
  function ExcludeAllOf(es: seq<Element>, hidden: seq<string>): seq<Element> {
    seq(|es|, k requires 0 <= k < |es| => ApplyExclusion(es[k], hidden))
  }

  /** The refresh of every element. */
  function RefreshAll(es: seq<Element>, t: Target): seq<Element> {
    seq(|es|, k requires 0 <= k < |es| => Refresh(es[k], t))
  }

  /** `onContextmenuShow` on the menu's elements as intended. `onMap` says the
      target is on a map; `globalCount` is the map's `individuelItems`. */
  function ShowPass(es: seq<Element>, onMap: bool, exclude: Exclude, globalCount: nat, t: Target): (r: seq<Element>)
    requires globalCount <= |es|
    ensures |r| == |es|
    ensures forall k :: 0 <= k < |es| ==> r[k].data == es[k].data && r[k].isSeparator == es[k].isSeparator
    ensures forall k :: 0 <= k < |es| ==> r[k].isHeader == es[k].isHeader
    ensures !onMap ==> forall k :: 0 <= k < |es| ==> r[k] == es[k].(visible := true)
  {
    if !onMap then ShowAll(es)
    else
      var hidden := HideFor(es, exclude, globalCount);
      var refreshed := RefreshAll(ExcludeAllOf(es, hidden), t);
      CollapseWellSeparated(refreshed);
      Collapse(refreshed, true)
  }

  /** After the intended pass an element is visible only if it is not
      excluded and its status is not 'hidden'; every other non-separator is
      visible; the result is well separated. */
  lemma ShowPassVisibility(es: seq<Element>, exclude: Exclude, globalCount: nat, t: Target)
    requires globalCount <= |es|
    ensures var r := ShowPass(es, true, exclude, globalCount, t);
            var hidden := HideFor(es, exclude, globalCount);
            && |r| == |es|
            && WellSeparated(r)
            && forall k :: 0 <= k < |es| ==>
                 var shown := !IsExcluded(es[k].data.id, hidden)
                              && EffectiveStatus(t.status(es[k].data.status, es[k].data.id)) != "hidden";
                 && (r[k].visible ==> shown)
                 && (shown && !es[k].isSeparator ==> r[k].visible)
                 && r[k].data == es[k].data
  {
    var hidden := HideFor(es, exclude, globalCount);
    CollapseWellSeparated(RefreshAll(ExcludeAllOf(es, hidden), t));
  }

  /** `onContextmenuShow` as the source has it: `updateContextmenuElement`
      rewrites every element's display from its status alone. */
  function ShowPassAsWritten(es: seq<Element>, onMap: bool, exclude: Exclude, globalCount: nat,
                             t: Target): (r: seq<Element>)
    requires globalCount <= |es|
    ensures |r| == |es|
    ensures forall k :: 0 <= k < |es| ==> r[k].data == es[k].data && r[k].isSeparator == es[k].isSeparator
    ensures forall k :: 0 <= k < |es| ==> r[k].isHeader == es[k].isHeader
    ensures !onMap ==> forall k :: 0 <= k < |es| ==> r[k] == es[k].(visible := true)
  {
    if !onMap then ShowAll(es)
    else
      var hidden := HideFor(es, exclude, globalCount);
      var updated := seq(|es|, k requires 0 <= k < |es| => UpdateElement(ApplyExclusion(es[k], hidden), t));
      CollapseWellSeparated(updated);
      Collapse(updated, true)
  }

  /** As written, `excludeGlobal` has no effect on the shown menu. */
  lemma ExclusionIgnoredAsWritten(es: seq<Element>, exclude: Exclude, globalCount: nat, t: Target)
    requires globalCount <= |es|
    ensures ShowPassAsWritten(es, true, exclude, globalCount, t)
         == ShowPassAsWritten(es, true, ExcludeIds([]), globalCount, t)
  {
    var h1 := HideFor(es, exclude, globalCount);
    var h2 := HideFor(es, ExcludeIds([]), globalCount);
    var s1 := seq(|es|, k requires 0 <= k < |es| => UpdateElement(ApplyExclusion(es[k], h1), t));
    var s2 := seq(|es|, k requires 0 <= k < |es| => UpdateElement(ApplyExclusion(es[k], h2), t));
    assert s1 == s2;
  }

  /** An item whose id is excluded and whose status is enabled: the source
      shows it, the intended pass hides it. */
  lemma ExcludedItemShownAsWritten()
    ensures var e := Element(EmptyData.(id := Some("addMarker")), false, false, false, false, false, false, false);
            var t := Target((h, id) => false, (h, g) => None, (h, id) => "");
            && ShowPassAsWritten([e], true, ExcludeIds(["addMarker"]), 0, t)[0].visible
            && !ShowPass([e], true, ExcludeIds(["addMarker"]), 0, t)[0].visible
  {
  }

  /** `onContextmenuShow` over the menu's element array, as intended (an
      excluded element stays hidden). */
  method OnContextmenuShow(a: array<Element>, onMap: bool, exclude: Exclude, globalCount: nat, t: Target)
    requires globalCount <= a.Length
    modifies a
    ensures a[..] == ShowPass(old(a[..]), onMap, exclude, globalCount, t)
  {
    ghost var es := a[..];
    ShowAllItems(a);
    if !onMap {
      return;
    }
    var globalIds := CollectGlobalIds(a, globalCount);
    assert IdsOf(a[..globalCount]) == IdsOf(es[..globalCount]);
    var hidden := HideIds(exclude, globalIds);
    assert hidden == HideFor(es, exclude, globalCount);
    HideExcluded(a, hidden);
    assert a[..] == ExcludeAllOf(es, hidden);
    RefreshAndCollapse(a, t);
  }

  method ShowAllItems(a: array<Element>)
    modifies a
    ensures a[..] == ShowAll(old(a[..]))
  {
    for k := 0 to a.Length
      invariant forall j :: 0 <= j < k ==> a[j] == old(a[j]).(visible := true)
      invariant forall j :: k <= j < a.Length ==> a[j] == old(a[j])
    {
      a[k] := a[k].(visible := true);
    }
  }

  method HideExcluded(a: array<Element>, hidden: seq<string>)
    modifies a
    ensures a[..] == ExcludeAllOf(old(a[..]), hidden)
  {
    for k := 0 to a.Length
      invariant forall j :: 0 <= j < k ==> a[j] == ApplyExclusion(old(a[j]), hidden)
      invariant forall j :: k <= j < a.Length ==> a[j] == old(a[j])
    {
      a[k] := ApplyExclusion(a[k], hidden);
    }
  }

  /** One step of the separator walk: the element as it is left ... */
  function StepElement(e: Element, lastWasSeparator: bool): Element {
    if e.visible && e.isSeparator && lastWasSeparator then e.(visible := false) else e
  }

  /** ... and the flag after it. */
  function StepFlag(e: Element, lastWasSeparator: bool): bool {
    if !e.visible then lastWasSeparator else if e.isSeparator then true else e.isHeader
  }

  lemma CollapseUnfold(s: seq<Element>, last: bool)
    requires s != []
    ensures Collapse(s, last) == [StepElement(s[0], last)] + Collapse(s[1..], StepFlag(s[0], last))
  {
  }

  lemma CollapseAdvance(done: seq<Element>, s: seq<Element>, k: nat, flag: bool)
    requires k < |s|
    requires done + Collapse(s[k..], flag) == Collapse(s, true)
    ensures (done + [StepElement(s[k], flag)]) + Collapse(s[k + 1..], StepFlag(s[k], flag)) == Collapse(s, true)
  {
    CollapseUnfold(s[k..], flag);
    assert s[k..][0] == s[k] && s[k..][1..] == s[k + 1..];
  }

  /** The body of the second loop for one element. */
  method RefreshElement(e: Element, t: Target, lastWasSeparator: bool) returns (u: Element, last: bool)
    ensures u == StepElement(Refresh(e, t), lastWasSeparator)
    ensures last == StepFlag(Refresh(e, t), lastWasSeparator)
  {
    u := UpdateElement(e, t);
    u := u.(visible := u.visible && e.visible);
    last := lastWasSeparator;
    if u.visible {
      if u.isSeparator {
        if last {
          u := u.(visible := false);
        } else {
          last := true;
        }
      } else {
        last := u.isHeader;
      }
    }
  }

  /** The second loop: refresh each element, then drop redundant separators. */
  method RefreshAndCollapse(a: array<Element>, t: Target)
    modifies a
    ensures a[..] == Collapse(RefreshAll(old(a[..]), t), true)
  {
    ghost var s := RefreshAll(a[..], t);
    ghost var original := a[..];
    var lastWasSeparator := true;
    for k := 0 to a.Length
      invariant a[..k] + Collapse(s[k..], lastWasSeparator) == Collapse(s, true)
      invariant forall j :: k <= j < a.Length ==> a[j] == original[j]
    {
      ghost var flag := lastWasSeparator;
      ghost var done := a[..k];
      assert s[k] == Refresh(a[k], t);
      var u;
      u, lastWasSeparator := RefreshElement(a[k], t, lastWasSeparator);
      CollapseAdvance(done, s, k, flag);
      a[k] := u;
      assert a[..k + 1] == done + [u];
    }
    assert s[a.Length..] == [];
    assert a[..a.Length] == a[..];
  }

  // ---- clicks ----

  /** The call the click handlers make to the item's `onSelect`. */
  datatype SelectCall =
    | CheckboxSelect(onSelect: Handler, id: Option<string>, selected: bool)
    | RadioSelect(onSelect: Handler, selectedId: Option<string>, groupId: Option<string>)

  /** The checkbox click: flip 'selected' and keep the icon classes in step. */
  function CheckboxToggle(e: Element): (r: Element)
    ensures r.selected == !e.selected && IconsAgree(r)
    ensures r.data == e.data && r.visible == e.visible && r.disabled == e.disabled
    ensures r.isSeparator == e.isSeparator && r.isHeader == e.isHeader
  {
    Mark(e, !e.selected)
  }

  /** Two clicks on a checkbox whose icons agree with it restore it. */
  lemma CheckboxToggleTwice(e: Element)
    requires IconsAgree(e)
    ensures CheckboxToggle(CheckboxToggle(e)) == e
  {
  }

  /** `defaultContextmenuCheckboxCallback` on element `c` of the menu. */
  method CheckboxClick(a: array<Element>, c: nat) returns (call: SelectCall)
    requires c < a.Length
    modifies a
    ensures a[..] == old(a[..])[c := CheckboxToggle(old(a[c]))]
    ensures call == CheckboxSelect(old(a[c]).data.onSelect, old(a[c]).data.id, !old(a[c]).selected)
  {
    var selected := !a[c].selected;
    a[c] := Mark(a[c], selected);
    call := CheckboxSelect(a[c].data.onSelect, a[c].data.id, selected);
  }

  /** An element of the menu's anchor list (`siblings('a').addBack()`):
      separators are not anchors. */
  predicate IsAnchor(e: Element) {
    !e.isSeparator
  }

  /** The radio click's update of one element: within the group, selected
      iff its id is the clicked id; any other element is untouched. */
  function RadioUpdate(e: Element, clickedId: Option<string>, groupId: Option<string>): (r: Element)
    ensures IsAnchor(e) && e.data.groupId == groupId ==>
              IconsAgree(r) && (r.selected <==> e.data.id == clickedId)
    ensures !(IsAnchor(e) && e.data.groupId == groupId) ==> r == e
    ensures r.data == e.data && r.visible == e.visible && r.disabled == e.disabled
    ensures r.isSeparator == e.isSeparator && r.isHeader == e.isHeader
  {
    if IsAnchor(e) && e.data.groupId == groupId then Mark(e, e.data.id == clickedId) else e
  }

  /** Within a group whose ids are distinct, a radio click leaves exactly the
      clicked element selected. */
  lemma RadioClickSelectsOne(es: seq<Element>, c: nat)
    requires c < |es| && IsAnchor(es[c])
    requires forall i, j ::
               && 0 <= i < j < |es| && IsAnchor(es[i]) && IsAnchor(es[j])
               && es[i].data.groupId == es[j].data.groupId
               ==> es[i].data.id != es[j].data.id
    ensures var r := seq(|es|, k requires 0 <= k < |es| => RadioUpdate(es[k], es[c].data.id, es[c].data.groupId));
            && r[c].selected
            && forall k ::
                 && 0 <= k < |es| && k != c && IsAnchor(es[k])
                 && es[k].data.groupId == es[c].data.groupId
                 ==> !r[k].selected
  {
  }

  /** `defaultContextmenuRadioCallback` on element `c` of the menu. */
  method RadioClick(a: array<Element>, c: nat) returns (call: SelectCall)
    requires c < a.Length && IsAnchor(a[c])
    modifies a
    ensures a[..] == seq(a.Length, k requires 0 <= k < a.Length =>
                       RadioUpdate(old(a[k]), old(a[c]).data.id, old(a[c]).data.groupId))
    ensures call == RadioSelect(old(a[c]).data.onSelect, old(a[c]).data.id, old(a[c]).data.groupId)
  {
    var selectedId, groupId, onSelect := a[c].data.id, a[c].data.groupId, a[c].data.onSelect;
    for k := 0 to a.Length
      invariant forall j :: 0 <= j < k ==> a[j] == RadioUpdate(old(a[j]), selectedId, groupId)
      invariant forall j :: k <= j < a.Length ==> a[j] == old(a[j])
    {
      if IsAnchor(a[k]) && a[k].data.groupId == groupId {
        a[k] := Mark(a[k], a[k].data.id == selectedId);
      }
    }
    call := RadioSelect(onSelect, selectedId, groupId);
  }
}
