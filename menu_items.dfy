/** The menu-item list builder `L.ContextmenuItems`: every `add*` call
    normalises an options record and appends it to `items`.

    Host objects (the default context, the objects owning callbacks) are
    opaque references; callbacks are opaque handler tokens. */
module MenuItems {
  import opened Common

  /** An opaque reference to a host object (a layer, the map, a context). */
  datatype ObjRef = ObjRef(token: nat)

  /** What a callback slot may hold: nothing, a method name looked up on the
      context, a function value, or one of the three dispatchers the builder
      installs. */
  datatype Handler =
    | Absent
    | Named(name: string)
    | Fn(token: nat)
    | DefaultCallback
    | CheckboxCallback
    | RadioCallback

  /** JavaScript truthiness of a handler slot (`null`, `undefined` and `''` are falsy). */
  predicate Truthy(h: Handler) {
    !h.Absent? && !(h.Named? && h.name == "")
  }

  datatype DataType = Untyped | CheckboxType | RadioType

  /** The `data` record kept with an item; the rendered element carries it. */
  datatype Data = Data(
    id: Option<string>,
    status: Handler,
    callback: Handler,
    dataType: DataType,
    onSelect: Handler,
    selected: Handler,
    groupId: Option<string>)

  const EmptyData := Data(None, Absent, Absent, Untyped, Absent, Absent, None)

  /** One `{id, text}` entry of a radio group's `items`. */
  datatype RadioEntry = RadioEntry(id: Option<string>, text: string)

  /** An options record as passed to `add` and kept in `items`. An absent
      `index` is 0: the only read of an unset index is `index || …`. */
  datatype Options = Options(
    id: Option<string>,
    text: string,
    icon: string,
    header: bool,
    separator: bool,
    isCheckbox: bool,
    isRadio: bool,
    callback: Handler,
    context: Option<ObjRef>,
    status: Handler,
    onSelect: Handler,
    selected: Handler,
    groupId: Option<string>,
    radioItems: seq<RadioEntry>,
    data: Option<Data>,
    index: int)

  const Blank := Options(None, "", "", false, false, false, false, Absent, None, Absent,
                         Absent, Absent, None, [], None, 0)

  /** `{separator: true}`, what `addSeparator` passes to `add`. */
  const SeparatorOptions := Blank.(separator := true)

  /** `{id: '', text, icon, header: true}`, what `addHeader` passes to `add`. */
  function HeaderOptions(text: string, icon: string): Options {
    Blank.(id := Some(""), text := text, icon := icon, header := true)
  }

  /** A normal item: neither header, separator, checkbox nor radio. */
  predicate IsNormal(o: Options) {
    !o.header && !o.separator && !o.isCheckbox && !o.isRadio
  }

  /** The object branch of `add`: save the id in `data`, move a given status
      into `data`, default the context, and for a normal item replace the
      callback by the default dispatcher, keeping the original in `data`. */
  function Normalise(o: Options, defaultContext: ObjRef): (r: Options)
    ensures r.data.Some? && r.data.value.id == o.id
    ensures Truthy(o.status) ==> r.data.value.status == o.status && r.status == Absent
    ensures !Truthy(o.status) ==>
              r.status == o.status && r.data.value.status == o.data.GetOr(EmptyData).status
    ensures IsNormal(o) ==>
              r.data.value.callback == o.callback && r.callback == DefaultCallback
    ensures !IsNormal(o) ==>
              r.callback == o.callback && r.data.value.callback == o.data.GetOr(EmptyData).callback
    ensures !o.header && !o.separator ==>
              r.context == if o.context.Some? then o.context else Some(defaultContext)
    ensures o.header || o.separator ==> r.context == o.context
    ensures r.id == o.id && r.text == o.text && r.icon == o.icon && r.index == o.index
    ensures r.header == o.header && r.separator == o.separator
    ensures r.isCheckbox == o.isCheckbox && r.isRadio == o.isRadio
    ensures r.onSelect == o.onSelect && r.selected == o.selected
    ensures r.groupId == o.groupId && r.radioItems == o.radioItems
    ensures var d := o.data.GetOr(EmptyData);
            && r.data.value.dataType == d.dataType && r.data.value.onSelect == d.onSelect
            && r.data.value.selected == d.selected && r.data.value.groupId == d.groupId
  {
    var d0 := o.data.GetOr(EmptyData).(id := o.id);
    var moved := Truthy(o.status);
    var d1 := if moved then d0.(status := o.status) else d0;
    var o1 := o.(data := Some(d1), status := if moved then Absent else o.status);
    if o.header || o.separator then o1
    else
      var o2 := o1.(context := if o.context.Some? then o.context else Some(defaultContext));
      if o.isCheckbox || o.isRadio then o2
      else o2.(data := Some(d1.(callback := o.callback)), callback := DefaultCallback)
  }

  /** What `addCheckbox` turns its options into before calling `add`. */
  function CheckboxOptions(o: Options): Options {
    o.(icon := "checkbox", isCheckbox := true, callback := CheckboxCallback,
       data := Some(EmptyData.(dataType := CheckboxType, onSelect := o.onSelect, selected := o.selected)),
       onSelect := Absent, selected := Absent)
  }

  /** The item `addCheckbox` appends. */
  function CheckboxItem(o: Options, defaultContext: ObjRef): (r: Options)
    ensures r.isCheckbox && r.icon == "checkbox" && r.callback == CheckboxCallback
    ensures r.data.Some? && r.data.value.dataType == CheckboxType && r.data.value.id == o.id
    ensures r.data.value.onSelect == o.onSelect && r.data.value.selected == o.selected
    ensures r.onSelect == Absent && r.selected == Absent
    ensures !o.header && !o.separator ==>
              r.context == if o.context.Some? then o.context else Some(defaultContext)
    ensures r.id == o.id && r.text == o.text
  {
    Normalise(CheckboxOptions(o), defaultContext)
  }

  /** The options `addRadioGroup` builds for one entry of the group. */
  function RadioOptions(group: Options, e: RadioEntry): Options {
    Blank.(id := e.id, icon := "radio", text := e.text, isRadio := true, callback := RadioCallback,
           data := Some(EmptyData.(dataType := RadioType, groupId := group.groupId,
                                   onSelect := group.onSelect, selected := group.selected)))
  }

  /** The items `addRadioGroup` appends: one radio item per entry, in order,
      all sharing the group's id, `onSelect` and `selected`. */
  function RadioItems(group: Options, defaultContext: ObjRef): (r: seq<Options>)
    ensures |r| == |group.radioItems|
    ensures forall k :: 0 <= k < |r| ==>
              && r[k].isRadio && r[k].icon == "radio" && r[k].callback == RadioCallback
              && r[k].id == group.radioItems[k].id && r[k].text == group.radioItems[k].text
              && r[k].context == Some(defaultContext)
              && r[k].data.Some? && r[k].data.value.dataType == RadioType
              && r[k].data.value.id == group.radioItems[k].id
              && r[k].data.value.groupId == group.groupId
              && r[k].data.value.onSelect == group.onSelect
              && r[k].data.value.selected == group.selected
  {
    seq(|group.radioItems|, k requires 0 <= k < |group.radioItems| =>
      Normalise(RadioOptions(group, group.radioItems[k]), defaultContext))
  }

  /** The argument of `add`: the string '-', one options object, or an array
      of arguments (arrays may nest). */
  datatype Arg = Dash | One(options: Options) | Many(args: seq<Arg>)

  /** A non-array argument. */
  datatype Leaf = DashLeaf | OptionsLeaf(options: Options)

  /** The non-array arguments reached by `add`'s recursion, in call order. */
  function Leaves(a: Arg): seq<Leaf>
    decreases a
  {
    match a
    case Dash => [DashLeaf]
    case One(o) => [OptionsLeaf(o)]
    case Many(xs) => Concat(seq(|xs|, k requires 0 <= k < |xs| => Leaves(xs[k])))
  }

  /** The item appended for one non-array argument. */
  function ItemOf(l: Leaf, defaultContext: ObjRef): Options {
    match l
    case DashLeaf => Normalise(SeparatorOptions, defaultContext)
    case OptionsLeaf(o) => Normalise(o, defaultContext)
  }

  /** The items appended for a list of non-array arguments. */
  function ItemsOf(ls: seq<Leaf>, defaultContext: ObjRef): seq<Options> {
    seq(|ls|, k requires 0 <= k < |ls| => ItemOf(ls[k], defaultContext))
  }

  /** `add` on an array handles its elements one after another: adding the
      first k+1 elements appends what adding the first k appends, followed by
      what adding element k appends. */
  lemma {:induction false} AddArrayStep(xs: seq<Arg>, k: nat)
    requires k < |xs|
    ensures Leaves(Many(xs[..k + 1])) == Leaves(Many(xs[..k])) + Leaves(xs[k])
  {
    var front := xs[..k + 1];
    var parts := seq(|front|, j requires 0 <= j < |front| => Leaves(front[j]));
    var partsK := seq(|xs[..k]|, j requires 0 <= j < k => Leaves(xs[..k][j]));
    assert parts == partsK + [Leaves(xs[k])];
    ConcatAppend(partsK, Leaves(xs[k]));
  }

  /** Adding the array `xs + ys` is adding `xs` and then `ys`. */
  lemma {:induction false} AddArraySplit(xs: seq<Arg>, ys: seq<Arg>)
    ensures Leaves(Many(xs + ys)) == Leaves(Many(xs)) + Leaves(Many(ys))
  {
    var f := (zs: seq<Arg>) => seq(|zs|, j requires 0 <= j < |zs| => Leaves(zs[j]));
    assert f(xs + ys) == f(xs) + f(ys);
    assert Leaves(Many(xs + ys)) == Concat(f(xs + ys));
    assert Leaves(Many(xs)) == Concat(f(xs));
    assert Leaves(Many(ys)) == Concat(f(ys));
    ConcatSplit(f(xs), f(ys));
  }

  lemma ItemsOfAppend(ls: seq<Leaf>, ms: seq<Leaf>, c: ObjRef)
    ensures ItemsOf(ls + ms, c) == ItemsOf(ls, c) + ItemsOf(ms, c)
  {
  }

  /** `add('-')` appends exactly one item, and that item is a separator. */
  lemma AddDashIsOneSeparator(c: ObjRef)
    ensures |ItemsOf(Leaves(Dash), c)| == 1
    ensures ItemsOf(Leaves(Dash), c)[0].separator
    ensures ItemsOf(Leaves(Dash), c)[0].data == Some(EmptyData)
  {
  }

  /** `L.ContextmenuItems`: the list of items built so far and the context
      that items without their own context get. */
  class ContextmenuItems {
    var items: seq<Options>
    const defaultContext: ObjRef

    constructor (defaultContext: ObjRef)
      ensures items == [] && this.defaultContext == defaultContext
    {
      items := [];
      this.defaultContext := defaultContext;
    }

    /** The object branch of `add`. */
    method AddObject(o: Options)
      modifies this
      ensures items == old(items) + [Normalise(o, defaultContext)]
    {
      items := items + [Normalise(o, defaultContext)];
    }

    /** `add`: '-' appends a separator, an array adds each element in turn, an
        object is normalised and appended; nothing already in `items` moves. */
    method Add(arg: Arg)
      modifies this
      ensures items == old(items) + ItemsOf(Leaves(arg), defaultContext)
      decreases arg
    {
      match arg
      case Dash =>
        AddSeparator();
      case One(o) =>
        AddObject(o);
      case Many(xs) =>
        for k := 0 to |xs|
          invariant items == old(items) + ItemsOf(Leaves(Many(xs[..k])), defaultContext)
        {
          AddArrayStep(xs, k);
          ItemsOfAppend(Leaves(Many(xs[..k])), Leaves(xs[k]), defaultContext);
          Add(xs[k]);
        }
        assert xs[..|xs|] == xs;
    }

    /** `addCheckbox`. */
    method AddCheckbox(o: Options)
      modifies this
      ensures items == old(items) + [CheckboxItem(o, defaultContext)]
    {
      AddObject(CheckboxOptions(o));
    }

    /** `addRadioGroup`: one radio item per entry of the group, in order. */
    method AddRadioGroup(group: Options)
      modifies this
      ensures items == old(items) + RadioItems(group, defaultContext)
    {
      for k := 0 to |group.radioItems|
        invariant items == old(items) + RadioItems(group, defaultContext)[..k]
      {
        AddObject(RadioOptions(group, group.radioItems[k]));
        assert RadioItems(group, defaultContext)[..k + 1]
            == RadioItems(group, defaultContext)[..k] + [RadioItems(group, defaultContext)[k]];
      }
    }

    /** `addHeader`. */
    method AddHeader(text: string, icon: string)
      modifies this
      ensures items == old(items) + [Normalise(HeaderOptions(text, icon), defaultContext)]
    {
      AddObject(HeaderOptions(text, icon));
    }

    /** `addSeparator`. */
    method AddSeparator()
      modifies this
      ensures items == old(items) + [Normalise(SeparatorOptions, defaultContext)]
    {
      AddObject(SeparatorOptions);
    }
  }
}
